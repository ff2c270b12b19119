/**
  Joining path strings the POSIX way, as both Python's `os.path.join` and C++'s
  `std::filesystem::path::operator/` do it: an absolute right-hand side replaces
  the left; otherwise one '/' separates them unless the left is empty or already
  ends with one.
*/
module Paths {
  predicate IsAbsolute(p: string) {
    |p| > 0 && p[0] == '/'
  }

  predicate EndsWithSeparator(p: string) {
    |p| > 0 && p[|p| - 1] == '/'
  }

  function Join(a: string, b: string): string {
    if IsAbsolute(b) then b
    else if a == "" || EndsWithSeparator(a) then a + b
    else a + "/" + b
  }

  /** The joined path ends with the right-hand side and, unless that is absolute, starts with the
      left-hand side, with exactly one separator between them when the left is not empty and does
      not already end with one. */
  lemma JoinShape(a: string, b: string)
    ensures var r := Join(a, b);
      |b| <= |r| && r[|r| - |b|..] == b &&
      (!IsAbsolute(b) ==> |a| <= |r| && r[..|a|] == a) &&
      (!IsAbsolute(b) && a != "" && !EndsWithSeparator(a) ==> r == a + "/" + b)
  {
    var r := Join(a, b);
    if !IsAbsolute(b) && !(a == "" || EndsWithSeparator(a)) {
      assert r == a + ("/" + b);
    }
  }

  /** The index of the last `c` in `s`, or -1. */
  function LastIndex(s: string, c: char): (r: int)
    ensures -1 <= r < |s|
    ensures r >= 0 ==> s[r] == c
    ensures forall k :: r < k < |s| ==> s[k] != c
    decreases |s|
  {
    if |s| == 0 then -1 else if s[|s| - 1] == c then |s| - 1 else LastIndex(s[..|s| - 1], c)
  }
}
