/**
  The Conan hooks of the CI pipeline (tools/hooks/hook_fmu.py and
  tools/hooks/hook_testresults.py).  For the package named exactly "dds-fmu",
  `hook_fmu.pre_build` picks and creates the directory FMUs are copied to and
  stores it on the conanfile; `hook_fmu.post_build` scans the build folder for
  `.fmu` files and copies each into that directory; `hook_testresults.pre_build`
  picks and creates the directory for test output.

  The build folder is a finite tree of entries; the environment is a map; what
  the hooks do to the outside world (log lines, `mkdir`, `shutil.copy`) is
  recorded, in order, as a sequence of actions on the conanfile.
*/
module Hooks {
  import opened Wrappers
  import opened Paths

  /** An entry of a directory listing, as `os.scandir` reports it. */
  datatype Entry =
    | File(name: string)
    | Dir(name: string, children: seq<Entry>)
    | Other(name: string)  // neither `is_file()` nor `is_dir()`: a socket, a dangling link

  /** A path by its components: the scanned folder, then one entry name per level. */
  type Path = seq<string>

  /** The string Python builds for a path: `DirEntry.path` is `os.path.join` of the folder and the name. */
  function Render(p: Path): string
    decreases |p|
  {
    if |p| == 0 then ""
    else if |p| == 1 then p[0]
    else Join(Render(p[..|p| - 1]), p[|p| - 1])
  }

  function Basename(p: Path): string {
    if |p| == 0 then "" else p[|p| - 1]
  }

  // ---------------------------------------------------------------------------
  // Extension matching: `path.splitext(f.name)[1].lower() in ext`

  /** ASCII case folding; `str.lower()` on other letters is not part of this model. */
  function LowerChar(c: char): char {
    if 'A' <= c <= 'Z' then (c as int + 32) as char else c
  }

  function Lower(s: string): (r: string)
    ensures |r| == |s|
    ensures forall k :: 0 <= k < |s| ==> r[k] == LowerChar(s[k])
    decreases |s|
  {
    if |s| == 0 then "" else Lower(s[..|s| - 1]) + [LowerChar(s[|s| - 1])]
  }

  predicate AllDots(s: string) {
    forall k :: 0 <= k < |s| ==> s[k] == '.'
  }

  /** `os.path.splitext(name)[1]` of a name without separators: from the last '.' to the end,
      unless only dots come before that '.' (".profile" has no extension). */
  function SplitExt(name: string): (e: string)
    ensures e == "" || e[0] == '.'
  {
    var d := LastIndex(name, '.');
    if d < 0 || AllDots(name[..d]) then "" else name[d..]
  }

  predicate Matches(name: string, ext: seq<string>) {
    Lower(SplitExt(name)) in ext
  }

  /** The extension of a name is what follows its last '.', whenever something other than a dot precedes it. */
  lemma SplitExtOf(stem: string, e: string)
    requires !AllDots(stem) && '.' !in e
    ensures SplitExt(stem + "." + e) == "." + e
  {
    var name := stem + "." + e;
    assert name[|stem|] == '.';
    assert forall k :: |stem| < k < |name| ==> name[k] == e[k - |stem| - 1];
    var d := LastIndex(name, '.');
    assert d == |stem|;
    assert name[..d] == stem;
    assert name[d..] == "." + e;
  }

  /** A name made of dots and then one more extension-free part has no extension (".fmu" is not an FMU). */
  lemma LeadingDotsNoExtension(dots: string, e: string)
    requires AllDots(dots) && '.' !in e
    ensures SplitExt(dots + "." + e) == ""
  {
    var name := dots + "." + e;
    assert forall k :: |dots| < k < |name| ==> name[k] == e[k - |dots| - 1];
    var d := LastIndex(name, '.');
    assert name[|dots|] == '.';
    assert d == |dots|;
    assert name[..d] == dots;
  }

  /** Only the extension is lower-cased before the comparison: "x.FMU" is found by [".fmu"]. */
  lemma UpperCaseExtensionMatches(stem: string)
    requires !AllDots(stem)
    ensures Matches(stem + ".FMU", [".fmu"])
  {
    SplitExtOf(stem, "FMU");
    assert stem + ".FMU" == stem + "." + "FMU";
    assert Lower(".FMU") == ".fmu";
  }


  // ---------------------------------------------------------------------------
  // run_fast_scandir as a function

  /** What the scan collects from one listing: its directories (`wantDir`), or its files whose
      extension, lower-cased, is one of `ext`. */
  predicate Target(e: Entry, ext: seq<string>, wantDir: bool) {
    if wantDir then e.Dir? else e.File? && Matches(e.name, ext)
  }

  /** The entries of a listing that `Target` selects, in scan order. */
  function Keep(es: seq<Entry>, ext: seq<string>, wantDir: bool): (ks: seq<Entry>)
    ensures forall k :: 0 <= k < |ks| ==> Target(ks[k], ext, wantDir)
    decreases |es|
  {
    if |es| == 0 then []
    else Keep(es[..|es| - 1], ext, wantDir) + (if Target(es[|es| - 1], ext, wantDir) then [es[|es| - 1]] else [])
  }

  /** `f.path` of each listed entry. */
  function PathsOf(dir: Path, ds: seq<Entry>): (ps: seq<Path>)
    ensures |ps| == |ds|
  {
    seq(|ds|, k requires 0 <= k < |ds| => dir + [ds[k].name])
  }

  /** The number of entries in a tree, which bounds the recursion. */
  function Weight(e: Entry): nat {
    match e
    case Dir(_, ch) => 1 + WeightAll(ch)
    case _ => 1
  }

  function WeightAll(es: seq<Entry>): nat
    decreases es
  {
    if |es| == 0 then 0 else WeightAll(es[..|es| - 1]) + Weight(es[|es| - 1])
  }

  lemma WeightLast(ds: seq<Entry>)
    requires |ds| > 0
    ensures WeightAll(ds) == WeightAll(ds[..|ds| - 1]) + Weight(ds[|ds| - 1])
    ensures Weight(ds[|ds| - 1]) >= 1
    ensures ds[|ds| - 1].Dir? ==> Weight(ds[|ds| - 1]) == 1 + WeightAll(ds[|ds| - 1].children)
  {
  }

  lemma {:induction false} KeepWeight(es: seq<Entry>, ext: seq<string>, wantDir: bool)
    ensures WeightAll(Keep(es, ext, wantDir)) <= WeightAll(es)
    decreases |es|
  {
    if |es| > 0 {
      var n := |es| - 1;
      KeepWeight(es[..n], ext, wantDir);
      WeightLast(es);
      var ks := Keep(es, ext, wantDir);
      if Target(es[n], ext, wantDir) {
        WeightLast(ks);
        assert ks[..|ks| - 1] == Keep(es[..n], ext, wantDir);
      } else {
        assert ks == Keep(es[..n], ext, wantDir);
      }
    }
  }

  lemma WeightOfDir(d: Entry)
    requires d.Dir?
    ensures Weight(d) == 1 + WeightAll(d.children)
  {
  }

  lemma {:induction false} ElementWeight(ds: seq<Entry>, j: nat)
    requires j < |ds|
    ensures Weight(ds[j]) <= WeightAll(ds)
    decreases |ds|
  {
    WeightLast(ds);
    if j < |ds| - 1 {
      ElementWeight(ds[..|ds| - 1], j);
    }
  }

  /** `run_fast_scandir(dir, ext)`: the directories and the matching files of the listing itself, in
      scan order, then, for each of its directories in scan order, what the recursion on it returns. */
  function Scan(dir: Path, es: seq<Entry>, ext: seq<string>): (seq<Path>, seq<Path>)
    decreases WeightAll(es), 1
  {
    var ds := Keep(es, ext, true);
    KeepWeight(es, ext, true);
    var rest := ScanList(dir, ds, ext);
    (PathsOf(dir, ds) + rest.0, PathsOf(dir, Keep(es, ext, false)) + rest.1)
  }

  /** The second loop: the recursion on each directory of `ds`, concatenated in order. */
  function ScanList(dir: Path, ds: seq<Entry>, ext: seq<string>): (seq<Path>, seq<Path>)
    requires forall k :: 0 <= k < |ds| ==> ds[k].Dir?
    decreases WeightAll(ds), 0
  {
    if |ds| == 0 then ([], [])
    else
      var n := |ds| - 1;
      WeightLast(ds);
      var pre := ScanList(dir, ds[..n], ext);
      var sub := Scan(dir + [ds[n].name], ds[n].children, ext);
      (pre.0 + sub.0, pre.1 + sub.1)
  }

  // ---------------------------------------------------------------------------
  // What the scan finds, independently of the order

  /** `rel` leads, one name per level, from the listing `es` to what `Target` selects. */
  predicate At(es: seq<Entry>, rel: seq<string>, ext: seq<string>, wantDir: bool)
    decreases |rel|
  {
    if |rel| == 1 then
      exists e :: e in es && e.name == rel[0] && Target(e, ext, wantDir)
    else
      |rel| > 1 && exists e :: e in es && e.Dir? && e.name == rel[0] && At(e.children, rel[1..], ext, wantDir)
  }

  /** A path below `dir` that `At` reaches from the listing `es` of `dir`. */
  predicate Below(dir: Path, es: seq<Entry>, p: Path, ext: seq<string>, wantDir: bool) {
    |p| > |dir| && p[..|dir|] == dir && At(es, p[|dir|..], ext, wantDir)
  }

  /** A path at least two levels below `dir` that `At` reaches through one of the directories `ds`. */
  predicate Deep(dir: Path, ds: seq<Entry>, p: Path, ext: seq<string>, wantDir: bool) {
    |p| > |dir| + 1 && p[..|dir|] == dir &&
    exists d :: d in ds && d.Dir? && d.name == p[|dir|] && At(d.children, p[|dir| + 1..], ext, wantDir)
  }

  function Pick(r: (seq<Path>, seq<Path>), wantDir: bool): seq<Path> {
    if wantDir then r.0 else r.1
  }

  lemma {:induction false} KeepMember(es: seq<Entry>, ext: seq<string>, wantDir: bool, e: Entry)
    ensures e in Keep(es, ext, wantDir) <==> e in es && Target(e, ext, wantDir)
    decreases |es|
  {
    if |es| > 0 {
      KeepMember(es[..|es| - 1], ext, wantDir, e);
      assert es == es[..|es| - 1] + [es[|es| - 1]];
    }
  }

  lemma PathsMember(dir: Path, xs: seq<Entry>, p: Path)
    ensures p in PathsOf(dir, xs) <==> exists x :: x in xs && p == dir + [x.name]
  {
    var ps := PathsOf(dir, xs);
    if p in ps {
      var j :| 0 <= j < |ps| && ps[j] == p;
      assert xs[j] in xs;
    }
    if exists x :: x in xs && p == dir + [x.name] {
      var x :| x in xs && p == dir + [x.name];
      var j :| 0 <= j < |xs| && xs[j] == x;
      assert ps[j] == p;
    }
  }

  /** The listing's own part holds exactly the paths one level below `dir` that `At` reaches. */
  lemma OwnAt(dir: Path, es: seq<Entry>, ext: seq<string>, wantDir: bool, p: Path)
    ensures p in PathsOf(dir, Keep(es, ext, wantDir)) <==> |p| == |dir| + 1 && Below(dir, es, p, ext, wantDir)
  {
    var ks := Keep(es, ext, wantDir);
    PathsMember(dir, ks, p);
    if p in PathsOf(dir, ks) {
      var x :| x in ks && p == dir + [x.name];
      KeepMember(es, ext, wantDir, x);
      assert p[..|dir|] == dir && p[|dir|..] == [x.name];
    }
    if |p| == |dir| + 1 && Below(dir, es, p, ext, wantDir) {
      var rel := p[|dir|..];
      var e :| e in es && e.name == rel[0] && Target(e, ext, wantDir);
      KeepMember(es, ext, wantDir, e);
      assert p == p[..|dir|] + rel;
      assert p == dir + [e.name];
    }
  }

  /** Below a child directory is two levels below its parent, through that child. */
  lemma BelowChild(dir: Path, d: Entry, p: Path, ext: seq<string>, wantDir: bool)
    requires d.Dir?
    ensures Below(dir + [d.name], d.children, p, ext, wantDir) <==>
      |p| > |dir| + 1 && p[..|dir|] == dir && p[|dir|] == d.name && At(d.children, p[|dir| + 1..], ext, wantDir)
  {
    var sub := dir + [d.name];
    if |p| > |sub| {
      if p[..|sub|] == sub {
        assert p[..|dir|] == sub[..|dir|] == dir;
        assert p[|dir|] == p[..|sub|][|dir|];
      }
      if p[..|dir|] == dir && p[|dir|] == d.name {
        assert p[..|sub|] == p[..|dir|] + [p[|dir|]];
      }
    }
  }

  /** Reaching through one of `ds` is reaching through one of its prefix or through its last. */
  lemma DeepLast(dir: Path, ds: seq<Entry>, p: Path, ext: seq<string>, wantDir: bool)
    requires |ds| > 0 && ds[|ds| - 1].Dir?
    ensures Deep(dir, ds, p, ext, wantDir) <==>
      Deep(dir, ds[..|ds| - 1], p, ext, wantDir) || Below(dir + [ds[|ds| - 1].name], ds[|ds| - 1].children, p, ext, wantDir)
  {
    var n := |ds| - 1;
    var d := ds[n];
    BelowChild(dir, d, p, ext, wantDir);
    assert ds == ds[..n] + [d];
    if Deep(dir, ds, p, ext, wantDir) {
      var x :| x in ds && x.Dir? && x.name == p[|dir|] && At(x.children, p[|dir| + 1..], ext, wantDir);
      if x != d {
        assert x in ds[..n];
      }
    }
    if Deep(dir, ds[..n], p, ext, wantDir) {
      var x :| x in ds[..n] && x.Dir? && x.name == p[|dir|] && At(x.children, p[|dir| + 1..], ext, wantDir);
      assert x in ds;
    }
  }

  /** The recursion on the directories `ds` finds exactly the paths at least two levels below
      `dir` that `At` reaches through one of them. */
  lemma {:induction false} ScanListAt(dir: Path, ds: seq<Entry>, ext: seq<string>, wantDir: bool, p: Path)
    requires forall k :: 0 <= k < |ds| ==> ds[k].Dir?
    ensures p in Pick(ScanList(dir, ds, ext), wantDir) <==> Deep(dir, ds, p, ext, wantDir)
    decreases WeightAll(ds), 0
  {
    if |ds| > 0 {
      var n := |ds| - 1;
      var d := ds[n];
      WeightLast(ds);
      ScanListAt(dir, ds[..n], ext, wantDir, p);
      ScanAt(dir + [d.name], d.children, ext, wantDir, p);
      DeepLast(dir, ds, p, ext, wantDir);
      assert Pick(ScanList(dir, ds, ext), wantDir)
          == Pick(ScanList(dir, ds[..n], ext), wantDir) + Pick(Scan(dir + [d.name], d.children, ext), wantDir);
    }
  }

  /**
    `run_fast_scandir` is complete and exact: its files are the matching files anywhere below
    `dir`, and its subfolders are all the directories anywhere below it.
  */
  lemma {:induction false} ScanAt(dir: Path, es: seq<Entry>, ext: seq<string>, wantDir: bool, p: Path)
    ensures p in Pick(Scan(dir, es, ext), wantDir) <==> Below(dir, es, p, ext, wantDir)
    decreases WeightAll(es), 1
  {
    var ks := Keep(es, ext, true);
    KeepWeight(es, ext, true);
    OwnAt(dir, es, ext, wantDir, p);
    ScanListAt(dir, ks, ext, wantDir, p);
    assert Pick(Scan(dir, es, ext), wantDir)
        == PathsOf(dir, Keep(es, ext, wantDir)) + Pick(ScanList(dir, ks, ext), wantDir);
    if |p| > |dir| + 1 && p[..|dir|] == dir {
      var rel := p[|dir|..];
      assert rel[0] == p[|dir|] && rel[1..] == p[|dir| + 1..];
      if At(es, rel, ext, wantDir) {
        var e :| e in es && e.Dir? && e.name == rel[0] && At(e.children, rel[1..], ext, wantDir);
        KeepMember(es, ext, true, e);
      }
      if Deep(dir, ks, p, ext, wantDir) {
        var d :| d in ks && d.Dir? && d.name == p[|dir|] && At(d.children, p[|dir| + 1..], ext, wantDir);
        KeepMember(es, ext, true, d);
      }
    }
  }

  // ---------------------------------------------------------------------------
  // Nothing is reported twice

  /** The names within one listing differ, as in a file system. */
  predicate UniqueNames(es: seq<Entry>) {
    forall i, j :: 0 <= i < j < |es| ==> es[i].name != es[j].name
  }

  /** Every listing of the tree has unique names. */
  predicate WellFormed(es: seq<Entry>)
    decreases es
  {
    UniqueNames(es) && forall e :: e in es && e.Dir? ==> WellFormed(e.children)
  }

  predicate Distinct(ps: seq<Path>) {
    forall i, j :: 0 <= i < j < |ps| ==> ps[i] != ps[j]
  }

  lemma DistinctConcat(a: seq<Path>, b: seq<Path>)
    requires Distinct(a) && Distinct(b)
    requires forall p :: p in a ==> p !in b
    ensures Distinct(a + b)
  {
    forall i, j | 0 <= i < j < |a + b| ensures (a + b)[i] != (a + b)[j] {
      if i < |a| && j >= |a| {
        assert (a + b)[i] in a && (a + b)[j] == b[j - |a|];
      }
    }
  }

  lemma {:induction false} OwnDistinct(dir: Path, es: seq<Entry>, ext: seq<string>, wantDir: bool)
    requires UniqueNames(es)
    ensures Distinct(PathsOf(dir, Keep(es, ext, wantDir)))
    decreases |es|
  {
    if |es| > 0 {
      var n := |es| - 1;
      var pre := es[..n];
      UniquePrefix(es, n);
      OwnDistinct(dir, pre, ext, wantDir);
      var ks := Keep(pre, ext, wantDir);
      if Target(es[n], ext, wantDir) {
        PathsAppend(dir, ks, es[n]);
        var q := dir + [es[n].name];
        LastPathFresh(dir, es, ext, wantDir);
        DistinctConcat(PathsOf(dir, ks), [q]);
        assert Keep(es, ext, wantDir) == ks + [es[n]];
      } else {
        assert Keep(es, ext, wantDir) == ks;
      }
    }
  }

  /** With unique names, the last entry's path is none of the paths kept from the ones before it. */
  lemma LastPathFresh(dir: Path, es: seq<Entry>, ext: seq<string>, wantDir: bool)
    requires UniqueNames(es) && |es| > 0
    ensures dir + [es[|es| - 1].name] !in PathsOf(dir, Keep(es[..|es| - 1], ext, wantDir))
  {
    var n := |es| - 1;
    var pre := es[..n];
    var ks := Keep(pre, ext, wantDir);
    var q := dir + [es[n].name];
    forall p | p in PathsOf(dir, ks) ensures p != q {
      PathsMember(dir, ks, p);
      var x :| x in ks && p == dir + [x.name];
      KeepMember(pre, ext, wantDir, x);
      var k :| 0 <= k < n && pre[k] == x;
      assert es[k] == x;
      assert p[|dir|] == x.name && q[|dir|] == es[n].name;
    }
  }

  /** What the scan returns lies below the scanned folder. */
  lemma ScanBelow(dir: Path, es: seq<Entry>, ext: seq<string>, wantDir: bool, p: Path)
    requires p in Pick(Scan(dir, es, ext), wantDir)
    ensures |p| > |dir| && p[..|dir|] == dir
  {
    ScanAt(dir, es, ext, wantDir, p);
  }

  lemma UniquePrefix(es: seq<Entry>, n: nat)
    requires UniqueNames(es) && n <= |es|
    ensures UniqueNames(es[..n])
  {
    var pre := es[..n];
    forall i, j | 0 <= i < j < |pre| ensures pre[i].name != pre[j].name {
      assert pre[i] == es[i] && pre[j] == es[j];
    }
  }

  /** What the scan of a child directory returns lies below that child. */
  lemma ScanBelowChild(dir: Path, name: string, children: seq<Entry>, ext: seq<string>, wantDir: bool, p: Path)
    requires p in Pick(Scan(dir + [name], children, ext), wantDir)
    ensures |p| > |dir| + 1 && p[|dir|] == name
  {
    var sub := dir + [name];
    ScanBelow(sub, children, ext, wantDir, p);
    assert p[|dir|] == p[..|sub|][|dir|];
  }

  /** What the recursion finds through earlier directories differs from what it finds through
      the last one, whose name none of them has. */
  lemma ScanListDisjoint(dir: Path, ds: seq<Entry>, ext: seq<string>, wantDir: bool, p: Path)
    requires |ds| > 0 && forall k :: 0 <= k < |ds| ==> ds[k].Dir?
    requires UniqueNames(ds)
    requires p in Pick(ScanList(dir, ds[..|ds| - 1], ext), wantDir)
    ensures p !in Pick(Scan(dir + [ds[|ds| - 1].name], ds[|ds| - 1].children, ext), wantDir)
  {
    var n := |ds| - 1;
    var pre := ds[..n];
    ScanListAt(dir, pre, ext, wantDir, p);
    var x :| x in pre && x.Dir? && x.name == p[|dir|] && At(x.children, p[|dir| + 1..], ext, wantDir);
    var k :| 0 <= k < n && pre[k] == x;
    assert ds[k].name != ds[n].name;
    if p in Pick(Scan(dir + [ds[n].name], ds[n].children, ext), wantDir) {
      ScanBelowChild(dir, ds[n].name, ds[n].children, ext, wantDir, p);
      assert false;
    }
  }

  lemma {:induction false} ScanListDistinct(dir: Path, ds: seq<Entry>, ext: seq<string>, wantDir: bool)
    requires forall k :: 0 <= k < |ds| ==> ds[k].Dir?
    requires UniqueNames(ds) && forall d :: d in ds ==> WellFormed(d.children)
    ensures Distinct(Pick(ScanList(dir, ds, ext), wantDir))
    decreases WeightAll(ds), 0
  {
    if |ds| > 0 {
      var n := |ds| - 1;
      var d := ds[n];
      WeightLast(ds);
      UniquePrefix(ds, n);
      ScanListDistinct(dir, ds[..n], ext, wantDir);
      ScanDistinct(dir + [d.name], d.children, ext, wantDir);
      var a := Pick(ScanList(dir, ds[..n], ext), wantDir);
      var b := Pick(Scan(dir + [d.name], d.children, ext), wantDir);
      forall p | p in a ensures p !in b {
        ScanListDisjoint(dir, ds, ext, wantDir, p);
      }
      DistinctConcat(a, b);
      assert Pick(ScanList(dir, ds, ext), wantDir) == a + b;
    }
  }

  /** In a tree whose listings have unique names, `run_fast_scandir` reports no path twice:
      the recursion runs over a copy of the subfolders found so far. */
  lemma {:induction false} ScanDistinct(dir: Path, es: seq<Entry>, ext: seq<string>, wantDir: bool)
    requires WellFormed(es)
    ensures Distinct(Pick(Scan(dir, es, ext), wantDir))
    decreases WeightAll(es), 1
  {
    var ks := Keep(es, ext, true);
    KeepWeight(es, ext, true);
    OwnDistinct(dir, es, ext, wantDir);
    assert UniqueNames(ks) && forall d :: d in ks ==> WellFormed(d.children) by {
      OwnDistinctNames(es, ext);
      forall d | d in ks ensures WellFormed(d.children) {
        KeepMember(es, ext, true, d);
      }
    }
    ScanListDistinct(dir, ks, ext, wantDir);
    var a := PathsOf(dir, Keep(es, ext, wantDir));
    var b := Pick(ScanList(dir, ks, ext), wantDir);
    forall p | p in a ensures p !in b {
      OwnAt(dir, es, ext, wantDir, p);
      if p in b {
        ScanListAt(dir, ks, ext, wantDir, p);
        assert false;
      }
    }
    DistinctConcat(a, b);
    assert Pick(Scan(dir, es, ext), wantDir) == a + b;
  }

  /** Selecting entries keeps their names unique. */
  lemma {:induction false} OwnDistinctNames(es: seq<Entry>, ext: seq<string>)
    requires UniqueNames(es)
    ensures UniqueNames(Keep(es, ext, true))
    decreases |es|
  {
    if |es| > 0 {
      var n := |es| - 1;
      var pre := es[..n];
      UniquePrefix(es, n);
      OwnDistinctNames(pre, ext);
      var ks := Keep(pre, ext, true);
      if es[n].Dir? {
        var ks2 := ks + [es[n]];
        forall i, j | 0 <= i < j < |ks2| ensures ks2[i].name != ks2[j].name {
          if j == |ks| {
            KeepMember(pre, ext, true, ks[i]);
            var k :| 0 <= k < n && pre[k] == ks[i];
            assert es[k] == ks[i];
          } else {
            assert ks2[i] == ks[i] && ks2[j] == ks[j];
          }
        }
      }
    }
  }

  // ---------------------------------------------------------------------------
  // run_fast_scandir as the source writes it

  lemma KeepStep(es: seq<Entry>, ext: seq<string>, wantDir: bool, i: nat)
    requires i < |es|
    ensures Keep(es[..i + 1], ext, wantDir) == Keep(es[..i], ext, wantDir) + (if Target(es[i], ext, wantDir) then [es[i]] else [])
  {
    assert es[..i + 1][..i] == es[..i];
  }

  lemma PathsAppend(dir: Path, xs: seq<Entry>, x: Entry)
    ensures PathsOf(dir, xs + [x]) == PathsOf(dir, xs) + [dir + [x.name]]
  {
  }

  lemma ScanListStep(dir: Path, ds: seq<Entry>, ext: seq<string>, j: nat)
    requires forall k :: 0 <= k < |ds| ==> ds[k].Dir?
    requires j < |ds|
    ensures ScanList(dir, ds[..j + 1], ext) ==
      (ScanList(dir, ds[..j], ext).0 + Scan(dir + [ds[j].name], ds[j].children, ext).0,
       ScanList(dir, ds[..j], ext).1 + Scan(dir + [ds[j].name], ds[j].children, ext).1)
  {
    assert ds[..j + 1][..j] == ds[..j];
  }

  /** The first loop of `run_fast_scandir`: the paths of the listing's directories, the
      directories themselves, and the paths of its matching files. */
  method ListLevel(dir: Path, es: seq<Entry>, ext: seq<string>) returns (subfolders: seq<Path>, dirs: seq<Entry>, files: seq<Path>)
    ensures dirs == Keep(es, ext, true) && subfolders == PathsOf(dir, dirs)
    ensures files == PathsOf(dir, Keep(es, ext, false))
  {
    subfolders, dirs, files := [], [], [];
    var i := 0;
    while i < |es|
      invariant 0 <= i <= |es|
      invariant dirs == Keep(es[..i], ext, true) && subfolders == PathsOf(dir, dirs)
      invariant files == PathsOf(dir, Keep(es[..i], ext, false))
    {
      KeepStep(es, ext, true, i);
      KeepStep(es, ext, false, i);
      var f := es[i];
      if f.Dir? {
        PathsAppend(dir, dirs, f);
        subfolders := subfolders + [dir + [f.name]];
        dirs := dirs + [f];
      }
      if f.File? && Matches(f.name, ext) {
        PathsAppend(dir, Keep(es[..i], ext, false), f);
        files := files + [dir + [f.name]];
      }
      i := i + 1;
    }
    assert es[..i] == es;
  }

  /** `run_fast_scandir(dir, ext)`, on the listing `es` of `dir`. */
  method RunFastScandir(dir: Path, es: seq<Entry>, ext: seq<string>) returns (subfolders: seq<Path>, files: seq<Path>)
    ensures (subfolders, files) == Scan(dir, es, ext)
    decreases WeightAll(es)
  {
    var dirs;
    subfolders, dirs, files := ListLevel(dir, es, ext);
    KeepWeight(es, ext, true);
    // `for dir in list(subfolders)`: the loop runs over a copy, so what it appends does not feed it.
    var snapshot := subfolders;
    var own := files;
    var j := 0;
    ghost var acc := ScanList(dir, dirs[..0], ext);
    while j < |snapshot|
      invariant 0 <= j <= |snapshot| == |dirs|
      invariant acc == ScanList(dir, dirs[..j], ext)
      invariant subfolders == snapshot + acc.0 && files == own + acc.1
    {
      var d := dirs[j];
      assert WeightAll(d.children) < WeightAll(es) by {
        ElementWeight(dirs, j);
        WeightOfDir(d);
      }
      ScanListStep(dir, dirs, ext, j);
      var sf, fs := RunFastScandir(snapshot[j], d.children, ext);
      ConcatAssoc(snapshot, acc.0, sf);
      ConcatAssoc(own, acc.1, fs);
      acc := (acc.0 + sf, acc.1 + fs);
      subfolders := subfolders + sf;
      files := files + fs;
      j := j + 1;
    }
    assert dirs[..j] == dirs;
  }

  // ---------------------------------------------------------------------------
  // The conanfile the hooks receive

  /** What a hook does to the world outside the conanfile, in order. */
  datatype Action =
    | Info(line: string)                                // conanfile.output.info
    | MakeDir(path: string)                             // conan.tools.files.mkdir
    | CopyFile(source: Path, destination: string)       // shutil.copy

  /** How a hook ends: normally, or by the exception it raises. */
  datatype HookOutcome = Done | AssertionError | AttributeError(attribute: string)

  /** The part of a conanfile the hooks change. */
  datatype Conan = Conan(fmuInstallDestination: Option<string>, testOutputDestination: Option<string>, actions: seq<Action>)

  const TargetPackage := "dds-fmu"
  const CiProjectDir := "CI_PROJECT_DIR"
  const FmuAttribute := "fmu_install_destination"

  class ConanFile {
    const name: string
    const recipeFolder: string
    const buildFolder: string
    /** What the build folder holds when `post_build` runs. */
    const buildTree: seq<Entry>
    /** None until a hook sets the attribute. */
    var fmuInstallDestination: Option<string>
    var testOutputDestination: Option<string>
    var actions: seq<Action>

    function State(): Conan
      reads this
    {
      Conan(fmuInstallDestination, testOutputDestination, actions)
    }

    constructor(name: string, recipeFolder: string, buildFolder: string, buildTree: seq<Entry>)
      ensures this.name == name && this.recipeFolder == recipeFolder
      ensures this.buildFolder == buildFolder && this.buildTree == buildTree
      ensures State() == Conan(None, None, [])
    {
      this.name := name;
      this.recipeFolder := recipeFolder;
      this.buildFolder := buildFolder;
      this.buildTree := buildTree;
      fmuInstallDestination := None;
      testOutputDestination := None;
      actions := [];
    }

    method Record(a: Action)
      modifies this
      ensures State() == old(State()).(actions := old(actions) + [a])
    {
      actions := actions + [a];
    }
  }

  /** The directory `sub` of `$CI_PROJECT_DIR` when that variable is set and not empty, else of the recipe folder. */
  function Destination(env: map<string, string>, recipeFolder: string, sub: string): string {
    if CiProjectDir in env && env[CiProjectDir] != "" then Join(env[CiProjectDir], sub) else Join(recipeFolder, sub)
  }

  function SettingUpLine(d: string): string {
    "Setting up build so that fmus will be copied to '" + d + "'"
  }

  function CopiedLine(f: Path, d: string): string {
    "Copied " + Render(f) + " to " + d
  }

  function SkippingLine(name: string): string {
    "Package " + name + " is not target package " + TargetPackage + ", skipping"
  }

  function TestOutputLine(d: string): string {
    "Test output files will be copied to '" + d + "'"
  }

  /** `hook_fmu.pre_build` on a conanfile that is there. */
  function FmuPreBuildSpec(name: string, recipeFolder: string, env: map<string, string>, s: Conan): Conan {
    if name != TargetPackage then s
    else
      var d := Destination(env, recipeFolder, "fmus");
      s.(actions := s.actions + [Info(SettingUpLine(d)), MakeDir(d)], fmuInstallDestination := Some(d))
  }

  /** The copy loop of `hook_fmu.post_build`: copy, then log, for each file in order. */
  function Copies(files: seq<Path>, d: string): seq<Action>
    decreases |files|
  {
    if |files| == 0 then []
    else
      var f := files[|files| - 1];
      Copies(files[..|files| - 1], d) + [CopyFile(f, d), Info(CopiedLine(f, d))]
  }

  /** `hook_fmu.post_build`, where `found` is the list of files the scan of the build folder returns. */
  function FmuPostBuildSpec(name: string, found: seq<Path>, s: Conan): (Conan, HookOutcome) {
    if name != TargetPackage then (s, Done)
    else
      match s.fmuInstallDestination
      case None => (s, AttributeError(FmuAttribute))
      case Some(d) =>
        if d == "" then (s, Done)
        else (s.(actions := s.actions + Copies(found, d)), Done)
  }

  /** `hook_testresults.pre_build` on a conanfile that is there. */
  function TestResultsPreBuildSpec(name: string, recipeFolder: string, env: map<string, string>, s: Conan): Conan {
    if name != TargetPackage then s.(actions := s.actions + [Info(SkippingLine(name))])
    else
      var d := Destination(env, recipeFolder, "testoutput");
      s.(actions := s.actions + [Info(TestOutputLine(d)), MakeDir(d)], testOutputDestination := Some(d))
  }

  /** `hook_fmu.pre_build`: `assert conanfile` fails on no conanfile. */
  method FmuPreBuild(c: ConanFile?, env: map<string, string>) returns (outcome: HookOutcome)
    modifies c
    ensures c == null ==> outcome == AssertionError
    ensures c != null ==> outcome == Done && c.State() == FmuPreBuildSpec(c.name, c.recipeFolder, env, old(c.State()))
  {
    if c == null {
      return AssertionError;
    }
    outcome := Done;
    if c.name != TargetPackage {
      return;
    }
    var d := Destination(env, c.recipeFolder, "fmus");
    ghost var s0 := c.State();
    c.Record(Info(SettingUpLine(d)));
    c.Record(MakeDir(d));
    assert c.State() == s0.(actions := s0.actions + [Info(SettingUpLine(d)), MakeDir(d)]);
    c.fmuInstallDestination := Some(d);
  }

  /** `hook_fmu.post_build`. */
  method FmuPostBuild(c: ConanFile) returns (outcome: HookOutcome)
    modifies c
    ensures (c.State(), outcome) == FmuPostBuildSpec(c.name, Scan([c.buildFolder], c.buildTree, [".fmu"]).1, old(c.State()))
  {
    if c.name != TargetPackage {
      return Done;
    }
    if c.fmuInstallDestination.None? {
      return AttributeError(FmuAttribute);
    }
    outcome := Done;
    var d := c.fmuInstallDestination.value;
    if d != "" {
      var subfolders, files := RunFastScandir([c.buildFolder], c.buildTree, [".fmu"]);
      CopyAll(c, files, d);
    }
  }

  /** The copy loop of `hook_fmu.post_build`. */
  method CopyAll(c: ConanFile, files: seq<Path>, d: string)
    modifies c
    ensures c.State() == old(c.State()).(actions := old(c.actions) + Copies(files, d))
  {
    var i := 0;
    while i < |files|
      invariant 0 <= i <= |files|
      invariant c.State() == old(c.State()).(actions := old(c.actions) + Copies(files[..i], d))
    {
      assert files[..i + 1][..i] == files[..i];
      c.Record(CopyFile(files[i], d));
      c.Record(Info(CopiedLine(files[i], d)));
      i := i + 1;
    }
    assert files[..i] == files;
  }

  /** `hook_testresults.pre_build`: `assert conanfile` fails on no conanfile. */
  method TestResultsPreBuild(c: ConanFile?, env: map<string, string>) returns (outcome: HookOutcome)
    modifies c
    ensures c == null ==> outcome == AssertionError
    ensures c != null ==> outcome == Done && c.State() == TestResultsPreBuildSpec(c.name, c.recipeFolder, env, old(c.State()))
  {
    if c == null {
      return AssertionError;
    }
    outcome := Done;
    if c.name != TargetPackage {
      c.Record(Info(SkippingLine(c.name)));
    }
    if c.name != TargetPackage {
      return;
    }
    var d := Destination(env, c.recipeFolder, "testoutput");
    ghost var s0 := c.State();
    c.Record(Info(TestOutputLine(d)));
    c.Record(MakeDir(d));
    assert c.State() == s0.(actions := s0.actions + [Info(TestOutputLine(d)), MakeDir(d)]);
    c.testOutputDestination := Some(d);
  }

  // ---------------------------------------------------------------------------
  // What the hooks achieve

  /** The sources copied into `d`, in order. */
  function CopiedTo(acts: seq<Action>, d: string): seq<Path>
    decreases |acts|
  {
    if |acts| == 0 then []
    else
      var a := acts[|acts| - 1];
      CopiedTo(acts[..|acts| - 1], d) + (if a.CopyFile? && a.destination == d then [a.source] else [])
  }

  /** What `d` holds after the copies: `shutil.copy` into a directory keeps the basename, so a
      later file with the same name replaces an earlier one. */
  function Installed(acts: seq<Action>, d: string): map<string, Path>
    decreases |acts|
  {
    if |acts| == 0 then map[]
    else
      var m := Installed(acts[..|acts| - 1], d);
      var a := acts[|acts| - 1];
      if a.CopyFile? && a.destination == d then m[Basename(a.source) := a.source] else m
  }

  lemma CopiesAppend(a: seq<Action>, f: Path, d: string)
    ensures CopiedTo(a + [CopyFile(f, d), Info(CopiedLine(f, d))], d) == CopiedTo(a, d) + [f]
    ensures Installed(a + [CopyFile(f, d), Info(CopiedLine(f, d))], d) == Installed(a, d)[Basename(f) := f]
  {
    var a1 := a + [CopyFile(f, d)];
    var a2 := a1 + [Info(CopiedLine(f, d))];
    assert a + [CopyFile(f, d), Info(CopiedLine(f, d))] == a2;
    assert a2[..|a2| - 1] == a1 && a2[|a2| - 1] == Info(CopiedLine(f, d));
    assert a1[..|a1| - 1] == a && a1[|a1| - 1] == CopyFile(f, d);
    assert CopiedTo(a2, d) == CopiedTo(a1, d);
    assert Installed(a2, d) == Installed(a1, d);
  }

  /** The copy loop copies every file it is given into `d`, in order, and nothing else. */
  lemma {:induction false} CopiesCopyAll(files: seq<Path>, d: string)
    ensures CopiedTo(Copies(files, d), d) == files
    decreases |files|
  {
    if |files| > 0 {
      var n := |files| - 1;
      CopiesCopyAll(files[..n], d);
      CopiesAppend(Copies(files[..n], d), files[n], d);
      assert files[..n] + [files[n]] == files;
    }
  }

  /** `files[k]` is the last of `files` with basename `b`. */
  predicate LastWith(files: seq<Path>, b: string, k: int) {
    0 <= k < |files| && Basename(files[k]) == b && forall l :: k < l < |files| ==> Basename(files[l]) != b
  }

  /** The names in `d` after the copies are the basenames of the files copied. */
  lemma {:induction false} InstalledNames(files: seq<Path>, d: string, b: string)
    ensures b in Installed(Copies(files, d), d) <==> exists k :: 0 <= k < |files| && Basename(files[k]) == b
    decreases |files|
  {
    if |files| > 0 {
      var n := |files| - 1;
      var pre := files[..n];
      InstalledNames(pre, d, b);
      CopiesAppend(Copies(pre, d), files[n], d);
      if exists k :: 0 <= k < n && Basename(pre[k]) == b {
        var k :| 0 <= k < n && Basename(pre[k]) == b;
        assert Basename(files[k]) == b;
      }
      if exists k :: 0 <= k < |files| && Basename(files[k]) == b {
        var k :| 0 <= k < |files| && Basename(files[k]) == b;
        if k < n {
          assert pre[k] == files[k];
        }
      }
    }
  }

  /** Under each name, `d` ends up holding the last file copied with that name: two FMUs with the
      same file name in different sub-folders of the build folder leave only the later one. */
  lemma {:induction false} LastCopyWins(files: seq<Path>, d: string, b: string, k: int)
    requires LastWith(files, b, k)
    ensures b in Installed(Copies(files, d), d) && Installed(Copies(files, d), d)[b] == files[k]
    decreases |files|
  {
    var n := |files| - 1;
    var pre := files[..n];
    CopiesAppend(Copies(pre, d), files[n], d);
    if k < n {
      assert Basename(files[n]) != b;
      assert LastWith(pre, b, k) by {
        assert forall l :: k < l < n ==> pre[l] == files[l];
      }
      LastCopyWins(pre, d, b, k);
    }
  }

  /** Both destinations are directories named after what they hold, so test output and FMUs never
      share one. */
  lemma DestinationsDistinct(env: map<string, string>, recipeFolder: string)
    ensures Destination(env, recipeFolder, "fmus") != Destination(env, recipeFolder, "testoutput")
    ensures |Destination(env, recipeFolder, "fmus")| > 0
  {
    var f := Destination(env, recipeFolder, "fmus");
    var t := Destination(env, recipeFolder, "testoutput");
    assert f[|f| - 4..] == "fmus";
    assert t[|t| - 10..] == "testoutput";
  }

  /**
    For the target package, `pre_build` followed by `post_build` copies into the directory
    `pre_build` created exactly the `.fmu` files found anywhere below the build folder, each
    once, whatever the hooks recorded before.
  */
  lemma BuildCopiesEveryFmu(recipeFolder: string, env: map<string, string>, buildFolder: string, tree: seq<Entry>, s: Conan, p: Path)
    ensures var a := AfterBuild(recipeFolder, env, Scan([buildFolder], tree, [".fmu"]).1, s).0.actions;
      |a| >= |s.actions| + 2 &&
      (p in CopiedTo(a[|s.actions| + 2..], Destination(env, recipeFolder, "fmus")) <==> Below([buildFolder], tree, p, [".fmu"], false))
  {
    var found := Scan([buildFolder], tree, [".fmu"]).1;
    BuildCopiesFound(recipeFolder, env, found, s);
    ScanAt([buildFolder], tree, [".fmu"], false, p);
  }

  /** `pre_build` then `post_build`, for the target package, when the scan finds `found`. */
  function AfterBuild(recipeFolder: string, env: map<string, string>, found: seq<Path>, s: Conan): (Conan, HookOutcome) {
    FmuPostBuildSpec(TargetPackage, found, FmuPreBuildSpec(TargetPackage, recipeFolder, env, s))
  }

  /** For the target package, `pre_build` then `post_build` ends normally, keeps what was recorded
      before, creates the destination, and then copies into it exactly the files found, in order. */
  lemma BuildCopiesFound(recipeFolder: string, env: map<string, string>, found: seq<Path>, s: Conan)
    ensures AfterBuild(recipeFolder, env, found, s).1 == Done
    ensures AfterBuild(recipeFolder, env, found, s).0.fmuInstallDestination == Some(Destination(env, recipeFolder, "fmus"))
    ensures var a := AfterBuild(recipeFolder, env, found, s).0.actions;
      |a| >= |s.actions| + 2 && a[..|s.actions|] == s.actions &&
      a[|s.actions| + 1] == MakeDir(Destination(env, recipeFolder, "fmus")) &&
      CopiedTo(a[|s.actions| + 2..], Destination(env, recipeFolder, "fmus")) == found
  {
    var d := Destination(env, recipeFolder, "fmus");
    DestinationsDistinct(env, recipeFolder);
    var a := AfterBuild(recipeFolder, env, found, s).0.actions;
    assert a == s.actions + [Info(SettingUpLine(d)), MakeDir(d)] + Copies(found, d);
    assert a[|s.actions| + 2..] == Copies(found, d);
    CopiesCopyAll(found, d);
  }

  /** `hook_testresults.pre_build` never copies anything, and touches only the test-output attribute. */
  lemma TestResultsCopiesNothing(name: string, recipeFolder: string, env: map<string, string>, s: Conan, d: string)
    ensures var s1 := TestResultsPreBuildSpec(name, recipeFolder, env, s);
      s1.fmuInstallDestination == s.fmuInstallDestination &&
      s1.actions[..|s.actions|] == s.actions &&
      CopiedTo(s1.actions, d) == CopiedTo(s.actions, d)
  {
    var s1 := TestResultsPreBuildSpec(name, recipeFolder, env, s);
    var a := s.actions;
    if name != TargetPackage {
      assert s1.actions == a + [Info(SkippingLine(name))];
      assert s1.actions[..|a|] == a;
    } else {
      var t := Destination(env, recipeFolder, "testoutput");
      var a1 := a + [Info(TestOutputLine(t))];
      assert s1.actions == a1 + [MakeDir(t)];
      assert (a1 + [MakeDir(t)])[..|a1|] == a1;
      assert a1[..|a|] == a;
    }
  }

  /** The gate is an exact name comparison: for any other package (`"DDS-FMU"` and `"dds-fmu "`
      included) both `hook_fmu` hooks change nothing and `hook_testresults` only logs that it skips. */
  lemma OtherPackagesUntouched(name: string, recipeFolder: string, env: map<string, string>, found: seq<Path>, s: Conan)
    requires name != TargetPackage
    ensures FmuPreBuildSpec(name, recipeFolder, env, s) == s
    ensures FmuPostBuildSpec(name, found, s) == (s, Done)
    ensures TestResultsPreBuildSpec(name, recipeFolder, env, s) == s.(actions := s.actions + [Info(SkippingLine(name))])
  {
  }
}
