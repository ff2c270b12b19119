/**
  The Conan recipe of the package (conanfile.py, class `DdsFmuConan`): which
  options exist, what the package requires to be built and to run, which
  compilers it accepts, what `generate` writes (toolchain variables, the
  licence manifest) and the order of the build steps.

  Everything the recipe hands to Conan or CMake (requirements, toolchain
  variables, files saved, files copied, build steps) is recorded on the recipe
  object; nothing is run.
*/
module Recipe {
  import opened Wrappers
  import opened Paths

  const PackageName := "dds-fmu"
  const PackageLicense := "MPL-2.0"
  /** `_min_cppstd`. */
  const MinCppstd := 17

  /** The settings the recipe reads.  `cppstd` is the year of the standard (2011, 2017, ...);
      a compiler version is its dotted numeric components. */
  datatype Settings = Settings(os: string, compiler: string, compilerVersion: seq<nat>, cppstd: Option<nat>)

  // ---------------------------------------------------------------------------
  // Options

  /** `default_options`. */
  const DefaultOptions: map<string, bool> := map["fPIC" := true, "with_tools" := true, "with_doc" := false]

  /** The values of the declared options: a value the user gives for one of them wins over its default. */
  function InitialOptions(overrides: map<string, bool>): (o: map<string, bool>)
    ensures o.Keys == DefaultOptions.Keys
    ensures forall k :: k in o ==> o[k] == (if k in overrides then overrides[k] else DefaultOptions[k])
  {
    map k | k in DefaultOptions :: if k in overrides then overrides[k] else DefaultOptions[k]
  }

  /** `config_options`: on Windows the `fPIC` option is removed altogether. */
  function ConfigOptionsSpec(os: string, o: map<string, bool>): map<string, bool> {
    if os == "Windows" then o - {"fPIC"} else o
  }

  /** After `config_options`, `fPIC` exists exactly when the system is not Windows; `with_tools`
      and `with_doc` always exist, and every option keeps the value it had. */
  lemma OptionsAfterConfig(os: string, overrides: map<string, bool>)
    ensures var o := ConfigOptionsSpec(os, InitialOptions(overrides));
      ("fPIC" in o <==> os != "Windows") && "with_tools" in o && "with_doc" in o &&
      o.Keys <= DefaultOptions.Keys &&
      forall k :: k in o ==> o[k] == (if k in overrides then overrides[k] else DefaultOptions[k])
  {
    var o := InitialOptions(overrides);
    assert "fPIC" in o && "with_tools" in o && "with_doc" in o;
  }

  /** Without overrides the options are their defaults: fPIC on (off Windows), tools on, documentation off. */
  lemma DefaultOptionValues(os: string)
    ensures var o := ConfigOptionsSpec(os, InitialOptions(map[]));
      o["with_tools"] && !o["with_doc"] && (os != "Windows" ==> o["fPIC"])
  {
    OptionsAfterConfig(os, map[]);
  }

  /** `_with_tests`: `not conf.get("tools.build:skip_test", default=True)`. */
  function WithTests(skipTest: Option<bool>): (r: bool)
    ensures r <==> skipTest == Some(false)
  {
    !skipTest.GetOr(true)
  }

  // ---------------------------------------------------------------------------
  // Requirements

  /** The five pinned host requirements, in the order `requirements` declares them. */
  const Pinned: seq<string> := ["cppfmu/1.0.0@sintef/stable", "fast-dds/2.11.2", "stduuid/1.2.3",
                                "rapidxml/1.13", "eprosima-xtypes/cci.20230615@sintef/stable"]
  /** The host requirements of the command line tools. */
  const ToolLibraries: seq<string> := ["kuba-zip/0.3.2", "taywee-args/6.4.6"]

  function HostRequirements(withTools: bool): seq<string> {
    Pinned + (if withTools then ToolLibraries else [])
  }

  predicate NoRepeats(s: seq<string>) {
    forall i, j :: 0 <= i < j < |s| ==> s[i] != s[j]
  }

  /** The pinned references come first, in order; the tool libraries follow exactly when the tools
      are built; no reference is declared twice. */
  lemma HostRequirementsShape(withTools: bool, x: string)
    ensures var r := HostRequirements(withTools);
      r[..5] == Pinned && NoRepeats(r) &&
      (x in r <==> x in Pinned || (withTools && x in ToolLibraries))
  {
    var r := HostRequirements(withTools);
    var all := Pinned + ToolLibraries;
    assert forall i :: 0 <= i < |all| ==> all[i][0] == "cfsrekt"[i];
    assert NoRepeats(all);
    if withTools {
      assert r == all;
    } else {
      assert r == all[..5];
    }
  }

  const CMakeTool := "cmake/[>=3.18.0 <4]"
  const BuildHelper := "fmu-build-helper/1.0.0@sintef/stable"
  const ComplianceChecker := "fmu-compliance-checker/2.0.4@sintef/stable"
  const GTest := "gtest/1.13.0"
  const Doxygen := "doxygen/1.9.4"
  const StrawberryPerl := "strawberryperl/5.32.1.1"

  /** The tool requirements `build_requirements` declares, in order. */
  function ToolRequirements(withTests: bool, withDoc: bool, os: string): seq<string> {
    [CMakeTool, BuildHelper]
    + (if withTests then [ComplianceChecker] else [])
    + (if withDoc then [Doxygen] + (if os == "Windows" then [StrawberryPerl] else []) else [])
  }

  /** The test requirements `build_requirements` declares. */
  function TestRequirements(withTests: bool): seq<string> {
    if withTests then [GTest] else []
  }

  /** CMake and the build helper are always the first two tools; the compliance checker and gtest
      come exactly with the tests, doxygen exactly with the documentation, and Strawberry Perl
      exactly with the documentation on Windows. */
  lemma BuildRequirementsCases(withTests: bool, withDoc: bool, os: string)
    ensures var t := ToolRequirements(withTests, withDoc, os);
      |t| >= 2 && t[0] == CMakeTool && t[1] == BuildHelper &&
      (ComplianceChecker in t <==> withTests) &&
      (GTest in TestRequirements(withTests) <==> withTests) &&
      (Doxygen in t <==> withDoc) &&
      (StrawberryPerl in t <==> withDoc && os == "Windows")
  {
    var t := ToolRequirements(withTests, withDoc, os);
    var a := [CMakeTool, BuildHelper];
    var b: seq<string> := if withTests then [ComplianceChecker] else [];
    var c: seq<string> := if withDoc then [Doxygen] + (if os == "Windows" then [StrawberryPerl] else []) else [];
    assert t == a + b + c;
    assert ComplianceChecker in t <==> ComplianceChecker in b;
    assert Doxygen in t <==> Doxygen in c;
    assert StrawberryPerl in t <==> StrawberryPerl in c;
  }

  // ---------------------------------------------------------------------------
  // validate

  /** `_compilers_minimum_version`. */
  const MinimumVersions: map<string, seq<nat>> := map["msvc" := [14, 1], "gcc" := [8, 1], "clang" := [7], "apple-clang" := [10]]

  function Head(v: seq<nat>): nat {
    if |v| == 0 then 0 else v[0]
  }

  function Tail(v: seq<nat>): seq<nat> {
    if |v| == 0 then [] else v[1..]
  }

  /** The order of Conan's `Version` on numeric versions: component by component, a missing
      component counting as 0. */
  predicate VersionLess(a: seq<nat>, b: seq<nat>)
    decreases |a| + |b|
  {
    if |a| == 0 && |b| == 0 then false
    else Head(a) < Head(b) || (Head(a) == Head(b) && VersionLess(Tail(a), Tail(b)))
  }

  lemma {:induction false} VersionLessTrans(a: seq<nat>, b: seq<nat>, c: seq<nat>)
    requires VersionLess(a, b) && VersionLess(b, c)
    ensures VersionLess(a, c)
    decreases |a| + |b| + |c|
  {
    if Head(a) == Head(b) && Head(b) == Head(c) {
      VersionLessTrans(Tail(a), Tail(b), Tail(c));
    }
  }

  lemma {:induction false} VersionLessTotal(a: seq<nat>, b: seq<nat>)
    ensures VersionLess(a, b) || VersionLess(b, a) || VersionEqual(a, b)
    decreases |a| + |b|
  {
    if !(|a| == 0 && |b| == 0) && Head(a) == Head(b) {
      VersionLessTotal(Tail(a), Tail(b));
    }
  }

  /** Equal as versions: "8" and "8.0" are the same version. */
  predicate VersionEqual(a: seq<nat>, b: seq<nat>)
    decreases |a| + |b|
  {
    if |a| == 0 && |b| == 0 then true
    else Head(a) == Head(b) && VersionEqual(Tail(a), Tail(b))
  }

  lemma {:induction false} VersionEqualLess(a: seq<nat>, b: seq<nat>, c: seq<nat>)
    requires VersionEqual(a, b)
    ensures VersionLess(b, c) <==> VersionLess(a, c)
    decreases |a| + |b| + |c|
  {
    if !(|a| == 0 && |b| == 0) || !(|c| == 0) {
      if |a| == 0 && |b| == 0 {
        assert Tail(a) == [] && Tail(b) == [];
      } else {
        VersionEqualLess(Tail(a), Tail(b), Tail(c));
      }
    }
  }

  /** How `validate` ends. */
  datatype Validation =
    | Valid
    | CppstdTooLow                          // raised by `check_min_cppstd`
    | InvalidConfiguration(message: string) // ConanInvalidConfiguration

  function NotSupportedMessage(reference: string): string {
    reference + " requires C++17, which your compiler does not support."
  }

  /** `validate`: the standard the settings ask for is checked first, then the compiler version
      against the minimum of its family; a family without a minimum is never refused. */
  function Verdict(s: Settings, reference: string): Validation {
    if s.cppstd.Some? && s.cppstd.value < 2000 + MinCppstd then CppstdTooLow
    else if s.compiler in MinimumVersions && VersionLess(s.compilerVersion, MinimumVersions[s.compiler])
    then InvalidConfiguration(NotSupportedMessage(reference))
    else Valid
  }

  /** A newer compiler of the same family is accepted whenever an older one is. */
  lemma ValidateMonotone(s: Settings, newer: seq<nat>, reference: string)
    requires Verdict(s, reference) == Valid
    requires !VersionLess(newer, s.compilerVersion)
    ensures Verdict(s.(compilerVersion := newer), reference) == Valid
  {
    if s.compiler in MinimumVersions {
      var m := MinimumVersions[s.compiler];
      if VersionLess(newer, m) {
        VersionLessTotal(newer, s.compilerVersion);
        if VersionLess(s.compilerVersion, newer) {
          VersionLessTrans(s.compilerVersion, newer, m);
        } else {
          VersionEqualLess(newer, s.compilerVersion, m);
        }
        assert false;
      }
    }
  }

  /** The minimums are sharp: gcc 8.1 is accepted, gcc 8 (that is, 8.0) is refused. */
  lemma GccMinimum(os: string, reference: string)
    ensures Verdict(Settings(os, "gcc", [8, 1], None), reference) == Valid
    ensures Verdict(Settings(os, "gcc", [8], None), reference) == InvalidConfiguration(NotSupportedMessage(reference))
  {
    assert Tail([8, 1]) == [1] && Tail([8]) == [];
    assert VersionLess([8], [8, 1]);
    assert Tail([1]) == [];
    assert !VersionLess([8, 1], [8, 1]);
  }

  // ---------------------------------------------------------------------------
  // The licence manifest

  /** A dependency's `license` attribute: a string, or anything else, shown as `str()` shows it. */
  datatype License = Str(s: string) | NonStr(text: string)

  function LicenseText(l: License): string {
    match l
    case Str(s) => s
    case NonStr(t) => t
  }

  /** `len_lic_str`: the length of a string licence; any other licence counts as `cols2 - 2`. */
  function LicenseWidth(l: License): nat {
    match l
    case Str(s) => |s|
    case NonStr(_) => Cols2 - 2
  }

  /** A dependency as `generate` sees it in `self.dependencies`. */
  datatype Dependency = Dependency(
    name: string, license: License,
    build: bool, test: bool,          // the requirement is a build or a test requirement
    packageFolder: string,            // "" when there is none
    hasLicenses: bool,                // its package folder has a `licenses` directory
    srcdirs: seq<string>)             // cpp_info.srcdirs

  /** A `(name, licence)` entry of `deplist`. */
  type Listing = (string, License)

  const Cols1 := 20
  const Cols2 := 30

  function Repeat(c: char, n: nat): (r: string)
    ensures |r| == n && forall k :: 0 <= k < n ==> r[k] == c
  {
    seq(n, _ => c)
  }

  /** `' '*(max(width-len,0))`. */
  function Pad(width: int, len: int): (r: string)
    ensures |r| == if width > len then width - len else 0
  {
    Repeat(' ', if width > len then width - len else 0)
  }

  const Intro := "Licenses for `dds-fmu` and its dependencies are listed below.\n\n"

  /** The table header and its separator line. */
  function Header(): string {
    "| Library" + Repeat(' ', Cols1 - 7) + "| License" + Repeat(' ', Cols2 - 7) + "|\n|"
    + Repeat('-', Cols1 + 1) + "|" + Repeat('-', Cols2 + 1) + "|\n"
  }

  /** One table row. */
  function Row(name: string, lic: License): string {
    "| " + name + Pad(Cols1, |name|) + "|" + " " + LicenseText(lic) + Pad(Cols2, LicenseWidth(lic)) + "|\n"
  }

  function Rows(xs: seq<Listing>): string
    decreases |xs|
  {
    if |xs| == 0 then "" else Rows(xs[..|xs| - 1]) + Row(xs[|xs| - 1].0, xs[|xs| - 1].1)
  }

  /** The `deplist` loop: the host dependencies, in the order Conan lists them. */
  function DepList(deps: seq<Dependency>): seq<Listing>
    decreases |deps|
  {
    if |deps| == 0 then []
    else
      var d := deps[|deps| - 1];
      DepList(deps[..|deps| - 1]) + (if d.build || d.test then [] else [(d.name, d.license)])
  }

  /** What `licenses.txt` holds at the end of `generate`. */
  function LicenseManifest(deps: seq<Dependency>): string {
    ManifestHead() + Rows(Sort(DepList(deps)))
  }

  /** The introduction, the table header and the project's own row. */
  function ManifestHead(): string {
    Intro + Header() + Row(PackageName, Str(PackageLicense))
  }

  /** What `licenses.md` holds: a title, then what `licenses.txt` holds. */
  function LicenseMarkdown(txt: string): string {
    "# Licenses {#sec_licenses}\n" + txt
  }

  // --- Python's order on strings and on (name, licence) pairs

  /** `a <= b` on Python strings: by code point, a proper prefix first. */
  predicate StrLe(a: string, b: string)
    decreases |a|
  {
    |a| == 0 || (|b| > 0 && (a[0] < b[0] || (a[0] == b[0] && StrLe(a[1..], b[1..]))))
  }

  lemma {:induction false} StrLeTotal(a: string, b: string)
    ensures StrLe(a, b) || StrLe(b, a)
    decreases |a|
  {
    if |a| > 0 && |b| > 0 && a[0] == b[0] {
      StrLeTotal(a[1..], b[1..]);
    }
  }

  lemma {:induction false} StrLeTrans(a: string, b: string, c: string)
    requires StrLe(a, b) && StrLe(b, c)
    ensures StrLe(a, c)
    decreases |a|
  {
    if |a| > 0 && a[0] == b[0] && b[0] == c[0] {
      StrLeTrans(a[1..], b[1..], c[1..]);
    }
  }

  lemma {:induction false} StrLeAntisymmetric(a: string, b: string)
    requires StrLe(a, b) && StrLe(b, a)
    ensures a == b
    decreases |a|
  {
    if |a| > 0 {
      StrLeAntisymmetric(a[1..], b[1..]);
      assert a == [a[0]] + a[1..] && b == [b[0]] + b[1..];
    }
  }

  /** `x <= y` on `(name, licence)` tuples, with licences compared by their text. */
  predicate ListingLe(x: Listing, y: Listing) {
    StrLe(x.0, y.0) && (x.0 == y.0 ==> StrLe(LicenseText(x.1), LicenseText(y.1)))
  }

  lemma ListingLeTotal(x: Listing, y: Listing)
    ensures ListingLe(x, y) || ListingLe(y, x)
  {
    StrLeTotal(x.0, y.0);
    StrLeTotal(LicenseText(x.1), LicenseText(y.1));
  }

  lemma ListingLeTrans(x: Listing, y: Listing, z: Listing)
    requires ListingLe(x, y) && ListingLe(y, z)
    ensures ListingLe(x, z)
  {
    StrLeTrans(x.0, y.0, z.0);
    if x.0 == z.0 {
      StrLeAntisymmetric(x.0, y.0);
      StrLeTrans(LicenseText(x.1), LicenseText(y.1), LicenseText(z.1));
    }
  }

  predicate SortedListings(xs: seq<Listing>) {
    forall i, j :: 0 <= i < j < |xs| ==> ListingLe(xs[i], xs[j])
  }

  function Insert(x: Listing, xs: seq<Listing>): seq<Listing>
    decreases |xs|
  {
    if |xs| == 0 then [x]
    else if ListingLe(x, xs[0]) then [x] + xs
    else [xs[0]] + Insert(x, xs[1..])
  }

  /** `sorted(deplist)`. */
  function Sort(xs: seq<Listing>): seq<Listing>
    decreases |xs|
  {
    if |xs| == 0 then [] else Insert(xs[0], Sort(xs[1..]))
  }

  lemma {:induction false} InsertPermutes(x: Listing, xs: seq<Listing>)
    ensures multiset(Insert(x, xs)) == multiset(xs) + multiset{x}
    decreases |xs|
  {
    if |xs| > 0 && !ListingLe(x, xs[0]) {
      InsertPermutes(x, xs[1..]);
      assert xs == [xs[0]] + xs[1..];
    }
  }

  lemma {:induction false} InsertSorted(x: Listing, xs: seq<Listing>)
    requires SortedListings(xs)
    ensures SortedListings(Insert(x, xs))
    decreases |xs|
  {
    if |xs| > 0 {
      if ListingLe(x, xs[0]) {
        forall k | 0 <= k < |xs| ensures ListingLe(x, xs[k]) {
          if k > 0 { ListingLeTrans(x, xs[0], xs[k]); }
        }
        SortedPrepend(x, xs);
      } else {
        var t := xs[1..];
        SortedTail(xs);
        InsertSorted(x, t);
        ListingLeTotal(x, xs[0]);
        InsertAbove(x, xs);
        SortedPrepend(xs[0], Insert(x, t));
      }
    }
  }

  lemma SortedTail(xs: seq<Listing>)
    requires |xs| > 0 && SortedListings(xs)
    ensures SortedListings(xs[1..])
  {
    var t := xs[1..];
    forall i, j | 0 <= i < j < |t| ensures ListingLe(t[i], t[j]) {
      assert t[i] == xs[i + 1] && t[j] == xs[j + 1];
    }
  }

  lemma SortedPrepend(y: Listing, u: seq<Listing>)
    requires SortedListings(u) && forall k :: 0 <= k < |u| ==> ListingLe(y, u[k])
    ensures SortedListings([y] + u)
  {
    var r := [y] + u;
    forall i, j | 0 <= i < j < |r| ensures ListingLe(r[i], r[j]) {
      assert r[j] == u[j - 1];
      if i > 0 { assert r[i] == u[i - 1]; }
    }
  }

  /** Every entry of `Insert(x, xs[1..])` is at least the head of a sorted `xs` that is below `x`. */
  lemma InsertAbove(x: Listing, xs: seq<Listing>)
    requires |xs| > 0 && SortedListings(xs) && ListingLe(xs[0], x)
    ensures forall k :: 0 <= k < |Insert(x, xs[1..])| ==> ListingLe(xs[0], Insert(x, xs[1..])[k])
  {
    var t := xs[1..];
    var u := Insert(x, t);
    InsertPermutes(x, t);
    forall k | 0 <= k < |u| ensures ListingLe(xs[0], u[k]) {
      assert u[k] in multiset(u);
      if u[k] != x {
        assert u[k] in multiset(t);
        var m :| 0 <= m < |t| && t[m] == u[k];
        assert xs[m + 1] == u[k];
      }
    }
  }

  /** `sorted` puts the entries in order and keeps every one of them. */
  lemma {:induction false} SortSortsAndPermutes(xs: seq<Listing>)
    ensures SortedListings(Sort(xs)) && multiset(Sort(xs)) == multiset(xs)
    decreases |xs|
  {
    if |xs| > 0 {
      SortSortsAndPermutes(xs[1..]);
      InsertSorted(xs[0], Sort(xs[1..]));
      InsertPermutes(xs[0], Sort(xs[1..]));
      assert xs == [xs[0]] + xs[1..];
    }
  }

  /** The entries of `deplist` are the host dependencies: build and test requirements are skipped. */
  lemma {:induction false} DepListMembers(deps: seq<Dependency>, x: Listing)
    ensures x in DepList(deps) <==> exists d :: d in deps && !d.build && !d.test && x == (d.name, d.license)
    decreases |deps|
  {
    if |deps| > 0 {
      DepListMembers(deps[..|deps| - 1], x);
      assert deps == deps[..|deps| - 1] + [deps[|deps| - 1]];
    }
  }

  /**
    The manifest starts with the introduction, the header and the recipe's own row, whatever the
    file held before; then come one row per host dependency, sorted by (name, licence), and
    nothing else.
  */
  lemma ManifestLayout(deps: seq<Dependency>)
    ensures var sorted := Sort(DepList(deps));
      LicenseManifest(deps) == Intro + Header() + Row(PackageName, Str(PackageLicense)) + Rows(sorted) &&
      SortedListings(sorted) &&
      multiset(sorted) == multiset(DepList(deps)) &&
      forall x :: x in sorted <==> exists d :: d in deps && !d.build && !d.test && x == (d.name, d.license)
  {
    var sorted := Sort(DepList(deps));
    SortSortsAndPermutes(DepList(deps));
    forall x ensures x in sorted <==> exists d :: d in deps && !d.build && !d.test && x == (d.name, d.license) {
      DepListMembers(deps, x);
      assert x in sorted <==> x in multiset(sorted);
      assert x in DepList(deps) <==> x in multiset(DepList(deps));
    }
  }

  // --- Column layout

  /** The header and the separator are 55 characters each, with '|' at columns 0, 22 and 54. */
  lemma HeaderLayout()
    ensures var h := Header();
      |h| == 112 && h[55] == '\n' && h[111] == '\n' &&
      h[0] == '|' && h[22] == '|' && h[54] == '|' &&
      h[56] == '|' && h[56 + 22] == '|' && h[56 + 54] == '|'
  {
  }

  /** A row whose name has at most 20 characters and whose string licence has at most 30 is
      55 characters long, with '|' at columns 0, 22 and 54. */
  lemma RowLayout(name: string, lic: string)
    requires |name| <= Cols1 && |lic| <= Cols2
    ensures var r := Row(name, Str(lic));
      |r| == 56 && r[55] == '\n' && r[0] == '|' && r[22] == '|' && r[54] == '|'
  {
    var r := Row(name, Str(lic));
    var left := "| " + name + Pad(Cols1, |name|);
    assert |left| == 22;
    assert r == left + "|" + " " + lic + Pad(Cols2, |lic|) + "|\n";
    assert r[22] == '|';
  }

  /** Long values are padded with nothing and never cut: the name and the licence text appear whole. */
  lemma RowKeepsValues(name: string, lic: License)
    ensures var r := Row(name, lic);
      var at := 2 + |name| + |Pad(Cols1, |name|)| + 2;
      r[2..2 + |name|] == name && |r| >= at + |LicenseText(lic)| && r[at..at + |LicenseText(lic)|] == LicenseText(lic) &&
      (|name| >= Cols1 ==> Pad(Cols1, |name|) == "") &&
      (lic.Str? && |lic.s| >= Cols2 ==> Pad(Cols2, LicenseWidth(lic)) == "")
  {
    var r := Row(name, lic);
    var p1 := Pad(Cols1, |name|);
    var t := LicenseText(lic);
    var p2 := Pad(Cols2, LicenseWidth(lic));
    assert r == "| " + name + (p1 + "|" + " " + t + p2 + "|\n");
    var at := 2 + |name| + |p1| + 2;
    assert r == ("| " + name + p1 + "|" + " ") + t + (p2 + "|\n");
  }

  /** A licence that is not a string is always followed by exactly two spaces. */
  lemma NonStringPadding(text: string)
    ensures Pad(Cols2, LicenseWidth(NonStr(text))) == "  "
  {
  }

  // ---------------------------------------------------------------------------
  // The recipe object

  /** A `copy(self, pattern, src, dst, keep_path=...)` call. */
  datatype Copy = Copy(pattern: string, source: string, destination: string, keepPath: bool)

  /** What `build` asks CMake to do, in order. */
  datatype Step =
    | Configure
    | BuildTarget(target: Option<string>)       // cmake.build(target=...), None for all
    | InstallComponent(component: string)       // cmake.install(component=...)
    | RunTests(environment: map<string, string>) // cmake.test() with the environment it sees

  const CtestOutputOnFailure := "CTEST_OUTPUT_ON_FAILURE"

  /** The copies the `deplist` loop asks for, for each host dependency in order. */
  function DepCopies(deps: seq<Dependency>, buildFolder: string): seq<Copy>
    decreases |deps|
  {
    if |deps| == 0 then []
    else
      var d := deps[|deps| - 1];
      DepCopies(deps[..|deps| - 1], buildFolder) + (if d.build || d.test then [] else DepCopy(d, buildFolder))
  }

  function DepCopy(d: Dependency, buildFolder: string): seq<Copy> {
    (if d.packageFolder != "" && d.hasLicenses then [LicensesCopy(d, buildFolder)] else [])
    + (if d.name == "cppfmu" && |d.srcdirs| > 0 then [SourceCopy(d, buildFolder)] else [])
  }

  /** Copy everything under the dependency's `licenses` directory to `licenses/<name>`. */
  function LicensesCopy(d: Dependency, buildFolder: string): Copy {
    Copy("*", Join(d.packageFolder, "licenses"), Join(Join(buildFolder, "licenses"), d.name), true)
  }

  /** Copy cppfmu's `fmi_functions.cpp` from its first source directory to `<build>/cppfmu`. */
  function SourceCopy(d: Dependency, buildFolder: string): Copy
    requires |d.srcdirs| > 0
  {
    Copy("fmi_functions.cpp", d.srcdirs[0], Join(buildFolder, d.name), false)
  }

  function LicenseTxtPath(buildFolder: string): string {
    Join(Join(buildFolder, "licenses"), "licenses.txt")
  }

  function LicenseMdPath(buildFolder: string): string {
    Join(Join(buildFolder, "gen_md"), "licenses.md")
  }

  /** The two manifest files are different files, whatever the build folder. */
  lemma ManifestPathsDiffer(buildFolder: string)
    ensures LicenseTxtPath(buildFolder) != LicenseMdPath(buildFolder)
  {
    var t := LicenseTxtPath(buildFolder);
    var m := LicenseMdPath(buildFolder);
    assert t[|t| - 1] == "licenses.txt"[11];
    assert m[|m| - 1] == "licenses.md"[10];
  }

  /** The steps of `build`, in order. */
  function BuildSteps(withDoc: bool, withTests: bool, env: map<string, string>): seq<Step> {
    [Configure]
    + (if withDoc then [BuildTarget(Some("doc")), InstallComponent("doc")] else [])
    + [BuildTarget(None)]
    + (if withTests then [RunTests(env[CtestOutputOnFailure := "ON"])] else [])
  }

  /**
    `build` configures first; the documentation is built and installed, when asked for, before
    everything else is built; the tests run last, when asked for, and see
    `CTEST_OUTPUT_ON_FAILURE=ON` on top of the environment.
  */
  lemma BuildOrder(withDoc: bool, withTests: bool, env: map<string, string>)
    ensures var b := BuildSteps(withDoc, withTests, env);
      var main := if withDoc then 3 else 1;
      b[0] == Configure && |b| == main + 1 + (if withTests then 1 else 0) && b[main] == BuildTarget(None) &&
      (withDoc ==> b[1] == BuildTarget(Some("doc")) && b[2] == InstallComponent("doc")) &&
      (InstallComponent("doc") in b <==> withDoc) &&
      (withTests ==> b[|b| - 1].RunTests? && b[|b| - 1].environment[CtestOutputOnFailure] == "ON" &&
                     forall k :: k in env && k != CtestOutputOnFailure ==> b[|b| - 1].environment[k] == env[k]) &&
      (forall k :: 0 <= k < |b| && b[k].RunTests? ==> withTests && k == |b| - 1)
  {
  }

  /** Copy the recipe's own LICENSE file to `licenses`. */
  function OwnLicenseCopy(recipeFolder: string, buildFolder: string): Copy {
    Copy("LICENSE", recipeFolder, Join(buildFolder, "licenses"), true)
  }

  lemma DepStep(deps: seq<Dependency>, i: nat, buildFolder: string)
    requires i < |deps|
    ensures var d := deps[i];
      DepList(deps[..i + 1]) == DepList(deps[..i]) + (if d.build || d.test then [] else [(d.name, d.license)]) &&
      DepCopies(deps[..i + 1], buildFolder) == DepCopies(deps[..i], buildFolder) + (if d.build || d.test then [] else DepCopy(d, buildFolder))
  {
    assert deps[..i + 1][..i] == deps[..i];
  }

  class DdsFmuConan {
    const settings: Settings
    /** The conf value `tools.build:skip_test`, when it is set. */
    const skipTest: Option<bool>
    const recipeFolder: string
    const buildFolder: string
    const dependencies: seq<Dependency>

    var options: map<string, bool>
    var hostRequires: seq<string>
    var toolRequires: seq<string>
    var testRequires: seq<string>
    var toolchainVariables: map<string, bool>
    var buildContextActivated: seq<string>
    var buildContextBuildModules: seq<string>
    /** The files `save` wrote, by path. */
    var files: map<string, string>
    var copies: seq<Copy>
    var steps: seq<Step>
    /** The process environment. */
    var environment: map<string, string>

    constructor(settings: Settings, overrides: map<string, bool>, skipTest: Option<bool>,
                recipeFolder: string, buildFolder: string, dependencies: seq<Dependency>,
                environment: map<string, string>)
      ensures this.settings == settings && this.skipTest == skipTest
      ensures this.recipeFolder == recipeFolder && this.buildFolder == buildFolder
      ensures this.dependencies == dependencies && this.environment == environment
      ensures options == InitialOptions(overrides)
      ensures hostRequires == [] && toolRequires == [] && testRequires == []
      ensures toolchainVariables == map[] && buildContextActivated == [] && buildContextBuildModules == []
      ensures files == map[] && copies == [] && steps == []
    {
      this.settings := settings;
      this.skipTest := skipTest;
      this.recipeFolder := recipeFolder;
      this.buildFolder := buildFolder;
      this.dependencies := dependencies;
      this.environment := environment;
      options := InitialOptions(overrides);
      hostRequires, toolRequires, testRequires := [], [], [];
      toolchainVariables := map[];
      buildContextActivated, buildContextBuildModules := [], [];
      files, copies, steps := map[], [], [];
    }

    /** The options every method after `config_options` reads. */
    predicate HasOptions()
      reads this
    {
      "with_tools" in options && "with_doc" in options
    }

    method ConfigOptions()
      modifies this`options
      ensures options == ConfigOptionsSpec(settings.os, old(options))
    {
      if settings.os == "Windows" {
        options := options - {"fPIC"};
      }
    }

    method Requirements()
      requires HasOptions()
      modifies this`hostRequires
      ensures hostRequires == old(hostRequires) + HostRequirements(options["with_tools"])
    {
      hostRequires := hostRequires + ["cppfmu/1.0.0@sintef/stable"];
      hostRequires := hostRequires + ["fast-dds/2.11.2"];
      hostRequires := hostRequires + ["stduuid/1.2.3"];
      hostRequires := hostRequires + ["rapidxml/1.13"];
      hostRequires := hostRequires + ["eprosima-xtypes/cci.20230615@sintef/stable"];
      if options["with_tools"] {
        hostRequires := hostRequires + ["kuba-zip/0.3.2"];
        hostRequires := hostRequires + ["taywee-args/6.4.6"];
      }
    }

    method BuildRequirements()
      requires HasOptions()
      modifies this`toolRequires, this`testRequires
      ensures toolRequires == old(toolRequires) + ToolRequirements(WithTests(skipTest), options["with_doc"], settings.os)
      ensures testRequires == old(testRequires) + TestRequirements(WithTests(skipTest))
    {
      toolRequires := toolRequires + [CMakeTool];
      toolRequires := toolRequires + [BuildHelper];
      if WithTests(skipTest) {
        toolRequires := toolRequires + [ComplianceChecker];
        testRequires := testRequires + [GTest];
      }
      if options["with_doc"] {
        toolRequires := toolRequires + [Doxygen];
        if settings.os == "Windows" {
          toolRequires := toolRequires + [StrawberryPerl];
        }
      }
    }

    /** `validate`: refuses exactly a standard below C++17 and a compiler version below its
        family's minimum; `self.ref` is given. */
    method Validate(reference: string) returns (v: Validation)
      ensures v == Verdict(settings, reference)
      ensures v == Valid <==>
        (settings.cppstd.None? || settings.cppstd.value >= 2017) &&
        (settings.compiler !in MinimumVersions || !VersionLess(settings.compilerVersion, MinimumVersions[settings.compiler]))
      ensures v.InvalidConfiguration? ==> v.message == reference + " requires C++17, which your compiler does not support."
    {
      if settings.cppstd.Some? && settings.cppstd.value < 2000 + MinCppstd {
        return CppstdTooLow;
      }
      if settings.compiler in MinimumVersions && VersionLess(settings.compilerVersion, MinimumVersions[settings.compiler]) {
        return InvalidConfiguration(NotSupportedMessage(reference));
      }
      return Valid;
    }

    /** `save(self, path, content, append=...)`. */
    method Save(path: string, content: string, append: bool)
      modifies this`files
      ensures files == old(files)[path := if append && path in old(files) then old(files)[path] + content else content]
    {
      if append && path in files {
        files := files[path := files[path] + content];
      } else {
        files := files[path := content];
      }
    }

    method Generate()
      requires HasOptions()
      modifies this`toolchainVariables, this`buildContextActivated, this`buildContextBuildModules, this`files, this`copies
      ensures toolchainVariables == old(toolchainVariables)["DDSFMU_WITH_TOOLS" := options["with_tools"]]["DDSFMU_WITH_DOC" := options["with_doc"]]
      ensures buildContextActivated == ["fmu-build-helper"] + (if WithTests(skipTest) then ["fmu-compliance-checker"] else [])
      ensures buildContextBuildModules == buildContextActivated
      ensures files == old(files)[LicenseTxtPath(buildFolder) := LicenseManifest(dependencies)]
                                 [LicenseMdPath(buildFolder) := LicenseMarkdown(LicenseManifest(dependencies))]
      ensures copies == old(copies) + DepCopies(dependencies, buildFolder) + [OwnLicenseCopy(recipeFolder, buildFolder)]
    {
      ConfigureToolchain();
      WriteLicenses();
    }

    /** The licence part of `generate`: collect the host dependencies, copy their licences and
        write the manifest. */
    method WriteLicenses()
      modifies this`files, this`copies
      ensures files == old(files)[LicenseTxtPath(buildFolder) := LicenseManifest(dependencies)]
                                 [LicenseMdPath(buildFolder) := LicenseMarkdown(LicenseManifest(dependencies))]
      ensures copies == old(copies) + DepCopies(dependencies, buildFolder) + [OwnLicenseCopy(recipeFolder, buildFolder)]
    {
      var deplist := CollectDependencies();
      WriteManifest(deplist);
    }

    /** The CMake toolchain variables and the build-context tools of `generate`. */
    method ConfigureToolchain()
      requires HasOptions()
      modifies this`toolchainVariables, this`buildContextActivated, this`buildContextBuildModules
      ensures toolchainVariables == old(toolchainVariables)["DDSFMU_WITH_TOOLS" := options["with_tools"]]["DDSFMU_WITH_DOC" := options["with_doc"]]
      ensures buildContextActivated == ["fmu-build-helper"] + (if WithTests(skipTest) then ["fmu-compliance-checker"] else [])
      ensures buildContextBuildModules == buildContextActivated
    {
      toolchainVariables := toolchainVariables["DDSFMU_WITH_TOOLS" := options["with_tools"]];
      toolchainVariables := toolchainVariables["DDSFMU_WITH_DOC" := options["with_doc"]];
      buildContextActivated := ["fmu-build-helper"];
      buildContextBuildModules := ["fmu-build-helper"];
      if WithTests(skipTest) {
        buildContextActivated := buildContextActivated + ["fmu-compliance-checker"];
        buildContextBuildModules := buildContextBuildModules + ["fmu-compliance-checker"];
      }
    }

    /** Writes `licenses.txt` from the listings and `licenses.md` from it, copying the project's
        own LICENSE on the way. */
    method WriteManifest(deplist: seq<Listing>)
      modifies this`files, this`copies
      ensures var txt := ManifestHead() + Rows(Sort(deplist));
        files == old(files)[LicenseTxtPath(buildFolder) := txt][LicenseMdPath(buildFolder) := LicenseMarkdown(txt)]
      ensures copies == old(copies) + [OwnLicenseCopy(recipeFolder, buildFolder)]
    {
      var txt := LicenseTxtPath(buildFolder);
      var content := WriteText(txt, deplist);
      var md := LicenseMdPath(buildFolder);
      ManifestPathsDiffer(buildFolder);
      Save(md, LicenseMarkdown(content), false);
    }

    /** `licenses.txt`: the head, the recipe's LICENSE copied beside it, then the sorted rows. */
    method WriteText(txt: string, deplist: seq<Listing>) returns (content: string)
      modifies this`files, this`copies
      ensures content == ManifestHead() + Rows(Sort(deplist))
      ensures files == old(files)[txt := content]
      ensures copies == old(copies) + [OwnLicenseCopy(recipeFolder, buildFolder)]
    {
      WriteHead(txt);
      CopyOwnLicense();
      WriteRows(txt, Sort(deplist));
      content := files[txt];
    }

    method CopyOwnLicense()
      modifies this`copies
      ensures copies == old(copies) + [OwnLicenseCopy(recipeFolder, buildFolder)]
    {
      copies := copies + [OwnLicenseCopy(recipeFolder, buildFolder)];
    }

    method WriteHead(txt: string)
      modifies this`files
      ensures files == old(files)[txt := ManifestHead()]
    {
      Save(txt, Intro, false);
      Save(txt, Header(), true);
      Save(txt, Row(PackageName, Str(PackageLicense)), true);
      assert files == old(files)[txt := (Intro + Header()) + Row(PackageName, Str(PackageLicense))];
    }

    /** The loop over the sorted listings, one row appended per listing. */
    method WriteRows(txt: string, sorted: seq<Listing>)
      requires txt in files
      modifies this`files
      ensures files == old(files)[txt := old(files)[txt] + Rows(sorted)]
    {
      ghost var head := files[txt];
      assert head + Rows(sorted[..0]) == head;
      assert files == old(files)[txt := head];
      var j := 0;
      while j < |sorted|
        invariant 0 <= j <= |sorted|
        invariant files == old(files)[txt := head + Rows(sorted[..j])]
      {
        assert sorted[..j + 1][..j] == sorted[..j];
        Save(txt, Row(sorted[j].0, sorted[j].1), true);
        ConcatAssoc(head, Rows(sorted[..j]), Row(sorted[j].0, sorted[j].1));
        j := j + 1;
      }
      assert sorted[..j] == sorted;
    }

    /** The `deplist` loop of `generate`. */
    method CollectDependencies() returns (deplist: seq<Listing>)
      modifies this`copies
      ensures deplist == DepList(dependencies)
      ensures copies == old(copies) + DepCopies(dependencies, buildFolder)
    {
      deplist := [];
      ghost var acc: seq<Copy> := [];
      var i := 0;
      while i < |dependencies|
        invariant 0 <= i <= |dependencies|
        invariant deplist == DepList(dependencies[..i])
        invariant acc == DepCopies(dependencies[..i], buildFolder)
        invariant copies == old(copies) + acc
      {
        var dep := dependencies[i];
        DepStep(dependencies, i, buildFolder);
        if !(dep.build || dep.test) {
          deplist := deplist + [(dep.name, dep.license)];
          var more := CopiesFor(dep);
          ConcatAssoc(old(copies), acc, more);
          copies := copies + more;
          acc := acc + more;
        }
        i := i + 1;
      }
      assert dependencies[..i] == dependencies;
    }

    /** The copies one host dependency asks for. */
    method CopiesFor(dep: Dependency) returns (more: seq<Copy>)
      ensures more == DepCopy(dep, buildFolder)
    {
      var licenses: seq<Copy> := [];
      if dep.packageFolder != "" && dep.hasLicenses {
        licenses := [LicensesCopy(dep, buildFolder)];
      }
      var sources: seq<Copy> := [];
      if dep.name == "cppfmu" && |dep.srcdirs| > 0 {
        sources := [SourceCopy(dep, buildFolder)];
      }
      more := licenses + sources;
    }

    method Build()
      requires HasOptions()
      modifies this`steps, this`environment
      ensures steps == old(steps) + BuildSteps(options["with_doc"], WithTests(skipTest), old(environment))
      ensures environment == old(environment)
    {
      steps := steps + [Configure];
      if options["with_doc"] {
        steps := steps + [BuildTarget(Some("doc"))];
        steps := steps + [InstallComponent("doc")];
      }
      steps := steps + [BuildTarget(None)];
      if WithTests(skipTest) {
        // `with env.vars(self).apply()`: defined for the scope, restored after it
        var saved := environment;
        environment := environment[CtestOutputOnFailure := "ON"];
        steps := steps + [RunTests(environment)];
        environment := saved;
      }
    }
  }
}
