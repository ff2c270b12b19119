/**
  The repacker command-line tool (src/repacker/repacker.cpp).  `zip` packs an
  FMU directory into an archive, `generate` rebuilds modelDescription.xml from
  the mapping file, and `create` runs `generate` and then `zip`.

  Paths are POSIX generic-format strings; `std::filesystem::path` operations are
  written out below on those strings (no canonicalisation).  The file system, the
  order of the recursive directory walk and the zip library's answers are inputs.
*/
module Repacker {
  import opened Wrappers
  import opened Paths
  import opened XTypes
  import opened Signals
  import opened Config

  /** `default_zip`. */
  const DefaultZip := "dds-fmu" + ".fmu"

  // ---------------------------------------------------------------------------
  // std::filesystem::path decomposition

  /** `filename()`: what follows the last '/', the whole path when there is none. */
  function Filename(p: string): (f: string)
    ensures |f| <= |p| && p[|p| - |f|..] == f
  {
    p[LastIndex(p, '/') + 1..]
  }

  predicate Without(s: string, c: char) {
    forall k :: 0 <= k < |s| ==> s[k] != c
  }

  lemma FilenameWithoutSlash(p: string)
    ensures Without(Filename(p), '/')
  {
    var i := LastIndex(p, '/');
    var f := Filename(p);
    forall k | 0 <= k < |f| ensures f[k] != '/' {
      assert f[k] == p[i + 1 + k];
    }
  }

  predicate HasFilename(p: string) {
    Filename(p) != ""
  }

  /** `extension()`: the filename from its last '.', unless the filename is "." or "..", or
      has no '.', or its only candidate '.' is its first character (".profile" has none). */
  function Extension(p: string): (e: string)
    ensures e == "" || e[0] == '.'
    ensures |e| <= |Filename(p)| && Filename(p)[|Filename(p)| - |e|..] == e
  {
    var f := Filename(p);
    var d := LastIndex(f, '.');
    if f == "." || f == ".." || d <= 0 then "" else f[d..]
  }

  predicate HasExtension(p: string) {
    Extension(p) != ""
  }

  /** The path without its extension. */
  function Stem(p: string): string {
    p[..|p| - |Extension(p)|]
  }

  /** `replace_extension("fmu")`: the extension removed, then ".fmu" appended. */
  function ReplaceExtensionFmu(p: string): string {
    Stem(p) + ".fmu"
  }

  /** `fs::absolute(p)` on POSIX: `p` itself when absolute, otherwise the working directory joined with it. */
  function Absolute(cwd: string, p: string): string {
    if IsAbsolute(p) then p else Join(cwd, p)
  }

  // --- Facts about the last occurrence of a character

  lemma {:induction false} LastIndexAppend(a: string, b: string, c: char)
    requires Without(b, c)
    ensures LastIndex(a + b, c) == LastIndex(a, c)
    decreases |b|
  {
    if |b| > 0 {
      var s := a + b;
      var b' := b[..|b| - 1];
      assert s[|s| - 1] == b[|b| - 1] != c;
      assert s[..|s| - 1] == a + b';
      assert Without(b', c) by {
        forall k | 0 <= k < |b'| ensures b'[k] != c { assert b'[k] == b[k]; }
      }
      LastIndexAppend(a, b', c);
    } else {
      assert a + b == a;
    }
  }

  /** In `a + [c] + b` with no `c` in `b`, the last `c` is the one after `a`. */
  lemma LastIndexAt(a: string, b: string, c: char)
    requires Without(b, c)
    ensures LastIndex(a + [c] + b, c) == |a|
  {
    LastIndexAppend(a + [c], b, c);
    var s := a + [c];
    assert s[|s| - 1] == c;
  }

  /** Text without a '/' added at the end of a path extends its filename. */
  lemma FilenameAppend(p: string, t: string)
    requires Without(t, '/')
    ensures Filename(p + t) == Filename(p) + t
  {
    LastIndexAppend(p, t, '/');
    var i := LastIndex(p, '/');
    assert (p + t)[i + 1..] == p[i + 1..] + t;
  }

  /** A filename `g.fmu` with `g` not empty has extension ".fmu". */
  lemma FmuExtension(p: string, g: string)
    requires g != "" && Filename(p) == g + ".fmu"
    ensures Extension(p) == ".fmu"
  {
    var f := Filename(p);
    assert Without("fmu", '.');
    assert f == g + ['.'] + "fmu";
    LastIndexAt(g, "fmu", '.');
    assert f[|g|..] == ".fmu";
  }

  lemma FmuFilenameAppend(s: string)
    ensures Filename(s + ".fmu") == Filename(s) + ".fmu"
  {
    assert Without(".fmu", '/');
    FilenameAppend(s, ".fmu");
  }

  /** The extension is the tail of the path that the stem leaves off. */
  lemma StemAndExtension(p: string)
    ensures p == Stem(p) + Extension(p)
  {
    var f, e := Filename(p), Extension(p);
    assert p[|p| - |e|..] == e by {
      assert p[|p| - |f|..][|f| - |e|..] == e;
    }
  }

  /** The stem's filename is the filename without its extension, and it is never empty. */
  lemma StemFilename(p: string)
    requires HasFilename(p)
    ensures Filename(Stem(p)) + Extension(p) == Filename(p)
    ensures Filename(Stem(p)) != ""
  {
    var f, e := Filename(p), Extension(p);
    StemAndExtension(p);
    FilenameAppend(Stem(p), e);
    if e != "" {
      var d := LastIndex(f, '.');
      assert d > 0 && e == f[d..];
    }
  }

  /** Replacing the extension leaves a filename whose extension is exactly ".fmu". */
  lemma ReplacedExtension(p: string)
    requires HasFilename(p)
    ensures Filename(ReplaceExtensionFmu(p)) == Filename(Stem(p)) + ".fmu"
    ensures Extension(ReplaceExtensionFmu(p)) == ".fmu"
  {
    StemFilename(p);
    FmuFilenameAppend(Stem(p));
    FmuExtension(ReplaceExtensionFmu(p), Filename(Stem(p)));
  }

  // ---------------------------------------------------------------------------
  // prepare_for_zip: the output name

  /** The output path after the alternative is taken and a missing filename is supplied. */
  function Chosen(current: string, alternative: string): string {
    var z := if alternative != "" then alternative else current;
    if !HasFilename(z) then Join(z, DefaultZip) else z
  }

  /** What `prepare_for_zip` leaves in `zip_output` once its directory checks pass. */
  function NormalizedOutput(current: string, alternative: string): string {
    var z2 := Chosen(current, alternative);
    var z3 := if !HasExtension(z2) then ReplaceExtensionFmu(z2) else z2;
    if HasExtension(z3) && Extension(z3) != ".fmu" then ReplaceExtensionFmu(z3) else z3
  }

  /** A path without a filename ends in '/' or is empty, so `/=` adds no separator. */
  lemma ChosenHasFilename(current: string, alternative: string)
    ensures HasFilename(Chosen(current, alternative))
  {
    var z := if alternative != "" then alternative else current;
    if !HasFilename(z) {
      assert z == "" || EndsWithSeparator(z) by {
        var i := LastIndex(z, '/');
        assert i + 1 == |z|;
      }
      var j := Join(z, DefaultZip);
      assert j == z + DefaultZip;
      FilenameAppend(z, DefaultZip);
    }
  }

  /** The output always ends up with extension ".fmu", and it is the chosen path with whatever
      extension it had replaced by ".fmu". */
  lemma NormalizedOutputShape(current: string, alternative: string)
    ensures Extension(NormalizedOutput(current, alternative)) == ".fmu"
    ensures NormalizedOutput(current, alternative) == Stem(Chosen(current, alternative)) + ".fmu"
  {
    var z2 := Chosen(current, alternative);
    ChosenHasFilename(current, alternative);
    if !HasExtension(z2) {
      ReplacedExtension(z2);
    } else if Extension(z2) != ".fmu" {
      ReplacedExtension(z2);
    } else {
      StemAndExtension(z2);
    }
  }

  /** An output already named `*.fmu` is kept as it is, given directly or as the alternative. */
  lemma FmuOutputUnchanged(p: string, current: string)
    requires Extension(p) == ".fmu"
    ensures NormalizedOutput(p, "") == p
    ensures NormalizedOutput(current, p) == p
  {
    assert HasFilename(p);
  }

  /** Normalising twice changes nothing more. */
  lemma NormalizedOutputIdempotent(current: string, alternative: string)
    ensures var z := NormalizedOutput(current, alternative);
      NormalizedOutput(z, "") == z
  {
    NormalizedOutputShape(current, alternative);
    FmuOutputUnchanged(NormalizedOutput(current, alternative), current);
  }

  // ---------------------------------------------------------------------------
  // The file system and the preparation checks

  datatype FileSystem = FileSystem(dirs: set<string>, files: set<string>)

  /** `fs::exists`: a directory or a file. */
  predicate Exists(fs: FileSystem, p: string) {
    p in fs.dirs || p in fs.files
  }

  /** One test of a `prepare_for_*` method. */
  datatype Check = IsDirectory(path: string) | PathExists(path: string)

  predicate Holds(fs: FileSystem, c: Check) {
    match c
    case IsDirectory(p) => p in fs.dirs
    case PathExists(p) => Exists(fs, p)
  }

  /** The index of the first failing check, tried in order; None when all hold. */
  function FirstFailure(fs: FileSystem, cs: seq<Check>): (r: Option<nat>)
    ensures r.None? <==> forall k :: 0 <= k < |cs| ==> Holds(fs, cs[k])
    ensures r.Some? ==> r.value < |cs| && !Holds(fs, cs[r.value]) &&
                        forall k :: 0 <= k < r.value ==> Holds(fs, cs[k])
    decreases |cs|
  {
    if |cs| == 0 then None
    else if !Holds(fs, cs[0]) then Some(0)
    else
      var rest := FirstFailure(fs, cs[1..]);
      assert forall k :: 1 <= k < |cs| ==> cs[k] == cs[1..][k - 1];
      if rest.None? then None else Some(rest.value + 1)
  }

  // ---------------------------------------------------------------------------
  // CommandsInfo

  function ResourcesPath(fmu: string): string { Join(fmu, "resources") }
  function BinariesPath(fmu: string): string { Join(fmu, "binaries") }
  function TemplatePath(fmu: string): string { Join(Join(ResourcesPath(fmu), "config"), "modelDescription.xml") }
  function MappingPath(fmu: string): string { Join(Join(Join(ResourcesPath(fmu), "config"), "dds"), "ddsfmu_mapping.xml") }
  function IdlPath(fmu: string): string { Join(Join(Join(ResourcesPath(fmu), "config"), "idl"), "dds-fmu.idl") }

  /** `/` on a relative name that does not end in '/' always inserts exactly one separator later. */
  lemma JoinAfterName(a: string, n: string, m: string, nm: string)
    requires n != "" && !IsAbsolute(n) && !EndsWithSeparator(n) && !IsAbsolute(m)
    requires nm == n + "/" + m
    ensures Join(Join(a, n), m) == Join(a, nm)
  {
    assert nm[0] == n[0];
    if a == "" || EndsWithSeparator(a) {
      var j := a + n;
      assert Join(a, n) == j && j[|j| - 1] == n[|n| - 1];
      assert Join(j, m) == j + "/" + m;
      assert Join(a, nm) == a + nm;
    } else {
      var j := a + "/" + n;
      assert Join(a, n) == j && j[|j| - 1] == n[|n| - 1];
      assert Join(j, m) == j + "/" + m;
      assert Join(a, nm) == a + "/" + nm;
    }
  }

  /** A relative argument is made absolute against the (absolute) working directory. */
  lemma AbsoluteIsAbsolute(cwd: string, p: string)
    requires IsAbsolute(cwd)
    ensures IsAbsolute(Absolute(cwd, p))
  {
    if !IsAbsolute(p) {
      JoinShape(cwd, p);
      assert Join(cwd, p)[..|cwd|] == cwd;
    }
  }

  /** The configuration files' paths relative to the FMU root. */
  const ConfigDir := "resources" + "/" + "config"
  const TemplateFile := ConfigDir + "/" + "modelDescription.xml"
  const MappingFile := ConfigDir + "/" + "dds" + "/" + "ddsfmu_mapping.xml"
  const IdlFile := ConfigDir + "/" + "idl" + "/" + "dds-fmu.idl"

  lemma ConfigDirUnderRoot(fmu: string)
    ensures Join(ResourcesPath(fmu), "config") == Join(fmu, ConfigDir)
    ensures ConfigDir != "" && !IsAbsolute(ConfigDir) && !EndsWithSeparator(ConfigDir)
  {
    JoinAfterName(fmu, "resources", "config", ConfigDir);
  }

  /** The configuration files lie under the FMU root at fixed relative paths. */
  lemma TemplateUnderRoot(fmu: string)
    ensures TemplatePath(fmu) == Join(fmu, TemplateFile)
  {
    ConfigDirUnderRoot(fmu);
    JoinAfterName(fmu, ConfigDir, "modelDescription.xml", TemplateFile);
  }

  lemma MappingUnderRoot(fmu: string)
    ensures MappingPath(fmu) == Join(fmu, MappingFile)
  {
    ConfigDirUnderRoot(fmu);
    var dds := ConfigDir + "/" + "dds";
    JoinAfterName(fmu, ConfigDir, "dds", dds);
    JoinAfterName(fmu, dds, "ddsfmu_mapping.xml", MappingFile);
  }

  lemma IdlUnderRoot(fmu: string)
    ensures IdlPath(fmu) == Join(fmu, IdlFile)
  {
    ConfigDirUnderRoot(fmu);
    var idl := ConfigDir + "/" + "idl";
    JoinAfterName(fmu, ConfigDir, "idl", idl);
    JoinAfterName(fmu, idl, "dds-fmu.idl", IdlFile);
  }

  /** A name without '/' joined onto a directory is the filename of the result. */
  lemma JoinedFilename(dir: string, name: string)
    requires name != "" && Without(name, '/')
    ensures Filename(Join(dir, name)) == name
  {
    var z := Join(dir, name);
    if dir == "" {
      assert z == "" + name;
      FilenameAppend("", name);
    } else if EndsWithSeparator(dir) {
      assert z == dir + name;
      FilenameAppend(dir, name);
      assert Filename(dir) == "";
    } else {
      assert z == (dir + "/") + name;
      FilenameAppend(dir + "/", name);
      assert LastIndex(dir + "/", '/') == |dir|;
    }
  }

  /** The default output lies in the working directory and is already an FMU name. */
  lemma DefaultOutputIsFmu(cwd: string)
    requires IsAbsolute(cwd)
    ensures var z := Absolute(cwd, DefaultZip);
      IsAbsolute(z) && Filename(z) == DefaultZip && Extension(z) == ".fmu"
  {
    var z := Absolute(cwd, DefaultZip);
    AbsoluteIsAbsolute(cwd, DefaultZip);
    assert Without(DefaultZip, '/');
    assert !IsAbsolute(DefaultZip);
    JoinedFilename(cwd, DefaultZip);
    FmuExtension(z, "dds-fmu");
  }

  /** The paths the repacker works with, derived from the PATH argument. */
  class CommandsInfo {
    const fmuPath: string
    const resourcesPath: string
    const binariesPath: string
    const modelDescriptionTemplate: string
    const ddsfmuMapping: string
    const ddsfmuIdl: string
    const defaultZip: string
    var zipOutput: string

    constructor (cwd: string, inPath: string)
      requires IsAbsolute(cwd) && inPath != ""
      ensures fmuPath == Absolute(cwd, inPath)
      ensures resourcesPath == ResourcesPath(fmuPath) && binariesPath == BinariesPath(fmuPath)
      ensures modelDescriptionTemplate == TemplatePath(fmuPath)
      ensures ddsfmuMapping == MappingPath(fmuPath) && ddsfmuIdl == IdlPath(fmuPath)
      ensures defaultZip == DefaultZip && zipOutput == Absolute(cwd, DefaultZip)
    {
      defaultZip := DefaultZip;
      var fmu := Absolute(cwd, inPath);
      var resources := Join(fmu, "resources");
      fmuPath := fmu;
      resourcesPath := resources;
      binariesPath := Join(fmu, "binaries");
      modelDescriptionTemplate := Join(Join(resources, "config"), "modelDescription.xml");
      ddsfmuMapping := Join(Join(Join(resources, "config"), "dds"), "ddsfmu_mapping.xml");
      ddsfmuIdl := Join(Join(Join(resources, "config"), "idl"), "dds-fmu.idl");
      zipOutput := Absolute(cwd, DefaultZip);
    }

    /** The checks of `prepare_for_zip`, in order. */
    function ZipChecks(): seq<Check> {
      [IsDirectory(fmuPath), IsDirectory(resourcesPath), IsDirectory(binariesPath)]
    }

    /** The checks of `prepare_for_generate`, in order. */
    function GenerateChecks(): seq<Check> {
      [IsDirectory(fmuPath), IsDirectory(resourcesPath),
       PathExists(modelDescriptionTemplate), PathExists(ddsfmuMapping), PathExists(ddsfmuIdl)]
    }

    /** `prepare_for_zip`: 1 at the first missing directory, with the output untouched; otherwise
        the output is normalised and 0 returned. */
    method PrepareForZip(fs: FileSystem, alternative: string) returns (code: int)
      requires defaultZip == DefaultZip
      modifies this`zipOutput
      ensures code == (if FirstFailure(fs, ZipChecks()).None? then 0 else 1)
      ensures code == 1 ==> zipOutput == old(zipOutput)
      ensures code == 0 ==> zipOutput == NormalizedOutput(old(zipOutput), alternative)
    {
      if fmuPath !in fs.dirs {
        assert !Holds(fs, ZipChecks()[0]);
        return 1;
      }
      if resourcesPath !in fs.dirs {
        assert !Holds(fs, ZipChecks()[1]);
        return 1;
      }
      if binariesPath !in fs.dirs {
        assert !Holds(fs, ZipChecks()[2]);
        return 1;
      }
      assert forall k :: 0 <= k < 3 ==> Holds(fs, ZipChecks()[k]);
      if alternative != "" {
        zipOutput := alternative;
      }
      if !HasFilename(zipOutput) {
        zipOutput := Join(zipOutput, defaultZip);
      }
      if !HasExtension(zipOutput) {
        zipOutput := ReplaceExtensionFmu(zipOutput);
      }
      if HasExtension(zipOutput) && Extension(zipOutput) != ".fmu" {
        zipOutput := ReplaceExtensionFmu(zipOutput);
      }
      return 0;
    }

    /** `prepare_for_generate`: 1 at the first missing directory or file, otherwise 0. */
    method PrepareForGenerate(fs: FileSystem) returns (code: int)
      ensures code == (if FirstFailure(fs, GenerateChecks()).None? then 0 else 1)
    {
      if fmuPath !in fs.dirs {
        assert !Holds(fs, GenerateChecks()[0]);
        return 1;
      }
      if resourcesPath !in fs.dirs {
        assert !Holds(fs, GenerateChecks()[1]);
        return 1;
      }
      if !Exists(fs, modelDescriptionTemplate) {
        assert !Holds(fs, GenerateChecks()[2]);
        return 1;
      }
      if !Exists(fs, ddsfmuMapping) {
        assert !Holds(fs, GenerateChecks()[3]);
        return 1;
      }
      if !Exists(fs, ddsfmuIdl) {
        assert !Holds(fs, GenerateChecks()[4]);
        return 1;
      }
      assert forall k :: 0 <= k < 5 ==> Holds(fs, GenerateChecks()[k]);
      return 0;
    }
  }

  /** The output `zip` and `create` write to: normalised when the directory checks pass, the
      default otherwise, since the commands ignore `prepare_for_zip`'s return code. */
  function ZipTarget(fs: FileSystem, cwd: string, inPath: string, alternative: string): string {
    var fmu := Absolute(cwd, inPath);
    if FirstFailure(fs, [IsDirectory(fmu), IsDirectory(ResourcesPath(fmu)), IsDirectory(BinariesPath(fmu))]).None?
    then NormalizedOutput(Absolute(cwd, DefaultZip), alternative)
    else Absolute(cwd, DefaultZip)
  }

  // ---------------------------------------------------------------------------
  // zip_fmu

  /** What the zip library does with one entry. */
  datatype EntryStatus = Writable | OpenFails | WriteFails | CloseFails

  /** One step of the recursive directory walk: an entry, root-relative, or a step that throws
      `filesystem_error` (a walk of a missing root is a single such step). */
  datatype WalkEntry =
    | RegularFile(relative: string, status: EntryStatus)
    | NotRegular(relative: string)
    | IterationFails

  datatype ZipOutcome =
    | Refused                                   // the output exists and there is no force flag
    | OpenFailed                                // zip_open returned null
    | WalkThrew(added: seq<string>)             // the walk threw; the caller catches it
    | EntryFailed(entry: string, added: seq<string>)
    | Zipped(added: seq<string>)

  /** What a command's callback returns after a zip: 0 only for a completed archive; a thrown walk
      is caught by the callback, which returns 1.  The callback's result never becomes the
      process's exit status: `main` returns 0 after any parse that does not throw. */
  function CallbackResult(o: ZipOutcome): int {
    if o.Zipped? then 0 else 1
  }

  /** Whether a walk entry is the output archive itself. */
  predicate IsOutput(root: string, out: string, rel: string) {
    Join(root, rel) == out
  }

  /** The loop of `zip_fmu` over the rest of the walk, with the entries `added` so far. */
  function ZipWalk(root: string, out: string, walk: seq<WalkEntry>, added: seq<string>): ZipOutcome
    decreases |walk|
  {
    if |walk| == 0 then Zipped(added)
    else match walk[0]
      case IterationFails => WalkThrew(added)
      case NotRegular(_) => ZipWalk(root, out, walk[1..], added)
      case RegularFile(rel, status) =>
        if IsOutput(root, out, rel) then ZipWalk(root, out, walk[1..], added)
        else if status != Writable then EntryFailed(rel, added)
        else ZipWalk(root, out, walk[1..], added + [rel])
  }

  function ZipSpec(fs: FileSystem, root: string, out: string, force: bool, opens: bool, walk: seq<WalkEntry>): ZipOutcome {
    if Exists(fs, out) && !force then Refused
    else if !opens then OpenFailed
    else ZipWalk(root, out, walk, [])
  }

  /** `zip_fmu`; `opens` is whether `zip_open` succeeds. */
  method ZipFmu(fs: FileSystem, fmuRoot: string, outFile: string, force: bool, opens: bool, walk: seq<WalkEntry>)
    returns (outcome: ZipOutcome)
    ensures outcome == ZipSpec(fs, fmuRoot, outFile, force, opens, walk)
  {
    if Exists(fs, outFile) && !force {
      return Refused;
    }
    if !opens {
      return OpenFailed;
    }
    var added: seq<string> := [];
    var i := 0;
    while i < |walk|
      invariant 0 <= i <= |walk|
      invariant ZipWalk(fmuRoot, outFile, walk[i..], added) == ZipWalk(fmuRoot, outFile, walk, [])
    {
      assert walk[i..][1..] == walk[i + 1..];
      match walk[i] {
        case IterationFails =>
          return WalkThrew(added);
        case NotRegular(_) =>
        case RegularFile(rel, status) =>
          if Join(fmuRoot, rel) == outFile {
            i := i + 1;
            continue;
          }
          if status != Writable {
            return EntryFailed(rel, added);
          }
          added := added + [rel];
      }
      i := i + 1;
    }
    return Zipped(added);
  }

  /** The entries a complete walk adds: its regular files other than the output, in walk order. */
  function Selected(root: string, out: string, walk: seq<WalkEntry>): seq<string>
    decreases |walk|
  {
    if |walk| == 0 then [] else Added(root, out, walk[0]) + Selected(root, out, walk[1..])
  }

  /** What one walk entry adds when the zip gets past it. */
  function Added(root: string, out: string, e: WalkEntry): seq<string> {
    if e.RegularFile? && !IsOutput(root, out, e.relative) then [e.relative] else []
  }

  /** An entry the zip gets past: not a throwing step, and writable if it is to be added. */
  predicate Survives(root: string, out: string, e: WalkEntry) {
    !e.IterationFails? && (e.RegularFile? && !IsOutput(root, out, e.relative) ==> e.status == Writable)
  }

  /** A walk the zip survives: no step throws and every entry to be added can be written. */
  predicate Clean(root: string, out: string, walk: seq<WalkEntry>) {
    forall k :: 0 <= k < |walk| ==> Survives(root, out, walk[k])
  }

  lemma CleanCons(root: string, out: string, walk: seq<WalkEntry>)
    requires |walk| > 0
    ensures Clean(root, out, walk) <==> Survives(root, out, walk[0]) && Clean(root, out, walk[1..])
  {
    var rest := walk[1..];
    if Survives(root, out, walk[0]) && Clean(root, out, rest) {
      forall k | 0 <= k < |walk| ensures Survives(root, out, walk[k]) {
        if k > 0 { assert walk[k] == rest[k - 1]; }
      }
    }
    if Clean(root, out, walk) {
      forall k | 0 <= k < |rest| ensures Survives(root, out, rest[k]) {
        assert rest[k] == walk[k + 1];
      }
    }
  }

  /** The zip completes exactly on a clean walk. */
  lemma {:induction false} ZipWalkComplete(root: string, out: string, walk: seq<WalkEntry>, added: seq<string>)
    ensures ZipWalk(root, out, walk, added).Zipped? <==> Clean(root, out, walk)
    decreases |walk|
  {
    if |walk| > 0 {
      var rest := walk[1..];
      CleanCons(root, out, walk);
      match walk[0]
      case IterationFails =>
      case NotRegular(_) =>
        ZipWalkComplete(root, out, rest, added);
      case RegularFile(rel, status) =>
        if IsOutput(root, out, rel) {
          ZipWalkComplete(root, out, rest, added);
        } else if status == Writable {
          ZipWalkComplete(root, out, rest, added + [rel]);
        }
    }
  }

  /** Past an entry it survives, the zip goes on with what that entry adds. */
  lemma ZipWalkStep(root: string, out: string, walk: seq<WalkEntry>, added: seq<string>)
    requires |walk| > 0 && Survives(root, out, walk[0])
    ensures ZipWalk(root, out, walk, added) == ZipWalk(root, out, walk[1..], added + Added(root, out, walk[0]))
  {
    if !(walk[0].RegularFile? && !IsOutput(root, out, walk[0].relative)) {
      assert added + [] == added;
    }
  }

  /** A clean walk adds exactly the selected entries, in walk order. */
  lemma {:induction false} ZipWalkAdds(root: string, out: string, walk: seq<WalkEntry>, added: seq<string>)
    requires Clean(root, out, walk)
    ensures ZipWalk(root, out, walk, added) == Zipped(added + Selected(root, out, walk))
    decreases |walk|
  {
    if |walk| > 0 {
      var rest := walk[1..];
      var m := Added(root, out, walk[0]);
      assert Clean(root, out, rest) && Survives(root, out, walk[0]) by { CleanCons(root, out, walk); }
      ZipWalkStep(root, out, walk, added);
      ZipWalkAdds(root, out, rest, added + m);
      ConcatAssoc(added, m, Selected(root, out, rest));
    } else {
      assert added + [] == added;
    }
  }

  /** Every regular file the walk meets is selected, except the output itself, and nothing else is. */
  lemma {:induction false} SelectedMembers(root: string, out: string, walk: seq<WalkEntry>, rel: string)
    ensures rel in Selected(root, out, walk) <==>
      !IsOutput(root, out, rel) && exists k :: 0 <= k < |walk| && walk[k].RegularFile? && walk[k].relative == rel
    decreases |walk|
  {
    if |walk| > 0 {
      SelectedMembers(root, out, walk[1..], rel);
      var rest := walk[1..];
      if exists k :: 0 <= k < |rest| && rest[k].RegularFile? && rest[k].relative == rel {
        var k :| 0 <= k < |rest| && rest[k].RegularFile? && rest[k].relative == rel;
        assert walk[k + 1] == rest[k];
      }
      if exists k :: 0 <= k < |walk| && walk[k].RegularFile? && walk[k].relative == rel {
        var k :| 0 <= k < |walk| && walk[k].RegularFile? && walk[k].relative == rel;
        if k > 0 { assert rest[k - 1] == walk[k]; }
      }
    }
  }

  // ---------------------------------------------------------------------------
  // generate_xml: the mapping file fed to the distributor

  /** `generate_xml` up to the distributor's mapping: outputs first, then inputs. */
  function GenerateSpec(outs: seq<MappingEntry>, ins: seq<MappingEntry>, idl: IdlContext): Result<Distribution, string> {
    match EntryTopics(outs, idl)
    case Err(m) => Err(m)
    case Ok(o) =>
      match EntryTopics(ins, idl)
      case Err(m) => Err(m)
      case Ok(i) => Ok(Distribute(o, i))
  }

  /** The `mapper_iterator` lambda over the elements of one kind. */
  method MapperIterator(distributor: SignalDistributor, es: seq<MappingEntry>, idl: IdlContext, isInNotOut: bool)
    returns (failure: Option<string>)
    modifies distributor
    ensures failure.Some? <==> EntryTopics(es, idl).Err?
    ensures failure.Some? ==> failure.value == EntryTopics(es, idl).error
    ensures failure.None? ==> distributor.State() == AddTopics(old(distributor.State()), EntryTopics(es, idl).value, isInNotOut)
  {
    ghost var d0 := distributor.State();
    ghost var ts: seq<Topic> := [];
    var i := 0;
    while i < |es|
      invariant 0 <= i <= |es|
      invariant EntryTopics(es[..i], idl) == Ok(ts)
      invariant distributor.State() == AddTopics(d0, ts, isInNotOut)
    {
      assert es[..i + 1][..i] == es[..i];
      var e := es[i];
      if e.topic.None? || e.typeName.None? {
        EntryTopicsFailFrom(es, idl, i + 1);
        return Some(IncompleteUserData);
      }
      var topicName := e.topic.value;
      var topicType := e.typeName.value;
      if topicType !in idl {
        EntryTopicsFailFrom(es, idl, i + 1);
        return Some(UnknownIdlType);
      }
      distributor.Add(topicName, idl[topicType], isInNotOut);
      assert (ts + [Topic(topicName, idl[topicType])])[..|ts|] == ts;
      ts := ts + [Topic(topicName, idl[topicType])];
      i := i + 1;
    }
    assert es[..i] == es;
    return None;
  }

  /** `generate_xml` up to the mapping handed to the XML generators. */
  method GenerateXml(outs: seq<MappingEntry>, ins: seq<MappingEntry>, idl: IdlContext)
    returns (r: Result<Distribution, string>)
    ensures r == GenerateSpec(outs, ins, idl)
  {
    var distributor := new SignalDistributor();
    var failure := MapperIterator(distributor, outs, idl, false);
    if failure.Some? {
      return Err(failure.value);
    }
    failure := MapperIterator(distributor, ins, idl, true);
    if failure.Some? {
      return Err(failure.value);
    }
    return Ok(distributor.State());
  }

  /** In a generated mapping, per FMI type, value references run 0, 1, ... in order, and every
      output comes before every input. */
  lemma GeneratedOutputsFirst(outs: seq<MappingEntry>, ins: seq<MappingEntry>, idl: IdlContext,
                              t: FmiType, p: nat, q: nat)
    requires GenerateSpec(outs, ins, idl).Ok?
    requires t != Unknown
    requires p < q < |OfType(GenerateSpec(outs, ins, idl).value.mapping, t)|
    ensures var m := OfType(GenerateSpec(outs, ins, idl).value.mapping, t);
      m[p].valueRef == p && m[q].valueRef == q &&
      (m[q].causality == "output" ==> m[p].causality == "output")
  {
    ValueReferencesPerType(EntryTopics(outs, idl).value, EntryTopics(ins, idl).value, t, p, q);
  }

  // ---------------------------------------------------------------------------
  // The commands

  /** The callback of `repacker zip PATH [-o FILENAME] [-f]`; `returned` is the value it returns. */
  method ZipCommand(cwd: string, inPath: string, output: string, force: bool,
                    fs: FileSystem, opens: bool, walk: seq<WalkEntry>)
    returns (returned: int, outcome: ZipOutcome)
    requires IsAbsolute(cwd) && inPath != ""
    ensures outcome == ZipSpec(fs, Absolute(cwd, inPath), ZipTarget(fs, cwd, inPath, output), force, opens, walk)
    ensures returned == CallbackResult(outcome)
  {
    var info := new CommandsInfo(cwd, inPath);
    var ignored := info.PrepareForZip(fs, output);
    outcome := ZipFmu(fs, info.fmuPath, info.zipOutput, force, opens, walk);
    returned := CallbackResult(outcome);
  }

  /** The callback of `repacker generate PATH`; `returned` is the value it returns. */
  method GenerateCommand(cwd: string, inPath: string, fs: FileSystem,
                         outs: seq<MappingEntry>, ins: seq<MappingEntry>, idl: IdlContext)
    returns (returned: int, generated: Result<Distribution, string>)
    requires IsAbsolute(cwd) && inPath != ""
    ensures generated == GenerateSpec(outs, ins, idl)
    ensures returned == (if generated.Ok? then 0 else 1)
  {
    var info := new CommandsInfo(cwd, inPath);
    var ignored := info.PrepareForGenerate(fs);
    generated := GenerateXml(outs, ins, idl);
    returned := if generated.Ok? then 0 else 1;
  }

  /** The callback of `repacker create PATH [-o FILENAME] [-f]`: generate, then zip only if that
      succeeded; `returned` is the value it returns. */
  method CreateCommand(cwd: string, inPath: string, output: string, force: bool, fs: FileSystem,
                       outs: seq<MappingEntry>, ins: seq<MappingEntry>, idl: IdlContext,
                       opens: bool, walk: seq<WalkEntry>)
    returns (returned: int, generated: Result<Distribution, string>, zipped: Option<ZipOutcome>)
    requires IsAbsolute(cwd) && inPath != ""
    ensures generated == GenerateSpec(outs, ins, idl)
    ensures zipped.Some? <==> generated.Ok?
    ensures zipped.Some? ==> zipped.value == ZipSpec(fs, Absolute(cwd, inPath), ZipTarget(fs, cwd, inPath, output), force, opens, walk)
    ensures returned == (if zipped.Some? then CallbackResult(zipped.value) else 1)
  {
    var info := new CommandsInfo(cwd, inPath);
    var ignoredGenerate := info.PrepareForGenerate(fs);
    var ignoredZip := info.PrepareForZip(fs, output);
    generated := GenerateXml(outs, ins, idl);
    if generated.Err? {
      return 1, generated, None;
    }
    var outcome := ZipFmu(fs, info.fmuPath, info.zipOutput, force, opens, walk);
    return CallbackResult(outcome), generated, Some(outcome);
  }

  /** Because the commands ignore `prepare_for_zip`'s answer, a missing FMU directory still opens
      the default archive in the working directory, whatever output was asked for; the walk
      of the missing root then throws and the command's callback returns 1. */
  lemma MissingRootOpensDefaultArchive(fs: FileSystem, cwd: string, inPath: string, output: string, force: bool)
    requires IsAbsolute(cwd) && Absolute(cwd, inPath) !in fs.dirs
    requires force || !Exists(fs, Absolute(cwd, DefaultZip))
    ensures ZipTarget(fs, cwd, inPath, output) == Absolute(cwd, DefaultZip)
    ensures ZipSpec(fs, Absolute(cwd, inPath), ZipTarget(fs, cwd, inPath, output), force, true, [IterationFails]) == WalkThrew([])
  {
  }
}
