# dds-fmu in Dafny

dds-fmu is an FMI 2.0 co-simulation FMU that bridges an FMI simulation and DDS
topics. A mapping file (`resources/config/dds/ddsfmu_mapping.xml`) lists, under
`<ddsfmu>`, the topics the FMU publishes (`<fmu_out>`) and subscribes to (`<fmu_in>`).
Each entry names an IDL struct type. This project models the sequential logic around that mapping.

- **Signals** (`signals.dfy`): the signal distributor. Each primitive, enumerated or
  string member of every mapped topic becomes a ScalarVariable with a value
  reference, numbered per FMI base type (section 2.2.7 of the FMI 2.0 standard).
  Output members are counted for ModelStructure/Outputs (section 2.2.8).
- **Mapper** (`datamapper.dfy`): the DataMapper. It holds the reader and writer
  visitor tables that FMI get and set calls index, with per-type offsets. The class
  runs the registration switch as the source writes it, which has a `UINT_32` gap (see
  Findings). The lemmas about `reset` take the switch as a parameter and hold for both
  the switch as written and the corrected one.
- **KeyFilter** and **StdConv** (`keyfilter.dfy`, `stdconv.dfy`): the custom key
  content filter. Its registry is keyed by reader GUID text. It binds `@key` members
  to positional string parameters and compares keys positionally. The factory guards
  its return codes. `std::stoi`/`stoll`/`stoul`/`stoull` and the stream bool read
  are written out.
- **Repacker** (`repacker.dfy`): the `repacker` tool. It derives the FMU paths,
  normalises the output name (the result always ends in `.fmu`), runs the ordered
  existence checks, applies the overwrite guard of `zip_fmu` and selects the archive
  members. It also covers the command flow of `zip`, `generate` and `create`.
- **Recipe** (`recipe.dfy`): the Conan recipe. It covers option pruning, requirements,
  the compiler check, toolchain variables, the licence manifest (ordering and column
  alignment) and the build step order.
- **Hooks** (`hooks.dfy`): the CI hooks. They have an exact-name gate, choose a
  destination from the environment, scan a build tree recursively by extension and
  copy into a flat directory.
- Shared modules: **XTypes** (`xtypes.dfy`: type kinds, a struct instance as the node
  sequence `for_each` visits, integer widths and `static_cast`), **Config**
  (`config.dfy`: the parsed mapping file and the per-element checks both walkers
  make), **Paths** (`paths.dfy`: POSIX path joining) and **Wrappers** (Option, Result).

Objects whose fields the source updates are classes with those fields, and each of their
methods is proved against a specification function. The lemmas about those functions
carry the properties.

## Model

| member | source | states |
|---|---|---|
| Signals.ResolveType | src/detail/SignalDistributor.cpp:64-101 | only a signal leaf gets an FMI type; Boolean exactly for BOOLEAN |
| Signals.IntegerKindsFitFmiInteger | src/detail/SignalDistributor.cpp:64-101 | every value of a kind resolved to Integer (other than enumerations) fits a 32-bit FMI Integer |
| Signals.WideIntegerKindsAreReal | src/detail/SignalDistributor.cpp:64-101 | an integer kind wider than 32-bit signed resolves to Real |
| Signals.Causality | src/detail/SignalDistributor.cpp:26-28 | the causality is "input" exactly for an input topic |
| Signals.SignalDistributor.constructor | src/detail/SignalDistributor.cpp:4-5 | all four per-type counters and the output counter start at 0, mapping empty |
| Signals.SignalDistributor.Add | src/detail/SignalDistributor.cpp:21-62 | the new state is the traversal of the topic's nodes applied to the old one |
| Signals.SignalDistributor.Callback | src/detail/SignalDistributor.cpp:30-60 | one callback: the output count and at most one appended entry, as `Visit` gives them |
| Signals.SignalDistributor.Append | src/detail/SignalDistributor.cpp:43-55 | appends (current counter of the type, name, causality, type) and bumps that counter only |
| Signals.VisitCounter | src/detail/SignalDistributor.cpp:43-58 | a callback bumps the counter of `t` by one exactly for a member of type `t`; Unknown consumes nothing |
| Signals.VisitOutputs | src/detail/SignalDistributor.cpp:34-35 | the output count grows by one for every leaf of an output topic, Unknown ones included, and never for inputs |
| Signals.AddTopicOutputs | src/detail/SignalDistributor.cpp:30-60 | a topic adds its leaf count to the outputs when it is an output, nothing when it is an input |
| Signals.AddTopicOfType | src/detail/SignalDistributor.cpp:30-60 | per type, a topic appends its members of that type in traversal order, numbered from the current counter |
| Signals.AddTopicsOfType | src/detail/SignalDistributor.cpp:21-62 | the same over a list of topics: numbering continues across topics and is never reset |
| Signals.DistributeNumbersEachType | src/repacker/repacker.cpp:191-193 | outputs first, then inputs: per type the value references are exactly 0..n-1 in that order, and the output count is the outputs' leaf count |
| Signals.ValueReferencesPerType | src/detail/SignalDistributor.cpp:45-55 | the entry at position p has value reference p, and no input precedes an output |
| Signals.AllSignalsDirection | src/detail/SignalDistributor.cpp:26-39 | every member collected from a list of topics carries that list's direction |
| Config.EntryTopic | src/detail/DataMapper.cpp:62-77 | an element succeeds exactly when it has both attributes and a known type; otherwise "Incomplete user data" or "Unknown idl type" |
| Config.EntryTopicsOk | src/detail/DataMapper.cpp:45-81 | the topics of a list come out one per element, in order, exactly when no element fails |
| Config.EntryTopicsFailFrom | src/repacker/repacker.cpp:161-189 | the first failing element decides the error of the whole list |
| Mapper.DirectionOf | src/detail/DataMapper.hpp:51-54 | Write exactly for FMU inputs |
| Mapper.Registered | src/detail/DataMapper.cpp:124-278 | a member gets a visitor only in the table of its resolved type |
| Mapper.DataMapper.constructor | src/detail/DataMapper.hpp:55 | a new mapper is in the cleared state: empty tables and store, every offset 0 (the source leaves the offsets uninitialised) |
| Mapper.DataMapper.Clear | src/detail/DataMapper.cpp:12-26 | all eight visitor vectors and the store empty, all four offsets 0 |
| Mapper.DataMapper.Reset | src/detail/DataMapper.cpp:28-91 | state and outcome are those of the reset specification under the switch as written: clear, outputs (Read), offsets, inputs (Write) |
| Mapper.DataMapper.SetOffsets | src/detail/DataMapper.cpp:85-88 | each offset becomes its type's reader count |
| Mapper.DataMapper.MapEntries | src/detail/DataMapper.cpp:45-81 | the element loop, under the switch as written, stops at the first element that throws, keeping what earlier ones registered |
| Mapper.DataMapper.Add | src/detail/DataMapper.cpp:93-280 | an existing (topic, direction) throws before anything changes; otherwise the instance is stored and its members registered by the switch as written |
| Mapper.DataMapper.Callback | src/detail/DataMapper.cpp:124-278 | one traversal callback, as the switch as written gives it (no UINT_32 case in the Real branch) |
| Mapper.DataMapper.Bind | src/detail/DataMapper.cpp:137-271 | a reader always, and a writer too for an input, bound to the same member |
| Mapper.DataMapper.GetDouble | src/detail/DataMapper.cpp:286-288 | reader `vr` of the Real table, out of range otherwise |
| Mapper.DataMapper.GetInt | src/detail/DataMapper.cpp:294-296 | reader `vr` of the Integer table, out of range otherwise |
| Mapper.DataMapper.GetBool | src/detail/DataMapper.cpp:302-304 | reader `vr` of the Boolean table, out of range otherwise |
| Mapper.DataMapper.GetString | src/detail/DataMapper.cpp:310-312 | reader `vr` of the String table, out of range otherwise |
| Mapper.DataMapper.SetDouble | src/detail/DataMapper.cpp:282-284 | writer `vr - offset` of the Real table writes its member; out of range changes nothing |
| Mapper.DataMapper.SetInt | src/detail/DataMapper.cpp:290-292 | writer `vr - offset` of the Integer table writes its member; out of range changes nothing |
| Mapper.DataMapper.SetBool | src/detail/DataMapper.cpp:298-300 | writer `vr - offset` of the Boolean table writes its member; out of range changes nothing |
| Mapper.DataMapper.SetString | src/detail/DataMapper.cpp:306-308 | writer `vr - offset` of the String table writes its member; out of range changes nothing |
| Mapper.DataMapper.DataRef | src/detail/DataMapper.hpp:96-102 | found exactly when (topic, direction) is stored, and then it is that entry |
| Mapper.ReadValue | src/detail/visitors.hpp:15-18 | a reader always yields a value of its FMI type |
| Mapper.BindableMembers | src/detail/DataMapper.cpp:124-278 | a member is kept exactly when it is listed and the switch registers its kind |
| Mapper.BindableAppend | src/detail/DataMapper.cpp:45-81 | filtering two lists one after the other is filtering their concatenation |
| Mapper.RegisteredResolved | src/detail/DataMapper.cpp:124-278 | the corrected switch registers every resolved kind in its resolved table; the switch as written does so for every kind but UINT_32 |
| Mapper.BindableAllSignals | src/detail/DataMapper.cpp:124-278 | with the corrected switch, or for any type other than Real, every member of a type gets a visitor |
| Mapper.RegisterTable | src/detail/DataMapper.cpp:124-278 | one callback adds the member's visitor to the table the switch registers it in, and nowhere else |
| Mapper.AddSlotsTable | src/detail/DataMapper.cpp:96-107 | `add`'s traversal grows each table by the topic's members the switch registers there, in traversal order |
| Mapper.AddSpecTable | src/detail/DataMapper.cpp:96-107 | for either switch, `add` succeeds exactly for a new (topic, direction); it then grows each table by that topic's members the switch registers there; otherwise it throws "Tried to create existing topic" with the state unchanged |
| Mapper.EntriesTable | src/detail/DataMapper.cpp:45-81 | for either switch, accepted elements grow each table by their topics' registered members, in order |
| Mapper.EntriesDone | src/detail/DataMapper.cpp:45-107 | for either switch, a direction's elements all go in exactly when each names a topic and a known type and no topic repeats or is already stored |
| Mapper.ResetDone | src/detail/DataMapper.cpp:28-91 | for either switch, `reset` succeeds exactly when `<ddsfmu>` is present, every element is complete and known, and no topic repeats within a direction; one topic may be both output and input |
| Mapper.ResetTables | src/detail/DataMapper.cpp:83-89 | for either switch, after `reset`, per type: readers are the registered output members then the registered input members, writers the registered input members, offset the registered output count |
| Mapper.ResetAligned | src/detail/DataMapper.cpp:117 | for either switch, per type, writers = readers - offset, and reader `offset + j` is writer `j` |
| Mapper.ValueReferencesAgree | src/detail/DataMapper.cpp:111 | with the corrected switch for every type, and with the switch as written for Integer, Boolean and String, value reference `vr` names the same member in the distributor's model description and in the mapper's reader (and, minus the offset, writer) table |
| Mapper.CorrectedRegistrationAgrees | src/detail/DataMapper.cpp:133-171 | with the UINT_32 case in the Real branch, a member gets a visitor exactly when it resolves to a type, and in that type's table |
| Mapper.AsWrittenDiffersOnlyForUInt32 | src/detail/DataMapper.cpp:215-222 | the switch as written and the corrected one disagree exactly on UINT_32 |
| Mapper.UInt32GapAsWritten | src/detail/DataMapper.cpp:133-171 | as written, a topic with a single UINT_32 member has Real value reference 0 in the model description, but `reset` succeeds with no Real reader and `get_double(0)` fails |
| Mapper.ResetBound | src/detail/DataMapper.cpp:79-89 | for either switch, every visitor `reset` creates is bound to an existing member of its kind |
| Mapper.SetOnlyInputs | src/detail/DataMapper.cpp:282-312 | `set` succeeds exactly for input references: `offset <= vr < readers` |
| Mapper.SetChangesOnlyTarget | src/detail/visitors.hpp:23-26 | a set writes only the bound member; tables, keys and every other member stay |
| Mapper.SetThenGet | src/detail/DataMapper.cpp:282-312 | after `set(offset + j, v)`, `get(offset + j)` reads back v passed through the member's kind |
| Mapper.IntegerEcho | src/detail/DataMapper.hpp:15-26 | an FMI Integer written to an INT32 or enum member reads back unchanged; other widths read back the `static_cast` |
| Mapper.Uint32RoundTrip | src/detail/DataMapper.cpp:215-222 | a 32-bit integer through `uint32_t` and back is unchanged |
| Mapper.OtherEcho | src/detail/visitors.hpp:28-38 | Boolean, String and floating values read back unchanged; a char member reads back the first character, or '\0' for an empty string |
| XTypes.Cast | src/detail/visitors.hpp:15-26 | `static_cast` to a width always gives a value of that width |
| XTypes.CastOfFitting | src/detail/visitors.hpp:15-26 | a value that fits is unchanged |
| StdConv.DigitPrefix | src/detail/CustomKeyFilter.cpp:41-78 | the longest prefix of decimal digits |
| StdConv.Stoi | src/detail/CustomKeyFilter.cpp:54-60 | succeeds exactly on a parsed decimal within int range |
| StdConv.Stoll | src/detail/CustomKeyFilter.cpp:62-63 | succeeds exactly on a parsed decimal within 64-bit range |
| StdConv.Stoul | src/detail/CustomKeyFilter.cpp:41-51 | succeeds exactly when the magnitude is within the unsigned 64-bit range (a minus sign negates modulo 2^64) |
| StdConv.StreamBool | src/detail/CustomKeyFilter.cpp:35-39 | true exactly for a parsed non-zero decimal |
| StdConv.NatTextDigits | src/detail/CustomKeyFilter.cpp:54-60 | the decimal text of n is all digits and denotes n |
| StdConv.ParseDecimalText | src/detail/CustomKeyFilter.cpp:54-63 | parsing the decimal text of any integer gives it back |
| StdConv.StoiText | src/detail/CustomKeyFilter.cpp:54-60 | `stoi` of the text of any int gives it back |
| KeyFilter.KeyLeavesPrefix | src/detail/CustomKeyFilter.hpp:57 | the key leaves of a prefix are a prefix of the key leaves |
| KeyFilter.ComparedCount | src/detail/CustomKeyFilter.hpp:71-73 | never more leaves compared than the sample has key leaves |
| KeyFilter.StopPoint | src/detail/CustomKeyFilter.hpp:71-73 | when the count of key leaves reaches `key_count`, exactly `key_count` are compared |
| KeyFilter.NoStop | src/detail/CustomKeyFilter.hpp:51-76 | without a stop, every key leaf is compared |
| KeyFilter.FilterMemberType.CompareKeys | src/detail/CustomKeyFilter.hpp:51-76 | the two nested loops return the positional comparison of the first compared key leaves of sample and template |
| KeyFilter.FilterMemberType.CompareWithTemplate | src/detail/CustomKeyFilter.hpp:58-68 | the inner loop compares against the template key leaf at the same position, if there is one |
| KeyFilter.NonKeyNodesIrrelevant | src/detail/CustomKeyFilter.hpp:57 | samples with the same key leaves get the same verdict |
| KeyFilter.SameKeysAccepted | src/detail/CustomKeyFilter.hpp:51-76 | a sample whose key leaves equal the template's is accepted |
| KeyFilter.KeyDatum | src/detail/CustomKeyFilter.cpp:34-89 | an unsupported key kind is left alone, consuming nothing |
| KeyFilter.BindKeysNext | src/detail/CustomKeyFilter.cpp:16-94 | after a binding with no throw, the next parameter is 1 + the number of converted key leaves |
| KeyFilter.BindKeysShape | src/detail/CustomKeyFilter.cpp:19-93 | binding changes only the values of converted key leaves |
| KeyFilter.BindKeysPositional | src/detail/CustomKeyFilter.cpp:29-79 | the i-th key leaf takes its value from parameter 1 + (number of converted key leaves before it) |
| KeyFilter.TooFewParameters | src/detail/CustomKeyFilter.cpp:30-33 | more key leaves than parameters always throws |
| KeyFilter.BindStopAtThrow | src/detail/CustomKeyFilter.cpp:30-33 | after a throw, the remaining nodes are left as they were |
| KeyFilter.FilterMemberType.constructor | src/detail/CustomKeyFilter.hpp:25-43 | template and sample start as the default instance, `key_count` 0; a non-dynamic type is excluded here and thrown by `add_type` |
| KeyFilter.FilterMemberType.BindParameters | src/detail/CustomKeyFilter.cpp:19-93 | the traversal loop leaves the template, next parameter and failure the binding function gives |
| KeyFilter.FilterMemberType.BindNode | src/detail/CustomKeyFilter.cpp:19-93 | one node of the traversal does what the binding step function gives: a non-key node passes through; a key leaf with no parameter left fails with "more keys than parameters"; otherwise the converted parameter is bound (or left as is for an unsupported kind) and the failure, if any, recorded |
| KeyFilter.CustomKeyFilter.Store | src/detail/CustomKeyFilter.cpp:12-13 | `insert_or_assign`: the registry afterwards is the old one with the GUID mapped to the new member's entry, every other GUID unchanged |
| KeyFilter.CustomKeyFilter.Empty | src/detail/CustomKeyFilter.hpp:88 | an empty registry |
| KeyFilter.CustomKeyFilter.Create | src/detail/CustomKeyFilter.hpp:98-104 | the constructor is exactly one `add_type` on an empty registry |
| KeyFilter.CustomKeyFilter.HasReaderGuid | src/detail/CustomKeyFilter.hpp:111-113 | true exactly for a registered GUID |
| KeyFilter.CustomKeyFilter.AddType | src/detail/CustomKeyFilter.cpp:6-98 | registry and outcome as the `add_type` specification gives them |
| KeyFilter.CustomKeyFilter.InsertMember | src/detail/CustomKeyFilter.cpp:12-94 | the entry is inserted or replaced before binding, with `key_count` set only when nothing throws |
| KeyFilter.CustomKeyFilter.Evaluate | src/detail/CustomKeyFilter.cpp:100-137 | accept exactly for a registered GUID, a converted sample and matching keys; the registry is unchanged |
| KeyFilter.GuidUnknownIgnored | src/detail/CustomKeyFilter.cpp:9-10 | the unknown-GUID marker returns false and leaves the registry unchanged |
| KeyFilter.AddTypeRegisters | src/detail/CustomKeyFilter.cpp:12-97 | a real GUID is inserted or replaced, others are kept; true exactly when binding does not throw, and then `key_count` is the parameters consumed |
| KeyFilter.FailedBindingAcceptsAll | src/detail/CustomKeyFilter.cpp:12-33 | after a throwing binding the entry stays with `key_count` 0, so a sample whose first node is not a key leaf is accepted |
| KeyFilter.CreateContentFilter | src/detail/CustomKeyFilterFactory.hpp:30-69 | return code, filter and registry as the factory specification gives them |
| KeyFilter.CreateGuards | src/detail/CustomKeyFilterFactory.hpp:38-42 | a wrong class name or no parameters gives BAD_PARAMETER with nothing created |
| KeyFilter.RegisteredOnce | src/detail/CustomKeyFilterFactory.hpp:53-65 | a GUID already registered keeps its keys, RETCODE_OK |
| KeyFilter.CreateRegistersReader | src/detail/CustomKeyFilterFactory.hpp:44-68 | on RETCODE_OK the reader is registered and every other reader is kept |
| KeyFilter.DeleteContentFilter | src/detail/CustomKeyFilterFactory.hpp:81-90 | RETCODE_OK exactly for the right class name and a non-null instance |
| Repacker.Filename | src/repacker/repacker.cpp:100 | the filename is a suffix of the path |
| Repacker.Extension | src/repacker/repacker.cpp:102-107 | empty or starting with '.', and a suffix of the filename |
| Repacker.ReplacedExtension | src/repacker/repacker.cpp:102-107 | replacing the extension keeps the stem's filename and gives ".fmu" |
| Repacker.ChosenHasFilename | src/repacker/repacker.cpp:98-101 | after the alternative and the default filename, the output always has a filename |
| Repacker.NormalizedOutputShape | src/repacker/repacker.cpp:98-107 | the normalised output always has extension ".fmu", and is the chosen path's stem plus ".fmu" |
| Repacker.FmuOutputUnchanged | src/repacker/repacker.cpp:100-107 | an output already named `*.fmu` is kept as it is |
| Repacker.NormalizedOutputIdempotent | src/repacker/repacker.cpp:98-107 | normalising twice changes nothing |
| Repacker.FirstFailure | src/repacker/repacker.cpp:85-97 | none exactly when every check holds; otherwise the first check that fails |
| Repacker.ConfigDirUnderRoot | src/repacker/repacker.cpp:73-82 | the config directory lies under `fmu/resources/config` |
| Repacker.TemplateUnderRoot | src/repacker/repacker.cpp:73-82 | the template is `fmu/resources/config/modelDescription.xml` |
| Repacker.MappingUnderRoot | src/repacker/repacker.cpp:73-82 | the mapping is `fmu/resources/config/dds/ddsfmu_mapping.xml` |
| Repacker.IdlUnderRoot | src/repacker/repacker.cpp:73-82 | the IDL is `fmu/resources/config/idl/dds-fmu.idl` |
| Repacker.DefaultOutputIsFmu | src/repacker/repacker.cpp:73-82 | the default output is absolute, named "dds-fmu.fmu", with extension ".fmu" |
| Repacker.CommandsInfo.constructor | src/repacker/repacker.cpp:73-82 | every path derived from the absolute FMU path, default output `absolute("dds-fmu.fmu")` |
| Repacker.CommandsInfo.PrepareForZip | src/repacker/repacker.cpp:84-110 | 1 at the first missing directory (fmu, resources, binaries) with the output untouched; otherwise 0 and the normalised output |
| Repacker.CommandsInfo.PrepareForGenerate | src/repacker/repacker.cpp:112-138 | 1 at the first failing check (fmu, resources, template, mapping, IDL), otherwise 0 |
| Repacker.ZipFmu | src/repacker/repacker.cpp:13-63 | refused before opening when the output exists without force; otherwise the walk outcome |
| Repacker.ZipWalkComplete | src/repacker/repacker.cpp:36-59 | the walk zips exactly when every entry survives: no iteration failure, and every selected regular file opens, writes and closes |
| Repacker.ZipWalkAdds | src/repacker/repacker.cpp:36-59 | a clean walk adds exactly the selected members, in walk order |
| Repacker.SelectedMembers | src/repacker/repacker.cpp:41-44 | a member is selected exactly when it is a walked regular file other than the output itself |
| Repacker.MapperIterator | src/repacker/repacker.cpp:161-189 | fails exactly when an element fails, with its message; otherwise the distributor has added every topic in order |
| Repacker.GenerateXml | src/repacker/repacker.cpp:141-221 | the distribution of the outputs then the inputs, or the first element error |
| Repacker.GeneratedOutputsFirst | src/repacker/repacker.cpp:191-193 | per type, value reference p sits at position p and every output precedes every input |
| Repacker.ZipCommand | src/repacker/repacker.cpp:232-251 | zips to the normalised target whatever the prepare code; the callback returns 0 exactly for a completed archive |
| Repacker.GenerateCommand | src/repacker/repacker.cpp:253-270 | generates whatever the prepare code; the callback returns 0 exactly on success |
| Repacker.CreateCommand | src/repacker/repacker.cpp:273-298 | zip runs exactly when generate succeeded; the callback returns the zip's result, or 1 |
| Repacker.MissingRootOpensDefaultArchive | src/repacker/repacker.cpp:242-250 | with a missing FMU directory the ignored prepare code still leads to opening the default archive |
| Paths.JoinShape | src/repacker/repacker.cpp:73-82 | a join ends with its right side and, when that is relative, starts with its left side with one separator between |
| Paths.LastIndex | src/repacker/repacker.cpp:102-107 | the last position of the character, or -1 when there is none |
| Hooks.Lower | tools/hooks/hook_fmu.py:13 | the same length, each character lower-cased |
| Hooks.SplitExt | tools/hooks/hook_fmu.py:13 | empty or starting with '.' |
| Hooks.SplitExtOf | tools/hooks/hook_fmu.py:13 | the extension is what follows the last '.' when something other than dots precedes it |
| Hooks.LeadingDotsNoExtension | tools/hooks/hook_fmu.py:13 | a name of leading dots plus a suffix has no extension |
| Hooks.UpperCaseExtensionMatches | tools/hooks/hook_fmu.py:13 | `x.FMU` matches `.fmu` |
| Hooks.KeepMember | tools/hooks/hook_fmu.py:9-14 | a level keeps exactly its directories, or its files with a matching extension |
| Hooks.ListLevel | tools/hooks/hook_fmu.py:9-14 | the first loop yields this level's subfolders and matching files in scan order |
| Hooks.RunFastScandir | tools/hooks/hook_fmu.py:6-20 | the two loops compute the recursive scan: own matches first, then each subfolder's, in scan order |
| Hooks.ScanAt | tools/hooks/hook_fmu.py:6-20 | a path is returned exactly when it names a matching file (or a directory) anywhere under `dir` |
| Hooks.ScanDistinct | tools/hooks/hook_fmu.py:16-19 | no path is returned twice |
| Hooks.ScanBelow | tools/hooks/hook_fmu.py:6-20 | every returned path lies under `dir` |
| Hooks.ConanFile.constructor | tools/hooks/hook_fmu.py:23-60 | no destination is set and nothing is recorded |
| Hooks.DestinationsDistinct | tools/hooks/hook_fmu.py:37-40 | the FMU and test-output destinations differ, and neither is empty |
| Hooks.FmuPreBuild | tools/hooks/hook_fmu.py:23-45 | no conanfile fails the assert; otherwise the pre-build specification |
| Hooks.FmuPostBuild | tools/hooks/hook_fmu.py:48-60 | the post-build specification on the scan of the build folder |
| Hooks.CopyAll | tools/hooks/hook_fmu.py:57-60 | one copy and one log line per file, in order |
| Hooks.CopiesCopyAll | tools/hooks/hook_fmu.py:57-60 | exactly the files found are copied into the destination, in order |
| Hooks.InstalledNames | tools/hooks/hook_fmu.py:57-58 | the destination holds exactly the basenames of the copied files |
| Hooks.LastCopyWins | tools/hooks/hook_fmu.py:57-58 | of two files with one basename, the one copied last remains |
| Hooks.BuildCopiesFound | tools/hooks/hook_fmu.py:23-60 | for the target package, pre then post build ends normally, creates the destination, then copies exactly the files found |
| Hooks.BuildCopiesEveryFmu | tools/hooks/hook_fmu.py:6-60 | a path is copied exactly when it is a `.fmu` file anywhere under the build folder |
| Hooks.OtherPackagesUntouched | tools/hooks/hook_fmu.py:34-35 | any other package name is left untouched by both hooks; the test-results hook only logs that it skips |
| Hooks.TestResultsPreBuild | tools/hooks/hook_testresults.py:6-32 | no conanfile fails the assert; otherwise the test-results specification |
| Hooks.TestResultsCopiesNothing | tools/hooks/hook_testresults.py:6-32 | the test-results hook copies nothing and changes only the test-output attribute |
| Recipe.InitialOptions | conanfile.py:22-31 | exactly the declared options, each overridden or at its default |
| Recipe.OptionsAfterConfig | conanfile.py:59-61 | `fPIC` exists exactly off Windows; `with_tools` and `with_doc` always exist; values kept |
| Recipe.DefaultOptionValues | conanfile.py:22-31 | by default `with_tools` is on, `with_doc` off and `fPIC` on |
| Recipe.WithTests | conanfile.py:46-48 | tests exactly when `skip_test` is explicitly false |
| Recipe.HostRequirementsShape | conanfile.py:66-75 | the five pinned references first, no repeats, and the tool libraries exactly with tools |
| Recipe.BuildRequirementsCases | conanfile.py:86-95 | cmake and the helper first; checker and gtest exactly with tests; doxygen exactly with docs; strawberryperl exactly with docs on Windows |
| Recipe.VersionLessTrans | conanfile.py:77-84 | the version order is transitive |
| Recipe.VersionLessTotal | conanfile.py:77-84 | any two versions compare |
| Recipe.VersionEqualLess | conanfile.py:77-84 | equal versions compare alike |
| Recipe.ValidateMonotone | conanfile.py:77-84 | a newer compiler than an accepted one is accepted too |
| Recipe.GccMinimum | conanfile.py:37-44 | gcc 8.1 passes, gcc 8 fails with the C++17 message |
| Recipe.DdsFmuConan.Validate | conanfile.py:77-84 | valid exactly when cppstd is unset or at least 17 and the compiler is unlisted or at its minimum; otherwise the C++17 message |
| Recipe.Repeat | conanfile.py:128-139 | n copies of the character |
| Recipe.Pad | conanfile.py:128-139 | `max(width - len, 0)` spaces: never negative, never truncating |
| Recipe.StrLeTotal | conanfile.py:136-139 | the text order is total |
| Recipe.StrLeTrans | conanfile.py:136-139 | the text order is transitive |
| Recipe.StrLeAntisymmetric | conanfile.py:136-139 | the text order is antisymmetric |
| Recipe.ListingLeTotal | conanfile.py:136-139 | the (name, licence) order is total |
| Recipe.ListingLeTrans | conanfile.py:136-139 | the (name, licence) order is transitive |
| Recipe.InsertPermutes | conanfile.py:136-139 | insertion keeps the multiset |
| Recipe.InsertSorted | conanfile.py:136-139 | insertion keeps a sorted list sorted |
| Recipe.SortSortsAndPermutes | conanfile.py:136-139 | the sort returns a sorted permutation |
| Recipe.DepListMembers | conanfile.py:111-122 | exactly the host dependencies are listed; build and test requirements are skipped |
| Recipe.ManifestLayout | conanfile.py:124-142 | intro, header, own row, then the sorted host dependencies |
| Recipe.HeaderLayout | conanfile.py:128-131 | header and separator are 55 characters with the column bars at positions 0, 22 and 54 |
| Recipe.RowLayout | conanfile.py:132-139 | a row of short values is 55 characters with the column bars at positions 0, 22 and 54 |
| Recipe.RowKeepsValues | conanfile.py:132-139 | a row carries the name and the licence text whole; long values get no padding |
| Recipe.NonStringPadding | conanfile.py:136-139 | a non-string licence is padded with two spaces |
| Recipe.ManifestPathsDiffer | conanfile.py:141-142 | the text and markdown manifests are different files |
| Recipe.BuildOrder | conanfile.py:144-158 | configure, optional doc build and install, build, optional tests last with `CTEST_OUTPUT_ON_FAILURE=ON` |
| Recipe.DepStep | conanfile.py:111-122 | one more dependency appends its row and copies only when it is a host dependency |
| Recipe.DdsFmuConan.constructor | conanfile.py:22-31 | the initial options, nothing recorded yet |
| Recipe.DdsFmuConan.ConfigOptions | conanfile.py:59-61 | options as the configuration function gives them |
| Recipe.DdsFmuConan.Requirements | conanfile.py:66-75 | appends the host requirements |
| Recipe.DdsFmuConan.BuildRequirements | conanfile.py:86-95 | appends the tool and test requirements |
| Recipe.DdsFmuConan.Save | conanfile.py:124-142 | writes or appends one file, nothing else |
| Recipe.DdsFmuConan.Generate | conanfile.py:97-142 | toolchain variables, build-context lists, both manifests and the licence copies |
| Recipe.DdsFmuConan.ConfigureToolchain | conanfile.py:98-109 | `DDSFMU_WITH_TOOLS`/`DDSFMU_WITH_DOC` copy the options; the helper, and the checker exactly with tests |
| Recipe.DdsFmuConan.WriteLicenses | conanfile.py:111-142 | both manifests and all copies |
| Recipe.DdsFmuConan.WriteManifest | conanfile.py:124-142 | text file and markdown file from the sorted list |
| Recipe.DdsFmuConan.WriteText | conanfile.py:124-139 | the text manifest, head then sorted rows |
| Recipe.DdsFmuConan.CopyOwnLicense | conanfile.py:134 | copies the package's own LICENSE |
| Recipe.DdsFmuConan.WriteHead | conanfile.py:124-133 | the intro overwrites the file, then header and own row |
| Recipe.DdsFmuConan.WriteRows | conanfile.py:136-139 | appends one row per listing |
| Recipe.DdsFmuConan.CollectDependencies | conanfile.py:111-122 | the dependency loop yields the listing and copies of the host dependencies |
| Recipe.DdsFmuConan.CopiesFor | conanfile.py:113-122 | the copies of one dependency |
| Recipe.DdsFmuConan.Build | conanfile.py:144-158 | appends the build steps; the environment outside is unchanged |

## Left out

- Mapper.DataMapper.constructor: the defaulted constructor leaves the four `int32_t` offsets (DataMapper.hpp:125) uninitialised; the model starts them at 0, which every path overwrites in `reset` before any read.
- KeyFilter.KeyDatum and Mapper.WriteDatum: for a CHAR8 key member or a CHAR8 member written by the mapper the model takes the first Dafny `char` of the string (a Unicode character), where the C++ `in[0]` / `p[0]` takes the first byte; the two differ only for strings whose first character is not ASCII.
- DDS and Fast-DDS plumbing (participants, topics, readers and writers, listeners, threads) is not modelled. Only the topic and type bookkeeping that feeds the mapping is.
- Payload copying, deserialisation and conversion between the two dynamic-data libraries are not modelled. Converter.hpp holds declarations only. Their outcome is an input (`Decoding`).
- Parsing is not modelled. The mapping XML (rapidxml) and the IDL (xtypes) come in already parsed. The node order of xtypes `for_each` and its stop-on-thrown-bool are taken as given.
- Floating point is left out. `std::stof`/`std::stod` are an input function. Reals are exact reals, with no float32 rounding of FLOAT32 members.
- UUID generation, the modelDescription.xml writers and `name_generator` are left out. Their code is not shown, and the SHA-1 name-based UUID is out of scope.
- The rest of `generate_xml` is left out: the GUID, loading the template and writing the model description. `Repacker.GenerateXml` stops at the mapping.
- Repacker.GenerateXml: a missing `<ddsfmu>` element is a null dereference in the source. It is not modelled.
- `FmuInstance` delegation, the logger adapters and the drifted duplicates (src/helper/DataMapper.hpp, src/configurator, src/descriptor) are left out, together with the CLI parsing (args callbacks) and the verbose output of the repacker.
- Repacker.CommandsInfo.constructor requires a non-empty input path and an absolute working directory. `std::filesystem::absolute("")` throws outside any try block, and the working directory comes from the process.
- File-system effects are recorded actions, not carried out: `mkdir`, `shutil.copy`, zip writing, Conan and CMake calls. The file system is a set of directories and files, the walk order and the zip library's answers are inputs, `fs::relative` is a path equality, and the archive left unclosed on early returns is not modelled.
- Path canonicalisation and symbolic links are not modelled. Paths are generic-format strings.
- Hooks.Lower: lower-cases ASCII only, where Python's `str.lower` is Unicode-aware.
- Hooks.FmuPostBuild: the hooks' `target` variable is always truthy in the source and is not modelled, and neither is a null conanfile in `post_build`.
- `set_version` is left out. It reads `version.txt` verbatim, because `.strip()` applies to the path, not to the contents.
- Recipe.VersionLessTrans: Conan's `Version` class is an assumed order on numeric component sequences. Pre-release and build tags are not modelled.
- Recipe.DdsFmuConan.Validate: cppstd values are years compared as numbers, so "gnu17" style values are not modelled.
- Recipe.SortSortsAndPermutes: two non-string licences are ordered by their rendered text, where Python compares the objects themselves.
- The repacker's process exit status is not what its command callbacks return. An `args::Command` callback returns nothing, so `main` returns 0 after any parse that does not throw (src/repacker/repacker.cpp:300-315). The `returned` results of `Repacker.ZipCommand`, `Repacker.GenerateCommand` and `Repacker.CreateCommand` are the callbacks' own return values, and they never reach the process.
- Signals.SignalDistributor: the four per-type counters and the output count are `uint32_t` in the source. They are unbounded `nat`s here, so wrap-around after 2^32 members of one type is not modelled.
- StdConv.Stoi: `long` and `unsigned long` are 64 bits (LP64), and only the "C" locale and base 10 are modelled.

## Findings

| source | as written | input that shows it | evidently intended | confidence | as-written member | corrected member |
|---|---|---|---|---|---|---|
| src/detail/DataMapper.cpp:133-171 | the Real branch of `add` registers FLOAT32, FLOAT64, INT64 and UINT64 only. `resolve_type` sends UINT_32 to Real, so the UINT_32 case in the Integer branch (215-222) is unreachable and a UINT_32 member gets no visitor | a topic whose only member is a UINT_32: the model description gives it Real value reference 0, but `reset` creates no Real reader and `get_double(0)` is out of range | the comment at line 111 asks for the tables to match the model description, so UINT_32 should get a Real visitor | not executed | Mapper.UInt32GapAsWritten | Mapper.ValueReferencesAgree |

The DataMapper class runs the switch as written, so `Reset` leaves a UINT_32 member without a visitor, as the source does. `Mapper.ValueReferencesAgree` with `reg` set to `Corrected` is the intended property for every type. The same lemma with the switch as written covers Integer, Boolean and String, which the gap does not touch.
