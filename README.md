# Build-metadata extraction, tree merge and hybrid-make generation

This project models the Makefile metadata pipeline of the mozilla-central build tooling in Dafny and proves
properties of that model. It has four parts.

- **Per-Makefile extraction** (`MozillaMakefile`, build/buildparser/extractor.py).
  - A Makefile's own variables decide its *traits*: module, library, dirs, XPIDL, exports, test and program.
  - Each trait produces a typed record: `LibraryInfo`, `ExportsInfo`, `XPIDLInfo` or `TestInfo`.
  - A `UsedVariableInfo` tracker and a `MiscInfo` record close the list.
  - Every record notes the variables it consulted.
- **Record classes** (build/buildparser/data.py).
  - Each Python class is a Dafny class whose fields the extractor updates in place.
  - Each class has a `Value()` snapshot, used once extraction is over.
- **The tree merge** (`ObjectDirectoryParser.load_tree` and `load_makefile`).
  - Every relevant Makefile's records are folded into the `TreeInfo` tree model.
  - Along the way the parser records included files, unused variables and, optionally, variable, ifdef and rule
    metadata.
  - The JAR manifests and the IDL files are then looked up.
- **The hybrid-make backend** (build/pylib/mozbuild/mozbuild/buildconfig/backend/hybridmake.py), with its path
  helpers (`.../backend/utils.py`).
  - It writes a non-recursive `splendid.mk` per Makefile.
  - It strips the variables it handles from the translated Makefile.
  - It writes one aggregating `hybridmake.mk`.
  - It runs make over the tiers in a fixed order.

The model treats its inputs as follows:

- **Makefiles.** A parsed Makefile is a map from variable name to value plus a flag saying whether the assignment is
  conditional. It also carries its include, ifdef and rule statements.
- **Splitting.** A variable's value is split on whitespace.
- **Filesystem.** I/O is replaced by parameters gathered in `ObjectDirectorySpec.Environment`:
  - the directory walk;
  - the set of existing paths;
  - `os.path.normpath` as a function;
  - the parse of each Makefile;
  - the dependencies of each IDL file that parses;
  - the output directory of a library's Makefile.
- **Backend output.** Backend files are sequences of lines in a `LineBuffer`.
- **Python quirks kept as written:**
  - `name in ('PROGRAM')` is a substring test.
  - `rstrip('.in')` strips a character set.
  - `os.path.join(None, f)` raises unless `f` is absolute.
  - The loops of `load_makefile` rebind `path`. As a result, the key that unused variables are recorded under is
    described relationally (`ObjectDirectorySpec.KeyFits`), because it depends on set iteration order.

## Model

| member | source | states |
|---|---|---|
| `Data.MakefileDerivedObject.constructor` | build/buildparser/data.py:78-93 | the source and top source directories are set exactly when the file itself defines `srcdir` or `topsrcdir`; `vpath` is split(VPATH) in order; no variable is used yet |
| `Data.MakefileDerivedObject.AddUsedVariable` | build/buildparser/data.py:95-105 | the used set only grows, and by exactly the given name |
| `Data.LibraryInfo.constructor` | build/buildparser/data.py:137-154 | the name and every flag (`export_library`, `pic`, `is_component`, `is_shared`, `is_static`, `use_static_libs`, `short_libname`) are None, and every set is empty |
| `Data.ExportsInfo.constructor` | build/buildparser/data.py:164-167 | the export map starts empty |
| `Data.WithExport` | build/buildparser/data.py:169-181 | no namespace means key `""`; afterwards the name is under its key, the keys are the old ones plus that key, and every other key keeps its set |
| `Data.ExportsInfo.AddExport` | build/buildparser/data.py:169-181 | the export map becomes `WithExport` of the old one |
| `Data.WithExportIdempotent` | build/buildparser/data.py:169-181 | adding the same export twice is the same as adding it once |
| `Data.WithExportGrows` | build/buildparser/data.py:169-181 | no key and no name is ever removed |
| `Data.XPIDLInfo.constructor` | build/buildparser/data.py:191-195 | the module is None and there are no sources |
| `Data.TestInfo.constructor` | build/buildparser/data.py:207-213 | all four test sets are empty |
| `Data.UsedVariableInfo.constructor` | build/buildparser/data.py:221-222 | only the base record, built from the file |
| `Data.MiscInfo.constructor` | build/buildparser/data.py:239-249 | `included_files` and `is_gre_module` are None, and every set is empty |
| `Data.TreeInfo.constructor` | build/buildparser/data.py:56-64 | every map and set is empty, and both roots are None |
| `Extractor.MozillaMakefile.constructor` | build/buildparser/extractor.py:82-85 | no traits are computed yet |
| `Extractor.MozillaMakefile.GetTraits` | build/buildparser/extractor.py:87-114 | the result is the trait set of the file's own variable names, conditional ones included; it is cached, and a second call returns the cached set |
| `ExtractorProperties.ModuleTraitIff` | build/buildparser/extractor.py:99-100 | the module trait holds iff `MODULE` is among the names |
| `ExtractorProperties.LibraryTraitIff` | build/buildparser/extractor.py:101-102 | the library trait holds iff `LIBRARY_NAME` is among the names |
| `ExtractorProperties.DirsTraitIff` | build/buildparser/extractor.py:103-104 | the dirs trait holds iff `DIRS` or `PARALLEL_DIRS` is among the names |
| `ExtractorProperties.XpidlTraitIff` | build/buildparser/extractor.py:105-106 | the XPIDL trait holds iff one of the three XPIDL variables is among the names |
| `ExtractorProperties.ExportsTraitIff` | build/buildparser/extractor.py:107-108 | the exports trait holds iff `EXPORTS` or `EXPORTS_NAMESPACES` is among the names |
| `ExtractorProperties.TestTraitIff` | build/buildparser/extractor.py:109-110 | the test trait holds iff one of the four test variables is among the names |
| `ExtractorProperties.ProgramTraitIff` | build/buildparser/extractor.py:111-112 | the program trait holds iff some name is a substring of `"PROGRAM"` |
| `ExtractorProperties.SubstringOfProgramTriggers` | build/buildparser/extractor.py:98-112 | every substring of `"PROGRAM"` falls through the earlier tests and is classified as program |
| `ExtractorProperties.ProgramTraitQuirk` | build/buildparser/extractor.py:111-112 | `PROGRAM`, `GRAM` and the empty name all give the program trait |
| `ExtractorProperties.ProgramsTriggersNothing` | build/buildparser/extractor.py:111-112 | `PROGRAMS` gives no trait |
| `ExtractorProperties.TraitsOfUnion` | build/buildparser/extractor.py:96-114 | traits are decided name by name: the traits of a union are the union of the traits |
| `ExtractorProperties.TraitsOfIgnoresOtherNames` | build/buildparser/extractor.py:96-114 | names that match no test add no trait |
| `Extractor.TransformedReldir` | build/buildparser/extractor.py:149-150 | same length as the relative directory; every `/` and `\\` becomes `_` and every other character is kept, so no separator is left |
| `ExtractorProperties.TransformedReldirIdempotent` | build/buildparser/extractor.py:149-150 | transforming an already transformed directory changes nothing |
| `ExtractorProperties.TransformedReldirSame` | build/buildparser/extractor.py:149-150 | two directories get the same name iff they agree at every position once `/`, `\\` and `_` are identified |
| `ExtractorProperties.TransformedReldirExample` | build/buildparser/extractor.py:149-150 | `a/b`, `a\\b` and `a_b` all become `a_b` |
| `Extractor.MozillaMakefile.GetLibraryInfo` | build/buildparser/extractor.py:152-235 | the record built is `LibraryOf` of the file |
| `Extractor.MozillaMakefile.ReadLibrarySources` | build/buildparser/extractor.py:160-181 | the name is the `LIBRARY_NAME` string; the defines have `-D` stripped; the C flags, C++ flags and C++ sources are the split words |
| `Extractor.MozillaMakefile.ReadLibraryKind` | build/buildparser/extractor.py:183-210 | the static, shared, static-libs, component and export flags, each read from its variable |
| `Extractor.MozillaMakefile.ReadLibraryLinkage` | build/buildparser/extractor.py:212-233 | the includes and local includes have `-I` stripped; the short name is set only when defined; the shared library libs are the split words |
| `ExtractorProperties.StripPrefixedIff` | build/buildparser/extractor.py:165-169 | `d` is kept iff the flag followed by `d` is a word, or `d` is a word without the flag |
| `ExtractorProperties.LibraryFlagsTriState` | build/buildparser/extractor.py:183-210 | is_static, is_shared and use_static_libs are True iff their variables are defined and never False; is_component and export_library are set only when defined, to (value == "1"); pic stays None |
| `ExtractorProperties.LibraryNameAndConsulted` | build/buildparser/extractor.py:156-233 | the name is the `LIBRARY_NAME` string, and every variable the library reads is recorded as used, defined or not |
| `Extractor.AddWords` | build/buildparser/extractor.py:172-173 | the set grows by exactly the words |
| `Extractor.AddStripped` | build/buildparser/extractor.py:165-169 | the set grows by exactly the words with the flag stripped |
| `Extractor.RecordUsed` | build/buildparser/extractor.py:251-252 | the used set grows by exactly the names |
| `Extractor.ExportAll` | build/buildparser/extractor.py:281-282 | each word is added under the namespace in turn |
| `Extractor.MozillaMakefile.GetExportsInfo` | build/buildparser/extractor.py:278-291 | the record built is `ExportsOf` of the file |
| `Extractor.MozillaMakefile.ExportNamespaces` | build/buildparser/extractor.py:284-289 | each namespace's `EXPORTS_<N>` is recorded as used, and its words are added under it |
| `ExtractorProperties.AddEachKeys` | build/buildparser/extractor.py:281-282 | the namespace key appears iff some word is added, and no key is ever left empty |
| `ExtractorProperties.AddEachNames` | build/buildparser/extractor.py:281-282 | a name is under a key iff it was there already or is one of the words added under that key |
| `ExtractorProperties.AddNamespacesKeys` | build/buildparser/extractor.py:284-289 | a namespace becomes a key iff its variable has words |
| `ExtractorProperties.AddNamespacesNames` | build/buildparser/extractor.py:284-289 | a name is under a namespace iff it is a word of that namespace's variable |
| `ExtractorProperties.ExportsMapClosedForm` | build/buildparser/extractor.py:278-291 | the export map holds exactly the `EXPORTS` words under `""` and each namespace's words under that namespace, with no empty namespace |
| `ExtractorProperties.EmptyNamespaceConsulted` | build/buildparser/extractor.py:285-289 | an empty namespace's variable is still recorded as used, but the namespace gets no key |
| `Extractor.MozillaMakefile.GetXpidlInfo` | build/buildparser/extractor.py:294-315 | the outcome is `XpidlOf` of the file |
| `Extractor.MozillaMakefile.AddWordsIfDefined` | build/buildparser/extractor.py:306-313 | adds the words of a variable, and nothing when it is undefined |
| `ExtractorProperties.XpidlOutcome` | build/buildparser/extractor.py:294-315 | it raises iff neither `XPIDL_MODULE` nor `MODULE` is defined; the module name is `XPIDL_MODULE` if defined, else `MODULE`; the sources are the words of `XPIDLSRCS` and `SDK_XPIDLSRCS`; `SDK_XPIDLSRCS` is never recorded as used |
| `Extractor.MozillaMakefile.GetTestInfo` | build/buildparser/extractor.py:318-345 | the record built is `TestOf` of the file |
| `Extractor.MozillaMakefile.ReadTestFiles` | build/buildparser/extractor.py:321-331 | the test files and xpcshell directories are the words of their variables, and both variables are recorded as used |
| `Extractor.MozillaMakefile.ReadBrowserTests` | build/buildparser/extractor.py:333-343 | the browser and chrome test files are the words of their variables, and both variables are recorded as used |
| `Extractor.MozillaMakefile.FillMiscInfo` | build/buildparser/extractor.py:347-386 | the misc record becomes `MiscOf` of the file |
| `Extractor.MozillaMakefile.FillMiscFlags` | build/buildparser/extractor.py:347-368 | `is_gre_module` is set only when `GRE_MODULE` is defined; the defines have `-D` stripped; both variables are recorded as used |
| `Extractor.MozillaMakefile.FillMiscFiles` | build/buildparser/extractor.py:370-386 | the JS modules, components and garbage are the words of their variables; the included files are the include paths in order |
| `Extractor.IncludedPaths` | build/buildparser/extractor.py:386-386 | one path per include statement, in order |
| `Extractor.MozillaMakefile.TraitObjects` | build/buildparser/extractor.py:257-345 | the records yielded for the traits, cut short where the XPIDL record raises |
| `Extractor.MozillaMakefile.NewTracker` | build/buildparser/extractor.py:249-274 | the tracker's used set is the common variables, `MODULE` under the module trait, and `MODULE_NAME` |
| `Extractor.MozillaMakefile.NewMiscInfo` | build/buildparser/extractor.py:347-386 | the filled misc record is `MiscOf` of the file |
| `Extractor.MozillaMakefile.GetDataObjects` | build/buildparser/extractor.py:237-389 | the records yielded, and whether the generator raised, are `DataObjectsOf` of the file |
| `ExtractorProperties.DataObjectsFailIff` | build/buildparser/extractor.py:294-303 | extraction raises iff the file names XPIDL sources but neither module variable |
| `ExtractorProperties.LibraryObjectFirst` | build/buildparser/extractor.py:264-266 | a library record is yielded iff the trait holds, it comes first, and no other record is a library |
| `ExtractorProperties.ClosingObjectsShape` | build/buildparser/extractor.py:388-389 | when nothing raised, the tracker and then the misc record come last |
| `ExtractorProperties.DataObjectsShape` | build/buildparser/extractor.py:237-389 | a library record comes first iff `LIBRARY_NAME` is defined; when nothing raised, the list ends with the tracker and the misc record |
| `ExtractorProperties.TrackerRecordsModule` | build/buildparser/extractor.py:259-260 | the tracker records `MODULE` iff the file defines it |
| `ExtractorProperties.WidgetScenario` | build/buildparser/extractor.py:237-389 | a Makefile with a library name, two C++ sources and one export yields a library, an exports record, the tracker and the misc record, with those values |
| `Collection.MakefileCollection.constructor` | build/buildparser/extractor.py:408-416 | both roots are as given, there are no paths and the cache is empty |
| `Collection.MakefileCollection.Add` | build/buildparser/extractor.py:418-420 | the path set grows by the path |
| `Collection.MakefileCollection.Makefiles` | build/buildparser/extractor.py:422-433 | one instance per path in sorted order; cached instances are reused, and new ones are parsed and cached |
| `Collection.MakefileCollection.LookupAll` | build/buildparser/extractor.py:427-433 | the cached instance of each path, in order; nothing already cached is replaced |
| `Collection.MakefileCollection.Lookup` | build/buildparser/extractor.py:428-431 | returns the cached instance if there is one; otherwise a fresh parse, which is then cached |
| `Collection.ClassifyBuildFileKinds` | build/buildparser/extractor.py:593-599 | a `.in` suffix makes an input file, the name `Makefile` a Makefile, and any other `.mk` suffix a `.mk` file; every other name is ignored |
| `Collection.StartsWithAny` | build/buildparser/extractor.py:576-580 | true iff some ignore string is a prefix |
| `Collection.BuildFilesInTree` | build/buildparser/extractor.py:547-599 | the files yielded are `BuildFilesOf` of the walk |
| `Collection.BuildFilesMembership` | build/buildparser/extractor.py:572-599 | a build file is yielded iff it sits in a walked directory that no ignore list prunes, under that directory's relative path, with its classified kind |
| `Collection.EntryMembership` | build/buildparser/extractor.py:593-599 | a file of one directory is yielded iff its name is classified |
| `Sorting.SortStrings` | build/buildparser/extractor.py:690-690 | the result is the sorted listing of the set |
| `Sorting.SortedOfListing` | build/buildparser/extractor.py:690-690 | the sorted listing is strictly increasing and holds exactly the set's elements |
| `Sorting.SortedListingUnique` | build/buildparser/extractor.py:690-690 | a set has one sorted listing |
| `ObjectDirectory.ObjectDirectoryParser.constructor` | build/buildparser/extractor.py:636-666 | the normalised directory, the top Makefile and its `topsrcdir`, not parsed, no tree, the metadata maps empty, and the five Makefile path collections empty (they are unset until `load_tree`, see "Left out") |
| `ObjectDirectory.ObjectDirectoryParser.WalkedEntryMakefiles` | build/buildparser/extractor.py:679-682 | the normalised `Makefile` and `*.mk` paths of one walked directory |
| `ObjectDirectory.ObjectDirectoryParser.DiscoverMakefiles` | build/buildparser/extractor.py:677-689 | every walked Makefile plus the source-directory Makefiles |
| `ObjectDirectory.ObjectDirectoryParser.PrunePaths` | build/buildparser/extractor.py:691-708 | the relevant and the ignored paths, split by the prefix test on the path below the object directory |
| `ObjectDirectoryProperties.PrunedPartition` | build/buildparser/extractor.py:691-708 | the two lists partition the paths; no relevant path is ignored, and every ignored one is |
| `ObjectDirectory.ObjectDirectoryParser.FindMakefiles` | build/buildparser/extractor.py:677-708 | the sorted list of found paths and its relevant/ignored split |
| `ObjectDirectory.ObjectDirectoryParser.ResetTree` | build/buildparser/extractor.py:710-715 | nothing handled yet, and a fresh tree rooted at the object directory and the top source directory |
| `ObjectDirectory.ObjectDirectoryParser.PrepareTree` | build/buildparser/extractor.py:668-715 | the settings `load_tree` records before loading anything, and a fresh tree |
| `ObjectDirectory.ObjectDirectoryParser.MergeXpidl` | build/buildparser/extractor.py:777-787 | a module is entered under its name with its source directory and sources, and its directory is added to the IDL directories; a record without a module name fails |
| `ObjectDirectory.ObjectDirectoryParser.FindExport` | build/buildparser/extractor.py:800-812 | the first search path under which the file exists, if any |
| `ObjectDirectorySpec.SearchPaths` | build/buildparser/extractor.py:800-801 | the source directory followed by the vpath entries in order |
| `ObjectDirectorySpec.FirstExisting` | build/buildparser/extractor.py:805-812 | the first candidate that exists: every earlier one is missing; with none, all are missing |
| `ObjectDirectory.ObjectDirectoryParser.ResolveFiles` | build/buildparser/extractor.py:796-815 | each file that is found maps to its first existing candidate; files not found are left out |
| `ObjectDirectory.ObjectDirectoryParser.MergeNamespace` | build/buildparser/extractor.py:790-815 | key `'/' + namespace` is created if missing and extended with the resolved files |
| `ObjectDirectory.ObjectDirectoryParser.MergeNextNamespace` | build/buildparser/extractor.py:790-815 | one more namespace takes the merged map from the namespaces done to those plus this one |
| `ObjectDirectory.ObjectDirectoryParser.MergeExports` | build/buildparser/extractor.py:789-815 | every namespace of the record is merged |
| `ObjectDirectoryProperties.ExportsMergeRecordsFirstExisting` | build/buildparser/extractor.py:789-815 | after the merge each exported file maps to its first existing candidate; a file with no candidate keeps whatever the key held |
| `ObjectDirectoryProperties.ExportsMergeKeepsOtherKeys` | build/buildparser/extractor.py:789-815 | keys of other namespaces are untouched |
| `ObjectDirectory.ObjectDirectoryParser.NormalizeIncludes` | build/buildparser/extractor.py:824-834 | absolute include paths are kept, and relative ones are joined to the output directory and normalised |
| `ObjectDirectory.ObjectDirectoryParser.MergeLibrary` | build/buildparser/extractor.py:817-846 | the library is entered unless its name is already present; its include list is the normalised include directories followed by the normalised local include directories |
| `ObjectDirectoryProperties.LibraryKept` | build/buildparser/extractor.py:820-822 | an entered library is never overwritten by later records |
| `ObjectDirectoryProperties.LibraryKeptAcrossLoads` | build/buildparser/extractor.py:820-822 | nor by later Makefiles |
| `ObjectDirectory.ObjectDirectoryParser.MergeMisc` | build/buildparser/extractor.py:848-853 | each included file gains this Makefile as an includer |
| `ObjectDirectory.ObjectDirectoryParser.MergeObject` | build/buildparser/extractor.py:771-853 | one record's effect on each part of the tree; a raising exports record changes only the source directories |
| `ObjectDirectory.ObjectDirectoryParser.MergeAll` | build/buildparser/extractor.py:771-853 | the records are merged up to the first that raises; when none raises, the used variables are the union of the records' |
| `ObjectDirectorySpec.MergedPrefix` | build/buildparser/extractor.py:771-853 | the longest prefix of the records whose merge does not raise |
| `ObjectDirectory.ObjectDirectoryParser.LowercaseOf` | build/buildparser/extractor.py:762-766 | the lowercase names among the own variables |
| `ObjectDirectoryProperties.UsedByIff` | build/buildparser/extractor.py:771-772 | a variable is used iff some record consulted it |
| `ObjectDirectoryProperties.UnusedVariablesIff` | build/buildparser/extractor.py:855-855 | a variable is unused iff the file defines it, it is not lowercase, and no record consulted it |
| `ObjectDirectoryProperties.UnusedVariablesExample` | build/buildparser/extractor.py:762-766 | a conditional variable counts as own, and a lowercase one is dropped |
| `ObjectDirectory.ObjectDirectoryParser.RecordUnusedVariables` | build/buildparser/extractor.py:855-859 | each unused variable gains the key |
| `ObjectDirectoryProperties.RecordUnusedEffect` | build/buildparser/extractor.py:855-859 | an unused variable gains the key and keeps its old keys; all other variables are untouched |
| `ObjectDirectory.ObjectDirectoryParser.Extract` | build/buildparser/extractor.py:750-771 | the records of a non-`.mk` Makefile and what loading them comes to |
| `ObjectDirectory.ObjectDirectoryParser.MergeMakefile` | build/buildparser/extractor.py:768-859 | the merge, and the unused variables recorded only when the whole merge succeeds, under the last value `path` was bound to |
| `ObjectDirectory.ObjectDirectoryParser.LoadObjects` | build/buildparser/extractor.py:757-859 | the same for a parsed Makefile, as a function of the environment |
| `ObjectDirectory.ObjectDirectoryParser.LoadParsed` | build/buildparser/extractor.py:749-859 | metadata is collected only when retained; the rest is `LoadObjects` |
| `ObjectDirectory.ObjectDirectoryParser.LoadMakefile` | build/buildparser/extractor.py:744-859 | a path that is not normalised fails before it is handled; otherwise it is handled, and its tree, metadata and unused-variable effects are `LoadOf`, with a fitting key |
| `ObjectDirectorySpec.Attempted` | build/buildparser/extractor.py:771-853 | the merged prefix plus the raising record, whose source directory is still added |
| `ObjectDirectorySpec.LoadOf` | build/buildparser/extractor.py:744-859 | the merged records are a prefix of the attempted ones |
| `ObjectDirectoryProperties.LoadFailsIff` | build/buildparser/extractor.py:744-859 | loading fails iff the path is not normalised, is not parsed, or (not being `.mk`) its extraction raises or one of its records fails to merge |
| `ObjectDirectoryProperties.UnnormalisedPathFails` | build/buildparser/extractor.py:746-749 | a path that is not normalised is an error and changes nothing else |
| `ObjectDirectoryProperties.IncludeFileLeavesTree` | build/buildparser/extractor.py:754-760 | a `.mk` file is handled, and only its metadata is recorded |
| `ObjectDirectory.ObjectDirectoryParser.RecordOwnVariables` | build/buildparser/extractor.py:865-881 | each own variable gains the file in its paths, and in its conditional or unconditional paths |
| `ObjectDirectory.ObjectDirectoryParser.RecordIfdefs` | build/buildparser/extractor.py:883-900 | each ifdef'd name gains the file, and its (expected, line) uses are appended |
| `ObjectDirectory.ObjectDirectoryParser.RecordRules` | build/buildparser/extractor.py:902-909 | the file's rules are appended with their condition strings |
| `ObjectDirectorySpec.RuleEntries` | build/buildparser/extractor.py:907-909 | one entry per rule, in order |
| `ObjectDirectory.ObjectDirectoryParser.CollectMakefileMetadata` | build/buildparser/extractor.py:861-909 | the metadata becomes `MetadataAfterFile` of the old metadata |
| `ObjectDirectoryProperties.VariablesAfterFileEffect` | build/buildparser/extractor.py:865-891 | own variables gain the file in exactly one of the conditional and unconditional path sets; ifdef-only names gain it in their paths; other variables are untouched |
| `ObjectDirectory.ObjectDirectoryParser.LoadNext` | build/buildparser/extractor.py:718-724 | one relevant path is loaded; a failure is caught and the path is added to the errors |
| `ObjectDirectory.ObjectDirectoryParser.LoadAll` | build/buildparser/extractor.py:717-724 | the fold of `LoadStep` over the relevant paths |
| `ObjectDirectoryProperties.LoadedBookkeeping` | build/buildparser/extractor.py:717-724 | the handled paths are the normalised ones, and the error paths are those whose load failed |
| `ObjectDirectoryProperties.StepBookkeeping` | build/buildparser/extractor.py:718-724 | one path's effect on the handled and error sets |
| `ObjectDirectory.ObjectDirectoryParser.LoadJarManifests` | build/buildparser/extractor.py:726-732 | every existing `jar.mn` of a source directory is recorded with the stub parse |
| `ObjectDirectory.ObjectDirectoryParser.RecordIdlSource` | build/buildparser/extractor.py:739-739 | the parsed file is recorded with its normalised dependencies |
| `ObjectDirectory.ObjectDirectoryParser.ParseModuleIdl` | build/buildparser/extractor.py:736-742 | one module's sources: those that parse are recorded; a source without a path raises when no earlier path was bound, and is skipped otherwise |
| `ObjectDirectory.ObjectDirectoryParser.ParseNextModule` | build/buildparser/extractor.py:735-742 | one more module: it either raises, with nothing recorded and a source without a path, or extends the recorded paths to those of the modules done plus this one |
| `ObjectDirectory.ObjectDirectoryParser.ParseIdlFiles` | build/buildparser/extractor.py:734-742 | without a raise, the IDL files are `IdlSourcesOf` the modules; a raise records none and needs a source without a path; it always raises when only such sources exist |
| `ObjectDirectorySpec.IdlSourcesOf` | build/buildparser/extractor.py:734-742 | the keys are the formable source paths that parse |
| `ObjectDirectory.ObjectDirectoryParser.LoadPrepared` | build/buildparser/extractor.py:717-742 | the loads, the manifests and the IDL files, on a fresh tree |
| `ObjectDirectory.ObjectDirectoryParser.LoadTree` | build/buildparser/extractor.py:668-742 | the whole of `load_tree`: settings, tree, metadata and unused variables are `TreeAfterLoad`; the IDL files are as in `ParseIdlFiles` |
| `ObjectDirectory.ObjectDirectoryParser.GetRulesForMakefile` | build/buildparser/extractor.py:931-937 | fails iff metadata is not retained; otherwise the file's rules, or none |
| `ObjectDirectory.ObjectDirectoryParser.GetTargetNamesFromMakefile` | build/buildparser/extractor.py:939-949 | fails iff metadata is not retained; otherwise the union of the targets of the file's rules |
| `ObjectDirectoryProperties.TargetsOfIff` | build/buildparser/extractor.py:944-949 | a target is listed iff some rule names it |
| `ObjectDirectoryFindings.ReadSlot` | build/buildparser/data.py:45-54 | reading an attribute of a `__slots__` class succeeds iff the attribute is a slot |
| `ObjectDirectoryFindings.LibraryMergeAlwaysRaises` | build/buildparser/extractor.py:820-820 | as written, merging any named library raises |
| `ObjectDirectoryFindings.LibraryEntryAlwaysRaises` | build/buildparser/extractor.py:824-845 | as written, building any library entry raises |
| `ObjectDirectoryFindings.LibraryStepIntended` | build/buildparser/extractor.py:817-846 | intended: a new name is entered with its directories and flags, its includes as the normalised include directories and its local includes as the normalised local ones, a known name keeps its entry, and no other name changes |
| `ObjectDirectoryFindings.NoSourceDirModules` | build/buildparser/extractor.py:781-785 | a tree with one module whose only source is relative and which has no source directory |
| `ObjectDirectoryFindings.IdlLoopRaisesWithoutSourceDir` | build/buildparser/extractor.py:735-742 | in that tree some source has no path and none has one, so `ParseIdlFiles` raises |
| `ObjectDirectoryFindings.UnformableSourceSkipped` | build/buildparser/extractor.py:735-742 | intended: a source without a path is skipped, and removing it changes no IDL file |
| `HybridMake.HybridMakeBackend.constructor` | build/pylib/mozbuild/mozbuild/buildconfig/backend/hybridmake.py:35-38 | no splendid file, output directory, written file or output yet |
| `HybridMake.SubstitutedCount` | build/pylib/mozbuild/mozbuild/buildconfig/backend/hybridmake.py:40-44 | how many Makefiles the generator hands over before substitution raises: on a name not ending in `.in`, or on a `@NAME@` substitution without a value |
| `HybridMakeProperties.MissingSubstitutionStops` | build/pylib/mozbuild/mozbuild/buildconfig/backend/utils.py:22-29 | a Makefile with a substitution that is neither an autoconf value nor `top_srcdir` or `srcdir` stops generation at or before it |
| `HybridMake.HybridMakeBackend.PrintExportRules` | build/pylib/mozbuild/mozbuild/buildconfig/backend/hybridmake.py:127-139 | one install rule per input/leaf pair, and the list of targets |
| `HybridMake.HybridMakeBackend.WriteExports` | build/pylib/mozbuild/mozbuild/buildconfig/backend/hybridmake.py:116-142 | the exports lines, the output directories grown by `inc_dir/d` for each `d`, and the record's exclusive variables returned |
| `HybridMake.IncludePathsOfSorted` | build/pylib/mozbuild/mozbuild/buildconfig/backend/hybridmake.py:122-124 | the directories created are `inc_dir/d` for every `d` of the set |
| `HybridMakeProperties.ExportRuleOf` | build/pylib/mozbuild/mozbuild/buildconfig/backend/hybridmake.py:129-137 | rule i targets `inc_dir/leaf`, depends on the input, and installs into the leaf's directory; target i is listed in `EXPORT_TARGETS` |
| `HybridMakeProperties.ExportRulesLength` | build/pylib/mozbuild/mozbuild/buildconfig/backend/hybridmake.py:127-139 | two lines per pair and one target per pair |
| `HybridMake.HybridMakeBackend.PrintIdlInstall` | build/pylib/mozbuild/mozbuild/buildconfig/backend/hybridmake.py:167-175 | the variable lines and the install rule of one source |
| `HybridMake.HybridMakeBackend.PrintIdlGenerate` | build/pylib/mozbuild/mozbuild/buildconfig/backend/hybridmake.py:180-190 | the header and xpt rules of one source |
| `HybridMake.HybridMakeBackend.PrintIdlRules` | build/pylib/mozbuild/mozbuild/buildconfig/backend/hybridmake.py:153-190 | the twelve lines of one source |
| `HybridMake.HybridMakeBackend.WriteIdl` | build/pylib/mozbuild/mozbuild/buildconfig/backend/hybridmake.py:144-199 | the rules of every source in sorted order; the `_xpidlgen` directory is added; the exclusive variables are returned |
| `HybridMakeProperties.IdlLinesLength` | build/pylib/mozbuild/mozbuild/buildconfig/backend/hybridmake.py:153-190 | twelve lines per source |
| `HybridMakeProperties.IdlRuleDependencies` | build/pylib/mozbuild/mozbuild/buildconfig/backend/hybridmake.py:171-190 | the install rule depends on the source, the header rule on `$(IDL_DIST_FILES)`, and the xpt rule on the installed IDL |
| `HybridMakeProperties.IdlPathsOfSource` | build/pylib/mozbuild/mozbuild/buildconfig/backend/hybridmake.py:153-163 | for `dir/S.idl`: `dist/idl/S.idl`, `dist/include/S.h` and `_xpidlgen/S.xpt` |
| `HybridMake.HybridMakeBackend.WriteObject` | build/pylib/mozbuild/mozbuild/buildconfig/backend/hybridmake.py:104-112 | exports and IDL records are written, and every other record is passed over |
| `HybridMake.HybridMakeBackend.WriteSplendid` | build/pylib/mozbuild/mozbuild/buildconfig/backend/hybridmake.py:99-114 | every record's lines; fails iff extraction raises; otherwise the strip set |
| `HybridMakeProperties.StripSetIff` | build/pylib/mozbuild/mozbuild/buildconfig/backend/hybridmake.py:102-114 | a name is stripped iff it is exclusive to some exports or IDL record |
| `HybridMakeProperties.ObjectLinesEmptyIff` | build/pylib/mozbuild/mozbuild/buildconfig/backend/hybridmake.py:104-112 | a record prints nothing iff it is not an exports record and is not an IDL record with sources |
| `HybridMakeProperties.SplendidLinesEmptyIff` | build/pylib/mozbuild/mozbuild/buildconfig/backend/hybridmake.py:75-82 | the splendid buffer is empty iff every record prints nothing |
| `HybridMake.HybridMakeBackend.RenderSplendid` | build/pylib/mozbuild/mozbuild/buildconfig/backend/hybridmake.py:71-73 | the splendid lines rendered into a fresh buffer |
| `HybridMake.HybridMakeBackend.WriteSplendidFile` | build/pylib/mozbuild/mozbuild/buildconfig/backend/hybridmake.py:75-82 | `splendid.mk` is written, recorded and remembered |
| `HybridMake.HybridMakeBackend.WriteTranslated` | build/pylib/mozbuild/mozbuild/buildconfig/backend/hybridmake.py:84-97 | the translated Makefile is written and recorded |
| `HybridMake.StripVariables` | build/pylib/mozbuild/mozbuild/buildconfig/backend/hybridmake.py:91-92 | the statements without the stripped assignments |
| `HybridMake.WithoutAssignmentsIff` | build/pylib/mozbuild/mozbuild/buildconfig/backend/hybridmake.py:91-92 | a statement survives iff it is not an assignment of a stripped name |
| `HybridMake.WithoutAssignmentsAdd` | build/pylib/mozbuild/mozbuild/buildconfig/backend/hybridmake.py:91-92 | stripping names one after another is stripping the whole set |
| `HybridMake.WithoutNoAssignments` | build/pylib/mozbuild/mozbuild/buildconfig/backend/hybridmake.py:91-92 | an empty strip set keeps every statement |
| `HybridMake.HybridMakeBackend.GenerateAt` | build/pylib/mozbuild/mozbuild/buildconfig/backend/hybridmake.py:67-97 | at a known output path, the Makefile is generated iff extraction does not raise, with the state `AfterMakefileAt` |
| `HybridMake.HybridMakeBackend.GenerateMakefile` | build/pylib/mozbuild/mozbuild/buildconfig/backend/hybridmake.py:65-97 | succeeds iff the output path can be formed and extraction does not raise; the state is `AfterMakefile` |
| `HybridMakeProperties.FailedMakefileWritesNothing` | build/pylib/mozbuild/mozbuild/buildconfig/backend/hybridmake.py:52-56 | a failing Makefile writes and records nothing |
| `HybridMakeProperties.GeneratedMakefileOutput` | build/pylib/mozbuild/mozbuild/buildconfig/backend/hybridmake.py:65-97 | the translated Makefile is written without the stripped assignments and recorded last; `splendid.mk` is remembered iff something was printed |
| `HybridMakeProperties.GeneratedMakefileRecorded` | build/pylib/mozbuild/mozbuild/buildconfig/backend/hybridmake.py:75-97 | the output is recorded, and a non-empty splendid file is remembered |
| `HybridMakeProperties.AfterMakefileKeeps` | build/pylib/mozbuild/mozbuild/buildconfig/backend/hybridmake.py:65-97 | generation only grows the directories, the splendid files and the outputs |
| `HybridMakeProperties.EveryGeneratedMakefileRecorded` | build/pylib/mozbuild/mozbuild/buildconfig/backend/hybridmake.py:51-56 | a failure of one Makefile does not stop the others: every generated one is recorded at the end |
| `HybridMake.HybridMakeBackend.PrintSettings` | build/pylib/mozbuild/mozbuild/buildconfig/backend/hybridmake.py:202-210 | the header and directory settings |
| `HybridMake.HybridMakeBackend.PrintDefault` | build/pylib/mozbuild/mozbuild/buildconfig/backend/hybridmake.py:212-215 | the refusing default target |
| `HybridMake.HybridMakeBackend.PrintHybridmake` | build/pylib/mozbuild/mozbuild/buildconfig/backend/hybridmake.py:201-220 | prologue, one include per splendid file in sorted order, and the non-recursive rules last |
| `HybridMakeProperties.HybridmakeShape` | build/pylib/mozbuild/mozbuild/buildconfig/backend/hybridmake.py:201-220 | the sorted listing holds exactly the splendid files; the file is the prologue, line `11 + i` includes path i, and the last line includes `nonrecursive.mk` |
| `HybridMake.HybridMakeBackend.WriteHybridmake` | build/pylib/mozbuild/mozbuild/buildconfig/backend/hybridmake.py:58-63 | `hybridmake.mk` is written and recorded with every Makefile as a dependency |
| `HybridMake.HybridMakeBackend.Generate` | build/pylib/mozbuild/mozbuild/buildconfig/backend/hybridmake.py:50-63 | succeeds iff every Makefile substitutes; the state is `AfterGenerate` |
| `HybridMakeProperties.HybridmakeIncludesEverySplendid` | build/pylib/mozbuild/mozbuild/buildconfig/backend/hybridmake.py:50-63 | after generation `hybridmake.mk` is written last and includes every non-empty splendid file |
| `HybridMake.HybridMakeBackend.Build` | build/pylib/mozbuild/mozbuild/buildconfig/backend/hybridmake.py:226-243 | every output directory is created; make runs eleven tiers, `export_tier_base` first, then `export` of `hybridmake.mk`, then the other nine on the main Makefile, in `TierOrder` |
| `HybridMakeProperties.TierOrderHybridExport` | build/pylib/mozbuild/mozbuild/buildconfig/backend/hybridmake.py:232-243 | eleven invocations: `export_tier_base` first, then `hybridmake.mk`'s `export`, and all the rest on the main Makefile |
| `BackendUtils.OutputBasename` | build/pylib/mozbuild/mozbuild/buildconfig/backend/utils.py:16-16 | a prefix of the basename that never ends in `.`, `i` or `n` |
| `PyStr.RStrip` | build/pylib/mozbuild/mozbuild/buildconfig/backend/utils.py:16-16 | the longest prefix whose removed tail is made only of the given characters |
| `BackendUtils.OutputBasenameOfIn` | build/pylib/mozbuild/mozbuild/buildconfig/backend/utils.py:16-16 | `X.in` gives `X` unless `X` itself ends in `.`, `i` or `n`, in which case it gives something shorter |
| `BackendUtils.MakefileInExample` | build/pylib/mozbuild/mozbuild/buildconfig/backend/utils.py:16-16 | `Makefile.in` gives `Makefile` |
| `BackendUtils.DomainInExample` | build/pylib/mozbuild/mozbuild/buildconfig/backend/utils.py:16-16 | `domain.in` gives `doma` |
| `BackendUtils.MakefileOutputPath` | build/pylib/mozbuild/mozbuild/buildconfig/backend/utils.py:10-20 | succeeds iff the name ends in `.in` and starts with the source directory |
| `BackendUtils.OutputPathBelowObjdir` | build/pylib/mozbuild/mozbuild/buildconfig/backend/utils.py:17-20 | for a Makefile in `srcdir/sub`, the output is `objdir/sub/<basename>` |
| `BackendUtils.SubstitutionVariables` | build/pylib/mozbuild/mozbuild/buildconfig/backend/utils.py:22-29 | fails iff the name does not end in `.in`; otherwise autoconf plus `top_srcdir` and `srcdir`, which override it |
| `BackendUtils.SubstituteMakefile` | build/pylib/mozbuild/mozbuild/buildconfig/backend/utils.py:22-29 | returns iff the name ends in `.in` and every substitution the Makefile names has a value among those variables (`raise_on_missing=True`) |

## Left out

- `ObjectDirectory.ObjectDirectoryParser.MergeObject` (and `ObjectDirectorySpec.ExportsRaises`): an exports record whose Makefile has no `srcdir` and which exports a relative file raises in `os.path.join(None, f)`.
  - The model raises before changing `tree.exports`.
  - The source first creates `'/' + namespace` keys and merges the namespaces and absolute files it meets earlier.
  - Which namespaces and files those are depends on dict and set iteration order, so that partial update is not modelled.
- `ObjectDirectory.ObjectDirectoryParser.constructor`: the `raise` for a relative directory is a `requires IsAbs`. The `os.path.isdir` check is dropped, since the filesystem is a parameter. The top Makefile is given already parsed.
- `ObjectDirectory.ObjectDirectoryParser.constructor`: `all_makefile_paths`, `relevant_makefile_paths`, `ignored_makefile_paths`, `handled_makefile_paths` and `error_makefile_paths` start as `None` in the source and as empty collections in the model. No operation of the model reads them before `load_tree` (or `ResetTree`) assigns them: every operation that does requires the tree, and the tree only exists after that assignment. The `AttributeError` the source would raise on such an early use is not modelled.
- `Collection.MakefileCollection.constructor`: the two `assert`s on absolute roots are a `requires`.
- `Collection.BuildFilesInTree`: the `assert` on an absolute root is a `requires`.
- `MakefileSource.GetVariableString`: an undefined variable reads as the empty string.
- `MakefileSource.HasOwnVariable`: a conditionally assigned variable counts as defined. This is the make library's behaviour, which is not part of this model.
- `ObjectDirectorySpec.KeyFits`: the key that unused variables are recorded under is the last value `path` was bound to.
  - Where set iteration order decides that value, the model only says which values are possible.
  - The model does not say which of them is taken.
- `HybridMake.HybridMakeBackend.WriteExports`: the `filenames` dict is visited in the order it is given, as a sequence of pairs. Python's dict order is not modelled.
- `HybridMake.WithoutAssignments`: the effect of `remove_variable_assignment` is taken to be removing every assignment of that name. The make library is not part of this model. The same holds for `to_source`, `perform_substitutions` and the `Makefile` parser itself.
- `ObjectDirectory.ObjectDirectoryParser.MergeLibrary`: the entry's single `includes` list is kept as its two parts, the include directories and then the local include directories. Within each part the order is the iteration order of a set, which the model leaves open by keeping each part as a multiset.
- `BackendUtils.SubstituteMakefile`: of `perform_substitutions` only its raise is modelled, taken to mean that a `@NAME@` the Makefile refers to has no value; the substituted statements are not, and each Makefile carries the names it refers to as a given set.
- `parse_idl_file` and the xpidl parser, with its `resolve`: a file parses iff it has an entry in the environment's IDL dependency map.
- `parse_jar_manifest`: its `{}` stub result is modelled.
- `ObjectDirectoryParser` attributes `IGNORE_DIRECTORIES` and `SOURCE_DIR_MAKEFILES`: the class never defines them, so they are constructor parameters.
- A library's output directory (`obj.directory`) is a parameter of the environment. See the findings below.
- File I/O is not modelled:
  - `os.walk`, `os.path.exists`, `os.path.normpath` and `os.path.abspath` are parameters.
  - Opening and writing files becomes entries in a map from path to content.
  - `print` and traceback logging are dropped.
- `_run_make` and `mkdir` are not modelled: they launch subprocesses and touch the disk, so only the list of invocations and the set of directories created are modelled.
- `BackendBase` and `add_generate_output_file` are not part of this model. The outputs are modelled as a recorded list of (path, dependencies) pairs.
- `MozillaMakefile.get_dirs`, `is_module`, `is_xpidl_module`, `get_module` and `get_objtop` are not modelled, because no core operation calls them. `is_xpidl_module` would raise, since the class has no `XPIDL_MODULE` attribute. `get_reldir` is modelled as `Extractor.Reldir` over a given absolute directory and object root.
- `MakefileCollection.includes`, `variable_assignments`, `rules` and `static_pattern_rules` are not modelled: they only re-yield the make library's statement lists.
- `BuildSystemExtractor.load_all_object_directory_makefiles`, `source_directory_build_files`, `object_directory_build_files` and `relevant_makefiles` are not modelled: they are thin drivers over `get_build_files_in_tree`, or are empty.

## Findings

| source | as written | input that shows it | evidently intended | confidence | as-written member | corrected member |
|---|---|---|---|---|---|---|
| build/buildparser/extractor.py:820 | `name in self.tree.libraries` reads an attribute that `TreeInfo.__slots__` (data.py:45-54) does not declare, so it raises `AttributeError` | any Makefile with `LIBRARY_NAME` | the tree keeps a `libraries` map, and a known name is skipped | high, not executed | `ObjectDirectoryFindings.LibraryMergeAlwaysRaises` | `ObjectDirectoryFindings.LibraryStepIntended` |
| build/buildparser/extractor.py:845 | `obj.directory` (also read at 828) is not a slot of `LibraryInfo` or of `MakefileDerivedObject`, so building the entry raises | any library record, once the tree has a `libraries` attribute | the library's output directory, given here by the environment | high, not executed | `ObjectDirectoryFindings.LibraryEntryAlwaysRaises` | `ObjectDirectoryFindings.LibraryStepIntended` |
| build/buildparser/extractor.py:741 | the handler prints `filename`, which is unbound until some IDL path was formed, so a first failing `os.path.join` raises `UnboundLocalError` out of `load_tree` | one XPIDL module from a Makefile with `XPIDL_MODULE = m`, `XPIDLSRCS = a.idl` and no `srcdir` | report the source and skip it | high, not executed | `ObjectDirectoryFindings.IdlLoopRaisesWithoutSourceDir` | `ObjectDirectoryFindings.UnformableSourceSkipped` |
