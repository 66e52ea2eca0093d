/** Trait classification and per-Makefile extraction: `MozillaMakefile` in
    build/buildparser/extractor.py.

    A Makefile's traits are decided by the names of the variables it assigns
    itself. For each trait the extractor fills in a derived object, recording
    every variable it consulted. The functions below (`TraitsOf`, `LibraryOf`,
    `ExportsOf`, ...) give what each object ends up holding; the methods of
    `MozillaMakefile` fill in the objects of module `Data` step by step, as
    the source does, and are proved to end with those contents. */
module Extractor {
  import opened Wrappers
  import opened PyStr
  import opened MakefileSource
  import opened Data

  /** The traits that identify a Makefile (MODULE = 1 ... PROGRAM = 7). */
  datatype Trait = ModuleTrait | LibraryTrait | DirsTrait | XpidlTrait | ExportsTrait | TestTrait | ProgramTrait

  /** The trait one variable name triggers: the `if`/`elif` chain of
      `get_traits`. Its last test, `name in ('PROGRAM')`, tests whether the
      name occurs in the string "PROGRAM", since `('PROGRAM')` is a string
      and not a one-element tuple. */
  function TraitOf(name: string): Option<Trait> {
    if name == "MODULE" then Some(ModuleTrait)
    else if name == "LIBRARY_NAME" then Some(LibraryTrait)
    else if name == "DIRS" || name == "PARALLEL_DIRS" then Some(DirsTrait)
    else if name in ["XPIDL_MODULE", "XPIDLSRCS", "SDK_XPIDLSRCS"] then Some(XpidlTrait)
    else if name in ["EXPORTS", "EXPORTS_NAMESPACES"] then Some(ExportsTrait)
    else if name in ["_TEST_FILES", "XPCSHELL_TESTS", "_BROWSER_TEST_FILES", "_CHROME_TEST_FILES"] then Some(TestTrait)
    else if IsSubstring(name, "PROGRAM") then Some(ProgramTrait)
    else None
  }

  /** The traits of a file whose own variable names are `names`. */
  function TraitsOf(names: set<string>): set<Trait> {
    set n | n in names && TraitOf(n).Some? :: TraitOf(n).value
  }

  /** The elements of a list, `set(words)`. */
  function Elems(words: seq<string>): (r: set<string>)
    ensures words == [] ==> r == {}
  {
    set w | w in words
  }

  /** A word with a leading `flag` (`-D`, `-I`) removed where present. */
  function StripFlag(w: string, flag: string): string {
    if HasPrefix(w, flag) then w[|flag|..] else w
  }

  /** The words with a leading `flag` removed where present. */
  function StripPrefixed(words: seq<string>, flag: string): set<string> {
    set w | w in words :: StripFlag(w, flag)
  }

  lemma ElemsSnoc(words: seq<string>, w: string)
    ensures Elems(words + [w]) == Elems(words) + {w}
  {
    assert forall x :: x in words + [w] <==> x in words || x == w;
  }

  lemma StripPrefixedSnoc(words: seq<string>, w: string, flag: string)
    ensures StripPrefixed(words + [w], flag) == StripPrefixed(words, flag) + {StripFlag(w, flag)}
  {
    assert forall x :: x in words + [w] <==> x in words || x == w;
  }

  /** The variables `get_library_info` consults, defined or not, in the
      order it consults them. */
  const LibraryVariableList: seq<string> := [
    "LIBRARY_NAME", "DEFINES", "CFLAGS", "CXXFLAGS", "CPPSRCS", "LIBXUL_LIBRARY",
    "FORCE_STATIC_LIB", "FORCE_SHARED_LIB", "USE_STATIC_LIBS", "IS_COMPONENT",
    "EXPORT_LIBRARY", "INCLUDES", "LOCAL_INCLUDES", "SHORT_LIBNAME", "SHARED_LIBRARY_LIBS"
  ]

  const LibraryVariables: set<string> := Elems(LibraryVariableList)

  /** `COMMON_VARIABLES`: variables most Makefiles define that need no handling. */
  const CommonVariables: seq<string> := [
    "DEPTH", "topsrcdir", "srcdir", "VPATH", "relativesrcdir", "DIRS", "PARALLEL_DIRS", "TOOL_DIRS"
  ]

  /** The variables the catch-all `MiscInfo` consults. */
  const MiscVariables: set<string> := {
    "GRE_MODULE", "DEFINES", "EXTRA_JS_MODULES", "EXTRA_COMPONENTS", "GARBAGE"
  }

  /** The variables the test extraction consults. */
  const TestVariables: set<string> := {
    "_TEST_FILES", "XPCSHELL_TESTS", "_BROWSER_TEST_FILES", "_CHROME_TEST_FILES"
  }

  /** Flag set when the variable is defined, otherwise left unset. */
  function TrueIfDefined(m: MakefileData, name: string): Option<bool> {
    if HasOwnVariable(m, name) then Some(true) else None
  }

  /** `value == "1"` when the variable is defined, otherwise unset. */
  function IsOneIfDefined(m: MakefileData, name: string): Option<bool> {
    if HasOwnVariable(m, name) then Some(GetVariableString(m, name) == "1") else None
  }

  /** The value of a variable that is read only when defined. */
  function StringIfDefined(m: MakefileData, name: string): Option<string> {
    if HasOwnVariable(m, name) then Some(GetVariableString(m, name)) else None
  }

  /** The static-library flag: set by either of two variables. */
  function StaticFlag(m: MakefileData): Option<bool> {
    if HasOwnVariable(m, "LIBXUL_LIBRARY") || HasOwnVariable(m, "FORCE_STATIC_LIB") then Some(true) else None
  }

  /** The words of a variable that is read only when defined. */
  function WordsIfDefined(m: MakefileData, name: string): seq<string> {
    if HasOwnVariable(m, name) then GetVariableSplit(m, name) else []
  }

  /** The library object `get_library_info` builds. */
  function LibraryOf(m: MakefileData): LibraryRecord {
    LibraryRecord(
      InitialBase(m).(usedVariables := LibraryVariables),
      Some(GetVariableString(m, "LIBRARY_NAME")),
      Elems(GetVariableSplit(m, "CFLAGS")),
      Elems(GetVariableSplit(m, "CPPSRCS")),
      Elems(GetVariableSplit(m, "CXXFLAGS")),
      StripPrefixed(GetVariableSplit(m, "DEFINES"), "-D"),
      IsOneIfDefined(m, "EXPORT_LIBRARY"),
      StripPrefixed(GetVariableSplit(m, "INCLUDES"), "-I"),
      StripPrefixed(GetVariableSplit(m, "LOCAL_INCLUDES"), "-I"),
      None,
      IsOneIfDefined(m, "IS_COMPONENT"),
      TrueIfDefined(m, "FORCE_SHARED_LIB"),
      StaticFlag(m),
      Elems(GetVariableSplit(m, "SHARED_LIBRARY_LIBS")),
      StringIfDefined(m, "SHORT_LIBNAME"),
      TrueIfDefined(m, "USE_STATIC_LIBS"))
  }

  /** The `EXPORTS_<namespace>` variable of a namespace. */
  function NamespaceVariable(namespace: string): string {
    "EXPORTS_" + namespace
  }

  /** `add_export` of each of `names`, in order. */
  function AddEach(exports: map<string, set<string>>, names: seq<string>, namespace: Option<string>)
    : map<string, set<string>>
    decreases |names|
  {
    if names == [] then exports
    else WithExport(AddEach(exports, names[..|names| - 1], namespace), names[|names| - 1], namespace)
  }

  /** The namespaced part of the exports loop over `namespaces`, in order. */
  function AddNamespaces(exports: map<string, set<string>>, m: MakefileData, namespaces: seq<string>)
    : map<string, set<string>>
    decreases |namespaces|
  {
    if namespaces == [] then exports
    else
      var ns := namespaces[|namespaces| - 1];
      AddEach(AddNamespaces(exports, m, namespaces[..|namespaces| - 1]), GetVariableSplit(m, NamespaceVariable(ns)), Some(ns))
  }

  /** The exports map the EXPORTS trait produces. */
  function ExportsMapOf(m: MakefileData): map<string, set<string>> {
    AddNamespaces(AddEach(map[], GetVariableSplit(m, "EXPORTS"), None), m, GetVariableSplit(m, "EXPORTS_NAMESPACES"))
  }

  /** The `EXPORTS_<namespace>` variables of some namespaces. */
  function NamespaceVariables(namespaces: seq<string>): set<string> {
    set ns | ns in namespaces :: NamespaceVariable(ns)
  }

  /** The variables the exports extraction consults. */
  function ExportsVariables(m: MakefileData): set<string> {
    {"EXPORTS", "EXPORTS_NAMESPACES"} + NamespaceVariables(GetVariableSplit(m, "EXPORTS_NAMESPACES"))
  }

  function ExportsOf(m: MakefileData): ExportsRecord {
    ExportsRecord(InitialBase(m).(usedVariables := ExportsVariables(m)), ExportsMapOf(m))
  }

  /** The XPIDL extraction: a failure when neither module variable is defined.
      `SDK_XPIDLSRCS` contributes sources but is not recorded as consulted. */
  function XpidlOf(m: MakefileData): Result<XpidlRecord> {
    if !HasOwnVariable(m, "XPIDL_MODULE") && !HasOwnVariable(m, "MODULE") then
      Failure("XPIDL trait without XPIDL_MODULE or MODULE defined")
    else
      Success(XpidlRecord(
        InitialBase(m).(usedVariables := {"XPIDL_MODULE", "MODULE", "XPIDLSRCS"}),
        Some(GetVariableString(m, if HasOwnVariable(m, "XPIDL_MODULE") then "XPIDL_MODULE" else "MODULE")),
        Elems(WordsIfDefined(m, "XPIDLSRCS")) + Elems(WordsIfDefined(m, "SDK_XPIDLSRCS"))))
  }

  function TestOf(m: MakefileData): TestRecord {
    TestRecord(
      InitialBase(m).(usedVariables := TestVariables),
      Elems(WordsIfDefined(m, "_BROWSER_TEST_FILES")),
      Elems(WordsIfDefined(m, "_CHROME_TEST_FILES")),
      Elems(WordsIfDefined(m, "_TEST_FILES")),
      Elems(WordsIfDefined(m, "XPCSHELL_TESTS")))
  }

  /** The `UsedVariableInfo` tracker. */
  function TrackerOf(m: MakefileData, traits: set<Trait>): BaseRecord {
    InitialBase(m).(usedVariables :=
      Elems(CommonVariables) + (if ModuleTrait in traits then {"MODULE"} else {}) + {"MODULE_NAME"})
  }

  /** The paths of the file's include statements, in order. */
  function IncludedPaths(m: MakefileData): (r: seq<string>)
    ensures |r| == |m.includes|
    ensures forall i :: 0 <= i < |r| ==> r[i] == m.includes[i].path
  {
    seq(|m.includes|, i requires 0 <= i < |m.includes| => m.includes[i].path)
  }

  function MiscOf(m: MakefileData): MiscRecord {
    MiscRecord(
      InitialBase(m).(usedVariables := MiscVariables),
      {},
      StripPrefixed(WordsIfDefined(m, "DEFINES"), "-D"),
      Elems(WordsIfDefined(m, "EXTRA_COMPONENTS")),
      Elems(WordsIfDefined(m, "EXTRA_JS_MODULES")),
      Elems(WordsIfDefined(m, "GARBAGE")),
      Some(IncludedPaths(m)),
      TrueIfDefined(m, "GRE_MODULE"),
      {})
  }

  /** The objects `get_data_objects` yields, in order, and whether it raised
      after yielding them (the XPIDL trait without a module name). */
  datatype Extraction = Extraction(objects: seq<DerivedRecord>, failed: bool)

  /** `s` with `x` appended when `c` holds. */
  function AppendIf(s: seq<DerivedRecord>, c: bool, x: DerivedRecord): seq<DerivedRecord> {
    if c then s + [x] else s
  }

  /** The objects of the traits that yield one: library, exports, XPIDL,
      test, in that order, stopping at a failed XPIDL extraction; given the
      object each trait would yield. */
  function AssembleTraitObjects(traits: set<Trait>, library: LibraryRecord, exports: ExportsRecord,
                                idl: Result<XpidlRecord>, test: TestRecord): Extraction {
    var s := AppendIf([], LibraryTrait in traits, Library(library));
    var s := AppendIf(s, ExportsTrait in traits, Exports(exports));
    if XpidlTrait in traits && idl.Failure? then
      Extraction(s, true)
    else
      var s := if XpidlTrait in traits then s + [Xpidl(idl.value)] else s;
      Extraction(AppendIf(s, TestTrait in traits, Test(test)), false)
  }

  /** The trait objects of a file with the given traits. */
  function TraitObjectsOf(m: MakefileData, traits: set<Trait>): Extraction {
    AssembleTraitObjects(traits, LibraryOf(m), ExportsOf(m), XpidlOf(m), TestOf(m))
  }

  /** The trait objects followed, unless the extraction failed, by the
      tracker and the misc object. */
  function AppendClosingObjects(e: Extraction, tracker: BaseRecord, misc: MiscRecord): Extraction {
    if e.failed then e
    else Extraction(e.objects + [UsedVariables(tracker), Misc(misc)], false)
  }

  /** Everything `get_data_objects` yields for a file. */
  function DataObjectsOf(m: MakefileData): Extraction {
    var traits := TraitsOf(OwnVariableNames(m, true));
    AppendClosingObjects(TraitObjectsOf(m, traits), TrackerOf(m, traits), MiscOf(m))
  }

  /** The relative object directory with every separator turned into `_`. */
  function TransformedReldir(reldir: string): (r: string)
    ensures |r| == |reldir|
    ensures '/' !in r && '\\' !in r
    ensures forall i :: 0 <= i < |reldir| && (reldir[i] == '/' || reldir[i] == '\\') ==> r[i] == '_'
    ensures forall i :: 0 <= i < |reldir| && reldir[i] != '/' && reldir[i] != '\\' ==> r[i] == reldir[i]
  {
    ReplaceChar(ReplaceChar(reldir, '\\', '_'), '/', '_')
  }

  /** `get_reldir`: the directory relative to the object-tree root, given
      both as absolute paths. */
  function Reldir(absdir: string, objtop: string): string {
    SliceFrom(absdir, |objtop| + 1)
  }

  // ---------------------------------------------------------------------
  // Loops shared by the extraction methods

  /** `for w in words: s.add(w)`. */
  method AddWords(s: set<string>, words: seq<string>) returns (r: set<string>)
    ensures r == s + Elems(words)
  {
    r := s;
    for i := 0 to |words|
      invariant r == s + Elems(words[..i])
    {
      assert words[..i + 1] == words[..i] + [words[i]];
      ElemsSnoc(words[..i], words[i]);
      r := r + {words[i]};
    }
    assert words[..|words|] == words;
  }

  /** `for w in words: s.add(w[2:] if w[0:2] == flag else w)`. */
  method AddStripped(s: set<string>, words: seq<string>, flag: string) returns (r: set<string>)
    ensures r == s + StripPrefixed(words, flag)
  {
    r := s;
    for i := 0 to |words|
      invariant r == s + StripPrefixed(words[..i], flag)
    {
      assert words[..i + 1] == words[..i] + [words[i]];
      StripPrefixedSnoc(words[..i], words[i], flag);
      var w := words[i];
      if HasPrefix(w, flag) {
        r := r + {w[|flag|..]};
      } else {
        r := r + {w};
      }
    }
    assert words[..|words|] == words;
  }

  /** `for v in names: obj.add_used_variable(v)`. */
  method RecordUsed(obj: MakefileDerivedObject, names: seq<string>)
    modifies obj`usedVariables
    ensures obj.usedVariables == old(obj.usedVariables) + Elems(names)
  {
    for i := 0 to |names|
      invariant obj.usedVariables == old(obj.usedVariables) + Elems(names[..i])
    {
      assert names[..i + 1] == names[..i] + [names[i]];
      ElemsSnoc(names[..i], names[i]);
      obj.AddUsedVariable(names[i]);
    }
    assert names[..|names|] == names;
  }

  /** `for name in names: e.add_export(name, namespace)`. */
  method ExportAll(e: ExportsInfo, names: seq<string>, namespace: Option<string>)
    modifies e`exports
    ensures e.exports == AddEach(old(e.exports), names, namespace)
  {
    for i := 0 to |names|
      invariant e.exports == AddEach(old(e.exports), names[..i], namespace)
    {
      assert names[..i + 1][..i] == names[..i];
      e.AddExport(names[i], namespace);
    }
    assert names[..|names|] == names;
  }

  class MozillaMakefile {
    const filename: string
    const data: MakefileData
    var traits: Option<set<Trait>>

    /** The trait cache, once filled, holds the traits of the file. */
    ghost predicate Valid()
      reads this
    {
      traits.Some? ==> traits.value == TraitsOf(OwnVariableNames(data, true))
    }

    constructor (filename: string, data: MakefileData)
      ensures Valid()
      ensures this.filename == filename && this.data == data && traits == None
    {
      this.filename := filename;
      this.data := data;
      traits := None;
    }

    /** `get_traits`: classify the own variable names (conditional ones
        included) and cache the result; later calls return the cache. */
    method GetTraits() returns (r: set<Trait>)
      requires Valid()
      modifies this`traits
      ensures Valid()
      ensures r == TraitsOf(OwnVariableNames(data, true))
      ensures traits == Some(r)
      ensures old(traits).Some? ==> traits == old(traits)
    {
      if traits.Some? {
        return traits.value;
      }
      var names := OwnVariableNames(data, true);
      var found: set<Trait> := {};
      var rest := names;
      while rest != {}
        invariant rest <= names
        invariant found == TraitsOf(names - rest)
        decreases rest
      {
        var name :| name in rest;
        var t := TraitOf(name);
        if t.Some? {
          found := found + {t.value};
        }
        rest := rest - {name};
        assert names - rest == (names - (rest + {name})) + {name};
      }
      traits := Some(found);
      r := found;
    }

    /** `get_library_info`. Every variable it reads is recorded as used,
        whether the file defines it or not; recording them before reading
        them leaves the same set. */
    method GetLibraryInfo() returns (l: LibraryInfo)
      ensures fresh(l) && fresh(l.base)
      ensures l.Value() == LibraryOf(data)
    {
      l := new LibraryInfo(data);
      RecordUsed(l.base, LibraryVariableList);
      ReadLibrarySources(l);
      ReadLibraryKind(l);
      ReadLibraryLinkage(l);
    }

    /** The name, defines, C/C++ flags and sources of a library. */
    method ReadLibrarySources(l: LibraryInfo)
      requires l.defines == {} && l.cFlags == {} && l.cxxFlags == {} && l.cppSources == {}
      modifies l`name, l`defines, l`cFlags, l`cxxFlags, l`cppSources
      ensures l.name == Some(GetVariableString(data, "LIBRARY_NAME"))
      ensures l.defines == StripPrefixed(GetVariableSplit(data, "DEFINES"), "-D")
      ensures l.cFlags == Elems(GetVariableSplit(data, "CFLAGS"))
      ensures l.cxxFlags == Elems(GetVariableSplit(data, "CXXFLAGS"))
      ensures l.cppSources == Elems(GetVariableSplit(data, "CPPSRCS"))
    {
      l.name := Some(GetVariableString(data, "LIBRARY_NAME"));
      var s := AddStripped(l.defines, GetVariableSplit(data, "DEFINES"), "-D");
      l.defines := s;
      s := AddWords(l.cFlags, GetVariableSplit(data, "CFLAGS"));
      l.cFlags := s;
      s := AddWords(l.cxxFlags, GetVariableSplit(data, "CXXFLAGS"));
      l.cxxFlags := s;
      s := AddWords(l.cppSources, GetVariableSplit(data, "CPPSRCS"));
      l.cppSources := s;
    }

    /** Static, shared, component and export flags: each is set only when
        its variable is defined. */
    method ReadLibraryKind(l: LibraryInfo)
      requires l.isStatic == None && l.isShared == None && l.useStaticLibs == None
      requires l.isComponent == None && l.exportLibrary == None
      modifies l`isStatic, l`isShared, l`useStaticLibs, l`isComponent, l`exportLibrary
      ensures l.isStatic == StaticFlag(data)
      ensures l.isShared == TrueIfDefined(data, "FORCE_SHARED_LIB")
      ensures l.useStaticLibs == TrueIfDefined(data, "USE_STATIC_LIBS")
      ensures l.isComponent == IsOneIfDefined(data, "IS_COMPONENT")
      ensures l.exportLibrary == IsOneIfDefined(data, "EXPORT_LIBRARY")
    {
      if HasOwnVariable(data, "LIBXUL_LIBRARY") {
        l.isStatic := Some(true);
      }
      if HasOwnVariable(data, "FORCE_STATIC_LIB") {
        l.isStatic := Some(true);
      }
      if HasOwnVariable(data, "FORCE_SHARED_LIB") {
        l.isShared := Some(true);
      }
      if HasOwnVariable(data, "USE_STATIC_LIBS") {
        l.useStaticLibs := Some(true);
      }
      if HasOwnVariable(data, "IS_COMPONENT") {
        l.isComponent := Some(GetVariableString(data, "IS_COMPONENT") == "1");
      }
      if HasOwnVariable(data, "EXPORT_LIBRARY") {
        l.exportLibrary := Some(GetVariableString(data, "EXPORT_LIBRARY") == "1");
      }
    }

    /** Include paths, short name and the libraries linked in. */
    method ReadLibraryLinkage(l: LibraryInfo)
      requires l.includes == {} && l.localIncludes == {} && l.shortLibname == None && l.sharedLibraryLibs == {}
      modifies l`includes, l`localIncludes, l`shortLibname, l`sharedLibraryLibs
      ensures l.includes == StripPrefixed(GetVariableSplit(data, "INCLUDES"), "-I")
      ensures l.localIncludes == StripPrefixed(GetVariableSplit(data, "LOCAL_INCLUDES"), "-I")
      ensures l.shortLibname == StringIfDefined(data, "SHORT_LIBNAME")
      ensures l.sharedLibraryLibs == Elems(GetVariableSplit(data, "SHARED_LIBRARY_LIBS"))
    {
      var s := AddStripped(l.includes, GetVariableSplit(data, "INCLUDES"), "-I");
      l.includes := s;
      s := AddStripped(l.localIncludes, GetVariableSplit(data, "LOCAL_INCLUDES"), "-I");
      l.localIncludes := s;
      if HasOwnVariable(data, "SHORT_LIBNAME") {
        l.shortLibname := Some(GetVariableString(data, "SHORT_LIBNAME"));
      }
      s := AddWords(l.sharedLibraryLibs, GetVariableSplit(data, "SHARED_LIBRARY_LIBS"));
      l.sharedLibraryLibs := s;
    }

    /** The EXPORTS part of `get_data_objects`. */
    method GetExportsInfo() returns (e: ExportsInfo)
      ensures fresh(e) && fresh(e.base)
      ensures e.Value() == ExportsOf(data)
    {
      e := new ExportsInfo(data);
      e.base.AddUsedVariable("EXPORTS");
      ExportAll(e, GetVariableSplit(data, "EXPORTS"), None);
      e.base.AddUsedVariable("EXPORTS_NAMESPACES");
      ExportNamespaces(e, GetVariableSplit(data, "EXPORTS_NAMESPACES"));
    }

    /** The loop over `EXPORTS_NAMESPACES`: each namespace's variable is
        recorded as used, and its files exported under that namespace. */
    method ExportNamespaces(e: ExportsInfo, namespaces: seq<string>)
      modifies e`exports, e.base`usedVariables
      ensures e.base.usedVariables == old(e.base.usedVariables) + NamespaceVariables(namespaces)
      ensures e.exports == AddNamespaces(old(e.exports), data, namespaces)
    {
      for j := 0 to |namespaces|
        invariant e.base.usedVariables == old(e.base.usedVariables) + NamespaceVariables(namespaces[..j])
        invariant e.exports == AddNamespaces(old(e.exports), data, namespaces[..j])
      {
        var namespace := namespaces[j];
        var varname := NamespaceVariable(namespace);
        e.base.AddUsedVariable(varname);
        ExportAll(e, GetVariableSplit(data, varname), Some(namespace));
        assert namespaces[..j + 1] == namespaces[..j] + [namespace];
        assert namespaces[..j + 1][..j] == namespaces[..j];
      }
      assert namespaces[..|namespaces|] == namespaces;
    }

    /** `if has_own_variable(name): for w in get_variable_split(name): s.add(w)`. */
    method AddWordsIfDefined(s: set<string>, name: string) returns (r: set<string>)
      ensures r == s + Elems(WordsIfDefined(data, name))
    {
      r := s;
      if HasOwnVariable(data, name) {
        r := AddWords(s, GetVariableSplit(data, name));
      }
    }

    /** The XPIDL part of `get_data_objects`; fails when neither
        `XPIDL_MODULE` nor `MODULE` is defined. */
    method GetXpidlInfo() returns (r: Result<XpidlRecord>)
      ensures r == XpidlOf(data)
    {
      var idl := new XPIDLInfo(data);
      idl.base.AddUsedVariable("XPIDL_MODULE");
      idl.base.AddUsedVariable("MODULE");
      if HasOwnVariable(data, "XPIDL_MODULE") {
        idl.moduleName := Some(GetVariableString(data, "XPIDL_MODULE"));
      } else if HasOwnVariable(data, "MODULE") {
        idl.moduleName := Some(GetVariableString(data, "MODULE"));
      } else {
        return Failure("XPIDL trait without XPIDL_MODULE or MODULE defined");
      }

      idl.base.AddUsedVariable("XPIDLSRCS");
      var s := AddWordsIfDefined(idl.sources, "XPIDLSRCS");
      idl.sources := s;

      // rules.mk merges SDK_XPIDLSRCS into the same sources; it is not recorded as used
      s := AddWordsIfDefined(idl.sources, "SDK_XPIDLSRCS");
      idl.sources := s;
      assert idl.sources == XpidlOf(data).value.sources;
      assert idl.base.Value() == XpidlOf(data).value.base;
      r := Success(idl.Value());
    }

    /** The TEST part of `get_data_objects`. */
    method GetTestInfo() returns (ti: TestInfo)
      ensures fresh(ti) && fresh(ti.base)
      ensures ti.Value() == TestOf(data)
    {
      ti := new TestInfo(data);
      ReadTestFiles(ti);
      ReadBrowserTests(ti);
    }

    /** `_TEST_FILES` and `XPCSHELL_TESTS`, each read only when defined. */
    method ReadTestFiles(ti: TestInfo)
      requires ti.testFiles == {} && ti.xpcshellTestDirs == {}
      modifies ti`testFiles, ti`xpcshellTestDirs, ti.base`usedVariables
      ensures ti.base.usedVariables == old(ti.base.usedVariables) + {"_TEST_FILES", "XPCSHELL_TESTS"}
      ensures ti.testFiles == Elems(WordsIfDefined(data, "_TEST_FILES"))
      ensures ti.xpcshellTestDirs == Elems(WordsIfDefined(data, "XPCSHELL_TESTS"))
    {
      ti.base.AddUsedVariable("_TEST_FILES");
      var s := AddWordsIfDefined(ti.testFiles, "_TEST_FILES");
      ti.testFiles := s;

      ti.base.AddUsedVariable("XPCSHELL_TESTS");
      s := AddWordsIfDefined(ti.xpcshellTestDirs, "XPCSHELL_TESTS");
      ti.xpcshellTestDirs := s;
    }

    /** `_BROWSER_TEST_FILES` and `_CHROME_TEST_FILES`, each read only when
        defined. */
    method ReadBrowserTests(ti: TestInfo)
      requires ti.browserTestFiles == {} && ti.chromeTestFiles == {}
      modifies ti`browserTestFiles, ti`chromeTestFiles, ti.base`usedVariables
      ensures ti.base.usedVariables == old(ti.base.usedVariables) + {"_BROWSER_TEST_FILES", "_CHROME_TEST_FILES"}
      ensures ti.browserTestFiles == Elems(WordsIfDefined(data, "_BROWSER_TEST_FILES"))
      ensures ti.chromeTestFiles == Elems(WordsIfDefined(data, "_CHROME_TEST_FILES"))
    {
      ti.base.AddUsedVariable("_BROWSER_TEST_FILES");
      var s := AddWordsIfDefined(ti.browserTestFiles, "_BROWSER_TEST_FILES");
      ti.browserTestFiles := s;

      ti.base.AddUsedVariable("_CHROME_TEST_FILES");
      s := AddWordsIfDefined(ti.chromeTestFiles, "_CHROME_TEST_FILES");
      ti.chromeTestFiles := s;
    }

    /** The closing `MiscInfo` part of `get_data_objects`, filling in the
        object created at its start. */
    method FillMiscInfo(misc: MiscInfo)
      requires misc.base.Value() == InitialBase(data)
      requires misc.includedFiles == None && misc.isGreModule == None
      requires misc.chromeDependencies == {} && misc.defines == {} && misc.extraComponents == {}
      requires misc.extraJsModule == {} && misc.garbage == {} && misc.platformDirs == {}
      modifies misc`isGreModule, misc`defines, misc`extraJsModule, misc`extraComponents
      modifies misc`garbage, misc`includedFiles, misc.base`usedVariables
      ensures misc.Value() == MiscOf(data)
    {
      FillMiscFlags(misc);
      FillMiscFiles(misc);
    }

    /** `GRE_MODULE` and `DEFINES`. */
    method FillMiscFlags(misc: MiscInfo)
      modifies misc`isGreModule, misc`defines, misc.base`usedVariables
      ensures misc.base.usedVariables == old(misc.base.usedVariables) + {"GRE_MODULE", "DEFINES"}
      ensures misc.isGreModule == if HasOwnVariable(data, "GRE_MODULE") then Some(true) else old(misc.isGreModule)
      ensures misc.defines == old(misc.defines) + StripPrefixed(WordsIfDefined(data, "DEFINES"), "-D")
    {
      misc.base.AddUsedVariable("GRE_MODULE");
      if HasOwnVariable(data, "GRE_MODULE") {
        misc.isGreModule := Some(true);
      }

      misc.base.AddUsedVariable("DEFINES");
      if HasOwnVariable(data, "DEFINES") {
        var s := AddStripped(misc.defines, GetVariableSplit(data, "DEFINES"), "-D");
        misc.defines := s;
      }
    }

    /** `EXTRA_JS_MODULES`, `EXTRA_COMPONENTS`, `GARBAGE` and the included files. */
    method FillMiscFiles(misc: MiscInfo)
      modifies misc`extraJsModule, misc`extraComponents, misc`garbage, misc`includedFiles
      modifies misc.base`usedVariables
      ensures misc.base.usedVariables == old(misc.base.usedVariables) + {"EXTRA_JS_MODULES", "EXTRA_COMPONENTS", "GARBAGE"}
      ensures misc.extraJsModule == old(misc.extraJsModule) + Elems(WordsIfDefined(data, "EXTRA_JS_MODULES"))
      ensures misc.extraComponents == old(misc.extraComponents) + Elems(WordsIfDefined(data, "EXTRA_COMPONENTS"))
      ensures misc.garbage == old(misc.garbage) + Elems(WordsIfDefined(data, "GARBAGE"))
      ensures misc.includedFiles == Some(IncludedPaths(data))
    {
      misc.base.AddUsedVariable("EXTRA_JS_MODULES");
      var s := AddWordsIfDefined(misc.extraJsModule, "EXTRA_JS_MODULES");
      misc.extraJsModule := s;

      misc.base.AddUsedVariable("EXTRA_COMPONENTS");
      s := AddWordsIfDefined(misc.extraComponents, "EXTRA_COMPONENTS");
      misc.extraComponents := s;

      misc.base.AddUsedVariable("GARBAGE");
      s := AddWordsIfDefined(misc.garbage, "GARBAGE");
      misc.garbage := s;

      misc.includedFiles := Some(IncludedPaths(data));
    }

    /** The objects of the traits that yield one, in the order
        `get_data_objects` yields them: library, exports, XPIDL, test. */
    method TraitObjects(traits: set<Trait>) returns (objects: seq<DerivedRecord>, failed: bool)
      ensures Extraction(objects, failed) == TraitObjectsOf(data, traits)
    {
      objects := [];
      if LibraryTrait in traits {
        var li := GetLibraryInfo();
        objects := objects + [Library(li.Value())];
      }

      if ExportsTrait in traits {
        var exports := GetExportsInfo();
        objects := objects + [Exports(exports.Value())];
      }

      if XpidlTrait in traits {
        var idl := GetXpidlInfo();
        if idl.Failure? {
          failed := true;
          return;
        }
        objects := objects + [Xpidl(idl.value)];
      }

      if TestTrait in traits {
        var ti := GetTestInfo();
        objects := objects + [Test(ti.Value())];
      }
      failed := false;
    }

    /** The `UsedVariableInfo` tracker of a file with the given traits: the
        common variables, `MODULE` for a module and `MODULE_NAME`. The source
        records them at several points of `get_data_objects`; only the final
        set is ever read. */
    method NewTracker(traits: set<Trait>) returns (tracker: UsedVariableInfo)
      ensures fresh(tracker) && fresh(tracker.base)
      ensures tracker.Value() == TrackerOf(data, traits)
    {
      tracker := new UsedVariableInfo(data);
      RecordUsed(tracker.base, CommonVariables);
      // UNUSED_VARIABLES is empty: nothing more to record
      if ModuleTrait in traits {
        tracker.base.AddUsedVariable("MODULE");
      }
      tracker.base.AddUsedVariable("MODULE_NAME");
    }

    /** The `MiscInfo` object, filled. */
    method NewMiscInfo() returns (misc: MiscInfo)
      ensures fresh(misc) && fresh(misc.base)
      ensures misc.Value() == MiscOf(data)
    {
      misc := new MiscInfo(data);
      FillMiscInfo(misc);
    }

    /** `get_data_objects`: the objects of every trait the file has, then the
        tracker and the misc object; the XPIDL failure ends the sequence
        early, after the objects already yielded. */
    method GetDataObjects() returns (objects: seq<DerivedRecord>, failed: bool)
      requires Valid()
      modifies this`traits
      ensures Valid()
      ensures Extraction(objects, failed) == DataObjectsOf(data)
    {
      var traits := GetTraits();
      var tracker := NewTracker(traits);
      // PROGRAM is recognised but yields nothing
      objects, failed := TraitObjects(traits);
      if failed {
        return;
      }
      var misc := NewMiscInfo();
      objects := objects + [UsedVariables(tracker.Value()), Misc(misc.Value())];
    }
  }
}
