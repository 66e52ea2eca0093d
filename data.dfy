/** The containers for build metadata (build/buildparser/data.py): the tree
    model and the objects derived from one Makefile.

    Each Python class becomes a Dafny class with the same fields, assigned by
    its constructor and updated in place by the extractor. Python's subclassing
    of `MakefileDerivedObject` becomes composition: every derived object holds
    its shared part in `base`. `Value()` gives the contents of an object as a
    plain record; the extractor hands those records on once an object is
    complete, since nothing changes a derived object after extraction. */
module Data {
  import opened Wrappers
  import opened PyStr
  import opened MakefileSource

  // ---------------------------------------------------------------------
  // Records: the contents of the derived objects

  datatype BaseRecord = BaseRecord(
    sourceDir: Option<string>,
    topSourceDir: Option<string>,
    usedVariables: set<string>,
    vpath: seq<string>)

  datatype LibraryRecord = LibraryRecord(
    base: BaseRecord,
    name: Option<string>,            // unset until the extractor assigns it
    cFlags: set<string>,
    cppSources: set<string>,
    cxxFlags: set<string>,
    defines: set<string>,
    exportLibrary: Option<bool>,
    includes: set<string>,
    localIncludes: set<string>,
    pic: Option<bool>,
    isComponent: Option<bool>,
    isShared: Option<bool>,
    isStatic: Option<bool>,
    sharedLibraryLibs: set<string>,
    shortLibname: Option<string>,
    useStaticLibs: Option<bool>)

  /** Namespace ('' for the default one) to exported file names. */
  datatype ExportsRecord = ExportsRecord(base: BaseRecord, exports: map<string, set<string>>)

  datatype XpidlRecord = XpidlRecord(base: BaseRecord, moduleName: Option<string>, sources: set<string>)

  datatype TestRecord = TestRecord(
    base: BaseRecord,
    browserTestFiles: set<string>,
    chromeTestFiles: set<string>,
    testFiles: set<string>,
    xpcshellTestDirs: set<string>)

  datatype MiscRecord = MiscRecord(
    base: BaseRecord,
    chromeDependencies: set<string>,
    defines: set<string>,
    extraComponents: set<string>,
    extraJsModule: set<string>,
    garbage: set<string>,
    includedFiles: Option<seq<string>>,
    isGreModule: Option<bool>,
    platformDirs: set<string>)

  /** One object yielded by the extractor; `UsedVariables` is the plain
      `UsedVariableInfo`, which only tracks consulted variables. */
  datatype DerivedRecord =
    | Library(library: LibraryRecord)
    | Exports(exportsInfo: ExportsRecord)
    | Xpidl(xpidl: XpidlRecord)
    | Test(test: TestRecord)
    | UsedVariables(tracker: BaseRecord)
    | Misc(misc: MiscRecord)
  {
    function Base(): BaseRecord {
      match this
      case Library(r) => r.base
      case Exports(r) => r.base
      case Xpidl(r) => r.base
      case Test(r) => r.base
      case UsedVariables(b) => b
      case Misc(r) => r.base
    }
  }

  /** What the shared constructor reads from the Makefile. */
  function InitialBase(m: MakefileData): BaseRecord {
    BaseRecord(
      if HasOwnVariable(m, "srcdir") then Some(GetVariableString(m, "srcdir")) else None,
      if HasOwnVariable(m, "topsrcdir") then Some(GetVariableString(m, "topsrcdir")) else None,
      {},
      if HasOwnVariable(m, "VPATH") then GetVariableSplit(m, "VPATH") else [])
  }

  /** The exports map after `add_export(name, namespace)`. */
  function WithExport(exports: map<string, set<string>>, name: string, namespace: Option<string>)
    : (r: map<string, set<string>>)
    ensures var key := if namespace.Some? then namespace.value else "";
            && key in r && name in r[key]
            && r.Keys == exports.Keys + {key}
            && (key in exports ==> r[key] == exports[key] + {name})
            && (key !in exports ==> r[key] == {name})
            && (forall k :: k in exports && k != key ==> r[k] == exports[k])
  {
    var key := if namespace.Some? then namespace.value else "";
    exports[key := (if key in exports then exports[key] else {}) + {name}]
  }

  // ---------------------------------------------------------------------
  // Classes: the objects the extractor fills in

  class MakefileDerivedObject {
    var sourceDir: Option<string>
    var topSourceDir: Option<string>
    var usedVariables: set<string>
    var vpath: seq<string>

    function Value(): BaseRecord
      reads this
    {
      BaseRecord(sourceDir, topSourceDir, usedVariables, vpath)
    }

    /** `source_dir` and `top_source_dir` stay None unless the file itself
        defines `srcdir` / `topsrcdir`; `vpath` is the split `VPATH`, in
        order, or empty. */
    constructor (m: MakefileData)
      ensures sourceDir.Some? <==> HasOwnVariable(m, "srcdir")
      ensures sourceDir.Some? ==> sourceDir.value == GetVariableString(m, "srcdir")
      ensures topSourceDir.Some? <==> HasOwnVariable(m, "topsrcdir")
      ensures topSourceDir.Some? ==> topSourceDir.value == GetVariableString(m, "topsrcdir")
      ensures vpath == GetVariableSplit(m, "VPATH")
      ensures forall i :: 0 <= i < |vpath| ==> IsWord(vpath[i])
      ensures usedVariables == {}
      ensures Value() == InitialBase(m)
    {
      sourceDir := None;
      topSourceDir := None;
      usedVariables := {};
      vpath := [];
      if HasOwnVariable(m, "srcdir") {
        sourceDir := Some(GetVariableString(m, "srcdir"));
      }
      if HasOwnVariable(m, "topsrcdir") {
        topSourceDir := Some(GetVariableString(m, "topsrcdir"));
      }
      if HasOwnVariable(m, "VPATH") {
        vpath := GetVariableSplit(m, "VPATH");
      }
    }

    /** `add_used_variable`: the set only grows, by exactly `name`. */
    method AddUsedVariable(name: string)
      modifies this`usedVariables
      ensures old(usedVariables) <= usedVariables
      ensures usedVariables == old(usedVariables) + {name}
    {
      usedVariables := usedVariables + {name};
    }
  }

  class LibraryInfo {
    const base: MakefileDerivedObject
    var name: Option<string>
    var cFlags: set<string>
    var cppSources: set<string>
    var cxxFlags: set<string>
    var defines: set<string>
    var exportLibrary: Option<bool>
    var includes: set<string>
    var localIncludes: set<string>
    var pic: Option<bool>
    var isComponent: Option<bool>
    var isShared: Option<bool>
    var isStatic: Option<bool>
    var sharedLibraryLibs: set<string>
    var shortLibname: Option<string>
    var useStaticLibs: Option<bool>

    function Value(): LibraryRecord
      reads this, base
    {
      LibraryRecord(base.Value(), name, cFlags, cppSources, cxxFlags, defines, exportLibrary,
                    includes, localIncludes, pic, isComponent, isShared, isStatic,
                    sharedLibraryLibs, shortLibname, useStaticLibs)
    }

    /** Every set starts empty and every flag unset. */
    constructor (m: MakefileData)
      ensures fresh(base) && base.Value() == InitialBase(m)
      ensures name == None
      ensures cFlags == {} && cppSources == {} && cxxFlags == {} && defines == {}
      ensures includes == {} && localIncludes == {} && sharedLibraryLibs == {}
      ensures exportLibrary == None && pic == None && isComponent == None && isShared == None
      ensures isStatic == None && shortLibname == None && useStaticLibs == None
    {
      base := new MakefileDerivedObject(m);
      name := None;
      cFlags, cppSources, cxxFlags, defines := {}, {}, {}, {};
      exportLibrary := None;
      includes, localIncludes := {}, {};
      pic, isComponent, isShared, isStatic := None, None, None, None;
      sharedLibraryLibs := {};
      shortLibname := None;
      useStaticLibs := None;
    }
  }

  class ExportsInfo {
    const base: MakefileDerivedObject
    var exports: map<string, set<string>>

    function Value(): ExportsRecord
      reads this, base
    {
      ExportsRecord(base.Value(), exports)
    }

    constructor (m: MakefileData)
      ensures fresh(base) && base.Value() == InitialBase(m)
      ensures exports == map[]
    {
      base := new MakefileDerivedObject(m);
      exports := map[];
    }

    /** `add_export`: `name` joins the set of its namespace (None meaning the
        default namespace ''); the other namespaces are left alone. */
    method AddExport(name: string, namespace: Option<string>)
      modifies this`exports
      ensures exports == WithExport(old(exports), name, namespace)
    {
      var key := namespace;
      if key.None? {
        key := Some("");
      }
      var d := if key.value in exports then exports[key.value] else {};
      d := d + {name};
      exports := exports[key.value := d];
    }
  }

  class XPIDLInfo {
    const base: MakefileDerivedObject
    var moduleName: Option<string>
    var sources: set<string>

    function Value(): XpidlRecord
      reads this, base
    {
      XpidlRecord(base.Value(), moduleName, sources)
    }

    constructor (m: MakefileData)
      ensures fresh(base) && base.Value() == InitialBase(m)
      ensures moduleName == None && sources == {}
    {
      base := new MakefileDerivedObject(m);
      moduleName := None;
      sources := {};
    }
  }

  class TestInfo {
    const base: MakefileDerivedObject
    var browserTestFiles: set<string>
    var chromeTestFiles: set<string>
    var testFiles: set<string>
    var xpcshellTestDirs: set<string>

    function Value(): TestRecord
      reads this, base
    {
      TestRecord(base.Value(), browserTestFiles, chromeTestFiles, testFiles, xpcshellTestDirs)
    }

    constructor (m: MakefileData)
      ensures fresh(base) && base.Value() == InitialBase(m)
      ensures browserTestFiles == {} && chromeTestFiles == {} && testFiles == {} && xpcshellTestDirs == {}
    {
      base := new MakefileDerivedObject(m);
      browserTestFiles, chromeTestFiles, testFiles, xpcshellTestDirs := {}, {}, {}, {};
    }
  }

  class UsedVariableInfo {
    const base: MakefileDerivedObject

    function Value(): BaseRecord
      reads base
    {
      base.Value()
    }

    constructor (m: MakefileData)
      ensures fresh(base) && base.Value() == InitialBase(m)
    {
      base := new MakefileDerivedObject(m);
    }
  }

  class MiscInfo {
    const base: MakefileDerivedObject
    var chromeDependencies: set<string>
    var defines: set<string>
    var extraComponents: set<string>
    var extraJsModule: set<string>
    var garbage: set<string>
    var includedFiles: Option<seq<string>>
    var isGreModule: Option<bool>
    var platformDirs: set<string>

    function Value(): MiscRecord
      reads this, base
    {
      MiscRecord(base.Value(), chromeDependencies, defines, extraComponents, extraJsModule,
                 garbage, includedFiles, isGreModule, platformDirs)
    }

    constructor (m: MakefileData)
      ensures fresh(base) && base.Value() == InitialBase(m)
      ensures includedFiles == None && isGreModule == None
      ensures chromeDependencies == {} && defines == {} && extraComponents == {}
      ensures extraJsModule == {} && garbage == {} && platformDirs == {}
    {
      base := new MakefileDerivedObject(m);
      chromeDependencies, defines, extraComponents, extraJsModule := {}, {}, {}, {};
      garbage := {};
      includedFiles := None;
      isGreModule := None;
      platformDirs := {};
    }
  }

  // ---------------------------------------------------------------------
  // The tree model

  /** An entry of `TreeInfo.xpidl_modules`. */
  datatype XpidlModuleEntry = XpidlModuleEntry(sourceDir: Option<string>, moduleName: string, sources: set<string>)

  /** An entry of `TreeInfo.libraries`. Its `includes` list holds the
      normalised include directories first and the normalised local include
      directories after them: `includes` is the first part and
      `localIncludes` the second. Each part is filled by iterating over a
      set, so it is kept as a multiset. */
  datatype LibraryEntry = LibraryEntry(
    cFlags: set<string>,
    cppSources: set<string>,
    cxxFlags: set<string>,
    defines: set<string>,
    includes: multiset<string>,
    localIncludes: multiset<string>,
    pic: Option<bool>,
    isStatic: Option<bool>,
    sourceDir: Option<string>,
    outputDir: string)

  /** An entry of `TreeInfo.idl_sources`. */
  datatype IdlSourceEntry = IdlSourceEntry(filename: string, dependencies: seq<string>)

  /** The parsed JAR manifest: the parser is a stub returning an empty dict. */
  datatype JarManifest = EmptyJarManifest

  /** The attribute names `TreeInfo` declares in `__slots__`. */
  const TreeInfoSlots: set<string> := {
    "exports", "idl_directories", "idl_sources", "jar_manifests",
    "object_directory", "source_directories", "top_source_directory", "xpidl_modules"
  }

  /** The attribute names a `LibraryInfo` has: its own `__slots__` and those
      of `MakefileDerivedObject`. */
  const LibraryInfoSlots: set<string> := {
    "source_dir", "top_source_dir", "used_variables", "vpath",
    "c_flags", "cpp_sources", "cxx_flags", "defines", "export_library", "includes",
    "local_includes", "name", "pic", "is_component", "is_shared", "is_static",
    "shared_library_libs", "short_libname", "use_static_libs"
  }

  class TreeInfo {
    var exports: map<string, map<string, string>>
    var idlDirectories: set<Option<string>>
    var idlSources: map<string, IdlSourceEntry>
    var jarManifests: map<string, JarManifest>
    var objectDirectory: Option<string>
    var sourceDirectories: set<string>
    var topSourceDirectory: Option<string>
    var xpidlModules: map<string, XpidlModuleEntry>
    var libraries: map<string, LibraryEntry>

    /** Empty maps and sets, no roots. */
    constructor ()
      ensures exports == map[] && idlSources == map[] && jarManifests == map[]
      ensures xpidlModules == map[] && libraries == map[]
      ensures idlDirectories == {} && sourceDirectories == {}
      ensures objectDirectory == None && topSourceDirectory == None
    {
      exports := map[];
      idlDirectories := {};
      idlSources := map[];
      jarManifests := map[];
      objectDirectory := None;
      sourceDirectories := {};
      topSourceDirectory := None;
      xpidlModules := map[];
      libraries := map[];
    }
  }

  // ---------------------------------------------------------------------
  // Properties of add_export

  /** Repeating an `add_export` changes nothing. */
  lemma WithExportIdempotent(exports: map<string, set<string>>, name: string, namespace: Option<string>)
    ensures WithExport(WithExport(exports, name, namespace), name, namespace)
         == WithExport(exports, name, namespace)
  {
  }

  /** `add_export` only adds: every namespace keeps all its names. */
  lemma WithExportGrows(exports: map<string, set<string>>, name: string, namespace: Option<string>)
    ensures var r := WithExport(exports, name, namespace);
            forall k :: k in exports ==> k in r && exports[k] <= r[k]
  {
  }
}
