/** `ObjectDirectoryParser` (build/buildparser/extractor.py): walks an object
    directory, loads every relevant Makefile through the extractor and merges
    the derived objects into one tree model.

    The file system, `os.path.normpath`, the make parser and the IDL parser
    are the `Environment` of `ObjectDirectorySpec`; every method here is
    proved to compute what the functions of that module say. */
module ObjectDirectory {
  import opened Wrappers
  import opened PyStr
  import opened PyPath
  import opened MakefileSource
  import opened Data
  import opened Extractor
  import opened ObjectDirectorySpec
  import Sorting
  import Collection
  import ExtractorProperties

  // ---------------------------------------------------------------------
  // Lemmas the merge loops need

  /** Adding one more file to a set of exported files adds at most its entry. */
  lemma ResolvedAdd(r: ExportsRecord, done: set<string>, f: string, existing: set<string>)
    ensures Resolved(r, done + {f}, existing)
         == if ExportedPath(r, f, existing).Some? then Resolved(r, done, existing)[f := ExportedPath(r, f, existing).value]
            else Resolved(r, done, existing)
  {
  }

  /** The tree key determines the namespace. */
  lemma ExportKeyInjective(a: string, b: string)
    ensures ExportKey(a) == ExportKey(b) ==> a == b
  {
    if ExportKey(a) == ExportKey(b) {
      assert a == ExportKey(a)[1..];
    }
  }

  /** The tree keys of a set of namespaces, one more namespace added. */
  lemma NamespaceKeysAdd(done: set<string>, k: string)
    ensures (set n | n in done + {k} :: ExportKey(n)) == (set n | n in done :: ExportKey(n)) + {ExportKey(k)}
  {
  }

  /** Merging one more namespace of an exports object updates only its key. */
  lemma ExportsMergedForAdd(t: map<string, map<string, string>>, r: ExportsRecord, done: set<string>, k: string,
                            existing: set<string>)
    requires done <= r.exports.Keys && k in r.exports && k !in done
    ensures var before := ExportsMergedFor(t, r, done, existing);
            var key := ExportKey(k);
            ExportsMergedFor(t, r, done + {k}, existing)
              == before[key := (if key in before then before[key] else map[]) + Resolved(r, r.exports[k], existing)]
  {
    var before := ExportsMergedFor(t, r, done, existing);
    var after := ExportsMergedFor(t, r, done + {k}, existing);
    var key := ExportKey(k);
    var expected := before[key := (if key in before then before[key] else map[]) + Resolved(r, r.exports[k], existing)];
    NamespaceKeysAdd(done, k);
    assert key[1..] == k;
    assert !KeyOfNamespace(key, done);
    assert after.Keys == expected.Keys;
    forall x | x in after && x != key
      ensures after[x] == before[x]
    {
      if KeyOfNamespace(x, done + {k}) {
        assert x == "/" + x[1..];
        assert x[1..] != k;
      }
    }
    assert after == expected;
  }

  /** The normalised includes of a set: one element taken out. */
  lemma {:induction false} NormalizedAllRemove(s: set<string>, x: string, outputDir: string, normpath: string -> string)
    requires x in s
    ensures NormalizedAll(s, outputDir, normpath)
         == NormalizedAll(s - {x}, outputDir, normpath) + multiset{NormalizeInclude(x, outputDir, normpath)}
    decreases |s|
  {
    var p :| p in s && NormalizedAll(s, outputDir, normpath)
                      == NormalizedAll(s - {p}, outputDir, normpath) + multiset{NormalizeInclude(p, outputDir, normpath)};
    if p != x {
      NormalizedAllRemove(s - {p}, x, outputDir, normpath);
      NormalizedAllRemove(s - {x}, p, outputDir, normpath);
      assert s - {p} - {x} == s - {x} - {p};
    }
  }

  /** Recording one more own variable updates only its info. */
  lemma OwnVariablesRecordedAdd(vars: map<string, VariableInfo>, m: MakefileData, names: set<string>, v: string,
                                filename: string)
    requires names <= m.variables.Keys && v in m.variables && v !in names
    ensures var before := OwnVariablesRecorded(vars, m, names, filename);
            OwnVariablesRecorded(vars, m, names + {v}, filename)
              == before[v := Touched(InfoOf(before, v), filename, !m.variables[v].conditional)]
  {
    var before := OwnVariablesRecorded(vars, m, names, filename);
    var after := OwnVariablesRecorded(vars, m, names + {v}, filename);
    assert InfoOf(before, v) == InfoOf(vars, v);
    assert after == before[v := Touched(InfoOf(before, v), filename, !m.variables[v].conditional)];
  }

  /** Recording one more tested name updates only its paths; a name
      recorded before is left as it is. */
  lemma IfdefVariablesRecordedAdd(vars: map<string, VariableInfo>, names: set<string>, n: string, filename: string)
    ensures var before := IfdefVariablesRecorded(vars, names, filename);
            IfdefVariablesRecorded(vars, names + {n}, filename)
              == before[n := InfoOf(before, n).(paths := InfoOf(before, n).paths + {filename})]
  {
    var before := IfdefVariablesRecorded(vars, names, filename);
    var after := IfdefVariablesRecorded(vars, names + {n}, filename);
    if n in names {
      assert InfoOf(before, n).paths + {filename} == InfoOf(before, n).paths;
    } else {
      assert InfoOf(before, n) == InfoOf(vars, n);
    }
    assert after == before[n := InfoOf(before, n).(paths := InfoOf(before, n).paths + {filename})];
  }

  /** Recording nothing leaves the unhandled variables as they are. */
  lemma RecordUnusedNothing(u: map<string, set<Option<string>>>, key: Option<string>)
    ensures RecordUnused(u, {}, key) == u
  {
  }

  /** Recording one more unused variable updates only its entry. */
  lemma RecordUnusedAdd(u: map<string, set<Option<string>>>, done: set<string>, v: string, key: Option<string>)
    requires v !in done
    ensures var before := RecordUnused(u, done, key);
            RecordUnused(u, done + {v}, key) == before[v := (if v in before then before[v] else {}) + {key}]
  {
    var before := RecordUnused(u, done, key);
    assert (v in before) == (v in u);
    assert RecordUnused(u, done + {v}, key) == before[v := (if v in before then before[v] else {}) + {key}];
  }

  lemma KeysFitAppend(env: Environment, paths: seq<string>, keys: seq<Option<string>>, path: string, key: Option<string>)
    requires KeysFit(env, paths, keys) && KeyFits(env, path, key)
    ensures KeysFit(env, paths + [path], keys + [key])
  {
    assert (paths + [path])[..|paths|] == paths;
    assert (keys + [key])[..|keys|] == keys;
  }

  /** Every entry of `idl_sources` is its file's parse. */
  predicate IdlEntriesParsed(sources: map<string, IdlSourceEntry>, env: Environment) {
    forall f :: f in sources ==> f in env.idlDependencies && sources[f] == IdlSourceOf(f, env)
  }

  /** One more source directory searched for a manifest. */
  lemma JarManifestsAdd(done: set<string>, d: string, env: Environment,
                        manifests: map<string, JarManifest>, manifests': map<string, JarManifest>)
    requires manifests == JarManifestsOf(done, env)
    requires var jarfile := env.normpath(Join(d, "jar.mn"));
             manifests' == if jarfile in env.existing then manifests[jarfile := EmptyJarManifest] else manifests
    ensures manifests' == JarManifestsOf(done + {d}, env)
  {
    var jarfile := env.normpath(Join(d, "jar.mn"));
    assert JarManifestPaths(done + {d}, env)
        == JarManifestPaths(done, env) + (if jarfile in env.existing then {jarfile} else {});
  }

  /** One more source of a module handled: its path joins the keys when it
      parses. */
  lemma ParsedIdlPathsAdd(sourceDir: Option<string>, done: set<string>, f: string, env: Environment,
                          before: set<string>, keys: set<string>, keys': set<string>)
    requires keys == before + ParsedIdlPaths(sourceDir, done, env)
    requires var filename := IdlPath(sourceDir, f, env);
             keys' == if filename.Some? && filename.value in env.idlDependencies then keys + {filename.value} else keys
    ensures keys' == before + ParsedIdlPaths(sourceDir, done + {f}, env)
  {
    var filename := IdlPath(sourceDir, f, env);
    assert ParsedIdlPaths(sourceDir, done + {f}, env)
        == ParsedIdlPaths(sourceDir, done, env)
           + (if filename.Some? && filename.value in env.idlDependencies then {filename.value} else {});
  }

  lemma IdlSourcePathsOfAdd(modules: map<string, XpidlModuleEntry>, done: set<string>, k: string, env: Environment,
                            keys: set<string>, keys': set<string>)
    requires k in modules
    requires keys == IdlSourcePathsOf(modules, done, env)
    requires keys' == keys + ParsedIdlPaths(modules[k].sourceDir, modules[k].sources, env)
    ensures keys' == IdlSourcePathsOf(modules, done + {k}, env)
  {
  }

  /** One more module handled: it has a formable source or it has none. */
  lemma FormableInAdd(modules: map<string, XpidlModuleEntry>, done: set<string>, k: string, env: Environment)
    requires k in modules
    ensures FormableIn(modules, done + {k}, env)
        <==> FormableIn(modules, done, env) || exists f :: f in modules[k].sources && IdlPath(modules[k].sourceDir, f, env).Some?
  {
    if exists f :: f in modules[k].sources && IdlPath(modules[k].sourceDir, f, env).Some? {
      var f :| f in modules[k].sources && IdlPath(modules[k].sourceDir, f, env).Some?;
      assert k in done + {k} && k in modules && f in modules[k].sources && IdlPath(modules[k].sourceDir, f, env).Some?;
    }
  }

  /** A module with a source whose path cannot be formed is a witness of
      `UnformableSource`. */
  lemma UnformableSourceOf(modules: map<string, XpidlModuleEntry>, k: string, env: Environment)
    requires k in modules && exists f :: f in modules[k].sources && IdlPath(modules[k].sourceDir, f, env).None?
    ensures UnformableSource(modules, env)
  {
    var f :| f in modules[k].sources && IdlPath(modules[k].sourceDir, f, env).None?;
    assert k in modules && f in modules[k].sources && IdlPath(modules[k].sourceDir, f, env).None?;
  }


  lemma IdlSourcesParsed(sources: map<string, IdlSourceEntry>, modules: map<string, XpidlModuleEntry>,
                         done: set<string>, env: Environment)
    requires done == modules.Keys && sources.Keys == IdlSourcePathsOf(modules, done, env)
    requires IdlEntriesParsed(sources, env)
    ensures sources == IdlSourcesOf(modules, env)
  {
  }

  lemma LoadStateAfterFilesAppend(s: LoadState, paths: seq<string>, keys: seq<Option<string>>,
                                  path: string, key: Option<string>, env: Environment, retain: bool)
    requires |keys| == |paths|
    ensures LoadStateAfterFiles(s, paths + [path], keys + [key], env, retain)
         == LoadStep(LoadStateAfterFiles(s, paths, keys, env, retain), env, path, key, retain)
  {
    assert (paths + [path])[..|paths|] == paths && (keys + [key])[..|keys|] == keys;
  }

  class ObjectDirectoryParser {
    const dir: string
    const topMakefile: MakefileData
    /** The class constants `IGNORE_DIRECTORIES` and `SOURCE_DIR_MAKEFILES`. */
    const ignoreDirectories: seq<string>
    const sourceDirMakefiles: seq<string>

    var parsed: bool
    var topSourceDir: string
    var retainMetadata: bool
    var allMakefilePaths: seq<string>
    var relevantMakefilePaths: seq<string>
    var ignoredMakefilePaths: seq<string>
    var handledMakefilePaths: set<string>
    var errorMakefilePaths: set<string>
    var includedFiles: map<string, set<string>>
    var unhandledVariables: map<string, set<Option<string>>>
    var rules: map<string, seq<RuleEntry>>
    var variables: map<string, VariableInfo>
    var ifdefVariables: map<string, map<string, seq<IfdefUse>>>
    var tree: TreeInfo?

    /** The directory must be absolute; the top Makefile is the one directly
        in it. Nothing is loaded yet. */
    constructor (directory: string, normpath: string -> string, topMakefile: MakefileData,
                 ignoreDirectories: seq<string>, sourceDirMakefiles: seq<string>)
      requires IsAbs(directory)
      ensures dir == normpath(directory) && this.topMakefile == topMakefile
      ensures this.ignoreDirectories == ignoreDirectories && this.sourceDirMakefiles == sourceDirMakefiles
      ensures !parsed && !retainMetadata
      ensures topSourceDir == GetVariableString(topMakefile, "topsrcdir")
      ensures allMakefilePaths == [] && relevantMakefilePaths == [] && ignoredMakefilePaths == []
      ensures handledMakefilePaths == {} && errorMakefilePaths == {}
      ensures includedFiles == map[] && unhandledVariables == map[] && rules == map[]
      ensures variables == map[] && ifdefVariables == map[]
      ensures tree == null
    {
      dir := normpath(directory);
      parsed := false;
      this.topMakefile := topMakefile;
      this.ignoreDirectories := ignoreDirectories;
      this.sourceDirMakefiles := sourceDirMakefiles;
      topSourceDir := GetVariableString(topMakefile, "topsrcdir");
      retainMetadata := false;
      allMakefilePaths, relevantMakefilePaths, ignoredMakefilePaths := [], [], [];
      handledMakefilePaths, errorMakefilePaths := {}, {};
      includedFiles, unhandledVariables, rules := map[], map[], map[];
      variables, ifdefVariables := map[], map[];
      tree := null;
    }

    // -------------------------------------------------------------------
    // Merging one derived object

    /** The XPIDL case: a module name is asserted; the module and its
        source directory are recorded. */
    method MergeXpidl(r: XpidlRecord) returns (ok: bool)
      requires tree != null
      modifies tree`xpidlModules, tree`idlDirectories
      ensures ok <==> r.moduleName.Some?
      ensures tree.xpidlModules == XpidlModuleStep(old(tree.xpidlModules), Xpidl(r))
      ensures tree.idlDirectories == if ok then IdlDirectoryStep(old(tree.idlDirectories), Xpidl(r)) else old(tree.idlDirectories)
    {
      if r.moduleName.None? {
        return false;
      }
      var name := r.moduleName.value;
      tree.xpidlModules := tree.xpidlModules[name := XpidlModuleEntry(r.base.sourceDir, name, r.sources)];
      tree.idlDirectories := tree.idlDirectories + {r.base.sourceDir};
      ok := true;
    }

    /** Looks for one exported file along the search paths, in order; the
        first candidate that exists is its path. Also returns the search path
        the loop stopped at. */
    static method FindExport(r: ExportsRecord, f: string, existing: set<string>) returns (found: Option<string>, last: Option<string>)
      requires r.base.sourceDir.Some? || IsAbs(f)
      ensures found == ExportedPath(r, f, existing)
      ensures last in SearchPaths(r)
    {
      var cs := SearchPaths(r);
      found := None;
      last := cs[0];
      var i := 0;
      while i < |cs|
        invariant 0 <= i <= |cs|
        invariant last in cs
        invariant forall j :: 0 <= j < i ==> Candidate(cs[j], f) !in existing
      {
        last := cs[i];
        var filename := Candidate(cs[i], f);
        if filename in existing {
          found := Some(filename);
          return;
        }
        i := i + 1;
      }
    }

    /** The files of one namespace looked up in turn: every file found,
        with the path it was found at. `bound` is the search path the loop
        variable is left at, if any file was looked for. */
    static method ResolveFiles(r: ExportsRecord, files: set<string>, existing: set<string>)
      returns (found: map<string, string>, bound: Option<Option<string>>)
      requires r.base.sourceDir.Some? || forall f :: f in files ==> IsAbs(f)
      ensures found == Resolved(r, files, existing)
      ensures bound.Some? <==> files != {}
      ensures bound.Some? ==> bound.value in SearchPaths(r)
    {
      found := map[];
      var rest := files;
      bound := None;
      while rest != {}
        invariant rest <= files
        invariant found == Resolved(r, files - rest, existing)
        invariant bound.Some? <==> rest != files
        invariant bound.Some? ==> bound.value in SearchPaths(r)
        decreases rest
      {
        var f :| f in rest;
        var path, last := FindExport(r, f, existing);
        ResolvedAdd(r, files - rest, f, existing);
        if path.Some? {
          found := found[f := path.value];
        }
        // otherwise the file is reported as not found
        bound := Some(last);
        assert files - (rest - {f}) == (files - rest) + {f};
        rest := rest - {f};
      }
      assert files - rest == files;
    }

    /** One namespace of an exports object: its key is created when missing
        and every file found is entered under it. */
    method MergeNamespace(r: ExportsRecord, k: string, existing: set<string>) returns (bound: Option<Option<string>>)
      requires tree != null && k in r.exports && !ExportsRaises(r)
      modifies tree`exports
      ensures var key := ExportKey(k);
              tree.exports == old(tree.exports)[key := (if key in old(tree.exports) then old(tree.exports)[key] else map[])
                                                     + Resolved(r, r.exports[k], existing)]
      ensures bound.Some? <==> r.exports[k] != {}
      ensures bound.Some? ==> bound.value in SearchPaths(r)
    {
      var key := ExportKey(k);
      if key !in tree.exports {
        tree.exports := tree.exports[key := map[]];
      }
      var found;
      found, bound := ResolveFiles(r, r.exports[k], existing);
      tree.exports := tree.exports[key := tree.exports[key] + found];
    }

    /** The exports case, for an object that does not raise: each namespace
        in turn. */
    method MergeExports(r: ExportsRecord, existing: set<string>) returns (bound: Option<Option<string>>)
      requires tree != null && !ExportsRaises(r)
      modifies tree`exports
      ensures tree.exports == ExportsMergedFor(old(tree.exports), r, r.exports.Keys, existing)
      ensures bound.Some? ==> bound.value in SearchPaths(r)
      ensures bound.Some? <==> exists k :: k in r.exports && r.exports[k] != {}
    {
      var rest := r.exports.Keys;
      ghost var exports0 := tree.exports;
      ghost var done: set<string> := {};
      bound := None;
      while rest != {}
        invariant done == r.exports.Keys - rest
        invariant tree.exports == ExportsMergedFor(exports0, r, done, existing)
        invariant bound.Some? ==> bound.value in SearchPaths(r)
        invariant bound.Some? <==> exists k :: k in done && r.exports[k] != {}
        decreases rest
      {
        var k :| k in rest;
        var b := MergeNextNamespace(r, k, existing, exports0, done);
        if b.Some? {
          bound := b;
        }
        rest := rest - {k};
        done := done + {k};
      }
      assert done == r.exports.Keys;
    }

    /** One more namespace merged onto the namespaces `done`. */
    method MergeNextNamespace(r: ExportsRecord, k: string, existing: set<string>,
                              ghost exports0: map<string, map<string, string>>, ghost done: set<string>)
      returns (bound: Option<Option<string>>)
      requires tree != null && !ExportsRaises(r) && done <= r.exports.Keys && k in r.exports && k !in done
      requires tree.exports == ExportsMergedFor(exports0, r, done, existing)
      modifies tree`exports
      ensures tree.exports == ExportsMergedFor(exports0, r, done + {k}, existing)
      ensures bound.Some? <==> r.exports[k] != {}
      ensures bound.Some? ==> bound.value in SearchPaths(r)
    {
      ExportsMergedForAdd(exports0, r, done, k, existing);
      bound := MergeNamespace(r, k, existing);
    }

    /** The normalised include directories of one set, in iteration order.
        `last` is the element the loop variable is left at. */
    static method NormalizeIncludes(s: set<string>, outputDir: string, normpath: string -> string)
      returns (r: seq<string>, last: Option<string>)
      ensures multiset(r) == NormalizedAll(s, outputDir, normpath)
      ensures last.Some? <==> s != {}
      ensures last.Some? ==> last.value in s
    {
      r := [];
      last := None;
      var rest := s;
      while rest != {}
        invariant rest <= s
        invariant multiset(r) + NormalizedAll(rest, outputDir, normpath) == NormalizedAll(s, outputDir, normpath)
        invariant last.Some? <==> rest != s
        invariant last.Some? ==> last.value in s
        decreases rest
      {
        var p :| p in rest;
        NormalizedAllRemove(rest, p, outputDir, normpath);
        r := r + [NormalizeInclude(p, outputDir, normpath)];
        last := Some(p);
        rest := rest - {p};
      }
    }

    /** The library case: a name already present keeps its entry; otherwise
        the entry is built with the includes normalised against the output
        directory. A library without a name, which the extractor never
        yields, is skipped. */
    method MergeLibrary(r: LibraryRecord, outputDir: string, normpath: string -> string)
      returns (bound: Option<Option<string>>)
      requires tree != null
      modifies tree`libraries
      ensures tree.libraries == LibraryStep(old(tree.libraries), Library(r), outputDir, normpath)
      ensures bound.Some? ==> bound.value in BindablePathsOf(Library(r))
    {
      bound := None;
      if r.name.None? || r.name.value in tree.libraries {
        return;
      }
      var includes, last := NormalizeIncludes(r.includes, outputDir, normpath);
      var local, lastLocal := NormalizeIncludes(r.localIncludes, outputDir, normpath);
      if lastLocal.Some? {
        bound := Some(lastLocal);
      } else if last.Some? {
        bound := Some(last);
      }
      tree.libraries := tree.libraries[r.name.value := LibraryEntry(r.cFlags, r.cppSources, r.cxxFlags, r.defines,
        multiset(includes), multiset(local), r.pic, r.isStatic, r.base.sourceDir, outputDir)];
    }

    /** The misc case: each included path records `filename` as an includer. */
    method MergeMisc(r: MiscRecord, filename: string) returns (bound: Option<Option<string>>)
      modifies this`includedFiles
      ensures includedFiles == IncludedFilesStep(old(includedFiles), Misc(r), filename)
      ensures bound.Some? <==> r.includedFiles.Some? && r.includedFiles.value != []
      ensures bound.Some? ==> bound.value == Some(r.includedFiles.value[|r.includedFiles.value| - 1])
    {
      bound := None;
      if r.includedFiles.None? {
        return;
      }
      var paths := r.includedFiles.value;
      var i := 0;
      while i < |paths|
        invariant 0 <= i <= |paths|
        invariant includedFiles == AddIncluder(old(includedFiles), paths[..i], filename)
        invariant bound.Some? <==> i > 0
        invariant i > 0 ==> bound == Some(Some(paths[i - 1]))
      {
        var p := paths[i];
        var v := if p in includedFiles then includedFiles[p] else {};
        includedFiles := includedFiles[p := v + {filename}];
        bound := Some(Some(p));
        assert paths[..i + 1][..i] == paths[..i];
        i := i + 1;
      }
      assert paths[..i] == paths;
    }

    /** One derived object: its source directory is recorded first, then
        the part of the tree its kind feeds. `ok` is false where the merge
        raises: an XPIDL object without a module, or an exports object with
        a relative file and no source directory (checked before anything of
        the object is entered). `bound` is the value the loop variable
        `path` is left at, if a loop ran. */
    method MergeObject(o: DerivedRecord, filename: string, env: Environment) returns (ok: bool, bound: Option<Option<string>>)
      requires tree != null
      modifies tree`sourceDirectories, tree`xpidlModules, tree`idlDirectories, tree`exports, tree`libraries, this`includedFiles
      ensures ok == !MergeRaises(o)
      ensures tree.sourceDirectories == SourceDirStep(old(tree.sourceDirectories), o)
      ensures tree.xpidlModules == if ok then XpidlModuleStep(old(tree.xpidlModules), o) else old(tree.xpidlModules)
      ensures tree.idlDirectories == if ok then IdlDirectoryStep(old(tree.idlDirectories), o) else old(tree.idlDirectories)
      ensures tree.exports == if ok then ExportsStep(old(tree.exports), o, env.existing) else old(tree.exports)
      ensures tree.libraries
           == if ok then LibraryStep(old(tree.libraries), o, env.libraryDirectory(filename), env.normpath) else old(tree.libraries)
      ensures includedFiles == if ok then IncludedFilesStep(old(includedFiles), o, filename) else old(includedFiles)
      ensures bound.Some? ==> bound.value in BindablePathsOf(o)
      ensures BindablePathsOf(o) == {} ==> bound.None?
      ensures o.Misc? && o.misc.includedFiles.Some? && o.misc.includedFiles.value != []
              ==> bound == Some(Some(o.misc.includedFiles.value[|o.misc.includedFiles.value| - 1]))
    {
      var d := o.Base().sourceDir;
      if d.Some? {
        tree.sourceDirectories := tree.sourceDirectories + {d.value};
      }
      ok := true;
      bound := None;
      match o
      case Xpidl(r) =>
        ok := MergeXpidl(r);
      case Exports(r) =>
        if ExportsRaises(r) {
          ok := false;
        } else {
          bound := MergeExports(r, env.existing);
        }
      case Library(r) =>
        bound := MergeLibrary(r, env.libraryDirectory(filename), env.normpath);
      case Misc(r) =>
        bound := MergeMisc(r, filename);
        if bound.Some? {
          var paths := r.includedFiles.value;
          assert Some(paths[|paths| - 1]) in BindablePathsOf(o);
        }
      case _ =>
    }

    /** The objects of one Makefile in turn, up to the first that raises.
        `used` collects the variables they consulted; `key` is the value the
        loop variable `path` holds afterwards, starting as the file's path. */
    method MergeAll(objects: seq<DerivedRecord>, filename: string, env: Environment)
      returns (ok: bool, used: set<string>, key: Option<string>)
      requires tree != null
      modifies tree`sourceDirectories, tree`xpidlModules, tree`idlDirectories, tree`exports, tree`libraries, this`includedFiles
      ensures ok <==> |MergedPrefix(objects)| == |objects|
      ensures tree.sourceDirectories == SourceDirsAfter(old(tree.sourceDirectories), Attempted(objects))
      ensures tree.xpidlModules == XpidlModulesAfter(old(tree.xpidlModules), MergedPrefix(objects))
      ensures tree.idlDirectories == IdlDirectoriesAfter(old(tree.idlDirectories), MergedPrefix(objects))
      ensures tree.exports == ExportsAfter(old(tree.exports), MergedPrefix(objects), env.existing)
      ensures tree.libraries
           == LibrariesAfter(old(tree.libraries), MergedPrefix(objects), env.libraryDirectory(filename), env.normpath)
      ensures includedFiles == IncludedFilesAfter(old(includedFiles), MergedPrefix(objects), filename)
      ensures ok ==> used == UsedBy(objects)
      ensures key == Some(filename) || key in BindablePaths(MergedPrefix(objects))
      ensures BindablePaths(MergedPrefix(objects)) == {} ==> key == Some(filename)
      ensures ok && |objects| > 0 && objects[|objects| - 1].Misc?
              && objects[|objects| - 1].misc.includedFiles.Some? && objects[|objects| - 1].misc.includedFiles.value != []
              ==> key == Some(objects[|objects| - 1].misc.includedFiles.value[|objects[|objects| - 1].misc.includedFiles.value| - 1])
    {
      ghost var merged := MergedPrefix(objects);
      used := {};
      key := Some(filename);
      var i := 0;
      while i < |objects|
        invariant 0 <= i <= |merged|
        invariant objects[..i] == merged[..i]
        invariant tree.sourceDirectories == SourceDirsAfter(old(tree.sourceDirectories), objects[..i])
        invariant tree.xpidlModules == XpidlModulesAfter(old(tree.xpidlModules), objects[..i])
        invariant tree.idlDirectories == IdlDirectoriesAfter(old(tree.idlDirectories), objects[..i])
        invariant tree.exports == ExportsAfter(old(tree.exports), objects[..i], env.existing)
        invariant tree.libraries
               == LibrariesAfter(old(tree.libraries), objects[..i], env.libraryDirectory(filename), env.normpath)
        invariant includedFiles == IncludedFilesAfter(old(includedFiles), objects[..i], filename)
        invariant used == UsedBy(objects[..i])
        invariant key == Some(filename) || key in BindablePaths(objects[..i])
        invariant BindablePaths(objects[..i]) == {} ==> key == Some(filename)
        invariant i > 0 && objects[i - 1].Misc? && objects[i - 1].misc.includedFiles.Some?
                  && objects[i - 1].misc.includedFiles.value != []
                  ==> key == Some(objects[i - 1].misc.includedFiles.value[|objects[i - 1].misc.includedFiles.value| - 1])
      {
        var o := objects[i];
        assert objects[..i + 1][..i] == objects[..i];
        used := used + o.Base().usedVariables;
        var merges, bound := MergeObject(o, filename, env);
        if !merges {
          assert merged == objects[..i];
          ok := false;
          return;
        }
        if bound.Some? {
          key := bound.value;
        }
        i := i + 1;
      }
      assert objects[..i] == objects;
      ok := true;
    }

    // -------------------------------------------------------------------
    // Metadata

    /** Each own variable of the file records it among its paths, and among
        its conditional or its unconditional paths. */
    method RecordOwnVariables(m: MakefileData, filename: string)
      modifies this`variables
      ensures variables == OwnVariablesRecorded(old(variables), m, m.variables.Keys, filename)
    {
      var own := OwnVariableNames(m, true);
      var unconditional := OwnVariableNames(m, false);
      var rest := own;
      while rest != {}
        invariant rest <= own
        invariant variables == OwnVariablesRecorded(old(variables), m, own - rest, filename)
        decreases rest
      {
        var v :| v in rest;
        OwnVariablesRecordedAdd(old(variables), m, own - rest, v, filename);
        var info := InfoOf(variables, v);
        variables := variables[v := Touched(info, filename, v in unconditional)];
        assert own - (rest - {v}) == (own - rest) + {v};
        rest := rest - {v};
      }
      assert own - rest == m.variables.Keys;
    }

    /** Each `ifdef` records the file among the paths of the name it tests,
        and its expected value and line under the name and the file. */
    method RecordIfdefs(ifdefs: seq<IfdefStatement>, filename: string)
      modifies this`variables, this`ifdefVariables
      ensures variables == IfdefVariablesRecorded(old(variables), IfdefNames(ifdefs), filename)
      ensures ifdefVariables == IfdefUsesAfter(old(ifdefVariables), ifdefs, filename)
    {
      var i := 0;
      assert IfdefNames(ifdefs[..0]) == {};
      assert IfdefVariablesRecorded(old(variables), {}, filename) == old(variables);
      while i < |ifdefs|
        invariant 0 <= i <= |ifdefs|
        invariant variables == IfdefVariablesRecorded(old(variables), IfdefNames(ifdefs[..i]), filename)
        invariant ifdefVariables == IfdefUsesAfter(old(ifdefVariables), ifdefs[..i], filename)
      {
        var s := ifdefs[i];
        assert ifdefs[..i + 1][..i] == ifdefs[..i];
        assert IfdefNames(ifdefs[..i + 1]) == IfdefNames(ifdefs[..i]) + {s.name};
        IfdefVariablesRecordedAdd(old(variables), IfdefNames(ifdefs[..i]), s.name, filename);
        var info := InfoOf(variables, s.name);
        variables := variables[s.name := info.(paths := info.paths + {filename})];
        var byFile := if s.name in ifdefVariables then ifdefVariables[s.name] else map[];
        var uses := if filename in byFile then byFile[filename] else [];
        ifdefVariables := ifdefVariables[s.name := byFile[filename := uses + [IfdefUse(s.expected, s.line)]]];
        i := i + 1;
      }
      assert ifdefs[..i] == ifdefs;
    }

    /** The file's rules are appended to its entry, each with its conditions
        rendered as text. */
    method RecordRules(m: MakefileData, filename: string)
      modifies this`rules
      ensures rules == RulesAfterFile(old(rules), m, filename)
    {
      if filename !in rules {
        rules := rules[filename := []];
      }
      var i := 0;
      assert RulesOf(old(rules), filename) + RuleEntries(m.rules[..0]) == RulesOf(old(rules), filename);
      assert rules == old(rules)[filename := RulesOf(old(rules), filename)];
      while i < |m.rules|
        invariant 0 <= i <= |m.rules|
        invariant rules == old(rules)[filename := RulesOf(old(rules), filename) + RuleEntries(m.rules[..i])]
      {
        assert RuleEntries(m.rules[..i + 1]) == RuleEntries(m.rules[..i]) + [RuleEntryOf(m.rules[i])];
        ghost var before := rules[filename];
        rules := rules[filename := rules[filename] + [RuleEntryOf(m.rules[i])]];
        assert rules[filename] == RulesOf(old(rules), filename) + RuleEntries(m.rules[..i + 1]) by {
          assert before == RulesOf(old(rules), filename) + RuleEntries(m.rules[..i]);
        }
        i := i + 1;
      }
      assert m.rules[..i] == m.rules;
    }

    /** `collect_makefile_metadata`. */
    method CollectMakefileMetadata(m: MakefileData, filename: string)
      modifies this`variables, this`ifdefVariables, this`rules
      ensures Retained() == MetadataAfterFile(old(Retained()), m, filename)
    {
      RecordOwnVariables(m, filename);
      RecordIfdefs(m.ifdefs, filename);
      RecordRules(m, filename);
    }

    // -------------------------------------------------------------------
    // Loading one Makefile

    /** The names among `names` that `islower()` accepts. */
    static method LowercaseOf(names: set<string>) returns (r: set<string>)
      ensures r == LowercaseNames(names)
    {
      r := {};
      var rest := names;
      while rest != {}
        invariant rest <= names
        invariant r == LowercaseNames(names - rest)
        decreases rest
      {
        var v :| v in rest;
        if IsLower(v) {
          r := r + {v};
        }
        assert names - (rest - {v}) == (names - rest) + {v};
        rest := rest - {v};
      }
      assert names - rest == names;
    }

    /** Each unused variable records `key` among the places it is unused. */
    method RecordUnusedVariables(unused: set<string>, key: Option<string>)
      modifies this`unhandledVariables
      ensures unhandledVariables == RecordUnused(old(unhandledVariables), unused, key)
    {
      var rest := unused;
      RecordUnusedNothing(old(unhandledVariables), key);
      while rest != {}
        invariant rest <= unused
        invariant unhandledVariables == RecordUnused(old(unhandledVariables), unused - rest, key)
        decreases rest
      {
        var v :| v in rest;
        RecordUnusedAdd(old(unhandledVariables), unused - rest, v, key);
        var entry := if v in unhandledVariables then unhandledVariables[v] else {};
        unhandledVariables := unhandledVariables[v := entry + {key}];
        assert unused - (rest - {v}) == (unused - rest) + {v};
        rest := rest - {v};
      }
      assert unused - rest == unused;
    }

    /** The objects the extractor yields for a parsed file, and what
        loading the file then comes to. */
    static method Extract(path: string, env: Environment)
      returns (objects: seq<DerivedRecord>, failed: bool, ghost load: FileLoad)
      requires ExtractorAgrees(env) && Normalised(env, path) && path in env.makefiles && !IsIncludeFile(path)
      ensures load == LoadOf(env, path)
      ensures var ok := !failed && |MergedPrefix(objects)| == |objects|;
              load == FileLoad(Attempted(objects), MergedPrefix(objects), ok,
                               if ok then UnusedVariables(env.makefiles[path], objects) else {})
      ensures var m := env.makefiles[path];
              !failed && |MergedPrefix(objects)| == |objects| && |m.includes| > 0
              ==> |objects| > 0 && objects[|objects| - 1] == Misc(MiscOf(m))
    {
      var m := env.makefiles[path];
      assert ExtractorAgreesAt(env, path);
      var makefile := new MozillaMakefile(path, m);
      objects, failed := makefile.GetDataObjects();
      ExtractorProperties.DataObjectsShape(m);
      load := LoadOf(env, path);
    }

    /** The second half of `load_makefile`, for the objects of a parsed file
        that is not an included one: they are merged and the file's unused
        variables recorded under the final value of the loop variable
        `path`. */
    method MergeMakefile(path: string, m: MakefileData, objects: seq<DerivedRecord>, failed: bool, env: Environment)
      returns (ok: bool, key: Option<string>)
      requires tree != null
      modifies this`includedFiles, this`unhandledVariables
      modifies tree`sourceDirectories, tree`xpidlModules, tree`idlDirectories, tree`exports, tree`libraries
      ensures ok == (!failed && |MergedPrefix(objects)| == |objects|)
      ensures Parts() == PartsAfter(old(Parts()), Attempted(objects), MergedPrefix(objects), path, env)
      ensures unhandledVariables
           == RecordUnused(old(unhandledVariables), if ok then UnusedVariables(m, objects) else {}, key)
      ensures key == Some(path) || key in BindablePaths(MergedPrefix(objects))
      ensures BindablePaths(MergedPrefix(objects)) == {} ==> key == Some(path)
      ensures ok && |objects| > 0 && objects[|objects| - 1] == Misc(MiscOf(m)) && |m.includes| > 0
              ==> key == Some(m.includes[|m.includes| - 1].path)
    {
      var own := OwnVariableNames(m, true);
      var lowercase := LowercaseOf(own);
      var merges, used;
      merges, used, key := MergeAll(objects, path, env);
      ok := merges && !failed;
      if ok {
        RecordUnusedVariables(own - used - lowercase, key);
      } else {
        RecordUnusedNothing(unhandledVariables, key);
      }
    }

    /** The part of `load_makefile` after the metadata, for a parsed path:
        an included (`.mk`) file stops there; any other file is merged. */
    method LoadObjects(path: string, env: Environment) returns (ok: bool, key: Option<string>, ghost load: FileLoad)
      requires tree != null && ExtractorAgrees(env) && Normalised(env, path) && path in env.makefiles
      modifies this`includedFiles, this`unhandledVariables
      modifies tree`sourceDirectories, tree`xpidlModules, tree`idlDirectories, tree`exports, tree`libraries
      ensures load == LoadOf(env, path) && ok == load.ok
      ensures Parts() == PartsAfter(old(Parts()), load.attempted, load.merged, path, env)
      ensures unhandledVariables == RecordUnused(old(unhandledVariables), load.unused, key)
      ensures key == Some(path) || key in BindablePaths(load.merged)
      ensures BindablePaths(load.merged) == {} ==> key == Some(path)
      ensures ok && !IsIncludeFile(path) && |env.makefiles[path].includes| > 0
              ==> key == Some(env.makefiles[path].includes[|env.makefiles[path].includes| - 1].path)
    {
      if Tail(path, 3) == ".mk" {
        RecordUnusedNothing(unhandledVariables, Some(path));
        return true, Some(path), FileLoad([], [], true, {});
      }
      var objects, failed;
      objects, failed, load := Extract(path, env);
      ok, key := MergeMakefile(path, env.makefiles[path], objects, failed, env);
    }

    /** The part of `load_makefile` for a path that passed the assertions
        and parsed: metadata is collected on request, then the objects are
        loaded. */
    method LoadParsed(path: string, retain: bool, env: Environment) returns (ok: bool, key: Option<string>, ghost load: FileLoad)
      requires tree != null && ExtractorAgrees(env) && Normalised(env, path) && path in env.makefiles
      modifies this`includedFiles, this`unhandledVariables, this`variables, this`ifdefVariables, this`rules
      modifies tree`sourceDirectories, tree`xpidlModules, tree`idlDirectories, tree`exports, tree`libraries
      ensures load == LoadOf(env, path) && ok == load.ok
      ensures Parts() == PartsAfter(old(Parts()), load.attempted, load.merged, path, env)
      ensures Retained() == if retain then MetadataAfterFile(old(Retained()), env.makefiles[path], path) else old(Retained())
      ensures unhandledVariables == RecordUnused(old(unhandledVariables), load.unused, key)
      ensures key == Some(path) || key in BindablePaths(load.merged)
      ensures BindablePaths(load.merged) == {} ==> key == Some(path)
      ensures ok && !IsIncludeFile(path) && |env.makefiles[path].includes| > 0
              ==> key == Some(env.makefiles[path].includes[|env.makefiles[path].includes| - 1].path)
    {
      if retain {
        CollectMakefileMetadata(env.makefiles[path], path);
      }
      ok, key, load := LoadObjects(path, env);
    }

    /** `load_makefile`: after its two assertions the path counts as
        handled; a path that does not parse fails; metadata is collected on
        request; then the objects are loaded. `ok` is false where the Python
        method raises; `load` is what the load comes to. */
    method LoadMakefile(path: string, retain: bool, env: Environment)
      returns (ok: bool, key: Option<string>, ghost load: FileLoad)
      requires tree != null && ExtractorAgrees(env)
      modifies this`handledMakefilePaths, this`includedFiles, this`unhandledVariables
      modifies this`variables, this`ifdefVariables, this`rules
      modifies tree`sourceDirectories, tree`xpidlModules, tree`idlDirectories, tree`exports, tree`libraries
      ensures load == LoadOf(env, path)
      ensures ok == load.ok
      ensures handledMakefilePaths
           == if Normalised(env, path) then old(handledMakefilePaths) + {path} else old(handledMakefilePaths)
      ensures Parts() == PartsAfter(old(Parts()), load.attempted, load.merged, path, env)
      ensures Retained() == if retain && CollectsMetadata(env, path)
                            then MetadataAfterFile(old(Retained()), env.makefiles[path], path) else old(Retained())
      ensures unhandledVariables == RecordUnused(old(unhandledVariables), load.unused, key)
      ensures KeyFits(env, path, key)
    {
      if !(env.normpath(path) == path && IsAbs(path)) || path !in env.makefiles {
        if env.normpath(path) == path && IsAbs(path) {
          handledMakefilePaths := handledMakefilePaths + {path};
        }
        RecordUnusedNothing(unhandledVariables, Some(path));
        return false, Some(path), FileLoad([], [], false, {});
      }
      handledMakefilePaths := handledMakefilePaths + {path};
      ok, key, load := LoadParsed(path, retain, env);
    }

    // -------------------------------------------------------------------
    // Queries on the metadata

    /** `get_rules_for_makefile`: refused unless metadata is retained; a
        path without rules has none. */
    method GetRulesForMakefile(path: string) returns (r: Result<seq<RuleEntry>>)
      ensures r.Failure? <==> !retainMetadata
      ensures r.Success? ==> r.value == RulesOf(rules, path)
    {
      if !retainMetadata {
        return Failure("Metadata is not being retained. Refusing to proceed.");
      }
      r := Success(if path in rules then rules[path] else []);
    }

    /** `get_target_names_from_makefile`: every target of the path's rules. */
    method GetTargetNamesFromMakefile(path: string) returns (r: Result<set<string>>)
      ensures r.Failure? <==> !retainMetadata
      ensures r.Success? ==> r.value == TargetsOf(RulesOf(rules, path))
    {
      if !retainMetadata {
        return Failure("Metadata is not being retained. Refusing to proceed.");
      }
      var entries := if path in rules then rules[path] else [];
      var targets := {};
      var i := 0;
      while i < |entries|
        invariant 0 <= i <= |entries|
        invariant targets == TargetsOf(entries[..i])
      {
        assert entries[..i + 1][..i] == entries[..i];
        targets := targets + Elems(entries[i].rule.targets);
        i := i + 1;
      }
      assert entries[..i] == entries;
      r := Success(targets);
    }

    // -------------------------------------------------------------------
    // Loading the tree

    /** The Makefiles among the files of one walked directory. */
    static method WalkedEntryMakefiles(e: Collection.WalkEntry, normpath: string -> string) returns (found: set<string>)
      ensures found == EntryMakefiles(e, normpath)
    {
      found := {};
      var j := 0;
      while j < |e.files|
        invariant 0 <= j <= |e.files|
        invariant found == set name | name in e.files[..j] && IsTreeMakefileName(name) :: normpath(Join(e.root, name))
      {
        var name := e.files[j];
        assert forall x :: x in e.files[..j + 1] <==> x in e.files[..j] || x == name;
        if name == "Makefile" || Tail(name, 3) == ".mk" {
          found := found + {normpath(Join(e.root, name))};
        }
        j := j + 1;
      }
      assert e.files[..j] == e.files;
    }

    /** Every Makefile of the walk, and the extra files named relative to
        the top source directory. */
    method DiscoverMakefiles(topSource: string, env: Environment) returns (all: set<string>)
      ensures all == WalkedMakefiles(env.walk, env.normpath)
                     + SourceDirMakefilesOf(topSource, sourceDirMakefiles, env.normpath)
    {
      all := {};
      var i := 0;
      while i < |env.walk|
        invariant 0 <= i <= |env.walk|
        invariant all == WalkedMakefiles(env.walk[..i], env.normpath)
      {
        assert env.walk[..i + 1][..i] == env.walk[..i];
        var found := WalkedEntryMakefiles(env.walk[i], env.normpath);
        all := all + found;
        i := i + 1;
      }
      assert env.walk[..i] == env.walk;
      var k := 0;
      while k < |sourceDirMakefiles|
        invariant 0 <= k <= |sourceDirMakefiles|
        invariant all == WalkedMakefiles(env.walk, env.normpath)
                         + SourceDirMakefilesOf(topSource, sourceDirMakefiles[..k], env.normpath)
      {
        assert forall x :: x in sourceDirMakefiles[..k + 1] <==> x in sourceDirMakefiles[..k] || x == sourceDirMakefiles[k];
        all := all + {env.normpath(Join(topSource, sourceDirMakefiles[k]))};
        k := k + 1;
      }
      assert sourceDirMakefiles[..k] == sourceDirMakefiles;
    }

    /** The paths split, in order, into those below no ignored directory
        and the others. */
    method PrunePaths(paths: seq<string>) returns (relevant: seq<string>, ignored: seq<string>)
      ensures relevant == PrunedPaths(paths, dir, ignoreDirectories, true)
      ensures ignored == PrunedPaths(paths, dir, ignoreDirectories, false)
    {
      relevant, ignored := [], [];
      var i := 0;
      while i < |paths|
        invariant 0 <= i <= |paths|
        invariant relevant == PrunedPaths(paths[..i], dir, ignoreDirectories, true)
        invariant ignored == PrunedPaths(paths[..i], dir, ignoreDirectories, false)
      {
        var path := paths[i];
        assert paths[..i + 1][..i] == paths[..i];
        var subpath := SliceFrom(path, |dir| + 1);
        var isIgnored := Collection.StartsWithAny(subpath, ignoreDirectories);
        if !isIgnored {
          relevant := relevant + [path];
        } else {
          ignored := ignored + [path];
        }
        i := i + 1;
      }
      assert paths[..i] == paths;
    }

    /** The part of the parser and its tree model that loading Makefiles changes. */
    ghost function State(): LoadState
      reads this`tree, this`handledMakefilePaths, this`errorMakefilePaths, this`includedFiles
      reads this`unhandledVariables, this`variables, this`ifdefVariables, this`rules
      reads tree`sourceDirectories, tree`xpidlModules, tree`idlDirectories, tree`exports, tree`libraries
      requires tree != null
    {
      LoadState(handledMakefilePaths, errorMakefilePaths, Parts(), unhandledVariables, Retained())
    }

    /** The tree parts merging changes. */
    ghost function Parts(): TreeParts
      reads this`tree, this`includedFiles
      reads tree`sourceDirectories, tree`xpidlModules, tree`idlDirectories, tree`exports, tree`libraries
      requires tree != null
    {
      TreeParts(tree.sourceDirectories, tree.xpidlModules, tree.idlDirectories, tree.exports, tree.libraries,
                includedFiles)
    }

    /** The retained metadata. */
    ghost function Retained(): Metadata
      reads this`variables, this`ifdefVariables, this`rules
    {
      Metadata(variables, ifdefVariables, rules)
    }

    /** One iteration of the load loop: a load that raises is reported and
        marks the path as an error. */
    method LoadNext(path: string, retain: bool, env: Environment, ghost done: seq<string>, ghost keys: seq<Option<string>>)
      returns (ghost key: Option<string>)
      requires tree != null && ExtractorAgrees(env) && KeysFit(env, done, keys)
      modifies this`handledMakefilePaths, this`errorMakefilePaths, this`includedFiles, this`unhandledVariables
      modifies this`variables, this`ifdefVariables, this`rules
      modifies tree`sourceDirectories, tree`xpidlModules, tree`idlDirectories, tree`exports, tree`libraries
      ensures State() == LoadStep(old(State()), env, path, key, retain)
      ensures KeysFit(env, done + [path], keys + [key])
    {
      var ok, k, load := LoadMakefile(path, retain, env);
      if !ok {
        errorMakefilePaths := errorMakefilePaths + {path};
      }
      key := k;
      KeysFitAppend(env, done, keys, path, key);
    }

    /** Every relevant Makefile in turn; a load that raises marks the path
        as an error and the next one is loaded. `keys[i]` is the key the
        unused variables of the i-th path are recorded under. */
    method LoadAll(paths: seq<string>, retain: bool, env: Environment) returns (ghost keys: seq<Option<string>>)
      requires tree != null && ExtractorAgrees(env)
      modifies this`handledMakefilePaths, this`errorMakefilePaths, this`includedFiles, this`unhandledVariables
      modifies this`variables, this`ifdefVariables, this`rules
      modifies tree`sourceDirectories, tree`xpidlModules, tree`idlDirectories, tree`exports, tree`libraries
      ensures KeysFit(env, paths, keys)
      ensures State() == LoadStateAfterFiles(old(State()), paths, keys, env, retain)
    {
      keys := [];
      var i := 0;
      while i < |paths|
        invariant 0 <= i <= |paths| && KeysFit(env, paths[..i], keys)
        invariant State() == LoadStateAfterFiles(old(State()), paths[..i], keys, env, retain)
      {
        assert paths[..i + 1] == paths[..i] + [paths[i]];
        var key := LoadNext(paths[i], retain, env, paths[..i], keys);
        LoadStateAfterFilesAppend(old(State()), paths[..i], keys, paths[i], key, env, retain);
        keys := keys + [key];
        i := i + 1;
      }
      assert paths[..i] == paths;
    }

    /** A `jar.mn` in any source directory is parsed by the stub parser. */
    method LoadJarManifests(env: Environment)
      requires tree != null && tree.jarManifests == map[]
      modifies tree`jarManifests
      ensures tree.jarManifests == JarManifestsOf(tree.sourceDirectories, env)
    {
      ghost var done: set<string> := {};
      var rest := tree.sourceDirectories;
      while rest != {}
        invariant done + rest == tree.sourceDirectories
        invariant tree.jarManifests == JarManifestsOf(done, env)
        decreases |rest|
      {
        var d :| d in rest;
        ghost var manifests := tree.jarManifests;
        var jarfile := env.normpath(Join(d, "jar.mn"));
        if jarfile in env.existing {
          tree.jarManifests := tree.jarManifests[jarfile := EmptyJarManifest];
        }
        JarManifestsAdd(done, d, env, manifests, tree.jarManifests);
        done := done + {d};
        rest := rest - {d};
      }
    }

    /** `parse_idl_file` for a file that parses, its result stored. */
    method RecordIdlSource(filename: string, env: Environment)
      requires tree != null && filename in env.idlDependencies && IdlEntriesParsed(tree.idlSources, env)
      modifies tree`idlSources
      ensures tree.idlSources.Keys == old(tree.idlSources.Keys) + {filename}
      ensures IdlEntriesParsed(tree.idlSources, env)
    {
      tree.idlSources := tree.idlSources[filename := IdlSourceOf(filename, env)];
    }

    /** The IDL sources of one module. `wasBound` tells whether the loop's
        `filename` already holds a path from an earlier source. A source
        whose path cannot be formed is reported under that earlier path and
        skipped, or, when there is none, the report itself raises. A source
        that does not parse is reported and skipped. */
    method ParseModuleIdl(sourceDir: Option<string>, sources: set<string>, env: Environment, wasBound: bool)
      returns (bound: bool, raised: bool)
      requires tree != null
      requires IdlEntriesParsed(tree.idlSources, env)
      modifies tree`idlSources
      ensures IdlEntriesParsed(tree.idlSources, env)
      ensures !raised ==> tree.idlSources.Keys == old(tree.idlSources.Keys) + ParsedIdlPaths(sourceDir, sources, env)
      ensures !raised ==> (bound <==> wasBound || exists f :: f in sources && IdlPath(sourceDir, f, env).Some?)
      ensures !raised && !bound ==> sources == {}
      ensures raised ==> !wasBound && tree.idlSources == old(tree.idlSources)
      ensures raised ==> exists f :: f in sources && IdlPath(sourceDir, f, env).None?
    {
      ghost var before := tree.idlSources.Keys;
      ghost var done: set<string> := {};
      var rest := sources;
      bound, raised := wasBound, false;
      while rest != {}
        invariant done + rest == sources
        invariant tree.idlSources.Keys == before + ParsedIdlPaths(sourceDir, done, env)
        invariant IdlEntriesParsed(tree.idlSources, env)
        invariant bound <==> wasBound || exists f :: f in done && IdlPath(sourceDir, f, env).Some?
        invariant !bound ==> done == {}
        decreases |rest|
      {
        var f :| f in rest;
        ghost var keys := tree.idlSources.Keys;
        var filename := IdlPath(sourceDir, f, env);
        if filename.None? && !bound {
          return bound, true;
        }
        if filename.Some? {
          bound := true;
          if filename.value in env.idlDependencies {
            RecordIdlSource(filename.value, env);
          }
        }
        ParsedIdlPathsAdd(sourceDir, done, f, env, before, keys, tree.idlSources.Keys);
        done := done + {f};
        rest := rest - {f};
      }
    }

    /** Every IDL source of every XPIDL module, with its dependencies. The
        loop raises out of `load_tree` when the first source it meets has no
        path; which source comes first is the iteration order of the
        modules and of their sources, so the outcome is fixed only when
        every source has a path, or none has. */
    method ParseIdlFiles(env: Environment) returns (raised: bool)
      requires tree != null && tree.idlSources == map[]
      modifies tree`idlSources
      ensures !raised ==> tree.idlSources == IdlSourcesOf(tree.xpidlModules, env)
      ensures raised ==> tree.idlSources == map[] && UnformableSource(tree.xpidlModules, env)
      ensures UnformableSource(tree.xpidlModules, env) && !FormableIn(tree.xpidlModules, tree.xpidlModules.Keys, env)
              ==> raised
    {
      var modules := tree.xpidlModules;
      ghost var done: set<string> := {};
      var rest := modules.Keys;
      var bound := false;
      raised := false;
      while rest != {}
        invariant done + rest == modules.Keys && done !! rest
        invariant tree.idlSources.Keys == IdlSourcePathsOf(modules, done, env)
        invariant IdlEntriesParsed(tree.idlSources, env)
        invariant bound <==> FormableIn(modules, done, env)
        invariant !bound ==> tree.idlSources == map[] && forall k :: k in done ==> modules[k].sources == {}
        decreases |rest|
      {
        var k :| k in rest;
        bound, raised := ParseNextModule(modules, k, env, done, bound);
        if raised {
          return;
        }
        assert (done + {k}) + (rest - {k}) == modules.Keys;
        done := done + {k};
        rest := rest - {k};
      }
      IdlSourcesParsed(tree.idlSources, modules, done, env);
    }

    /** One more module of the IDL loop, after the modules `done`. */
    method ParseNextModule(modules: map<string, XpidlModuleEntry>, k: string, env: Environment,
                           ghost done: set<string>, wasBound: bool)
      returns (bound: bool, raised: bool)
      requires tree != null && k in modules && k !in done && done <= modules.Keys
      requires tree.idlSources.Keys == IdlSourcePathsOf(modules, done, env)
      requires IdlEntriesParsed(tree.idlSources, env)
      requires wasBound <==> FormableIn(modules, done, env)
      requires !wasBound ==> tree.idlSources == map[] && forall j :: j in done ==> modules[j].sources == {}
      modifies tree`idlSources
      ensures raised ==> tree.idlSources == map[] && UnformableSource(modules, env)
      ensures !raised ==> tree.idlSources.Keys == IdlSourcePathsOf(modules, done + {k}, env)
      ensures IdlEntriesParsed(tree.idlSources, env)
      ensures !raised ==> (bound <==> FormableIn(modules, done + {k}, env))
      ensures !raised && !bound ==> tree.idlSources == map[] && forall j :: j in done + {k} ==> modules[j].sources == {}
    {
      ghost var keys := tree.idlSources.Keys;
      bound, raised := ParseModuleIdl(modules[k].sourceDir, modules[k].sources, env, wasBound);
      if raised {
        UnformableSourceOf(modules, k, env);
        return;
      }
      IdlSourcePathsOfAdd(modules, done, k, env, keys, tree.idlSources.Keys);
      FormableInAdd(modules, done, k, env);
    }

    /** Every Makefile found, sorted, then split into the relevant and the
        ignored ones. */
    method FindMakefiles(topSource: string, env: Environment)
      returns (all: seq<string>, relevant: seq<string>, ignored: seq<string>)
      ensures MakefileLists(all, relevant, ignored) == FoundMakefiles(env, dir, ignoreDirectories, topSource, sourceDirMakefiles)
    {
      var found := DiscoverMakefiles(topSource, env);
      all := Sorting.SortStrings(found);
      relevant, ignored := PrunePaths(all);
    }

    /** The tree model's merged state, JAR manifests and IDL files. */
    ghost function Snapshot(): TreeSnapshot
      reads this`tree, this`handledMakefilePaths, this`errorMakefilePaths
      reads this`includedFiles, this`unhandledVariables, this`variables, this`ifdefVariables, this`rules
      reads tree`sourceDirectories, tree`xpidlModules, tree`idlDirectories, tree`exports, tree`libraries
      reads tree`jarManifests, tree`idlSources
      requires tree != null
    {
      TreeSnapshot(State(), tree.jarManifests, tree.idlSources)
    }

    /** The second half of `load_tree`, on a fresh tree model: every
        relevant Makefile, then the JAR manifests and the IDL files. `ok` is
        false when the IDL loop raises. */
    method LoadPrepared(paths: seq<string>, retain: bool, env: Environment, ghost start: LoadState,
                        ghost settings: LoadSettings)
      returns (ok: bool, ghost keys: seq<Option<string>>)
      requires tree != null && ExtractorAgrees(env) && Snapshot() == TreeSnapshot(start, map[], map[])
      requires Settings() == settings
      modifies this`handledMakefilePaths, this`errorMakefilePaths, this`includedFiles, this`unhandledVariables
      modifies this`variables, this`ifdefVariables, this`rules
      modifies tree`sourceDirectories, tree`xpidlModules, tree`idlDirectories, tree`exports, tree`libraries
      modifies tree`jarManifests, tree`idlSources
      ensures KeysFit(env, paths, keys)
      ensures Snapshot() == TreeAfterLoad(start, paths, keys, env, retain).(idlSources := tree.idlSources)
      ensures ok ==> tree.idlSources == IdlSourcesOf(tree.xpidlModules, env)
      ensures !ok ==> tree.idlSources == map[] && UnformableSource(tree.xpidlModules, env)
      ensures UnformableSource(tree.xpidlModules, env) && !FormableIn(tree.xpidlModules, tree.xpidlModules.Keys, env)
              ==> !ok
      ensures Settings() == settings
    {
      keys := LoadAll(paths, retain, env);
      assert Settings() == settings;
      LoadJarManifests(env);
      assert Settings() == settings;
      var raised := ParseIdlFiles(env);
      ok := !raised;
    }

    /** What `load_tree` has recorded before loading anything. */
    ghost function Settings(): LoadSettings
      reads this`retainMetadata, this`topSourceDir, this`allMakefilePaths, this`relevantMakefilePaths
      reads this`ignoredMakefilePaths, this`tree, tree`objectDirectory, tree`topSourceDirectory
      requires tree != null
    {
      LoadSettings(retainMetadata, topSourceDir,
                   MakefileLists(allMakefilePaths, relevantMakefilePaths, ignoredMakefilePaths),
                   tree.objectDirectory, tree.topSourceDirectory)
    }

    /** What `load_tree` records: the flag as asked, the top source directory
        named by the top Makefile, the Makefiles found from it, and the
        object and top source directories as the tree model's roots. */
    ghost function SettingsFor(retain: bool, env: Environment): LoadSettings {
      var top := GetVariableString(topMakefile, "topsrcdir");
      LoadSettings(retain, top, FoundMakefiles(env, dir, ignoreDirectories, top, sourceDirMakefiles), Some(dir), Some(top))
    }

    /** The end of the preparation in `load_tree`: no Makefile handled yet
        and a fresh tree model rooted at the object directory and at `top`. */
    method ResetTree(top: string)
      modifies this`handledMakefilePaths, this`errorMakefilePaths, this`tree
      ensures tree != null && fresh(tree)
      ensures tree.objectDirectory == Some(dir) && tree.topSourceDirectory == Some(top)
      ensures Snapshot() == TreeSnapshot(LoadState({}, {}, TreeParts({}, map[], {}, map[], map[], includedFiles),
                                                   unhandledVariables, Retained()), map[], map[])
    {
      handledMakefilePaths, errorMakefilePaths := {}, {};
      tree := new TreeInfo();
      tree.objectDirectory, tree.topSourceDirectory := Some(dir), Some(top);
    }

    /** The first half of `load_tree`: the Makefiles found, sorted and
        pruned, no Makefile handled yet, and a fresh tree model with its
        roots. */
    method PrepareTree(retain: bool, env: Environment)
      modifies this`retainMetadata, this`topSourceDir, this`allMakefilePaths, this`relevantMakefilePaths
      modifies this`ignoredMakefilePaths, this`handledMakefilePaths, this`errorMakefilePaths, this`tree
      ensures tree != null && fresh(tree) && Settings() == SettingsFor(retain, env)
      ensures Snapshot() == TreeSnapshot(LoadState({}, {}, TreeParts({}, map[], {}, map[], map[], includedFiles),
                                                   unhandledVariables, Retained()), map[], map[])
    {
      var top := GetVariableString(topMakefile, "topsrcdir");
      var all, relevant, ignored := FindMakefiles(top, env);
      retainMetadata, topSourceDir, allMakefilePaths, relevantMakefilePaths, ignoredMakefilePaths
        := retain, top, all, relevant, ignored;
      ResetTree(top);
    }

    /** `load_tree`: the Makefiles found, sorted and pruned; every relevant
        one loaded in turn into a fresh tree model; then the JAR manifests
        and the IDL files. The included files, unused variables and metadata
        of earlier loads are kept. `ok` is false when the IDL loop raises
        out of `load_tree`, with no IDL file recorded. */
    method LoadTree(retain: bool, env: Environment) returns (ok: bool, ghost keys: seq<Option<string>>)
      requires ExtractorAgrees(env)
      modifies this`retainMetadata, this`topSourceDir, this`allMakefilePaths, this`relevantMakefilePaths
      modifies this`ignoredMakefilePaths, this`handledMakefilePaths, this`errorMakefilePaths, this`tree
      modifies this`includedFiles, this`unhandledVariables, this`variables, this`ifdefVariables, this`rules
      ensures tree != null && fresh(tree) && Settings() == SettingsFor(retain, env)
      ensures KeysFit(env, relevantMakefilePaths, keys)
      ensures Snapshot() == TreeAfterLoad(LoadState({}, {}, TreeParts({}, map[], {}, map[], map[], old(includedFiles)),
                                                    old(unhandledVariables), old(Retained())),
                                          relevantMakefilePaths, keys, env, retain).(idlSources := tree.idlSources)
      ensures ok ==> tree.idlSources == IdlSourcesOf(tree.xpidlModules, env)
      ensures !ok ==> tree.idlSources == map[] && UnformableSource(tree.xpidlModules, env)
      ensures UnformableSource(tree.xpidlModules, env) && !FormableIn(tree.xpidlModules, tree.xpidlModules.Keys, env)
              ==> !ok
    {
      ghost var start := LoadState({}, {}, TreeParts({}, map[], {}, map[], map[], includedFiles),
                                   unhandledVariables, Retained());
      PrepareTree(retain, env);
      ok, keys := LoadPrepared(relevantMakefilePaths, retain, env, start, SettingsFor(retain, env));
    }
  }
}
