/** Properties of loading a tree of Makefiles, stated about the functions
    of `ObjectDirectorySpec` that the methods of `ObjectDirectory` are
    proved to compute. */
module ObjectDirectoryProperties {
  import opened Wrappers
  import opened PyStr
  import opened MakefileSource
  import opened Data
  import opened Extractor
  import opened ObjectDirectorySpec

  // ---------------------------------------------------------------------
  // Handled and failing paths

  /** A load fails exactly when the path fails the assertions, does not
      parse, or is not an included file and either the extractor raised or
      merging one of its objects raised. */
  lemma LoadFailsIff(env: Environment, path: string)
    ensures !LoadOf(env, path).ok
        <==> !Normalised(env, path) || path !in env.makefiles
             || (!IsIncludeFile(path)
                 && (env.extraction(path).failed
                     || exists i :: 0 <= i < |env.extraction(path).objects|
                                    && MergeRaises(env.extraction(path).objects[i])))
  {
    if Normalised(env, path) && path in env.makefiles && !IsIncludeFile(path) {
      var objects := env.extraction(path).objects;
      var merged := MergedPrefix(objects);
      if |merged| < |objects| {
        assert MergeRaises(objects[|merged|]);
      }
    }
  }

  /** After loading `paths`, the handled paths are those that pass the two
      assertions and the failing ones are those whose load raised: each
      path counts once, however many loads before it failed. */
  lemma {:induction false} LoadedBookkeeping(s: LoadState, paths: seq<string>, keys: seq<Option<string>>,
                                             env: Environment, retain: bool)
    requires |keys| == |paths|
    ensures LoadStateAfterFiles(s, paths, keys, env, retain).handled
         == s.handled + set p | p in paths && Normalised(env, p)
    ensures LoadStateAfterFiles(s, paths, keys, env, retain).errors
         == s.errors + set p | p in paths && !LoadOf(env, p).ok
  {
    if paths != [] {
      var n := |paths| - 1;
      var prev := LoadStateAfterFiles(s, paths[..n], keys[..n], env, retain);
      LoadedBookkeeping(s, paths[..n], keys[..n], env, retain);
      StepBookkeeping(prev, env, paths[n], keys[n], retain);
      BookkeepingSetsSnoc(paths, env);
    }
  }

  lemma BookkeepingSetsSnoc(paths: seq<string>, env: Environment)
    requires paths != []
    ensures var n := |paths| - 1;
            (set p | p in paths && Normalised(env, p))
            == (set p | p in paths[..n] && Normalised(env, p)) + (if Normalised(env, paths[n]) then {paths[n]} else {})
    ensures var n := |paths| - 1;
            (set p | p in paths && !LoadOf(env, p).ok)
            == (set p | p in paths[..n] && !LoadOf(env, p).ok) + (if !LoadOf(env, paths[n]).ok then {paths[n]} else {})
  {
    var n := |paths| - 1;
    assert paths == paths[..n] + [paths[n]];
  }

  /** One load adds the path to the handled paths when it passes the
      assertions, and to the failing ones when it raises. */
  lemma StepBookkeeping(s: LoadState, env: Environment, path: string, key: Option<string>, retain: bool)
    ensures LoadStep(s, env, path, key, retain).handled
         == s.handled + (if Normalised(env, path) then {path} else {})
    ensures LoadStep(s, env, path, key, retain).errors
         == s.errors + (if !LoadOf(env, path).ok then {path} else {})
  {
  }

  /** A path that fails the assertions is reported as failing and not
      counted as handled. */
  lemma UnnormalisedPathFails(s: LoadState, env: Environment, path: string, key: Option<string>, retain: bool)
    requires !Normalised(env, path)
    ensures LoadStep(s, env, path, key, retain).handled == s.handled
    ensures LoadStep(s, env, path, key, retain).errors == s.errors + {path}
    ensures LoadStep(s, env, path, key, retain).parts == s.parts
    ensures LoadStep(s, env, path, key, retain).metadata == s.metadata
  {
  }

  // ---------------------------------------------------------------------
  // Included files

  /** An included (`.mk`) file that parses is handled, loads without error
      and leaves the tree model and the unused variables as they were: it
      returns before extraction. Its metadata is still collected. */
  lemma IncludeFileLeavesTree(s: LoadState, env: Environment, path: string, key: Option<string>, retain: bool)
    requires Normalised(env, path) && path in env.makefiles && IsIncludeFile(path)
    ensures var r := LoadStep(s, env, path, key, retain);
            r.handled == s.handled + {path} && r.errors == s.errors && r.parts == s.parts && r.unhandled == s.unhandled
    ensures LoadStep(s, env, path, key, retain).metadata
         == if retain then MetadataAfterFile(s.metadata, env.makefiles[path], path) else s.metadata
  {
    var r := LoadStep(s, env, path, key, retain);
    assert LoadOf(env, path) == FileLoad([], [], true, {});
    assert RecordUnused(s.unhandled, {}, key) == s.unhandled;
  }

  // ---------------------------------------------------------------------
  // Exports

  /** Merging an exports object: each namespace `k` is keyed `"/" + k`, and
      a file of it is recorded at the first search path (source directory,
      then the VPATH entries in order) under which it exists; a file found
      nowhere is left out. Keys of no namespace of the object are unchanged. */
  lemma ExportsMergeRecordsFirstExisting(t: map<string, map<string, string>>, r: ExportsRecord, existing: set<string>,
                                         k: string, f: string)
    requires k in r.exports && f in r.exports[k]
    ensures var e := ExportsMergedFor(t, r, r.exports.Keys, existing);
            var key := ExportKey(k);
            var cs := SearchPaths(r);
            key in e
            && (forall i :: 0 <= i < |cs| && Candidate(cs[i], f) in existing
                  && (forall j :: 0 <= j < i ==> Candidate(cs[j], f) !in existing)
                  ==> f in e[key] && e[key][f] == Candidate(cs[i], f))
            && ((forall i :: 0 <= i < |cs| ==> Candidate(cs[i], f) !in existing)
                  ==> (f in e[key] <==> key in t && f in t[key]))
  {
    var e := ExportsMergedFor(t, r, r.exports.Keys, existing);
    var key := ExportKey(k);
    var cs := SearchPaths(r);
    assert key[1..] == k;
    assert KeyOfNamespace(key, r.exports.Keys);
    var found := Resolved(r, r.exports[k], existing);
    assert e[key] == (if key in t then t[key] else map[]) + found;
    forall i | 0 <= i < |cs| && Candidate(cs[i], f) in existing
                 && (forall j :: 0 <= j < i ==> Candidate(cs[j], f) !in existing)
      ensures f in e[key] && e[key][f] == Candidate(cs[i], f)
    {
      var w := FirstExisting(cs, f, existing);
      assert w.Some? && w.value == i;
      assert ExportedPath(r, f, existing) == Some(Candidate(cs[i], f));
      assert found[f] == Candidate(cs[i], f);
    }
    if forall i :: 0 <= i < |cs| ==> Candidate(cs[i], f) !in existing {
      assert FirstExisting(cs, f, existing).None?;
      assert f !in found;
    }
  }

  /** Keys that belong to no namespace of the merged object keep their files. */
  lemma ExportsMergeKeepsOtherKeys(t: map<string, map<string, string>>, r: ExportsRecord, existing: set<string>,
                                   key: string)
    requires key in t && !KeyOfNamespace(key, r.exports.Keys)
    ensures var e := ExportsMergedFor(t, r, r.exports.Keys, existing);
            key in e && e[key] == t[key]
  {
  }

  // ---------------------------------------------------------------------
  // Libraries

  /** A library name already in the tree keeps its entry, however many
      objects of that name are merged after it. */
  lemma {:induction false} LibraryKept(l: map<string, LibraryEntry>, objects: seq<DerivedRecord>,
                                       outputDir: string, normpath: string -> string, name: string)
    requires name in l
    ensures var after := LibrariesAfter(l, objects, outputDir, normpath);
            name in after && after[name] == l[name]
  {
    if objects != [] {
      var n := |objects| - 1;
      LibraryKept(l, objects[..n], outputDir, normpath, name);
    }
  }

  /** The library a loaded tree holds under a name is the one entered
      first: loading more Makefiles never replaces it. */
  lemma {:induction false} LibraryKeptAcrossLoads(s: LoadState, paths: seq<string>, keys: seq<Option<string>>,
                                                  env: Environment, retain: bool, name: string)
    requires |keys| == |paths| && name in s.parts.libraries
    ensures var after := LoadStateAfterFiles(s, paths, keys, env, retain).parts.libraries;
            name in after && after[name] == s.parts.libraries[name]
  {
    if paths != [] {
      var n := |paths| - 1;
      LibraryKeptAcrossLoads(s, paths[..n], keys[..n], env, retain, name);
      var before := LoadStateAfterFiles(s, paths[..n], keys[..n], env, retain);
      LibraryKept(before.parts.libraries, LoadOf(env, paths[n]).merged, env.libraryDirectory(paths[n]), env.normpath,
                  name);
    }
  }

  // ---------------------------------------------------------------------
  // Unused variables

  /** A variable is consulted by some object exactly when one of them
      records it. */
  lemma {:induction false} UsedByIff(objects: seq<DerivedRecord>, v: string)
    ensures v in UsedBy(objects) <==> exists i :: 0 <= i < |objects| && v in objects[i].Base().usedVariables
  {
    if objects != [] {
      var n := |objects| - 1;
      UsedByIff(objects[..n], v);
      if v in objects[n].Base().usedVariables {
        assert 0 <= n < |objects|;
      }
      if exists i :: 0 <= i < |objects| && v in objects[i].Base().usedVariables {
        var i :| 0 <= i < |objects| && v in objects[i].Base().usedVariables;
        if i < n {
          assert objects[..n][i] == objects[i];
        }
      }
    }
  }

  /** The unused variables of a file: its own variables, conditional ones
      included, that no object consulted and that `islower()` rejects. */
  lemma UnusedVariablesIff(m: MakefileData, objects: seq<DerivedRecord>, v: string)
    ensures v in UnusedVariables(m, objects)
        <==> v in m.variables && !IsLower(v)
             && forall i :: 0 <= i < |objects| ==> v !in objects[i].Base().usedVariables
  {
    UsedByIff(objects, v);
  }

  /** Recording unused variables adds the key to each of them and leaves
      every other variable as it was. */
  lemma RecordUnusedEffect(u: map<string, set<Option<string>>>, unused: set<string>, key: Option<string>, v: string)
    ensures var r := RecordUnused(u, unused, key);
            (v in unused ==> v in r && key in r[v] && (v in u ==> u[v] <= r[v]))
            && (v !in unused ==> (v in r <==> v in u) && (v in u ==> r[v] == u[v]))
  {
  }

  /** A file whose variables are `FOO` (consulted by an object), `BAR`
      (conditional, consulted by none) and `local` (lower case) reports
      only `BAR`. */
  lemma UnusedVariablesExample()
    ensures var m := MakefileData(map["FOO" := VarDef("1", false), "BAR" := VarDef("2", true),
                                      "local" := VarDef("3", false)], [], [], []);
            var tracker := UsedVariables(BaseRecord(None, None, {"FOO", "MODULE"}, []));
            UnusedVariables(m, [tracker]) == {"BAR"}
  {
    var m := MakefileData(map["FOO" := VarDef("1", false), "BAR" := VarDef("2", true),
                              "local" := VarDef("3", false)], [], [], []);
    var tracker := UsedVariables(BaseRecord(None, None, {"FOO", "MODULE"}, []));
    assert UsedBy([tracker]) == {"FOO", "MODULE"} by {
      assert [tracker][..0] == [];
    }
    assert IsLower("local") by {
      assert IsLowerLetter("local"[0]);
    }
    assert !IsLower("BAR");
    assert !IsLower("FOO");
    assert LowercaseNames(m.variables.Keys) == {"local"};
  }

  // ---------------------------------------------------------------------
  // Pruning

  /** Pruning splits the sorted paths into two lists that together hold
      every path exactly once, the relevant ones below no ignored directory
      and the ignored ones below one. */
  lemma {:induction false} PrunedPartition(paths: seq<string>, dir: string, ignoreDirectories: seq<string>)
    ensures multiset(PrunedPaths(paths, dir, ignoreDirectories, true))
            + multiset(PrunedPaths(paths, dir, ignoreDirectories, false)) == multiset(paths)
    ensures forall p :: p in PrunedPaths(paths, dir, ignoreDirectories, true) ==> !IsIgnored(dir, ignoreDirectories, p)
    ensures forall p :: p in PrunedPaths(paths, dir, ignoreDirectories, false) ==> IsIgnored(dir, ignoreDirectories, p)
  {
    if paths != [] {
      var n := |paths| - 1;
      var front, last := paths[..n], paths[n];
      PrunedPartition(front, dir, ignoreDirectories);
      assert paths == front + [last];
      assert multiset(paths) == multiset(front) + multiset{last};
      var ignored := IsIgnored(dir, ignoreDirectories, last);
      if ignored {
        assert PrunedPaths(paths, dir, ignoreDirectories, false) == PrunedPaths(front, dir, ignoreDirectories, false) + [last];
        assert PrunedPaths(paths, dir, ignoreDirectories, true) == PrunedPaths(front, dir, ignoreDirectories, true);
      } else {
        assert PrunedPaths(paths, dir, ignoreDirectories, true) == PrunedPaths(front, dir, ignoreDirectories, true) + [last];
        assert PrunedPaths(paths, dir, ignoreDirectories, false) == PrunedPaths(front, dir, ignoreDirectories, false);
      }
    }
  }

  // ---------------------------------------------------------------------
  // Metadata

  /** The targets of recorded rules are the targets of any one of them. */
  lemma {:induction false} TargetsOfIff(entries: seq<RuleEntry>, t: string)
    ensures t in TargetsOf(entries) <==> exists i :: 0 <= i < |entries| && t in entries[i].rule.targets
  {
    if entries != [] {
      var n := |entries| - 1;
      TargetsOfIff(entries[..n], t);
      if t in entries[n].rule.targets {
        assert 0 <= n < |entries|;
      }
      if exists i :: 0 <= i < |entries| && t in entries[i].rule.targets {
        var i :| 0 <= i < |entries| && t in entries[i].rule.targets;
        if i < n {
          assert entries[..n][i] == entries[i];
        }
      }
    }
  }

  /** `collect_makefile_metadata` on a variable of the file: the file is
      among its paths, and among its conditional or its unconditional paths
      according to how the file assigns it; a name the file only tests in
      an `ifdef` gains the file among its paths alone; any other variable
      is unchanged. */
  lemma VariablesAfterFileEffect(vars: map<string, VariableInfo>, m: MakefileData, filename: string, v: string)
    ensures var r := VariablesAfterFile(vars, m, filename);
            var before := InfoOf(vars, v);
            (v in m.variables ==>
               v in r && filename in r[v].paths
               && (m.variables[v].conditional ==> r[v].conditionalPaths == before.conditionalPaths + {filename}
                                                  && r[v].unconditionalPaths == before.unconditionalPaths)
               && (!m.variables[v].conditional ==> r[v].unconditionalPaths == before.unconditionalPaths + {filename}
                                                   && r[v].conditionalPaths == before.conditionalPaths))
            && (v !in m.variables && v in IfdefNames(m.ifdefs) ==>
                  v in r && r[v] == before.(paths := before.paths + {filename}))
            && (v !in m.variables && v !in IfdefNames(m.ifdefs) ==> (v in r <==> v in vars) && (v in vars ==> r[v] == vars[v]))
  {
    var own := OwnVariablesRecorded(vars, m, m.variables.Keys, filename);
    if v in m.variables {
      assert own[v] == Touched(InfoOf(vars, v), filename, !m.variables[v].conditional);
    }
  }
}
