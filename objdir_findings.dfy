/** Two attribute reads of the library merge in `load_makefile`
    (build/buildparser/extractor.py) that the record classes of
    build/buildparser/data.py do not declare. Both classes use `__slots__`
    and so have no per-instance dictionary: reading an undeclared attribute
    raises `AttributeError`. Each read is modelled here as written, with the
    input that shows the failure; the rest of the model uses the evidently
    intended behaviour (`ObjectDirectorySpec.LibraryStep`), whose properties
    are proved below and in `ObjectDirectoryProperties`.

    Third, the IDL loop of `load_tree` reports a failure under `filename`,
    which is unbound until some source's path has been formed; the method
    `ObjectDirectoryParser.ParseIdlFiles` models that as written, the input
    that shows it is below, and `IdlSourcesOf` is the intended skip. */
module ObjectDirectoryFindings {
  import opened Wrappers
  import opened Data
  import opened ObjectDirectorySpec
  import opened PyPath

  /** Reading an attribute of an object whose class declares `slots`. */
  function ReadSlot<T>(slots: set<string>, attribute: string, value: T): (r: Result<T>)
    ensures r.Success? <==> attribute in slots
    ensures r.Success? ==> r.value == value
  {
    if attribute in slots then Success(value) else Failure("AttributeError: " + attribute)
  }

  /** The library branch of the merge as written: `name in
      self.tree.libraries` reads `TreeInfo.libraries`, then the new entry
      reads `obj.directory`. */
  ghost function LibraryMergeAsWritten(l: map<string, LibraryEntry>, r: LibraryRecord, directory: string,
                                       normpath: string -> string): Result<map<string, LibraryEntry>>
    requires r.name.Some?
  {
    var libraries := ReadSlot(TreeInfoSlots, "libraries", l);
    if libraries.Failure? then Failure(libraries.error)
    else if r.name.value in libraries.value then Success(libraries.value)
    else
      var outputDir := ReadSlot(LibraryInfoSlots, "directory", directory);
      if outputDir.Failure? then Failure(outputDir.error)
      else Success(libraries.value[r.name.value := LibraryEntryOf(r, outputDir.value, normpath)])
  }

  /** As written, merging any named library raises: `TreeInfo` has no
      `libraries` slot. */
  lemma LibraryMergeAlwaysRaises(l: map<string, LibraryEntry>, r: LibraryRecord, directory: string,
                                 normpath: string -> string)
    requires r.name.Some?
    ensures LibraryMergeAsWritten(l, r, directory, normpath).Failure?
  {
    assert "libraries" !in TreeInfoSlots;
  }

  /** The new entry as written, once the tree has a `libraries` attribute:
      `obj.directory` is not a slot of `LibraryInfo` either. */
  ghost function LibraryEntryAsWritten(r: LibraryRecord, directory: string, normpath: string -> string)
    : Result<LibraryEntry>
  {
    var outputDir := ReadSlot(LibraryInfoSlots, "directory", directory);
    if outputDir.Failure? then Failure(outputDir.error) else Success(LibraryEntryOf(r, outputDir.value, normpath))
  }

  /** As written, building the entry of any library raises. */
  lemma LibraryEntryAlwaysRaises(r: LibraryRecord, directory: string, normpath: string -> string)
    ensures LibraryEntryAsWritten(r, directory, normpath).Failure?
  {
    assert "directory" !in LibraryInfoSlots;
  }

  /** The intended merge: a new name is entered with the library's output
      directory, its source directory and its flags; a known name keeps
      its entry; no other name changes. */
  lemma LibraryStepIntended(l: map<string, LibraryEntry>, o: DerivedRecord, outputDir: string,
                            normpath: string -> string)
    requires o.Library? && o.library.name.Some?
    ensures var after := LibraryStep(l, o, outputDir, normpath);
            var name := o.library.name.value;
            name in after
            && (name !in l ==> after[name].outputDir == outputDir && after[name].sourceDir == o.library.base.sourceDir
                               && after[name].defines == o.library.defines && after[name].pic == o.library.pic
                               && after[name].isStatic == o.library.isStatic
                               && after[name].includes == NormalizedAll(o.library.includes, outputDir, normpath)
                               && after[name].localIncludes == NormalizedAll(o.library.localIncludes, outputDir, normpath))
            && (name in l ==> after[name] == l[name])
            && forall n :: n != name ==> (n in after <==> n in l) && (n in l ==> after[n] == l[n])
  {
  }

  /** The tree of a Makefile with `XPIDL_MODULE = m`, `XPIDLSRCS = a.idl`
      and no `srcdir`: one module, one relative source, no source
      directory. */
  function NoSourceDirModules(): (r: map<string, XpidlModuleEntry>)
    ensures |r| == 1
  {
    map["m" := XpidlModuleEntry(None, "m", {"a.idl"})]
  }

  /** In that tree the only IDL source has no path and no earlier source
      bound `filename`, so by the contract of `ParseIdlFiles` the report
      raises and `load_tree` ends without any IDL file recorded. */
  lemma IdlLoopRaisesWithoutSourceDir(env: Environment)
    ensures UnformableSource(NoSourceDirModules(), env)
    ensures !FormableIn(NoSourceDirModules(), NoSourceDirModules().Keys, env)
  {
    var modules := NoSourceDirModules();
    assert "a.idl"[..1][0] == 'a';
    assert !IsAbs("a.idl");
    assert "m" in modules && "a.idl" in modules["m"].sources && IdlPath(modules["m"].sourceDir, "a.idl", env).None?;
  }

  /** The intended loop reports a source without a path and skips it: the
      IDL files recorded are those of the tree without that source. */
  lemma UnformableSourceSkipped(modules: map<string, XpidlModuleEntry>, k: string, f: string, env: Environment)
    requires k in modules && f in modules[k].sources && IdlPath(modules[k].sourceDir, f, env).None?
    ensures IdlSourcesOf(modules[k := modules[k].(sources := modules[k].sources - {f})], env)
         == IdlSourcesOf(modules, env)
  {
    var m := modules[k];
    var modules' := modules[k := m.(sources := m.sources - {f})];
    assert ParsedIdlPaths(m.sourceDir, m.sources - {f}, env) == ParsedIdlPaths(m.sourceDir, m.sources, env);
    forall n | n in modules
      ensures ParsedIdlPaths(modules'[n].sourceDir, modules'[n].sources, env)
           == ParsedIdlPaths(modules[n].sourceDir, modules[n].sources, env)
    {
    }
    assert IdlSourcePaths(modules', env) == IdlSourcePaths(modules, env);
  }
}
