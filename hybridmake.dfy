/** The "hybrid make" backend
    (build/pylib/mozbuild/mozbuild/buildconfig/backend/hybridmake.py): for
    every Makefile the frontend extracted, a non-recursive `splendid.mk`
    with the export and IDL rules the backend knows how to write, the
    translated Makefile without the variables those rules now handle, and a
    top-level `hybridmake.mk` that includes every `splendid.mk`. */
module HybridMake {
  import opened Wrappers
  import opened PyStr
  import opened PyPath
  import opened Sorting
  import opened BackendUtils

  /** The records of the backend's own data module, reduced to the
      attributes the backend reads: the exports record (output directories,
      input file to output leaf, the variables it takes over) and the IDL
      record (sources, link flag, the variables it takes over). */
  datatype BackendObject =
    | ExportsObject(outputDirectories: set<string>, filenames: seq<(string, string)>, exclusiveVariables: set<string>)
    | IdlObject(sources: set<string>, linkTogether: bool, exclusiveVariables: set<string>)
    | OtherObject

  /** A statement of a parsed Makefile, as far as stripping is concerned:
      a variable assignment or anything else. */
  datatype Statement = Assignment(name: string, text: string) | OtherStatement(text: string)

  /** A Makefile as the frontend hands it over: its file name and
      directory, the names of the `@NAME@` substitutions it refers to, its
      statements, and the data objects it yields. When `objectsFail` holds,
      producing the objects raises once `objects` have been yielded. */
  datatype FrontendMakefile = FrontendMakefile(
    filename: string,
    directory: string,
    placeholders: set<string>,
    statements: seq<Statement>,
    objects: seq<BackendObject>,
    objectsFail: bool)

  /** A written file: lines printed one by one, or a translated Makefile. */
  datatype FileContent = Text(lines: seq<string>) | Translated(statements: seq<Statement>)

  /** A call of `add_generate_output_file(path, dependencies)`. */
  datatype GeneratedOutput = GeneratedOutput(path: string, dependencies: seq<string>)

  /** One `_run_make` call: the make file (the main one when `None`) and
      the target. */
  datatype MakeInvocation = MakeInvocation(filename: Option<string>, target: string)

  /** The backend state the generation phase changes. */
  datatype BackendState = BackendState(
    outputDirectories: set<string>,
    splendidFiles: set<string>,
    written: map<string, FileContent>,
    outputs: seq<GeneratedOutput>)

  /** A stream written with `print >>fh, s`: every print adds one line. */
  class LineBuffer {
    var lines: seq<string>

    constructor()
      ensures lines == []
    {
      lines := [];
    }

    method Print(s: string)
      modifies this
      ensures lines == old(lines) + [s]
    {
      lines := lines + [s];
    }
  }

  // ---------------------------------------------------------------------
  // Exports

  function IncludeDir(objdir: string): string { Join3(objdir, "dist", "include") }

  /** The directories below `dist/include` that an exports record creates. */
  function IncludePaths(objdir: string, dirs: seq<string>): seq<string> {
    seq(|dirs|, i requires 0 <= i < |dirs| => Join(IncludeDir(objdir), dirs[i]))
  }

  /** `set(s)` for a list of strings. */
  function SetOf(s: seq<string>): set<string> {
    set x | x in s
  }

  ghost function ExportDirectories(objdir: string, dirs: set<string>): set<string> {
    set d | d in dirs :: Join(IncludeDir(objdir), d)
  }

  /** The install rule of one exported file. */
  function ExportRule(objdir: string, entry: (string, string)): seq<string> {
    var inc := IncludeDir(objdir);
    [Join(inc, entry.1) + ": " + entry.0,
     "\t$(INSTALL) -R -m 644 \"" + entry.0 + "\" \"" + Join(inc, Dirname(entry.1)) + "\"\n"]
  }

  function ExportRules(objdir: string, filenames: seq<(string, string)>): seq<string> {
    if filenames == [] then []
    else ExportRules(objdir, filenames[..|filenames| - 1]) + ExportRule(objdir, filenames[|filenames| - 1])
  }

  function ExportTargets(objdir: string, filenames: seq<(string, string)>): seq<string> {
    if filenames == [] then []
    else ExportTargets(objdir, filenames[..|filenames| - 1]) + [Join(IncludeDir(objdir), filenames[|filenames| - 1].1)]
  }

  /** Everything `_write_exports` prints for one record. */
  ghost function ExportsLines(objdir: string, o: BackendObject): seq<string>
    requires o.ExportsObject?
  {
    ["CREATE_DIRS += " + JoinWith(" ", IncludePaths(objdir, SortedOf(o.outputDirectories)))]
    + ExportRules(objdir, o.filenames)
    + ["EXPORT_TARGETS += " + JoinWith(" \\\n  ", ExportTargets(objdir, o.filenames)) + "\n",
       "PHONIES += EXPORT_TARGETS"]
  }

  lemma ExportStep(objdir: string, filenames: seq<(string, string)>, i: nat)
    requires i < |filenames|
    ensures ExportRules(objdir, filenames[..i + 1]) == ExportRules(objdir, filenames[..i]) + ExportRule(objdir, filenames[i])
    ensures ExportTargets(objdir, filenames[..i + 1])
            == ExportTargets(objdir, filenames[..i]) + [Join(IncludeDir(objdir), filenames[i].1)]
  {
    assert filenames[..i + 1][..i] == filenames[..i];
  }

  /** A list holding exactly the directories of a set yields exactly
      their paths below `dist/include`. */
  lemma IncludePathsOfListing(objdir: string, s: seq<string>, dirs: set<string>)
    requires forall d :: d in s <==> d in dirs
    ensures SetOf(IncludePaths(objdir, s)) == ExportDirectories(objdir, dirs)
  {
    forall x | x in ExportDirectories(objdir, dirs) ensures x in IncludePaths(objdir, s) {
      var d :| d in dirs && x == Join(IncludeDir(objdir), d);
      var i :| 0 <= i < |s| && s[i] == d;
      assert IncludePaths(objdir, s)[i] == x;
    }
  }

  /** The directories listed in sorted order are the directories of the
      record. */
  lemma IncludePathsOfSorted(objdir: string, dirs: set<string>)
    ensures SetOf(IncludePaths(objdir, SortedOf(dirs))) == ExportDirectories(objdir, dirs)
  {
    SortedOfListing(dirs);
    IncludePathsOfListing(objdir, SortedOf(dirs), dirs);
  }

  lemma ExportsLinesParts(objdir: string, o: BackendObject, createLine: string, targetsLine: string)
    requires o.ExportsObject?
    requires createLine == "CREATE_DIRS += " + JoinWith(" ", IncludePaths(objdir, SortedOf(o.outputDirectories)))
    requires targetsLine == "EXPORT_TARGETS += " + JoinWith(" \\\n  ", ExportTargets(objdir, o.filenames)) + "\n"
    ensures ExportsLines(objdir, o) == [createLine] + ExportRules(objdir, o.filenames) + [targetsLine, "PHONIES += EXPORT_TARGETS"]
  {
  }

  // ---------------------------------------------------------------------
  // IDL

  function IdlDir(objdir: string): string { Join3(objdir, "dist", "idl") }

  function GenDirectory(directory: string): string { Join(directory, "_xpidlgen") }

  function IdlStem(source: string): string { SplitextRoot(Basename(source)) }

  function InstalledIdl(objdir: string, source: string): string { Join(IdlDir(objdir), Basename(source)) }

  function IdlHeader(objdir: string, source: string): string { Join(IncludeDir(objdir), IdlStem(source) + ".h") }

  function IdlXpt(genDir: string, source: string): string { Join(genDir, IdlStem(source) + ".xpt") }

  /** The lines `_write_idl` prints to install one source into `dist/idl`. */
  function IdlInstallRule(objdir: string, source: string): seq<string> {
    var idl := InstalledIdl(objdir, source);
    ["IDL_DIST_FILES += " + idl,
     "IDL_H_FILES += " + IdlHeader(objdir, source),
     "",
     idl + ": " + source,
     "\t$(INSTALL) -R -m 664 \"" + source + "\" \"" + IdlDir(objdir) + "\"\n",
     ""]
  }

  /** The header rule of one source. */
  function IdlHeaderRule(objdir: string, source: string): seq<string> {
    [IdlHeader(objdir, source) + ": $(IDL_DIST_FILES)",
     "\t$(IDL_GENERATE_HEADER) -o $@ " + InstalledIdl(objdir, source),
     ""]
  }

  /** The xpt rule of one source. */
  function IdlXptRule(objdir: string, genDir: string, source: string): seq<string> {
    var idl := InstalledIdl(objdir, source);
    var xpt := IdlXpt(genDir, source);
    ["IDL_XPT_FILES += " + xpt,
     xpt + ": " + idl,
     "\t$(IDL_GENERATE_XPT) " + idl + " -o $@"]
  }

  /** The twelve lines `_write_idl` prints for one source. */
  function IdlRules(objdir: string, genDir: string, source: string): seq<string> {
    IdlInstallRule(objdir, source) + IdlHeaderRule(objdir, source) + IdlXptRule(objdir, genDir, source)
  }

  function IdlLines(objdir: string, genDir: string, sources: seq<string>): seq<string> {
    if sources == [] then []
    else IdlLines(objdir, genDir, sources[..|sources| - 1]) + IdlRules(objdir, genDir, sources[|sources| - 1])
  }

  lemma IdlLinesStep(objdir: string, genDir: string, sources: seq<string>, i: nat)
    requires i < |sources|
    ensures IdlLines(objdir, genDir, sources[..i + 1]) == IdlLines(objdir, genDir, sources[..i]) + IdlRules(objdir, genDir, sources[i])
  {
    assert sources[..i + 1][..i] == sources[..i];
  }

  lemma AppendAssociative<T>(a: seq<T>, b: seq<T>, c: seq<T>)
    ensures a + b + c == a + (b + c)
  {
  }

  // ---------------------------------------------------------------------
  // splendid.mk

  /** What one data object adds to `splendid.mk`, for a Makefile whose
      output directory is `directory`. */
  ghost function ObjectLines(objdir: string, directory: string, o: BackendObject): seq<string> {
    match o
    case ExportsObject(_, _, _) => ExportsLines(objdir, o)
    case IdlObject(sources, _, _) => IdlLines(objdir, GenDirectory(directory), SortedOf(sources))
    case OtherObject => []
  }

  ghost function ObjectDirectories(objdir: string, directory: string, o: BackendObject): set<string> {
    match o
    case ExportsObject(dirs, _, _) => ExportDirectories(objdir, dirs)
    case IdlObject(_, _, _) => {GenDirectory(directory)}
    case OtherObject => {}
  }

  function ObjectStrip(o: BackendObject): set<string> {
    if o.OtherObject? then {} else o.exclusiveVariables
  }

  ghost function SplendidLines(objdir: string, directory: string, objects: seq<BackendObject>): seq<string> {
    if objects == [] then []
    else SplendidLines(objdir, directory, objects[..|objects| - 1]) + ObjectLines(objdir, directory, objects[|objects| - 1])
  }

  ghost function SplendidDirectories(objdir: string, directory: string, objects: seq<BackendObject>): set<string> {
    if objects == [] then {}
    else SplendidDirectories(objdir, directory, objects[..|objects| - 1]) + ObjectDirectories(objdir, directory, objects[|objects| - 1])
  }

  /** The variables `write_splendid_makefile` returns for stripping. */
  function StripSet(objects: seq<BackendObject>): set<string> {
    if objects == [] then {}
    else StripSet(objects[..|objects| - 1]) + ObjectStrip(objects[|objects| - 1])
  }

  lemma SplendidStep(objdir: string, directory: string, objects: seq<BackendObject>, i: nat)
    requires i < |objects|
    ensures SplendidLines(objdir, directory, objects[..i + 1])
            == SplendidLines(objdir, directory, objects[..i]) + ObjectLines(objdir, directory, objects[i])
    ensures SplendidDirectories(objdir, directory, objects[..i + 1])
            == SplendidDirectories(objdir, directory, objects[..i]) + ObjectDirectories(objdir, directory, objects[i])
    ensures StripSet(objects[..i + 1]) == StripSet(objects[..i]) + ObjectStrip(objects[i])
  {
    assert objects[..i + 1][..i] == objects[..i];
  }

  // ---------------------------------------------------------------------
  // The translated Makefile

  /** The statements left once every assignment to one of `names` is
      removed (what `remove_variable_assignment` does for each name). */
  function WithoutAssignments(statements: seq<Statement>, names: set<string>): seq<Statement> {
    if statements == [] then []
    else
      var rest := WithoutAssignments(statements[1..], names);
      if statements[0].Assignment? && statements[0].name in names then rest else [statements[0]] + rest
  }

  /** Removing the assignments of one more name after a set of names is
      removing those of the larger set. */
  lemma {:induction false} WithoutAssignmentsAdd(statements: seq<Statement>, names: set<string>, n: string)
    ensures WithoutAssignments(WithoutAssignments(statements, names), {n}) == WithoutAssignments(statements, names + {n})
  {
    if statements != [] {
      var s := statements[0];
      WithoutAssignmentsAdd(statements[1..], names, n);
      var rest := WithoutAssignments(statements[1..], names);
      if !(s.Assignment? && s.name in names) {
        assert ([s] + rest)[1..] == rest;
      }
    }
  }

  lemma {:induction false} WithoutNoAssignments(statements: seq<Statement>)
    ensures WithoutAssignments(statements, {}) == statements
  {
    if statements != [] {
      WithoutNoAssignments(statements[1..]);
      assert [statements[0]] + statements[1..] == statements;
    }
  }

  /** The rewritten Makefile keeps exactly the statements that are not
      assignments to a stripped name. */
  lemma {:induction false} WithoutAssignmentsIff(statements: seq<Statement>, names: set<string>, s: Statement)
    ensures s in WithoutAssignments(statements, names) <==> s in statements && !(s.Assignment? && s.name in names)
  {
    if statements != [] {
      WithoutAssignmentsIff(statements[1..], names, s);
      assert s in statements <==> s == statements[0] || s in statements[1..];
    }
  }

  /** The stripping loop of `_generate_makefile`: one removal per name. */
  method StripVariables(statements: seq<Statement>, names: set<string>) returns (r: seq<Statement>)
    ensures r == WithoutAssignments(statements, names)
  {
    r := statements;
    WithoutNoAssignments(statements);
    var rest := names;
    assert names - rest == {};
    while rest != {}
      invariant rest <= names
      invariant r == WithoutAssignments(statements, names - rest)
      decreases rest
    {
      var n :| n in rest;
      WithoutAssignmentsAdd(statements, names - rest, n);
      r := WithoutAssignments(r, {n});
      assert (names - rest) + {n} == names - (rest - {n});
      rest := rest - {n};
    }
    assert names - rest == names;
  }

  // ---------------------------------------------------------------------
  // hybridmake.mk

  function HybridmakeSettings(srcdir: string, objdir: string): seq<string> {
    ["# This file is automatically generated. Do NOT edit.",
     "TOP_SOURCE_DIR := " + srcdir,
     "OBJECT_DIR := " + objdir,
     "DEPTH := .",
     "topsrcdir := " + srcdir,
     "srcdir := " + srcdir]
  }

  const HybridmakeDefault: seq<string> :=
    ["include $(topsrcdir)/config/config.mk",
     "default:",
     "\t@echo \"Use mach to build with this file.\"; \\",
     "\texit 1;",
     "\n"]

  function HybridmakePrologue(srcdir: string, objdir: string): seq<string> {
    HybridmakeSettings(srcdir, objdir) + HybridmakeDefault
  }

  const NonrecursiveInclude: string := "include $(TOP_SOURCE_DIR)/config/makefiles/nonrecursive.mk"

  function IncludeLines(paths: seq<string>): seq<string> {
    if paths == [] then []
    else IncludeLines(paths[..|paths| - 1]) + ["include " + paths[|paths| - 1]]
  }

  function HybridmakeLines(srcdir: string, objdir: string, paths: seq<string>): seq<string> {
    HybridmakePrologue(srcdir, objdir) + IncludeLines(paths) + [NonrecursiveInclude]
  }

  // ---------------------------------------------------------------------
  // Generation as a function of the backend state

  function SplendidPath(outputPath: string): string { Join(Dirname(outputPath), "splendid.mk") }

  /** `_generate_makefile` succeeds when the output path can be computed
      and the data objects can be produced. */
  predicate Generates(srcdir: string, objdir: string, m: FrontendMakefile) {
    MakefileOutputPath(srcdir, objdir, m.filename, m.directory).Success? && !m.objectsFail
  }

  /** Writing `splendid.mk` when its buffer is non-empty. */
  function WithSplendid(s: BackendState, splendid: string, lines: seq<string>, filename: string): BackendState {
    if lines == [] then s
    else s.(splendidFiles := s.splendidFiles + {splendid},
            written := s.written[splendid := Text(lines + [""])],
            outputs := s.outputs + [GeneratedOutput(splendid, [filename])])
  }

  /** Writing the translated Makefile. */
  function WithTranslated(s: BackendState, outputPath: string, statements: seq<Statement>, filename: string): BackendState {
    s.(written := s.written[outputPath := Translated(statements)],
       outputs := s.outputs + [GeneratedOutput(outputPath, [filename])])
  }

  /** Creating the output directories of a Makefile's records. */
  function WithDirectories(s: BackendState, dirs: set<string>): BackendState {
    s.(outputDirectories := s.outputDirectories + dirs)
  }

  /** The state after `_generate_makefile(m)` once its output path is
      known: the records' directories are registered even when producing
      the records raises; otherwise `splendid.mk` and the translation are
      written. */
  ghost function AfterMakefileAt(s: BackendState, objdir: string, m: FrontendMakefile, outputPath: string): BackendState {
    var directory := Dirname(outputPath);
    var s1 := WithDirectories(s, SplendidDirectories(objdir, directory, m.objects));
    if m.objectsFail then s1
    else WithTranslated(WithSplendid(s1, SplendidPath(outputPath), SplendidLines(objdir, directory, m.objects), m.filename),
                        outputPath, WithoutAssignments(m.statements, StripSet(m.objects)), m.filename)
  }

  /** The state after `_generate_makefile(m)`, whether it raised or not. */
  ghost function AfterMakefile(s: BackendState, srcdir: string, objdir: string, m: FrontendMakefile): BackendState {
    var out := MakefileOutputPath(srcdir, objdir, m.filename, m.directory);
    if out.Failure? then s else AfterMakefileAt(s, objdir, m, out.value)
  }

  ghost function AfterMakefiles(s: BackendState, srcdir: string, objdir: string, ms: seq<FrontendMakefile>): BackendState {
    if ms == [] then s
    else AfterMakefile(AfterMakefiles(s, srcdir, objdir, ms[..|ms| - 1]), srcdir, objdir, ms[|ms| - 1])
  }

  /** Whether `substitute_makefile` returns for this Makefile rather than
      raising. */
  predicate Substitutes(autoconf: map<string, string>, srcdir: string, m: FrontendMakefile) {
    SubstituteMakefile(autoconf, srcdir, m.filename, m.directory, m.placeholders).Success?
  }

  /** How many Makefiles the generator hands over before substitution
      raises. */
  function SubstitutedCount(autoconf: map<string, string>, srcdir: string, ms: seq<FrontendMakefile>): (n: nat)
    ensures n <= |ms|
    ensures forall j :: 0 <= j < n ==> Substitutes(autoconf, srcdir, ms[j])
    ensures n < |ms| ==> !Substitutes(autoconf, srcdir, ms[n])
  {
    if ms == [] || !Substitutes(autoconf, srcdir, ms[0]) then 0 else 1 + SubstitutedCount(autoconf, srcdir, ms[1..])
  }

  function Filenames(ms: seq<FrontendMakefile>): seq<string> {
    seq(|ms|, j requires 0 <= j < |ms| => ms[j].filename)
  }

  /** The state after `_generate`: the Makefiles up to the first one whose
      substitution raises; when none raises, also `hybridmake.mk`. */
  ghost function AfterGenerate(s: BackendState, autoconf: map<string, string>, srcdir: string, objdir: string,
                               ms: seq<FrontendMakefile>): BackendState {
    var n := SubstitutedCount(autoconf, srcdir, ms);
    var t := AfterMakefiles(s, srcdir, objdir, ms[..n]);
    if n < |ms| then t
    else WithHybridmake(t, srcdir, objdir, Filenames(ms))
  }

  /** Writing `hybridmake.mk`, which includes every `splendid.mk` written
      so far and depends on every frontend Makefile. */
  ghost function WithHybridmake(s: BackendState, srcdir: string, objdir: string, filenames: seq<string>): BackendState {
    var hybrid := Join(objdir, "hybridmake.mk");
    s.(written := s.written[hybrid := Text(HybridmakeLines(srcdir, objdir, SortedOf(s.splendidFiles)))],
       outputs := s.outputs + [GeneratedOutput(hybrid, filenames)])
  }

  const TierOrder: seq<MakeInvocation> := [
    MakeInvocation(None, "export_tier_base"),
    MakeInvocation(Some("hybridmake.mk"), "export"),
    MakeInvocation(None, "tier_base"),
    MakeInvocation(None, "tier_nspr"),
    MakeInvocation(None, "tier_js"),
    MakeInvocation(None, "export_tier_platform"),
    MakeInvocation(None, "libs_tier_platform"),
    MakeInvocation(None, "tools_tier_platform"),
    MakeInvocation(None, "export_tier_app"),
    MakeInvocation(None, "libs_tier_app"),
    MakeInvocation(None, "tools_tier_app")]

  // ---------------------------------------------------------------------
  // The backend

  class HybridMakeBackend {
    const srcdir: string
    const objdir: string
    const autoconf: map<string, string>
    var outputDirectories: set<string>
    var splendidFiles: set<string>
    var written: map<string, FileContent>
    var outputs: seq<GeneratedOutput>

    ghost function State(): BackendState
      reads this`outputDirectories, this`splendidFiles, this`written, this`outputs
    {
      BackendState(outputDirectories, splendidFiles, written, outputs)
    }

    constructor(srcdir: string, objdir: string, autoconf: map<string, string>)
      ensures this.srcdir == srcdir && this.objdir == objdir && this.autoconf == autoconf
      ensures State() == BackendState({}, {}, map[], [])
    {
      this.srcdir := srcdir;
      this.objdir := objdir;
      this.autoconf := autoconf;
      outputDirectories := {};
      splendidFiles := {};
      written := map[];
      outputs := [];
    }

    /** The loop of `_write_exports` over the exported files: one install
        rule per file, collecting the targets. */
    method PrintExportRules(fh: LineBuffer, filenames: seq<(string, string)>) returns (outputFilenames: seq<string>)
      modifies fh
      ensures outputFilenames == ExportTargets(objdir, filenames)
      ensures fh.lines == old(fh.lines) + ExportRules(objdir, filenames)
    {
      var incDir := IncludeDir(objdir);
      outputFilenames := [];
      var i := 0;
      while i < |filenames|
        invariant 0 <= i <= |filenames|
        invariant outputFilenames == ExportTargets(objdir, filenames[..i])
        invariant fh.lines == old(fh.lines) + ExportRules(objdir, filenames[..i])
      {
        var (inputFilename, outputLeaf) := filenames[i];
        var outputDirectory := Join(incDir, Dirname(outputLeaf));
        var outputFilename := Join(incDir, outputLeaf);
        outputFilenames := outputFilenames + [outputFilename];
        ghost var before := fh.lines;
        fh.Print(outputFilename + ": " + inputFilename);
        fh.Print("\t$(INSTALL) -R -m 644 \"" + inputFilename + "\" \"" + outputDirectory + "\"\n");
        assert fh.lines == before + ExportRule(objdir, filenames[i]);
        ExportStep(objdir, filenames, i);
        AppendAssociative(old(fh.lines), ExportRules(objdir, filenames[..i]), ExportRule(objdir, filenames[i]));
        i := i + 1;
      }
      assert filenames[..i] == filenames;
    }

    /** `_write_exports`. */
    method WriteExports(fh: LineBuffer, obj: BackendObject) returns (strip: set<string>)
      requires obj.ExportsObject?
      modifies this`outputDirectories, fh
      ensures strip == obj.exclusiveVariables
      ensures outputDirectories == old(outputDirectories) + ExportDirectories(objdir, obj.outputDirectories)
      ensures fh.lines == old(fh.lines) + ExportsLines(objdir, obj)
    {
      var directories := SortStrings(obj.outputDirectories);
      var outDirectories := IncludePaths(objdir, directories);
      IncludePathsOfSorted(objdir, obj.outputDirectories);
      outputDirectories := outputDirectories + SetOf(outDirectories);
      var createLine := "CREATE_DIRS += " + JoinWith(" ", outDirectories);
      fh.Print(createLine);

      ghost var created := fh.lines;
      var outputFilenames := PrintExportRules(fh, obj.filenames);
      ghost var rules := fh.lines;

      var targetsLine := "EXPORT_TARGETS += " + JoinWith(" \\\n  ", outputFilenames) + "\n";
      fh.Print(targetsLine);
      fh.Print("PHONIES += EXPORT_TARGETS");
      assert fh.lines == rules + [targetsLine, "PHONIES += EXPORT_TARGETS"];
      ExportsLinesParts(objdir, obj, createLine, targetsLine);
      AppendAssociative(old(fh.lines), [createLine], ExportRules(objdir, obj.filenames));
      AppendAssociative(old(fh.lines), [createLine] + ExportRules(objdir, obj.filenames), [targetsLine, "PHONIES += EXPORT_TARGETS"]);
      strip := obj.exclusiveVariables;
    }

    /** The body of the source loop of `_write_idl`. */
    method PrintIdlRules(fh: LineBuffer, genDirectory: string, source: string)
      modifies fh
      ensures fh.lines == old(fh.lines) + IdlRules(objdir, genDirectory, source)
    {
      PrintIdlInstall(fh, source);
      ghost var installed := fh.lines;
      PrintIdlGenerate(fh, genDirectory, source);
      AppendAssociative(old(fh.lines), IdlInstallRule(objdir, source),
                        IdlHeaderRule(objdir, source) + IdlXptRule(objdir, genDirectory, source));
    }

    /** The install part of the source loop of `_write_idl`. */
    method PrintIdlInstall(fh: LineBuffer, source: string)
      modifies fh
      ensures fh.lines == old(fh.lines) + IdlInstallRule(objdir, source)
    {
      var outputIdlPath := InstalledIdl(objdir, source);
      var outputHeaderPath := IdlHeader(objdir, source);
      fh.Print("IDL_DIST_FILES += " + outputIdlPath);
      fh.Print("IDL_H_FILES += " + outputHeaderPath);
      fh.Print("");
      fh.Print(outputIdlPath + ": " + source);
      fh.Print("\t$(INSTALL) -R -m 664 \"" + source + "\" \"" + IdlDir(objdir) + "\"\n");
      fh.Print("");
    }

    /** The header and xpt part of the source loop of `_write_idl`. */
    method PrintIdlGenerate(fh: LineBuffer, genDirectory: string, source: string)
      modifies fh
      ensures fh.lines == old(fh.lines) + (IdlHeaderRule(objdir, source) + IdlXptRule(objdir, genDirectory, source))
    {
      var outputIdlPath := InstalledIdl(objdir, source);
      var outputHeaderPath := IdlHeader(objdir, source);
      var xptOutputPath := IdlXpt(genDirectory, source);
      fh.Print(outputHeaderPath + ": $(IDL_DIST_FILES)");
      fh.Print("\t$(IDL_GENERATE_HEADER) -o $@ " + outputIdlPath);
      fh.Print("");
      fh.Print("IDL_XPT_FILES += " + xptOutputPath);
      fh.Print(xptOutputPath + ": " + outputIdlPath);
      fh.Print("\t$(IDL_GENERATE_XPT) " + outputIdlPath + " -o $@");
    }

    /** `_write_idl`, for a Makefile whose directory is `directory`. The
        `link_together` branch does nothing. */
    method WriteIdl(directory: string, fh: LineBuffer, obj: BackendObject) returns (strip: set<string>)
      requires obj.IdlObject?
      modifies this`outputDirectories, fh
      ensures strip == obj.exclusiveVariables
      ensures outputDirectories == old(outputDirectories) + {GenDirectory(directory)}
      ensures fh.lines == old(fh.lines) + IdlLines(objdir, GenDirectory(directory), SortedOf(obj.sources))
    {
      var genDirectory := GenDirectory(directory);
      outputDirectories := outputDirectories + {genDirectory};

      var sources := SortStrings(obj.sources);
      var i := 0;
      while i < |sources|
        modifies fh
        invariant 0 <= i <= |sources|
        invariant fh.lines == old(fh.lines) + IdlLines(objdir, genDirectory, sources[..i])
      {
        ghost var before := fh.lines;
        PrintIdlRules(fh, genDirectory, sources[i]);
        IdlLinesStep(objdir, genDirectory, sources, i);
        AppendAssociative(old(fh.lines), IdlLines(objdir, genDirectory, sources[..i]), IdlRules(objdir, genDirectory, sources[i]));
        i := i + 1;
      }
      assert sources[..i] == sources;
      strip := obj.exclusiveVariables;
    }

    /** One iteration of the loop of `write_splendid_makefile`: exports
        and IDL records are written, other records are skipped. */
    method WriteObject(directory: string, fh: LineBuffer, obj: BackendObject) returns (strip: set<string>)
      modifies this`outputDirectories, fh
      ensures strip == ObjectStrip(obj)
      ensures outputDirectories == old(outputDirectories) + ObjectDirectories(objdir, directory, obj)
      ensures fh.lines == old(fh.lines) + ObjectLines(objdir, directory, obj)
    {
      strip := {};
      if obj.ExportsObject? {
        strip := WriteExports(fh, obj);
      } else if obj.IdlObject? {
        strip := WriteIdl(directory, fh, obj);
      } else {
        assert fh.lines == old(fh.lines) + [];
      }
    }

    /** `write_splendid_makefile`: the rules of every exports and IDL
        record, in the order the records come; the union of the variables
        they take over. Producing the records may raise after some have
        been written. */
    method WriteSplendid(m: FrontendMakefile, directory: string, fh: LineBuffer) returns (r: Result<set<string>>)
      modifies this`outputDirectories, fh
      ensures r.Success? <==> !m.objectsFail
      ensures r.Success? ==> r.value == StripSet(m.objects)
      ensures outputDirectories == old(outputDirectories) + SplendidDirectories(objdir, directory, m.objects)
      ensures fh.lines == old(fh.lines) + SplendidLines(objdir, directory, m.objects)
    {
      var stripVariables := {};
      ghost var lines0, dirs0 := fh.lines, outputDirectories;
      var i := 0;
      while i < |m.objects|
        invariant 0 <= i <= |m.objects|
        invariant stripVariables == StripSet(m.objects[..i])
        invariant outputDirectories == dirs0 + SplendidDirectories(objdir, directory, m.objects[..i])
        invariant fh.lines == lines0 + SplendidLines(objdir, directory, m.objects[..i])
      {
        var obj := m.objects[i];
        var s := WriteObject(directory, fh, obj);
        stripVariables := stripVariables + s;
        SplendidStep(objdir, directory, m.objects, i);
        AppendAssociative(lines0, SplendidLines(objdir, directory, m.objects[..i]), ObjectLines(objdir, directory, obj));
        i := i + 1;
      }
      assert m.objects[..i] == m.objects;
      if m.objectsFail {
        return Failure("error while producing data objects");
      }
      return Success(stripVariables);
    }

    /** Writing `splendid.mk` and recording it, only when its buffer holds
        something. */
    method WriteSplendidFile(splendidPath: string, lines: seq<string>, filename: string)
      modifies this`splendidFiles, this`written, this`outputs
      ensures State() == WithSplendid(old(State()), splendidPath, lines, filename)
    {
      if |lines| > 0 {
        written := written[splendidPath := Text(lines + [""])];
        outputs := outputs + [GeneratedOutput(splendidPath, [filename])];
        splendidFiles := splendidFiles + {splendidPath};
      }
    }

    /** Writing the translated Makefile and recording it. */
    method WriteTranslated(outputPath: string, statements: seq<Statement>, filename: string)
      modifies this`written, this`outputs
      ensures State() == WithTranslated(old(State()), outputPath, statements, filename)
    {
      written := written[outputPath := Translated(statements)];
      outputs := outputs + [GeneratedOutput(outputPath, [filename])];
    }

    /** `_generate_makefile(original)`: `ok` is false where it raises. */
    method GenerateMakefile(m: FrontendMakefile) returns (ok: bool)
      modifies this`outputDirectories, this`splendidFiles, this`written, this`outputs
      ensures ok == Generates(srcdir, objdir, m)
      ensures State() == AfterMakefile(old(State()), srcdir, objdir, m)
    {
      var outputPath := MakefileOutputPath(srcdir, objdir, m.filename, m.directory);
      if outputPath.Failure? {
        return false;
      }
      ok := GenerateAt(m, outputPath.value);
    }

    /** The records of a Makefile rendered into a fresh buffer: the
        lines of `splendid.mk` and the variables they take over. */
    method RenderSplendid(m: FrontendMakefile, directory: string) returns (lines: seq<string>, r: Result<set<string>>)
      modifies this`outputDirectories
      ensures r.Success? <==> !m.objectsFail
      ensures r.Success? ==> r.value == StripSet(m.objects)
      ensures lines == SplendidLines(objdir, directory, m.objects)
      ensures State() == WithDirectories(old(State()), SplendidDirectories(objdir, directory, m.objects))
    {
      var buf := new LineBuffer();
      r := WriteSplendid(m, directory, buf);
      lines := buf.lines;
    }

    /** The rest of `_generate_makefile` once the output path is known. */
    method GenerateAt(m: FrontendMakefile, outputPath: string) returns (ok: bool)
      modifies this`outputDirectories, this`splendidFiles, this`written, this`outputs
      ensures ok == !m.objectsFail
      ensures State() == AfterMakefileAt(old(State()), objdir, m, outputPath)
    {
      // The Makefile's directory is rebound to its output directory.
      var outputDirectory := Dirname(outputPath);
      var lines, stripVariables := RenderSplendid(m, outputDirectory);
      if stripVariables.Failure? {
        return false;
      }
      WriteSplendidFile(Join(outputDirectory, "splendid.mk"), lines, m.filename);
      var statements := StripVariables(m.statements, stripVariables.value);
      WriteTranslated(outputPath, statements, m.filename);
      return true;
    }

    /** The settings at the head of `hybridmake.mk`. */
    method PrintSettings(fh: LineBuffer)
      modifies fh
      ensures fh.lines == old(fh.lines) + HybridmakeSettings(srcdir, objdir)
    {
      fh.Print("# This file is automatically generated. Do NOT edit.");
      fh.Print("TOP_SOURCE_DIR := " + srcdir);
      fh.Print("OBJECT_DIR := " + objdir);
      fh.Print("DEPTH := .");
      fh.Print("topsrcdir := " + srcdir);
      fh.Print("srcdir := " + srcdir);
    }

    /** The default rule, which refuses to build. */
    method PrintDefault(fh: LineBuffer)
      modifies fh
      ensures fh.lines == old(fh.lines) + HybridmakeDefault
    {
      fh.Print("include $(topsrcdir)/config/config.mk");
      fh.Print("default:");
      fh.Print("\t@echo \"Use mach to build with this file.\"; \\");
      fh.Print("\texit 1;");
      fh.Print("\n");
    }

    /** `print_hybridmake`: the prologue, one include per `splendid.mk`
        in sorted order, and the non-recursive rules last. */
    method PrintHybridmake(fh: LineBuffer)
      modifies fh
      ensures fh.lines == old(fh.lines) + HybridmakeLines(srcdir, objdir, SortedOf(splendidFiles))
    {
      PrintSettings(fh);
      PrintDefault(fh);
      AppendAssociative(old(fh.lines), HybridmakeSettings(srcdir, objdir), HybridmakeDefault);
      ghost var start := fh.lines;
      var paths := SortStrings(splendidFiles);
      var i := 0;
      while i < |paths|
        invariant 0 <= i <= |paths|
        invariant fh.lines == start + IncludeLines(paths[..i])
      {
        fh.Print("include " + paths[i]);
        assert paths[..i + 1][..i] == paths[..i];
        i := i + 1;
      }
      assert paths[..i] == paths;
      fh.Print(NonrecursiveInclude);
      AppendAssociative(old(fh.lines), HybridmakePrologue(srcdir, objdir), IncludeLines(paths));
      AppendAssociative(old(fh.lines), HybridmakePrologue(srcdir, objdir) + IncludeLines(paths), [NonrecursiveInclude]);
    }

    /** The end of `_generate`: `hybridmake.mk` is printed and recorded. */
    method WriteHybridmake(filenames: seq<string>)
      modifies this`written, this`outputs
      ensures State() == WithHybridmake(old(State()), srcdir, objdir, filenames)
    {
      var hybridPath := Join(objdir, "hybridmake.mk");
      var fh := new LineBuffer();
      PrintHybridmake(fh);
      assert fh.lines == HybridmakeLines(srcdir, objdir, SortedOf(splendidFiles));
      written := written[hybridPath := Text(fh.lines)];
      outputs := outputs + [GeneratedOutput(hybridPath, filenames)];
    }

    /** `_generate`: every Makefile the generator hands over is generated,
        a failure of one not stopping the others; substitution raising in
        the generator ends the whole phase. */
    method Generate(makefiles: seq<FrontendMakefile>) returns (ok: bool)
      modifies this`outputDirectories, this`splendidFiles, this`written, this`outputs
      ensures ok <==> forall j :: 0 <= j < |makefiles| ==> Substitutes(autoconf, srcdir, makefiles[j])
      ensures State() == AfterGenerate(old(State()), autoconf, srcdir, objdir, makefiles)
    {
      var i := 0;
      while i < |makefiles|
        invariant 0 <= i <= |makefiles|
        invariant forall j :: 0 <= j < i ==> Substitutes(autoconf, srcdir, makefiles[j])
        invariant State() == AfterMakefiles(old(State()), srcdir, objdir, makefiles[..i])
      {
        var m := makefiles[i];
        var variables := SubstituteMakefile(autoconf, srcdir, m.filename, m.directory, m.placeholders);
        if variables.Failure? {
          assert SubstitutedCount(autoconf, srcdir, makefiles) == i;
          return false;
        }
        var _ := GenerateMakefile(makefiles[i]);
        assert makefiles[..i + 1][..i] == makefiles[..i];
        i := i + 1;
      }
      assert makefiles[..i] == makefiles;
      assert SubstitutedCount(autoconf, srcdir, makefiles) == |makefiles|;
      assert makefiles[..SubstitutedCount(autoconf, srcdir, makefiles)] == makefiles;
      WriteHybridmake(Filenames(makefiles));
      return true;
    }

    /** `_build`: every output directory is created, then make runs the
        tiers in a fixed order: the base export tier on the main Makefile,
        the `export` target of `hybridmake.mk`, and then nine more tiers on
        the main Makefile. */
    method Build() returns (created: set<string>, invocations: seq<MakeInvocation>)
      ensures created == outputDirectories
      ensures |invocations| == 11
      ensures invocations[0] == MakeInvocation(None, "export_tier_base")
      ensures invocations[1] == MakeInvocation(Some("hybridmake.mk"), "export")
      ensures forall i :: 2 <= i < |invocations| ==> invocations[i].filename.None?
      ensures invocations == TierOrder
    {
      created := {};
      var rest := outputDirectories;
      while rest != {}
        invariant rest <= outputDirectories
        invariant created == outputDirectories - rest
        decreases rest
      {
        var path :| path in rest;
        created := created + {path};
        rest := rest - {path};
      }
      invocations := TierOrder;
    }
  }
}
