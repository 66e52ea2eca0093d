/** What `ObjectDirectoryParser` (build/buildparser/extractor.py) computes,
    as functions of its inputs: which Makefiles it finds and loads, which
    loads fail, and what each loaded file adds to the tree model and to the
    parser's own bookkeeping. The methods of `ObjectDirectory` are proved to
    produce exactly these values. */
module ObjectDirectorySpec {
  import opened Wrappers
  import opened PyStr
  import opened PyPath
  import opened MakefileSource
  import opened Data
  import opened Extractor
  import Collection
  import Sorting

  /** What the parser reads from outside: the directory walk, which paths
      exist, `os.path.normpath`, what the make parser makes of each path
      (a path it cannot parse is absent), what `get_data_objects` yields for
      each path, the raw dependency list the IDL parser reports for each IDL
      file it can parse, and the output directory of the library object of
      each Makefile. */
  datatype Environment = Environment(
    walk: seq<Collection.WalkEntry>,
    existing: set<string>,
    normpath: string -> string,
    makefiles: map<string, MakefileData>,
    extraction: string -> Extraction,
    idlDependencies: map<string, seq<string>>,
    libraryDirectory: string -> string)

  /** The extraction of every parsed path is the one the extractor model
      computes for it. */
  predicate ExtractorAgrees(env: Environment) {
    forall p {:trigger ExtractorAgreesAt(env, p)} :: p in env.makefiles ==> ExtractorAgreesAt(env, p)
  }

  /** The extraction of the parsed path `p` is the one the extractor model
      computes for it. */
  predicate ExtractorAgreesAt(env: Environment, p: string)
    requires p in env.makefiles
  {
    env.extraction(p) == DataObjectsOf(env.makefiles[p])
  }

  // ---------------------------------------------------------------------
  // Discovery and pruning

  /** Walked files that are loaded: `Makefile` and every `.mk` file. */
  predicate IsTreeMakefileName(name: string) {
    name == "Makefile" || Tail(name, 3) == ".mk"
  }

  /** The Makefiles of one walked directory, normalised. */
  function EntryMakefiles(e: Collection.WalkEntry, normpath: string -> string): set<string> {
    set name | name in e.files && IsTreeMakefileName(name) :: normpath(Join(e.root, name))
  }

  function WalkedMakefiles(walk: seq<Collection.WalkEntry>, normpath: string -> string): set<string> {
    if walk == [] then {}
    else WalkedMakefiles(walk[..|walk| - 1], normpath) + EntryMakefiles(walk[|walk| - 1], normpath)
  }

  /** The extra `.mk` files named relative to the top source directory. */
  function SourceDirMakefilesOf(topSourceDir: string, names: seq<string>, normpath: string -> string): set<string> {
    set p | p in names :: normpath(Join(topSourceDir, p))
  }

  /** A path is ignored when an ignored directory starts its part below `dir`. */
  predicate IsIgnored(dir: string, ignoreDirectories: seq<string>, path: string) {
    exists i :: 0 <= i < |ignoreDirectories| && HasPrefix(SliceFrom(path, |dir| + 1), ignoreDirectories[i])
  }

  /** The paths kept (`keep`) or the paths dropped (`!keep`), in order. */
  function PrunedPaths(paths: seq<string>, dir: string, ignoreDirectories: seq<string>, keep: bool): seq<string> {
    if paths == [] then []
    else
      var rest := PrunedPaths(paths[..|paths| - 1], dir, ignoreDirectories, keep);
      var p := paths[|paths| - 1];
      if IsIgnored(dir, ignoreDirectories, p) != keep then rest + [p] else rest
  }

  /** The three Makefile lists of `load_tree`. */
  datatype MakefileLists = MakefileLists(all: seq<string>, relevant: seq<string>, ignored: seq<string>)

  /** The Makefile lists of `load_tree`: every Makefile found, sorted, then
      split into the relevant and the ignored ones. */
  ghost function FoundMakefiles(env: Environment, dir: string, ignoreDirectories: seq<string>, topSourceDir: string,
                                sourceDirMakefiles: seq<string>): MakefileLists
  {
    var all := Sorting.SortedOf(WalkedMakefiles(env.walk, env.normpath)
                                + SourceDirMakefilesOf(topSourceDir, sourceDirMakefiles, env.normpath));
    MakefileLists(all, PrunedPaths(all, dir, ignoreDirectories, true), PrunedPaths(all, dir, ignoreDirectories, false))
  }

  /** What `load_tree` records before loading anything: the metadata flag,
      the top source directory, the Makefile lists and the two roots of the
      tree model. */
  datatype LoadSettings = LoadSettings(
    retain: bool, topSourceDir: string, lists: MakefileLists,
    objectDirectory: Option<string>, topSourceDirectory: Option<string>)

  // ---------------------------------------------------------------------
  // Loading one Makefile

  /** The two assertions at the top of `load_makefile`. */
  predicate Normalised(env: Environment, path: string) {
    env.normpath(path) == path && IsAbs(path)
  }

  /** `path[-3:] == '.mk'`: an included file, whose objects are not merged. */
  predicate IsIncludeFile(path: string) {
    Tail(path, 3) == ".mk"
  }

  /** Where an exported file is looked for: the source directory first, then
      each VPATH entry. */
  function SearchPaths(r: ExportsRecord): (c: seq<Option<string>>)
    ensures |c| == 1 + |r.base.vpath| && c[0] == r.base.sourceDir
    ensures forall i :: 1 <= i < |c| ==> c[i] == Some(r.base.vpath[i - 1])
  {
    [r.base.sourceDir] + seq(|r.base.vpath|, i requires 0 <= i < |r.base.vpath| => Some(r.base.vpath[i]))
  }

  /** `os.path.join(c, f)`; joining onto no directory only succeeds for an
      absolute `f`, which the merge checks beforehand. */
  function Candidate(c: Option<string>, f: string): string {
    if c.Some? then Join(c.value, f) else f
  }

  /** The index of the first search path under which `f` exists. */
  function FirstExisting(cs: seq<Option<string>>, f: string, existing: set<string>): (r: Option<nat>)
    ensures r.Some? ==> r.value < |cs| && Candidate(cs[r.value], f) in existing
    ensures r.Some? ==> forall j :: 0 <= j < r.value ==> Candidate(cs[j], f) !in existing
    ensures r.None? ==> forall j :: 0 <= j < |cs| ==> Candidate(cs[j], f) !in existing
  {
    if cs == [] then None
    else if Candidate(cs[0], f) in existing then Some(0)
    else
      var r := FirstExisting(cs[1..], f, existing);
      if r.Some? then Some(r.value + 1) else None
  }

  /** The path an exported file is recorded under, if it is found at all. */
  function ExportedPath(r: ExportsRecord, f: string, existing: set<string>): Option<string> {
    var cs := SearchPaths(r);
    var i := FirstExisting(cs, f, existing);
    if i.Some? then Some(Candidate(cs[i.value], f)) else None
  }

  /** The found files among `files`, each with the path it was found at. */
  function Resolved(r: ExportsRecord, files: set<string>, existing: set<string>): map<string, string> {
    map f | f in files && ExportedPath(r, f, existing).Some? :: ExportedPath(r, f, existing).value
  }

  /** The tree key of a namespace. */
  function ExportKey(namespace: string): string {
    "/" + namespace
  }

  /** Whether `key` is the key of one of the namespaces in `namespaces`. */
  predicate KeyOfNamespace(key: string, namespaces: set<string>) {
    |key| >= 1 && key[0] == '/' && key[1..] in namespaces
  }

  /** The exports map after merging the namespaces `done` of `r`. */
  function ExportsMergedFor(t: map<string, map<string, string>>, r: ExportsRecord, done: set<string>, existing: set<string>)
    : map<string, map<string, string>>
    requires done <= r.exports.Keys
  {
    map key | key in t.Keys + (set k | k in done :: ExportKey(k)) ::
      if KeyOfNamespace(key, done) then
        (if key in t then t[key] else map[]) + Resolved(r, r.exports[key[1..]], existing)
      else t[key]
  }

  /** Merging an exports object raises when a file must be joined onto a
      missing source directory: `os.path.join(None, f)` fails for a
      relative `f`. */
  predicate ExportsRaises(r: ExportsRecord) {
    r.base.sourceDir.None? && exists k, f :: k in r.exports && f in r.exports[k] && !IsAbs(f)
  }

  /** Merging an object raises: that exports case, or an XPIDL object
      without a module name (the assertion in the merge). */
  predicate MergeRaises(o: DerivedRecord) {
    (o.Exports? && ExportsRaises(o.exportsInfo)) || (o.Xpidl? && o.xpidl.moduleName.None?)
  }

  /** The objects merged before one raises. */
  function MergedPrefix(objects: seq<DerivedRecord>): (r: seq<DerivedRecord>)
    ensures |r| <= |objects| && r == objects[..|r|]
    ensures forall i :: 0 <= i < |r| ==> !MergeRaises(objects[i])
    ensures |r| < |objects| ==> MergeRaises(objects[|r|])
  {
    if objects == [] then []
    else if MergeRaises(objects[0]) then []
    else [objects[0]] + MergedPrefix(objects[1..])
  }

  /** How loading one path ends: the objects whose merge began (the last of
      them may have raised), the objects merged into the tree, whether the
      load completes without raising, and the variables it reports unused. */
  datatype FileLoad = FileLoad(attempted: seq<DerivedRecord>, merged: seq<DerivedRecord>, ok: bool, unused: set<string>)

  /** The merged objects followed by the one that raised, if any. */
  function Attempted(objects: seq<DerivedRecord>): (r: seq<DerivedRecord>)
    ensures |MergedPrefix(objects)| <= |r| <= |objects| && r == objects[..|r|]
    ensures |r| == |MergedPrefix(objects)| <==> |MergedPrefix(objects)| == |objects|
  {
    var n := |MergedPrefix(objects)|;
    if n < |objects| then objects[..n + 1] else objects
  }

  function LoadOf(env: Environment, path: string): (l: FileLoad)
    ensures |l.merged| <= |l.attempted| && l.merged == l.attempted[..|l.merged|]
  {
    if !Normalised(env, path) || path !in env.makefiles then FileLoad([], [], false, {})
    else if IsIncludeFile(path) then FileLoad([], [], true, {})
    else
      var m := env.makefiles[path];
      var e := env.extraction(path);
      var merged := MergedPrefix(e.objects);
      var ok := !e.failed && |merged| == |e.objects|;
      FileLoad(Attempted(e.objects), merged, ok, if ok then UnusedVariables(m, e.objects) else {})
  }

  /** Whether the file's metadata is collected: it passed the assertions and parsed. */
  predicate CollectsMetadata(env: Environment, path: string) {
    Normalised(env, path) && path in env.makefiles
  }

  // ---------------------------------------------------------------------
  // What merging one object does to each part of the tree model

  /** Every object's source directory is recorded, before anything can raise. */
  function SourceDirStep(s: set<string>, o: DerivedRecord): set<string> {
    var d := o.Base().sourceDir;
    if d.Some? then s + {d.value} else s
  }

  function XpidlModuleStep(x: map<string, XpidlModuleEntry>, o: DerivedRecord): map<string, XpidlModuleEntry> {
    if o.Xpidl? && o.xpidl.moduleName.Some? then
      x[o.xpidl.moduleName.value := XpidlModuleEntry(o.xpidl.base.sourceDir, o.xpidl.moduleName.value, o.xpidl.sources)]
    else x
  }

  function IdlDirectoryStep(d: set<Option<string>>, o: DerivedRecord): set<Option<string>> {
    if o.Xpidl? then d + {o.xpidl.base.sourceDir} else d
  }

  function ExportsStep(e: map<string, map<string, string>>, o: DerivedRecord, existing: set<string>)
    : map<string, map<string, string>>
  {
    if o.Exports? then ExportsMergedFor(e, o.exportsInfo, o.exportsInfo.exports.Keys, existing) else e
  }

  /** `normalize_include`: relative include directories are taken relative
      to the library's output directory. */
  function NormalizeInclude(p: string, outputDir: string, normpath: string -> string): string {
    if IsAbs(p) then p else normpath(Join(outputDir, p))
  }

  /** The normalised include directories of a set, one entry per element. */
  ghost function NormalizedAll(s: set<string>, outputDir: string, normpath: string -> string): multiset<string>
    decreases |s|
  {
    if s == {} then multiset{}
    else
      var p :| p in s;
      NormalizedAll(s - {p}, outputDir, normpath) + multiset{NormalizeInclude(p, outputDir, normpath)}
  }

  /** The tree entry of a library object. */
  ghost function LibraryEntryOf(r: LibraryRecord, outputDir: string, normpath: string -> string): LibraryEntry {
    LibraryEntry(r.cFlags, r.cppSources, r.cxxFlags, r.defines,
      NormalizedAll(r.includes, outputDir, normpath), NormalizedAll(r.localIncludes, outputDir, normpath),
      r.pic, r.isStatic, r.base.sourceDir, outputDir)
  }

  /** Whether a library object is entered: a name that is already present
      keeps its entry. */
  predicate LibraryEntered(l: map<string, LibraryEntry>, o: DerivedRecord) {
    o.Library? && o.library.name.Some? && o.library.name.value !in l
  }

  ghost function LibraryStep(l: map<string, LibraryEntry>, o: DerivedRecord, outputDir: string, normpath: string -> string)
    : map<string, LibraryEntry>
  {
    if LibraryEntered(l, o) then l[o.library.name.value := LibraryEntryOf(o.library, outputDir, normpath)] else l
  }

  /** Each included path gains `filename` among the files that include it. */
  function AddIncluder(inc: map<string, set<string>>, paths: seq<string>, filename: string): map<string, set<string>> {
    if paths == [] then inc
    else
      var t := AddIncluder(inc, paths[..|paths| - 1], filename);
      var p := paths[|paths| - 1];
      t[p := (if p in t then t[p] else {}) + {filename}]
  }

  function IncludedFilesStep(inc: map<string, set<string>>, o: DerivedRecord, filename: string): map<string, set<string>> {
    if o.Misc? && o.misc.includedFiles.Some? then AddIncluder(inc, o.misc.includedFiles.value, filename) else inc
  }

  // ---------------------------------------------------------------------
  // ... and merging a sequence of objects

  function SourceDirsAfter(s: set<string>, objects: seq<DerivedRecord>): set<string> {
    if objects == [] then s
    else SourceDirStep(SourceDirsAfter(s, objects[..|objects| - 1]), objects[|objects| - 1])
  }

  function XpidlModulesAfter(x: map<string, XpidlModuleEntry>, objects: seq<DerivedRecord>): map<string, XpidlModuleEntry> {
    if objects == [] then x
    else XpidlModuleStep(XpidlModulesAfter(x, objects[..|objects| - 1]), objects[|objects| - 1])
  }

  function IdlDirectoriesAfter(d: set<Option<string>>, objects: seq<DerivedRecord>): set<Option<string>> {
    if objects == [] then d
    else IdlDirectoryStep(IdlDirectoriesAfter(d, objects[..|objects| - 1]), objects[|objects| - 1])
  }

  function ExportsAfter(e: map<string, map<string, string>>, objects: seq<DerivedRecord>, existing: set<string>)
    : map<string, map<string, string>>
  {
    if objects == [] then e
    else ExportsStep(ExportsAfter(e, objects[..|objects| - 1], existing), objects[|objects| - 1], existing)
  }

  ghost function LibrariesAfter(l: map<string, LibraryEntry>, objects: seq<DerivedRecord>,
                                outputDir: string, normpath: string -> string): map<string, LibraryEntry>
  {
    if objects == [] then l
    else LibraryStep(LibrariesAfter(l, objects[..|objects| - 1], outputDir, normpath), objects[|objects| - 1], outputDir, normpath)
  }

  function IncludedFilesAfter(inc: map<string, set<string>>, objects: seq<DerivedRecord>, filename: string)
    : map<string, set<string>>
  {
    if objects == [] then inc
    else IncludedFilesStep(IncludedFilesAfter(inc, objects[..|objects| - 1], filename), objects[|objects| - 1], filename)
  }

  /** The names `load_makefile` treats as local: those `islower()` accepts. */
  function LowercaseNames(names: set<string>): set<string> {
    set v | v in names && IsLower(v)
  }

  /** Union of the variables the objects consulted. */
  function UsedBy(objects: seq<DerivedRecord>): set<string> {
    if objects == [] then {}
    else UsedBy(objects[..|objects| - 1]) + objects[|objects| - 1].Base().usedVariables
  }

  /** The file's own variables that no object consulted, other than lower-case ones. */
  function UnusedVariables(m: MakefileData, objects: seq<DerivedRecord>): set<string> {
    var own := OwnVariableNames(m, true);
    own - UsedBy(objects) - LowercaseNames(own)
  }

  /** `unhandled_variables` after recording `unused` under `key`. */
  function RecordUnused(u: map<string, set<Option<string>>>, unused: set<string>, key: Option<string>)
    : map<string, set<Option<string>>>
  {
    map v | v in u.Keys + unused :: if v in unused then (if v in u then u[v] else {}) + {key} else u[v]
  }

  // ---------------------------------------------------------------------
  // The key unused variables are recorded under

  /** The values the loop variable `path` of the merge can be left holding
      by one object: a search path of an exported file, an include
      directory of a library, or an included file. */
  ghost function BindablePathsOf(o: DerivedRecord): set<Option<string>> {
    match o
    case Exports(r) =>
      if exists k :: k in r.exports && r.exports[k] != {} then set c | c in SearchPaths(r) else {}
    case Library(r) => set p | p in r.includes + r.localIncludes :: Some(p)
    case Misc(r) => if r.includedFiles.Some? then set p | p in r.includedFiles.value :: Some(p) else {}
    case _ => {}
  }

  /** Every value the loop variable `path` of the merge takes while merging
      `objects`. */
  ghost function BindablePaths(objects: seq<DerivedRecord>): set<Option<string>> {
    if objects == [] then {}
    else BindablePaths(objects[..|objects| - 1]) + BindablePathsOf(objects[|objects| - 1])
  }

  /** The keys a file's unused variables can be recorded under: the loop
      variables of the merge rebind `path`, so the key is the file's own
      path only when no loop ran. */
  ghost function CandidateKeys(env: Environment, path: string): set<Option<string>> {
    {Some(path)} + BindablePaths(LoadOf(env, path).merged)
  }

  /** The key, where it is determined: the last included file when the file
      includes any (the misc object is merged last), the file's own path
      when nothing rebinds it. Otherwise it depends on set iteration order. */
  ghost function DeterminedKey(env: Environment, path: string): Option<Option<string>> {
    var l := LoadOf(env, path);
    var m := if path in env.makefiles then env.makefiles[path] else MakefileData(map[], [], [], []);
    if l.ok && !IsIncludeFile(path) && |m.includes| > 0 then Some(Some(m.includes[|m.includes| - 1].path))
    else if BindablePaths(l.merged) == {} then Some(Some(path))
    else None
  }

  /** Whether `key` is a key the unused variables of `path` can be recorded
      under, and the determined one where it is determined. */
  ghost predicate KeyFits(env: Environment, path: string, key: Option<string>) {
    key in CandidateKeys(env, path) && (DeterminedKey(env, path).Some? ==> key == DeterminedKey(env, path).value)
  }

  /** `keys[i]` fits `paths[i]` for every `i`. */
  ghost predicate KeysFit(env: Environment, paths: seq<string>, keys: seq<Option<string>>) {
    |keys| == |paths|
    && (paths != [] ==>
          var n := |paths| - 1;
          KeysFit(env, paths[..n], keys[..n]) && KeyFits(env, paths[n], keys[n]))
  }

  // ---------------------------------------------------------------------
  // Metadata

  datatype VariableInfo = VariableInfo(paths: set<string>, conditionalPaths: set<string>, unconditionalPaths: set<string>)

  /** One `ifdef` use of a variable in a file: expected value and line. */
  datatype IfdefUse = IfdefUse(expected: bool, line: nat)

  /** A rule as recorded, with its conditions rendered as text. */
  datatype RuleEntry = RuleEntry(rule: RuleStatement, conditionStrings: seq<string>)

  function InfoOf(vars: map<string, VariableInfo>, v: string): VariableInfo {
    if v in vars then vars[v] else VariableInfo({}, {}, {})
  }

  /** The info of a variable that `filename` assigns, conditionally or not. */
  function Touched(info: VariableInfo, filename: string, unconditional: bool): VariableInfo {
    VariableInfo(info.paths + {filename},
      if unconditional then info.conditionalPaths else info.conditionalPaths + {filename},
      if unconditional then info.unconditionalPaths + {filename} else info.unconditionalPaths)
  }

  /** `variables` after recording `names`, some of the file's own variables. */
  function OwnVariablesRecorded(vars: map<string, VariableInfo>, m: MakefileData, names: set<string>, filename: string)
    : map<string, VariableInfo>
    requires names <= m.variables.Keys
  {
    map v | v in vars.Keys + names ::
      if v in names then Touched(InfoOf(vars, v), filename, !m.variables[v].conditional) else vars[v]
  }

  function IfdefNames(ifdefs: seq<IfdefStatement>): set<string> {
    set s | s in ifdefs :: s.name
  }

  /** `variables` after recording the names the file tests in `ifdef`s. */
  function IfdefVariablesRecorded(vars: map<string, VariableInfo>, names: set<string>, filename: string)
    : map<string, VariableInfo>
  {
    map v | v in vars.Keys + names ::
      if v in names then InfoOf(vars, v).(paths := InfoOf(vars, v).paths + {filename}) else vars[v]
  }

  function VariablesAfterFile(vars: map<string, VariableInfo>, m: MakefileData, filename: string): map<string, VariableInfo> {
    IfdefVariablesRecorded(OwnVariablesRecorded(vars, m, m.variables.Keys, filename), IfdefNames(m.ifdefs), filename)
  }

  /** `ifdef_variables` after the file's `ifdef`s, in order. */
  function IfdefUsesAfter(d: map<string, map<string, seq<IfdefUse>>>, ifdefs: seq<IfdefStatement>, filename: string)
    : map<string, map<string, seq<IfdefUse>>>
  {
    if ifdefs == [] then d
    else
      var t := IfdefUsesAfter(d, ifdefs[..|ifdefs| - 1], filename);
      var s := ifdefs[|ifdefs| - 1];
      var byFile := if s.name in t then t[s.name] else map[];
      var uses := if filename in byFile then byFile[filename] else [];
      t[s.name := byFile[filename := uses + [IfdefUse(s.expected, s.line)]]]
  }

  function RuleEntryOf(r: RuleStatement): RuleEntry {
    RuleEntry(r, seq(|r.conditions|, i requires 0 <= i < |r.conditions| => ConditionToString(r.conditions[i])))
  }

  function RuleEntries(rules: seq<RuleStatement>): (r: seq<RuleEntry>)
    ensures |r| == |rules|
    ensures forall i :: 0 <= i < |r| ==> r[i] == RuleEntryOf(rules[i])
  {
    seq(|rules|, i requires 0 <= i < |rules| => RuleEntryOf(rules[i]))
  }

  function RulesOf(rules: map<string, seq<RuleEntry>>, path: string): seq<RuleEntry> {
    if path in rules then rules[path] else []
  }

  function RulesAfterFile(rules: map<string, seq<RuleEntry>>, m: MakefileData, filename: string): map<string, seq<RuleEntry>> {
    rules[filename := RulesOf(rules, filename) + RuleEntries(m.rules)]
  }

  /** Every target of the recorded rules. */
  function TargetsOf(entries: seq<RuleEntry>): set<string> {
    if entries == [] then {}
    else TargetsOf(entries[..|entries| - 1]) + Elems(entries[|entries| - 1].rule.targets)
  }

  // ---------------------------------------------------------------------
  // Loading every relevant Makefile in turn

  /** What loading Makefiles changes: the bookkeeping sets, the tree model's
      merged parts, the included files, the unused variables and the
      retained metadata. */
  datatype LoadState = LoadState(
    handled: set<string>,
    errors: set<string>,
    parts: TreeParts,
    unhandled: map<string, set<Option<string>>>,
    metadata: Metadata)

  /** The parts of the tree model (and the parser's `included_files`) that
      merging a file's objects changes. */
  datatype TreeParts = TreeParts(
    sourceDirectories: set<string>,
    xpidlModules: map<string, XpidlModuleEntry>,
    idlDirectories: set<Option<string>>,
    exports: map<string, map<string, string>>,
    libraries: map<string, LibraryEntry>,
    includedFiles: map<string, set<string>>)

  /** The metadata `collect_makefile_metadata` retains. */
  datatype Metadata = Metadata(
    variables: map<string, VariableInfo>,
    ifdefVariables: map<string, map<string, seq<IfdefUse>>>,
    rules: map<string, seq<RuleEntry>>)

  /** The tree parts after the objects `attempted` of `path` were tried and
      the prefix `merged` of them merged. */
  ghost function PartsAfter(p: TreeParts, attempted: seq<DerivedRecord>, merged: seq<DerivedRecord>,
                            path: string, env: Environment): TreeParts {
    TreeParts(
      SourceDirsAfter(p.sourceDirectories, attempted),
      XpidlModulesAfter(p.xpidlModules, merged),
      IdlDirectoriesAfter(p.idlDirectories, merged),
      ExportsAfter(p.exports, merged, env.existing),
      LibrariesAfter(p.libraries, merged, env.libraryDirectory(path), env.normpath),
      IncludedFilesAfter(p.includedFiles, merged, path))
  }

  /** The metadata after `collect_makefile_metadata` on `m`. */
  function MetadataAfterFile(md: Metadata, m: MakefileData, filename: string): Metadata {
    Metadata(VariablesAfterFile(md.variables, m, filename), IfdefUsesAfter(md.ifdefVariables, m.ifdefs, filename),
             RulesAfterFile(md.rules, m, filename))
  }

  /** Loading one Makefile, its unused variables recorded under `key`; a load
      that raises adds the path to the errors. */
  ghost function LoadStep(s: LoadState, env: Environment, path: string, key: Option<string>, retain: bool): LoadState {
    var l := LoadOf(env, path);
    LoadState(
      if Normalised(env, path) then s.handled + {path} else s.handled,
      if l.ok then s.errors else s.errors + {path},
      PartsAfter(s.parts, l.attempted, l.merged, path, env),
      RecordUnused(s.unhandled, l.unused, key),
      if retain && CollectsMetadata(env, path) then MetadataAfterFile(s.metadata, env.makefiles[path], path)
      else s.metadata)
  }

  /** Loading `paths` in order, the unused variables of `paths[i]` being
      recorded under `keys[i]`. */
  ghost function LoadStateAfterFiles(s: LoadState, paths: seq<string>, keys: seq<Option<string>>,
                                     env: Environment, retain: bool): LoadState
    requires |keys| == |paths|
  {
    if paths == [] then s
    else
      var n := |paths| - 1;
      LoadStep(LoadStateAfterFiles(s, paths[..n], keys[..n], env, retain), env, paths[n], keys[n], retain)
  }

  // ---------------------------------------------------------------------
  // After the Makefiles: JAR manifests and IDL files

  /** The `jar.mn` of each source directory, where one exists. */
  function JarManifestPaths(sourceDirectories: set<string>, env: Environment): set<string> {
    set d | d in sourceDirectories && env.normpath(Join(d, "jar.mn")) in env.existing :: env.normpath(Join(d, "jar.mn"))
  }

  /** The path of an IDL source of a module, when it can be formed. */
  function IdlPath(sourceDir: Option<string>, f: string, env: Environment): Option<string> {
    if sourceDir.Some? then Some(env.normpath(Join(sourceDir.value, f)))
    else if IsAbs(f) then Some(env.normpath(f))
    else None
  }

  /** Some source of the modules `names` whose path can be formed. */
  ghost predicate FormableIn(modules: map<string, XpidlModuleEntry>, names: set<string>, env: Environment) {
    exists k, f :: k in names && k in modules && f in modules[k].sources && IdlPath(modules[k].sourceDir, f, env).Some?
  }

  /** Some source of a module whose path cannot be formed: one that names
      no source directory and has a relative file name. */
  ghost predicate UnformableSource(modules: map<string, XpidlModuleEntry>, env: Environment) {
    exists k, f :: k in modules && f in modules[k].sources && IdlPath(modules[k].sourceDir, f, env).None?
  }

  /** The IDL files among `sources` of a module that parse. */
  function ParsedIdlPaths(sourceDir: Option<string>, sources: set<string>, env: Environment): set<string> {
    set f | f in sources && IdlPath(sourceDir, f, env).Some? && IdlPath(sourceDir, f, env).value in env.idlDependencies
          :: IdlPath(sourceDir, f, env).value
  }

  /** The IDL files of the modules `names` that parse. */
  function IdlSourcePathsOf(modules: map<string, XpidlModuleEntry>, names: set<string>, env: Environment): set<string> {
    set k, p | k in names && k in modules && p in ParsedIdlPaths(modules[k].sourceDir, modules[k].sources, env) :: p
  }

  /** The IDL files of all modules that parse. */
  function IdlSourcePaths(modules: map<string, XpidlModuleEntry>, env: Environment): set<string> {
    IdlSourcePathsOf(modules, modules.Keys, env)
  }

  /** The entry of a parsed IDL file: its normalised dependencies. */
  function IdlSourceOf(filename: string, env: Environment): IdlSourceEntry
    requires filename in env.idlDependencies
  {
    var deps := env.idlDependencies[filename];
    IdlSourceEntry(filename, seq(|deps|, i requires 0 <= i < |deps| => env.normpath(deps[i])))
  }

  /** The tree model as `load_tree` leaves it: the merged state, the JAR
      manifests and the IDL files. */
  datatype TreeSnapshot = TreeSnapshot(
    state: LoadState, jarManifests: map<string, JarManifest>, idlSources: map<string, IdlSourceEntry>)

  /** `jar_manifests`: every manifest found, parsed by the stub parser. */
  function JarManifestsOf(sourceDirectories: set<string>, env: Environment): map<string, JarManifest> {
    map p | p in JarManifestPaths(sourceDirectories, env) :: EmptyJarManifest
  }

  /** `idl_sources`: every IDL file of a module that parses, with its
      dependencies. */
  function IdlSourcesOf(modules: map<string, XpidlModuleEntry>, env: Environment): (r: map<string, IdlSourceEntry>)
    ensures r.Keys == IdlSourcePaths(modules, env)
  {
    map f | f in IdlSourcePaths(modules, env) :: IdlSourceOf(f, env)
  }

  /** The tree model after loading `paths` from `start`, the unused
      variables of the i-th path recorded under `keys[i]`, then looking up
      the JAR manifests and the IDL files. */
  ghost function TreeAfterLoad(start: LoadState, paths: seq<string>, keys: seq<Option<string>>,
                               env: Environment, retain: bool): TreeSnapshot
    requires |keys| == |paths|
  {
    var s := LoadStateAfterFiles(start, paths, keys, env, retain);
    TreeSnapshot(s, JarManifestsOf(s.parts.sourceDirectories, env), IdlSourcesOf(s.parts.xpidlModules, env))
  }
}
