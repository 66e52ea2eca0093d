/** What the hybrid make backend's output promises: the rules it writes for
    exports and IDL records, when `splendid.mk` exists, what the translated
    Makefile keeps, the shape of `hybridmake.mk`, and that one Makefile
    failing leaves the others' output alone. */
module HybridMakeProperties {
  import opened Wrappers
  import opened PyStr
  import opened PyPath
  import opened Sorting
  import opened BackendUtils
  import opened HybridMake

  // ---------------------------------------------------------------------
  // splendid.mk

  /** The variables taken over are exactly those of the exports and IDL
      records; any other record contributes nothing. */
  lemma {:induction false} StripSetIff(objects: seq<BackendObject>, x: string)
    ensures x in StripSet(objects)
            <==> exists j :: 0 <= j < |objects| && !objects[j].OtherObject? && x in objects[j].exclusiveVariables
  {
    if objects != [] {
      var n := |objects| - 1;
      var front := objects[..n];
      StripSetIff(front, x);
      if x in StripSet(front) {
        var j :| 0 <= j < |front| && !front[j].OtherObject? && x in front[j].exclusiveVariables;
        assert objects[j] == front[j];
      }
      if exists j :: 0 <= j < |objects| && !objects[j].OtherObject? && x in objects[j].exclusiveVariables {
        var j :| 0 <= j < |objects| && !objects[j].OtherObject? && x in objects[j].exclusiveVariables;
        if j < n {
          assert front[j] == objects[j];
        }
      }
    }
  }

  /** An index past the first part of a concatenation. */
  lemma IndexOfBack<T>(a: seq<T>, b: seq<T>, j: nat)
    requires |a| <= j < |a| + |b|
    ensures (a + b)[j] == b[j - |a|]
  {
  }

  /** An index in the first part of a concatenation. */
  lemma IndexOfFront<T>(a: seq<T>, b: seq<T>, j: nat)
    requires j < |a|
    ensures (a + b)[j] == a[j]
  {
  }

  lemma {:induction false} ExportRulesLength(objdir: string, filenames: seq<(string, string)>)
    ensures |ExportRules(objdir, filenames)| == 2 * |filenames|
    ensures |ExportTargets(objdir, filenames)| == |filenames|
  {
    if filenames != [] {
      ExportRulesLength(objdir, filenames[..|filenames| - 1]);
    }
  }

  /** The `i`-th exported file's rule is the `i`-th pair of lines. */
  lemma {:induction false} ExportRulesAt(objdir: string, filenames: seq<(string, string)>, i: nat, k: nat)
    requires i < |filenames| && k < 2
    ensures |ExportRules(objdir, filenames)| == 2 * |filenames|
    ensures ExportRules(objdir, filenames)[2 * i + k] == ExportRule(objdir, filenames[i])[k]
  {
    ExportRulesLength(objdir, filenames);
    var n := |filenames| - 1;
    var front := filenames[..n];
    ExportRulesLength(objdir, front);
    var head := ExportRules(objdir, front);
    var last := ExportRule(objdir, filenames[n]);
    assert |last| == 2;
    assert ExportRules(objdir, filenames) == head + last;
    if i < n {
      ExportRulesAt(objdir, front, i, k);
      assert front[i] == filenames[i];
      IndexOfFront(head, last, 2 * i + k);
    } else {
      assert i == n && |head| == 2 * n;
      IndexOfBack(head, last, 2 * i + k);
    }
  }

  /** The `i`-th exported file's target is the `i`-th entry of
      `EXPORT_TARGETS`. */
  lemma {:induction false} ExportTargetsAt(objdir: string, filenames: seq<(string, string)>, i: nat)
    requires i < |filenames|
    ensures |ExportTargets(objdir, filenames)| == |filenames|
    ensures ExportTargets(objdir, filenames)[i] == Join(IncludeDir(objdir), filenames[i].1)
  {
    ExportRulesLength(objdir, filenames);
    var n := |filenames| - 1;
    var front := filenames[..n];
    ExportRulesLength(objdir, front);
    var head := ExportTargets(objdir, front);
    var last := [Join(IncludeDir(objdir), filenames[n].1)];
    assert ExportTargets(objdir, filenames) == head + last;
    if i < n {
      ExportTargetsAt(objdir, front, i);
      assert front[i] == filenames[i];
      IndexOfFront(head, last, i);
    } else {
      assert i == n == |head|;
      IndexOfBack(head, last, i);
    }
  }

  /** An exports record writes one install rule per file: the target is
      the file's leaf below `dist/include`, the prerequisite the input
      file, and the install goes to the leaf's directory there; the same
      targets, in the same order, make up `EXPORT_TARGETS`. */
  lemma ExportRuleOf(objdir: string, filenames: seq<(string, string)>, i: nat)
    requires i < |filenames|
    ensures var rules := ExportRules(objdir, filenames);
            var target := Join(IncludeDir(objdir), filenames[i].1);
            |rules| == 2 * |filenames| && |ExportTargets(objdir, filenames)| == |filenames|
            && ExportTargets(objdir, filenames)[i] == target
            && rules[2 * i] == target + ": " + filenames[i].0
            && rules[2 * i + 1]
               == "\t$(INSTALL) -R -m 644 \"" + filenames[i].0 + "\" \"" + Join(IncludeDir(objdir), Dirname(filenames[i].1)) + "\"\n"
  {
    ExportRulesAt(objdir, filenames, i, 0);
    ExportRulesAt(objdir, filenames, i, 1);
    ExportTargetsAt(objdir, filenames, i);
    var rule := ExportRule(objdir, filenames[i]);
    assert rule[0] == Join(IncludeDir(objdir), filenames[i].1) + ": " + filenames[i].0;
  }

  lemma {:induction false} IdlLinesLength(objdir: string, genDir: string, sources: seq<string>)
    ensures |IdlLines(objdir, genDir, sources)| == 12 * |sources|
  {
    if sources != [] {
      IdlLinesLength(objdir, genDir, sources[..|sources| - 1]);
    }
  }

  /** An IDL record writes twelve lines per source, the rules of the
      `i`-th source at lines `12 * i` to `12 * i + 11`. */
  lemma {:induction false} IdlLinesAt(objdir: string, genDir: string, sources: seq<string>, i: nat, k: nat)
    requires i < |sources| && k < 12
    ensures |IdlLines(objdir, genDir, sources)| == 12 * |sources|
    ensures |IdlRules(objdir, genDir, sources[i])| == 12
    ensures IdlLines(objdir, genDir, sources)[12 * i + k] == IdlRules(objdir, genDir, sources[i])[k]
  {
    IdlLinesLength(objdir, genDir, sources);
    var n := |sources| - 1;
    var front := sources[..n];
    IdlLinesLength(objdir, genDir, front);
    var head := IdlLines(objdir, genDir, front);
    var last := IdlRules(objdir, genDir, sources[n]);
    assert IdlLines(objdir, genDir, sources) == head + last;
    if i < n {
      IdlLinesAt(objdir, genDir, front, i, k);
      assert front[i] == sources[i];
      assert IdlLines(objdir, genDir, sources)[12 * i + k] == head[12 * i + k];
    } else {
      assert i == n && |head| == 12 * i;
      IndexOfBack(head, last, 12 * i + k);
      assert 12 * i + k - |head| == k;
    }
  }

  /** The dependencies of the rules for the `i`-th source: the installed
      copy depends on the source, the header on every installed IDL file
      (`$(IDL_DIST_FILES)`), and the xpt file on the installed copy. */
  lemma IdlRuleDependencies(objdir: string, genDir: string, sources: seq<string>, i: nat)
    requires i < |sources|
    ensures var lines := IdlLines(objdir, genDir, sources);
            var source := sources[i];
            12 * i + 12 <= |lines|
            && lines[12 * i + 3] == InstalledIdl(objdir, source) + ": " + source
            && lines[12 * i + 6] == IdlHeader(objdir, source) + ": $(IDL_DIST_FILES)"
            && lines[12 * i + 10] == IdlXpt(genDir, source) + ": " + InstalledIdl(objdir, source)
  {
    IdlLinesAt(objdir, genDir, sources, i, 3);
    IdlLinesAt(objdir, genDir, sources, i, 6);
    IdlLinesAt(objdir, genDir, sources, i, 10);
    IdlRulesDependencies(objdir, genDir, sources[i]);
  }

  /** The dependency lines among the twelve rules of one source. */
  lemma IdlRulesDependencies(objdir: string, genDir: string, source: string)
    ensures var rules := IdlRules(objdir, genDir, source);
            |rules| == 12
            && rules[3] == InstalledIdl(objdir, source) + ": " + source
            && rules[6] == IdlHeader(objdir, source) + ": $(IDL_DIST_FILES)"
            && rules[10] == IdlXpt(genDir, source) + ": " + InstalledIdl(objdir, source)
  {
    var install := IdlInstallRule(objdir, source);
    var header := IdlHeaderRule(objdir, source);
    var xpt := IdlXptRule(objdir, genDir, source);
    assert |install| == 6 && |header| == 3 && |xpt| == 3;
    IndexOfFront(install + header, xpt, 3);
    IndexOfFront(install, header, 3);
    IndexOfFront(install + header, xpt, 6);
    IndexOfBack(install, header, 6);
    IndexOfBack(install + header, xpt, 10);
  }

  /** For a source `dir/S.idl`, the installed copy is `dist/idl/S.idl`,
      the header `dist/include/S.h` and the xpt file `S.xpt` in the
      generation directory. */
  lemma IdlPathsOfSource(objdir: string, genDir: string, dir: string, stem: string)
    requires stem != [] && '/' !in stem && '.' !in stem
    ensures var source := dir + "/" + stem + ".idl";
            InstalledIdl(objdir, source) == Join(IdlDir(objdir), stem + ".idl")
            && IdlHeader(objdir, source) == Join(IncludeDir(objdir), stem + ".h")
            && IdlXpt(genDir, source) == Join(genDir, stem + ".xpt")
  {
    var name := stem + ".idl";
    assert dir + "/" + stem + ".idl" == dir + "/" + name;
    BasenameAfterSlash(dir, name);
    assert RFind(name, '/') == -1;
    assert name[|stem|] == '.';
    assert forall k :: |stem| < k < |name| ==> name[k] != '.';
    assert RFind(name, '.') == |stem|;
    assert name[0] != '.';
    assert name[..|stem|] == stem;
    assert SplitextRoot(name) == stem;
  }

  /** What one record writes is empty exactly for a record other than
      exports and IDL, or an IDL record without sources. */
  lemma ObjectLinesEmptyIff(objdir: string, directory: string, o: BackendObject)
    ensures ObjectLines(objdir, directory, o) == []
            <==> !o.ExportsObject? && (o.IdlObject? ==> o.sources == {})
  {
    if o.IdlObject? {
      SortedOfListing(o.sources);
      IdlLinesLength(objdir, GenDirectory(directory), SortedOf(o.sources));
    }
  }

  /** `splendid.mk` has no content exactly when no record is an exports
      record and every IDL record has no sources. */
  lemma {:induction false} SplendidLinesEmptyIff(objdir: string, directory: string, objects: seq<BackendObject>)
    ensures SplendidLines(objdir, directory, objects) == []
            <==> forall j :: 0 <= j < |objects| ==>
                   !objects[j].ExportsObject? && (objects[j].IdlObject? ==> objects[j].sources == {})
  {
    if objects != [] {
      var n := |objects| - 1;
      var front, last := objects[..n], objects[n];
      SplendidLinesEmptyIff(objdir, directory, front);
      ObjectLinesEmptyIff(objdir, directory, last);
      var head, tail := SplendidLines(objdir, directory, front), ObjectLines(objdir, directory, last);
      assert SplendidLines(objdir, directory, objects) == head + tail;
      assert head + tail == [] <==> head == [] && tail == [];
      assert forall j :: 0 <= j < n ==> front[j] == objects[j];
    }
  }

  // ---------------------------------------------------------------------
  // One Makefile

  /** A Makefile that fails (no output path, or its records raise) writes
      nothing and records nothing; at most its records' directories are
      registered. */
  lemma FailedMakefileWritesNothing(s: BackendState, srcdir: string, objdir: string, m: FrontendMakefile)
    requires !Generates(srcdir, objdir, m)
    ensures var t := AfterMakefile(s, srcdir, objdir, m);
            t.splendidFiles == s.splendidFiles && t.written == s.written && t.outputs == s.outputs
            && s.outputDirectories <= t.outputDirectories
  {
  }

  /** A generated Makefile: its translation is written to its output path
      and depends on the original; it keeps exactly the statements that do
      not assign a taken-over variable; `splendid.mk` beside it is recorded
      exactly when some record writes a rule. */
  lemma GeneratedMakefileOutput(s: BackendState, srcdir: string, objdir: string, m: FrontendMakefile)
    requires Generates(srcdir, objdir, m)
    ensures var out := MakefileOutputPath(srcdir, objdir, m.filename, m.directory).value;
            var t := AfterMakefile(s, srcdir, objdir, m);
            && out in t.written && t.written[out].Translated?
            && (forall x :: x in t.written[out].statements
                  <==> x in m.statements && !(x.Assignment? && x.name in StripSet(m.objects)))
            && t.outputs[|t.outputs| - 1] == GeneratedOutput(out, [m.filename])
            && (SplendidPath(out) in t.splendidFiles
                <==> SplendidPath(out) in s.splendidFiles
                     || exists j :: 0 <= j < |m.objects| &&
                          (m.objects[j].ExportsObject? || (m.objects[j].IdlObject? && m.objects[j].sources != {})))
  {
    var out := MakefileOutputPath(srcdir, objdir, m.filename, m.directory).value;
    forall x {
      WithoutAssignmentsIff(m.statements, StripSet(m.objects), x);
    }
    SplendidLinesEmptyIff(objdir, Dirname(out), m.objects);
  }

  /** Generating at a known output path only adds; when the records are
      produced, the translation is recorded last, and `splendid.mk` is
      remembered when it has content. */
  lemma AfterMakefileAtKeeps(s: BackendState, objdir: string, m: FrontendMakefile, out: string)
    ensures var t := AfterMakefileAt(s, objdir, m, out);
            s.outputDirectories <= t.outputDirectories && s.splendidFiles <= t.splendidFiles
            && |s.outputs| <= |t.outputs| && t.outputs[..|s.outputs|] == s.outputs
    ensures !m.objectsFail ==>
            var t := AfterMakefileAt(s, objdir, m, out);
            t.outputs[|t.outputs| - 1] == GeneratedOutput(out, [m.filename])
            && (SplendidLines(objdir, Dirname(out), m.objects) != [] ==> SplendidPath(out) in t.splendidFiles)
  {
    var directory := Dirname(out);
    var s1 := WithDirectories(s, SplendidDirectories(objdir, directory, m.objects));
    if !m.objectsFail {
      var s2 := WithSplendid(s1, SplendidPath(out), SplendidLines(objdir, directory, m.objects), m.filename);
      assert s2.outputs[..|s.outputs|] == s.outputs;
      assert s2.outputs + [GeneratedOutput(out, [m.filename])] == AfterMakefileAt(s, objdir, m, out).outputs;
    }
  }

  /** What a generated Makefile records: its translation, and its
      `splendid.mk` when that has content. */
  lemma GeneratedMakefileRecorded(s: BackendState, srcdir: string, objdir: string, m: FrontendMakefile)
    requires Generates(srcdir, objdir, m)
    ensures var out := MakefileOutputPath(srcdir, objdir, m.filename, m.directory).value;
            var t := AfterMakefile(s, srcdir, objdir, m);
            GeneratedOutput(out, [m.filename]) in t.outputs
            && (SplendidLines(objdir, Dirname(out), m.objects) != [] ==> SplendidPath(out) in t.splendidFiles)
  {
    var out := MakefileOutputPath(srcdir, objdir, m.filename, m.directory).value;
    AfterMakefileAtKeeps(s, objdir, m, out);
  }

  /** Generating a Makefile only adds: directories, `splendid.mk` files
      and recorded outputs are kept. */
  lemma AfterMakefileKeeps(s: BackendState, srcdir: string, objdir: string, m: FrontendMakefile)
    ensures var t := AfterMakefile(s, srcdir, objdir, m);
            s.outputDirectories <= t.outputDirectories && s.splendidFiles <= t.splendidFiles
            && |s.outputs| <= |t.outputs| && t.outputs[..|s.outputs|] == s.outputs
  {
    var out := MakefileOutputPath(srcdir, objdir, m.filename, m.directory);
    if out.Success? {
      AfterMakefileAtKeeps(s, objdir, m, out.value);
    }
  }

  /** A recorded output stays recorded across the Makefiles that follow. */
  lemma {:induction false} OutputKept(s: BackendState, srcdir: string, objdir: string, ms: seq<FrontendMakefile>, g: GeneratedOutput)
    requires g in s.outputs
    ensures g in AfterMakefiles(s, srcdir, objdir, ms).outputs
  {
    if ms != [] {
      var n := |ms| - 1;
      var u := AfterMakefiles(s, srcdir, objdir, ms[..n]);
      OutputKept(s, srcdir, objdir, ms[..n], g);
      AfterMakefileKeeps(u, srcdir, objdir, ms[n]);
      var t := AfterMakefile(u, srcdir, objdir, ms[n]);
      var k :| 0 <= k < |u.outputs| && u.outputs[k] == g;
      assert t.outputs[k] == t.outputs[..|u.outputs|][k];
    }
  }

  /** A recorded `splendid.mk` stays recorded across the Makefiles that
      follow. */
  lemma {:induction false} SplendidKept(s: BackendState, srcdir: string, objdir: string, ms: seq<FrontendMakefile>, p: string)
    requires p in s.splendidFiles
    ensures p in AfterMakefiles(s, srcdir, objdir, ms).splendidFiles
  {
    if ms != [] {
      var n := |ms| - 1;
      SplendidKept(s, srcdir, objdir, ms[..n], p);
      AfterMakefileKeeps(AfterMakefiles(s, srcdir, objdir, ms[..n]), srcdir, objdir, ms[n]);
    }
  }

  /** Splitting the Makefiles after the `j`-th. */
  lemma {:induction false} AfterMakefilesSplit(s: BackendState, srcdir: string, objdir: string, ms: seq<FrontendMakefile>, j: nat)
    requires j <= |ms|
    ensures AfterMakefiles(s, srcdir, objdir, ms)
            == AfterMakefiles(AfterMakefiles(s, srcdir, objdir, ms[..j]), srcdir, objdir, ms[j..])
    decreases |ms|
  {
    if j < |ms| {
      var n := |ms| - 1;
      AfterMakefilesSplit(s, srcdir, objdir, ms[..n], j);
      assert ms[..n][..j] == ms[..j];
      assert ms[j..][..|ms[j..]| - 1] == ms[..n][j..];
      assert ms[j..][|ms[j..]| - 1] == ms[n];
    } else {
      assert ms[..j] == ms;
      assert ms[j..] == [];
    }
  }

  // ---------------------------------------------------------------------
  // Every Makefile

  /** A Makefile failing does not stop the others: every Makefile that
      generates has its translation recorded, and its `splendid.mk` when
      that has content, whatever the other Makefiles do. */
  lemma EveryGeneratedMakefileRecorded(s: BackendState, srcdir: string, objdir: string,
                                       ms: seq<FrontendMakefile>, j: nat)
    requires j < |ms| && Generates(srcdir, objdir, ms[j])
    ensures var out := MakefileOutputPath(srcdir, objdir, ms[j].filename, ms[j].directory).value;
            var t := AfterMakefiles(s, srcdir, objdir, ms);
            GeneratedOutput(out, [ms[j].filename]) in t.outputs
            && (SplendidLines(objdir, Dirname(out), ms[j].objects) != [] ==> SplendidPath(out) in t.splendidFiles)
  {
    var out := MakefileOutputPath(srcdir, objdir, ms[j].filename, ms[j].directory).value;
    var v := AfterMakefile(AfterMakefiles(s, srcdir, objdir, ms[..j]), srcdir, objdir, ms[j]);
    AfterMakefilesPrefixStep(s, srcdir, objdir, ms, j);
    GeneratedMakefileRecorded(AfterMakefiles(s, srcdir, objdir, ms[..j]), srcdir, objdir, ms[j]);
    AfterMakefilesSplit(s, srcdir, objdir, ms, j + 1);
    OutputKept(v, srcdir, objdir, ms[j + 1..], GeneratedOutput(out, [ms[j].filename]));
    if SplendidLines(objdir, Dirname(out), ms[j].objects) != [] {
      SplendidKept(v, srcdir, objdir, ms[j + 1..], SplendidPath(out));
    }
  }

  /** The state after the first `j + 1` Makefiles is the `j`-th Makefile
      applied to the state after the first `j`. */
  lemma AfterMakefilesPrefixStep(s: BackendState, srcdir: string, objdir: string, ms: seq<FrontendMakefile>, j: nat)
    requires j < |ms|
    ensures AfterMakefiles(s, srcdir, objdir, ms[..j + 1])
            == AfterMakefile(AfterMakefiles(s, srcdir, objdir, ms[..j]), srcdir, objdir, ms[j])
  {
    assert ms[..j + 1][..j] == ms[..j] && ms[..j + 1][j] == ms[j];
  }

  // ---------------------------------------------------------------------
  // hybridmake.mk

  lemma {:induction false} IncludeLinesAt(paths: seq<string>)
    ensures |IncludeLines(paths)| == |paths|
    ensures forall i :: 0 <= i < |paths| ==> IncludeLines(paths)[i] == "include " + paths[i]
  {
    if paths != [] {
      var n := |paths| - 1;
      IncludeLinesAt(paths[..n]);
      assert forall i :: 0 <= i < n ==> paths[..n][i] == paths[i];
    }
  }

  /** `hybridmake.mk` has the eleven prologue lines, one line per path and
      the non-recursive include; line `11 + i` includes the `i`-th path. */
  lemma HybridmakeIncludeAt(srcdir: string, objdir: string, paths: seq<string>, i: nat)
    requires i < |paths|
    ensures |HybridmakeLines(srcdir, objdir, paths)| == 12 + |paths|
    ensures HybridmakeLines(srcdir, objdir, paths)[11 + i] == "include " + paths[i]
  {
    var prologue := HybridmakePrologue(srcdir, objdir);
    var includes := IncludeLines(paths);
    IncludeLinesAt(paths);
    assert |prologue| == 11;
    IndexOfFront(prologue + includes, [NonrecursiveInclude], 11 + i);
    IndexOfBack(prologue, includes, 11 + i);
  }

  /** The prologue comes first and the non-recursive rules last. */
  lemma HybridmakeEnds(srcdir: string, objdir: string, paths: seq<string>)
    ensures var lines := HybridmakeLines(srcdir, objdir, paths);
            |lines| == 12 + |paths|
            && lines[..11] == HybridmakePrologue(srcdir, objdir)
            && lines[|lines| - 1] == NonrecursiveInclude
  {
    var prologue := HybridmakePrologue(srcdir, objdir);
    IncludeLinesAt(paths);
    assert |prologue| == 11;
    var lines := HybridmakeLines(srcdir, objdir, paths);
    assert lines == prologue + (IncludeLines(paths) + [NonrecursiveInclude]);
  }

  /** `hybridmake.mk` for the recorded `splendid.mk` files: the prologue,
      one include per file in sorted order, each file exactly once, and the
      non-recursive rules last. */
  lemma HybridmakeShape(srcdir: string, objdir: string, files: set<string>)
    ensures var paths := SortedOf(files);
            var lines := HybridmakeLines(srcdir, objdir, paths);
            |paths| == |files| && Sorted(paths) && (forall p :: p in paths <==> p in files)
            && |lines| == 12 + |files|
            && lines[..11] == HybridmakePrologue(srcdir, objdir)
            && (forall i :: 0 <= i < |paths| ==> lines[11 + i] == "include " + paths[i])
            && lines[|lines| - 1] == NonrecursiveInclude
  {
    var paths := SortedOf(files);
    SortedOfListing(files);
    HybridmakeEnds(srcdir, objdir, paths);
    forall i | 0 <= i < |paths|
      ensures HybridmakeLines(srcdir, objdir, paths)[11 + i] == "include " + paths[i]
    {
      HybridmakeIncludeAt(srcdir, objdir, paths, i);
    }
  }

  /** When no substitution raises, `hybridmake.mk` is written, depends on
      every frontend Makefile, and includes the `splendid.mk` of every
      Makefile that generated one. */
  lemma HybridmakeIncludesEverySplendid(s: BackendState, autoconf: map<string, string>, srcdir: string, objdir: string,
                                        ms: seq<FrontendMakefile>, j: nat)
    requires forall k :: 0 <= k < |ms| ==> Substitutes(autoconf, srcdir, ms[k])
    requires j < |ms| && Generates(srcdir, objdir, ms[j])
    ensures var out := MakefileOutputPath(srcdir, objdir, ms[j].filename, ms[j].directory).value;
            var t := AfterGenerate(s, autoconf, srcdir, objdir, ms);
            var hybrid := Join(objdir, "hybridmake.mk");
            && hybrid in t.written && t.written[hybrid].Text?
            && t.outputs[|t.outputs| - 1] == GeneratedOutput(hybrid, Filenames(ms))
            && (SplendidLines(objdir, Dirname(out), ms[j].objects) != []
                ==> "include " + SplendidPath(out) in t.written[hybrid].lines)
  {
    var out := MakefileOutputPath(srcdir, objdir, ms[j].filename, ms[j].directory).value;
    var n := SubstitutedCount(autoconf, srcdir, ms);
    assert n == |ms|;
    assert ms[..n] == ms;
    var u := AfterMakefiles(s, srcdir, objdir, ms);
    assert AfterGenerate(s, autoconf, srcdir, objdir, ms) == WithHybridmake(u, srcdir, objdir, Filenames(ms));
    EveryGeneratedMakefileRecorded(s, srcdir, objdir, ms, j);
    if SplendidLines(objdir, Dirname(out), ms[j].objects) != [] {
      var paths := SortedOf(u.splendidFiles);
      SortedOfListing(u.splendidFiles);
      var i :| 0 <= i < |paths| && paths[i] == SplendidPath(out);
      HybridmakeIncludeAt(srcdir, objdir, paths, i);
    }
  }

  // ---------------------------------------------------------------------
  // The build phase

  /** The tiers run in a fixed order; the only run on `hybridmake.mk` is
      its `export`, right after the base tier's export. */
  /** A Makefile one of whose `@NAME@` substitutions has no value stops the
      generator there: none of it, nor of what follows, is written. */
  lemma MissingSubstitutionStops(autoconf: map<string, string>, srcdir: string, ms: seq<FrontendMakefile>,
                                 j: nat, name: string)
    requires j < |ms| && name in ms[j].placeholders
    requires name !in autoconf && name != "top_srcdir" && name != "srcdir"
    ensures SubstitutedCount(autoconf, srcdir, ms) <= j
  {
    assert !Substitutes(autoconf, srcdir, ms[j]);
  }

  lemma TierOrderHybridExport()
    ensures |TierOrder| == 11
    ensures TierOrder[0].target == "export_tier_base"
    ensures TierOrder[1] == MakeInvocation(Some("hybridmake.mk"), "export")
    ensures forall i :: 0 <= i < |TierOrder| && i != 1 ==> TierOrder[i].filename == None
  {
  }
}
