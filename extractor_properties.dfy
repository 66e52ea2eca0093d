/** What the trait classification and the per-Makefile extraction of module
    `Extractor` guarantee: which names trigger which trait, how flags are
    stripped from defines and include paths, what the exports map holds, when
    the XPIDL extraction fails and what `get_data_objects` yields. */
module ExtractorProperties {
  import opened Wrappers
  import opened PyStr
  import opened MakefileSource
  import opened Data
  import opened Extractor

  // ---------------------------------------------------------------------
  // Trait classification

  /** Classification is name by name: the traits of a union of name sets are
      the union of their traits. */
  lemma {:induction false} TraitsOfUnion(a: set<string>, b: set<string>)
    ensures TraitsOf(a + b) == TraitsOf(a) + TraitsOf(b)
  {
    forall t | t in TraitsOf(a + b) ensures t in TraitsOf(a) + TraitsOf(b) {
      var n :| n in a + b && TraitOf(n) == Some(t);
      if n in a { assert t in TraitsOf(a); } else { assert t in TraitsOf(b); }
    }
    forall t | t in TraitsOf(a) + TraitsOf(b) ensures t in TraitsOf(a + b) {
      var n :| (n in a || n in b) && TraitOf(n) == Some(t);
      assert n in a + b;
    }
  }

  /** Names that trigger no trait do not change the traits, however many
      there are. */
  lemma {:induction false} TraitsOfIgnoresOtherNames(names: set<string>, extra: set<string>)
    requires forall n :: n in extra ==> TraitOf(n).None?
    ensures TraitsOf(names + extra) == TraitsOf(names)
  {
    TraitsOfUnion(names, extra);
    assert TraitsOf(extra) == {};
  }

  lemma {:induction false} ModuleTraitIff(names: set<string>)
    ensures ModuleTrait in TraitsOf(names) <==> "MODULE" in names
  {
    if "MODULE" in names {
      assert TraitOf("MODULE") == Some(ModuleTrait);
    }
  }

  lemma {:induction false} LibraryTraitIff(names: set<string>)
    ensures LibraryTrait in TraitsOf(names) <==> "LIBRARY_NAME" in names
  {
    if "LIBRARY_NAME" in names {
      assert TraitOf("LIBRARY_NAME") == Some(LibraryTrait);
    }
  }

  lemma {:induction false} DirsTraitIff(names: set<string>)
    ensures DirsTrait in TraitsOf(names) <==> "DIRS" in names || "PARALLEL_DIRS" in names
  {
    if "DIRS" in names {
      assert TraitOf("DIRS") == Some(DirsTrait);
    } else if "PARALLEL_DIRS" in names {
      assert TraitOf("PARALLEL_DIRS") == Some(DirsTrait);
    }
  }

  lemma {:induction false} XpidlTraitIff(names: set<string>)
    ensures XpidlTrait in TraitsOf(names)
        <==> "XPIDL_MODULE" in names || "XPIDLSRCS" in names || "SDK_XPIDLSRCS" in names
  {
    if "XPIDL_MODULE" in names {
      assert TraitOf("XPIDL_MODULE") == Some(XpidlTrait);
    } else if "XPIDLSRCS" in names {
      assert TraitOf("XPIDLSRCS") == Some(XpidlTrait);
    } else if "SDK_XPIDLSRCS" in names {
      assert TraitOf("SDK_XPIDLSRCS") == Some(XpidlTrait);
    }
  }

  lemma {:induction false} ExportsTraitIff(names: set<string>)
    ensures ExportsTrait in TraitsOf(names) <==> "EXPORTS" in names || "EXPORTS_NAMESPACES" in names
  {
    if "EXPORTS" in names {
      assert TraitOf("EXPORTS") == Some(ExportsTrait);
    } else if "EXPORTS_NAMESPACES" in names {
      assert TraitOf("EXPORTS_NAMESPACES") == Some(ExportsTrait);
    }
  }

  lemma {:induction false} TestTraitIff(names: set<string>)
    ensures TestTrait in TraitsOf(names)
        <==> ("_TEST_FILES" in names || "XPCSHELL_TESTS" in names
              || "_BROWSER_TEST_FILES" in names || "_CHROME_TEST_FILES" in names)
  {
    if "_TEST_FILES" in names {
      assert TraitOf("_TEST_FILES") == Some(TestTrait);
    } else if "XPCSHELL_TESTS" in names {
      assert TraitOf("XPCSHELL_TESTS") == Some(TestTrait);
    } else if "_BROWSER_TEST_FILES" in names {
      assert TraitOf("_BROWSER_TEST_FILES") == Some(TestTrait);
    } else if "_CHROME_TEST_FILES" in names {
      assert TraitOf("_CHROME_TEST_FILES") == Some(TestTrait);
    }
  }

  /** Every character of a substring occurs in the string. */
  lemma {:induction false} SubstringChars(n: string, t: string, i: nat)
    requires IsSubstring(n, t) && i < |n|
    ensures n[i] in t
    decreases |t|
  {
    if HasPrefix(t, n) {
      assert t[i] == n[i];
    } else {
      SubstringChars(n, t[1..], i);
    }
  }

  /** A substring is no longer than the string. */
  lemma {:induction false} SubstringLength(n: string, t: string)
    requires IsSubstring(n, t)
    ensures |n| <= |t|
    decreases |t|
  {
    if !HasPrefix(t, n) {
      SubstringLength(n, t[1..]);
    }
  }

  /** The letters of "PROGRAM". */
  const ProgramLetters: set<char> := {'P', 'R', 'O', 'G', 'A', 'M'}

  lemma ProgramCharsOf(n: string)
    requires IsSubstring(n, "PROGRAM")
    ensures forall i :: 0 <= i < |n| ==> n[i] in ProgramLetters
  {
    forall i | 0 <= i < |n| ensures n[i] in ProgramLetters {
      SubstringChars(n, "PROGRAM", i);
    }
  }

  /** A name inside "PROGRAM" is none of the names tested before it: each
      of those holds a letter that "PROGRAM" lacks. */
  lemma {:induction false} SubstringOfProgramTriggers(n: string)
    requires IsSubstring(n, "PROGRAM")
    ensures TraitOf(n) == Some(ProgramTrait)
  {
    ProgramCharsOf(n);
    if |n| == 4 {
      assert n != "DIRS" by { assert "DIRS"[0] !in ProgramLetters; }
    } else if |n| == 6 {
      assert n != "MODULE" by { assert "MODULE"[2] !in ProgramLetters; }
    } else if |n| == 7 {
      assert n != "EXPORTS" by { assert "EXPORTS"[0] !in ProgramLetters; }
    } else {
      SubstringLength(n, "PROGRAM");
    }
  }

  /** The PROGRAM trait is triggered by every name that occurs inside the
      string "PROGRAM" (the empty name, "RO", "GRAM", ...). */
  lemma {:induction false} ProgramTraitIff(names: set<string>)
    ensures ProgramTrait in TraitsOf(names) <==> exists n :: n in names && IsSubstring(n, "PROGRAM")
  {
    if n :| n in names && IsSubstring(n, "PROGRAM") {
      SubstringOfProgramTriggers(n);
      assert ProgramTrait in TraitsOf(names);
    }
  }

  /** Concrete names the substring test accepts. */
  lemma ProgramTraitQuirk()
    ensures TraitOf("PROGRAM") == Some(ProgramTrait)
    ensures TraitOf("GRAM") == Some(ProgramTrait)
    ensures TraitOf("") == Some(ProgramTrait)
  {
    assert IsSubstring("PROGRAM", "PROGRAM") by { assert HasPrefix("PROGRAM", "PROGRAM"); }
    SubstringOfProgramTriggers("PROGRAM");
    assert IsSubstring("GRAM", "PROGRAM") by {
      assert "PROGRAM"[1..][1..][1..] == "GRAM";
    }
    SubstringOfProgramTriggers("GRAM");
    assert IsSubstring("", "PROGRAM") by { assert HasPrefix("PROGRAM", ""); }
    SubstringOfProgramTriggers("");
  }

  /** A longer name containing "PROGRAM" triggers nothing. */
  lemma ProgramsTriggersNothing()
    ensures TraitOf("PROGRAMS") == None
  {
    assert !IsSubstring("PROGRAMS", "PROGRAM") by {
      if IsSubstring("PROGRAMS", "PROGRAM") { SubstringLength("PROGRAMS", "PROGRAM"); }
    }
  }

  // ---------------------------------------------------------------------
  // Flag stripping (defines and include paths)

  /** `d` is among the stripped words exactly when the flag followed by `d`
      was given, or `d` itself was given without the flag. */
  lemma {:induction false} StripPrefixedIff(words: seq<string>, flag: string, d: string)
    ensures d in StripPrefixed(words, flag) <==> (flag + d) in words || (d in words && !HasPrefix(d, flag))
  {
    assert (flag + d)[..|flag|] == flag && (flag + d)[|flag|..] == d;
    assert StripFlag(flag + d, flag) == d;
    if d in StripPrefixed(words, flag) {
      var w :| w in words && StripFlag(w, flag) == d;
      if HasPrefix(w, flag) {
        assert w == w[..|flag|] + w[|flag|..];
      }
    }
  }

  // ---------------------------------------------------------------------
  // The library object

  /** Each boolean flag is unset (not false) when its variable is absent,
      and the static, shared and static-libs flags are never false. */
  lemma {:induction false} LibraryFlagsTriState(m: MakefileData)
    ensures var l := LibraryOf(m);
            && (l.isStatic == Some(true) <==> HasOwnVariable(m, "LIBXUL_LIBRARY") || HasOwnVariable(m, "FORCE_STATIC_LIB"))
            && l.isStatic != Some(false)
            && (l.isShared == Some(true) <==> HasOwnVariable(m, "FORCE_SHARED_LIB"))
            && l.isShared != Some(false)
            && (l.useStaticLibs == Some(true) <==> HasOwnVariable(m, "USE_STATIC_LIBS"))
            && l.useStaticLibs != Some(false)
            && (l.isComponent.Some? <==> HasOwnVariable(m, "IS_COMPONENT"))
            && (l.isComponent == Some(true) <==> HasOwnVariable(m, "IS_COMPONENT") && GetVariableString(m, "IS_COMPONENT") == "1")
            && (l.exportLibrary.Some? <==> HasOwnVariable(m, "EXPORT_LIBRARY"))
            && (l.exportLibrary == Some(true) <==> HasOwnVariable(m, "EXPORT_LIBRARY") && GetVariableString(m, "EXPORT_LIBRARY") == "1")
            && l.pic == None
  {
  }

  /** The library name is the variable's value verbatim, and every variable
      the extraction reads is recorded whether the file defines it or not. */
  lemma {:induction false} LibraryNameAndConsulted(m: MakefileData)
    ensures LibraryOf(m).name == Some(GetVariableString(m, "LIBRARY_NAME"))
    ensures forall v :: v in LibraryVariableList ==> v in LibraryOf(m).base.usedVariables
  {
  }

  // ---------------------------------------------------------------------
  // The exports map

  /** The namespace key of `add_export`. */
  function NamespaceKey(namespace: Option<string>): string {
    if namespace.Some? then namespace.value else ""
  }

  /** Every namespace of a map holds at least one name. */
  ghost predicate NoEmptyNamespace(exports: map<string, set<string>>) {
    forall k :: k in exports ==> exports[k] != {}
  }

  /** The namespaces after adding a list of names under one of them. */
  lemma {:induction false} AddEachKeys(exports: map<string, set<string>>, names: seq<string>, namespace: Option<string>)
    ensures forall k :: k in AddEach(exports, names, namespace)
                    <==> k in exports || (names != [] && k == NamespaceKey(namespace))
    ensures NoEmptyNamespace(exports) ==> NoEmptyNamespace(AddEach(exports, names, namespace))
    decreases |names|
  {
    if names != [] {
      AddEachKeys(exports, names[..|names| - 1], namespace);
    }
  }

  /** The names under namespace `k` after adding a list of names. */
  lemma {:induction false} AddEachNames(exports: map<string, set<string>>, names: seq<string>, namespace: Option<string>,
                                        k: string, f: string)
    ensures var r := AddEach(exports, names, namespace);
            (k in r && f in r[k]) <==> (k in exports && f in exports[k]) || (k == NamespaceKey(namespace) && f in names)
    decreases |names|
  {
    if names != [] {
      var init := names[..|names| - 1];
      AddEachNames(exports, init, namespace, k, f);
      assert f in names <==> f in init || f == names[|names| - 1] by {
        assert names == init + [names[|names| - 1]];
      }
    }
  }

  /** The namespaces after the namespaced part of the exports loop. */
  lemma {:induction false} AddNamespacesKeys(exports: map<string, set<string>>, m: MakefileData, namespaces: seq<string>)
    ensures forall k :: k in AddNamespaces(exports, m, namespaces)
                    <==> k in exports || (k in namespaces && GetVariableSplit(m, NamespaceVariable(k)) != [])
    ensures NoEmptyNamespace(exports) ==> NoEmptyNamespace(AddNamespaces(exports, m, namespaces))
    decreases |namespaces|
  {
    if namespaces != [] {
      var init := namespaces[..|namespaces| - 1];
      var ns := namespaces[|namespaces| - 1];
      AddNamespacesKeys(exports, m, init);
      AddEachKeys(AddNamespaces(exports, m, init), GetVariableSplit(m, NamespaceVariable(ns)), Some(ns));
      assert forall k :: k in namespaces <==> k in init || k == ns by {
        assert namespaces == init + [ns];
      }
    }
  }

  /** The names under namespace `k` after the namespaced part: each
      namespace gets the words of its own variable. */
  lemma {:induction false} AddNamespacesNames(exports: map<string, set<string>>, m: MakefileData, namespaces: seq<string>,
                                              k: string, f: string)
    ensures var r := AddNamespaces(exports, m, namespaces);
            (k in r && f in r[k])
              <==> ((k in exports && f in exports[k])
                    || (k in namespaces && f in GetVariableSplit(m, NamespaceVariable(k))))
    decreases |namespaces|
  {
    if namespaces != [] {
      var init := namespaces[..|namespaces| - 1];
      var ns := namespaces[|namespaces| - 1];
      AddNamespacesNames(exports, m, init, k, f);
      AddEachNames(AddNamespaces(exports, m, init), GetVariableSplit(m, NamespaceVariable(ns)), Some(ns), k, f);
      assert k in namespaces <==> k in init || k == ns by {
        assert namespaces == init + [ns];
      }
    }
  }

  /** A file name is exported under namespace `k` exactly when it is listed
      in `EXPORTS` and `k` is the default namespace, or `k` is listed in
      `EXPORTS_NAMESPACES` and the file in `EXPORTS_<k>`. */
  ghost predicate ExportedUnder(m: MakefileData, k: string, f: string) {
    (k == "" && f in GetVariableSplit(m, "EXPORTS"))
    || (k in GetVariableSplit(m, "EXPORTS_NAMESPACES") && f in GetVariableSplit(m, NamespaceVariable(k)))
  }

  /** The exports map lists exactly the exported names, and has no empty
      namespace. */
  lemma {:induction false} ExportsMapClosedForm(m: MakefileData, k: string, f: string)
    ensures var r := ExportsMapOf(m);
            && (k in r && f in r[k] <==> ExportedUnder(m, k, f))
            && NoEmptyNamespace(r)
  {
    var base := AddEach(map[], GetVariableSplit(m, "EXPORTS"), None);
    AddEachKeys(map[], GetVariableSplit(m, "EXPORTS"), None);
    AddEachNames(map[], GetVariableSplit(m, "EXPORTS"), None, k, f);
    AddNamespacesKeys(base, m, GetVariableSplit(m, "EXPORTS_NAMESPACES"));
    AddNamespacesNames(base, m, GetVariableSplit(m, "EXPORTS_NAMESPACES"), k, f);
  }

  /** A namespace whose variable is empty is still recorded as consulted,
      but gets no entry in the exports map. */
  lemma {:induction false} EmptyNamespaceConsulted(m: MakefileData, ns: string)
    requires ns in GetVariableSplit(m, "EXPORTS_NAMESPACES")
    requires GetVariableSplit(m, NamespaceVariable(ns)) == []
    ensures NamespaceVariable(ns) in ExportsOf(m).base.usedVariables
    ensures ns !in ExportsOf(m).exports
  {
    var nss := GetVariableSplit(m, "EXPORTS_NAMESPACES");
    var i :| 0 <= i < |nss| && nss[i] == ns;
    assert IsWord(nss[i]);
    var base := AddEach(map[], GetVariableSplit(m, "EXPORTS"), None);
    AddEachKeys(map[], GetVariableSplit(m, "EXPORTS"), None);
    AddNamespacesKeys(base, m, nss);
  }

  // ---------------------------------------------------------------------
  // The XPIDL object

  /** The extraction fails exactly when neither module variable is defined;
      otherwise `XPIDL_MODULE` takes precedence over `MODULE`. The sources
      merge both source lists, yet `SDK_XPIDLSRCS` is not recorded as
      consulted. */
  lemma {:induction false} XpidlOutcome(m: MakefileData)
    ensures XpidlOf(m).Failure? <==> !HasOwnVariable(m, "XPIDL_MODULE") && !HasOwnVariable(m, "MODULE")
    ensures HasOwnVariable(m, "XPIDL_MODULE") ==> XpidlOf(m) == Success(XpidlOf(m).value) && XpidlOf(m).value.moduleName == Some(GetVariableString(m, "XPIDL_MODULE"))
    ensures !HasOwnVariable(m, "XPIDL_MODULE") && HasOwnVariable(m, "MODULE") ==> XpidlOf(m).Success? && XpidlOf(m).value.moduleName == Some(GetVariableString(m, "MODULE"))
    ensures XpidlOf(m).Success? ==>
              && "SDK_XPIDLSRCS" !in XpidlOf(m).value.base.usedVariables
              && (forall f :: f in XpidlOf(m).value.sources
                    <==> f in WordsIfDefined(m, "XPIDLSRCS") || f in WordsIfDefined(m, "SDK_XPIDLSRCS"))
  {
  }

  // ---------------------------------------------------------------------
  // get_data_objects

  /** The own variable names of a file, conditional ones included. */
  function AllNames(m: MakefileData): set<string> {
    OwnVariableNames(m, true)
  }

  /** Extraction fails exactly when the file names XPIDL sources but neither
      module variable. */
  lemma {:induction false} DataObjectsFailIff(m: MakefileData)
    ensures DataObjectsOf(m).failed
        <==> ((HasOwnVariable(m, "XPIDLSRCS") || HasOwnVariable(m, "SDK_XPIDLSRCS"))
              && !HasOwnVariable(m, "XPIDL_MODULE") && !HasOwnVariable(m, "MODULE"))
  {
    XpidlTraitIff(AllNames(m));
  }

  /** The trait objects hold a library object only when the file has the
      library trait, and then first. */
  lemma {:induction false} LibraryObjectFirst(traits: set<Trait>, library: LibraryRecord, exports: ExportsRecord,
                                              idl: Result<XpidlRecord>, test: TestRecord)
    ensures var s := AssembleTraitObjects(traits, library, exports, idl, test).objects;
            && (LibraryTrait in traits <==> |s| > 0 && s[0].Library?)
            && (|s| > 0 && s[0].Library? ==> s[0].library == library)
            && (forall i :: 0 < i < |s| ==> !s[i].Library?)
  {
  }

  /** The closing objects keep a leading library object where it was and
      add none. */
  lemma {:induction false} ClosingObjectsShape(e: Extraction, tracker: BaseRecord, misc: MiscRecord)
    ensures var r := AppendClosingObjects(e, tracker, misc);
            && r.failed == e.failed
            && (|r.objects| > 0 && r.objects[0].Library? <==> |e.objects| > 0 && e.objects[0].Library?)
            && (|e.objects| > 0 ==> r.objects[0] == e.objects[0])
            && ((forall i :: 0 < i < |e.objects| ==> !e.objects[i].Library?)
                ==> (forall i :: 0 < i < |r.objects| ==> !r.objects[i].Library?))
            && (!e.failed ==>
                  && |r.objects| == |e.objects| + 2
                  && r.objects[|r.objects| - 2] == UsedVariables(tracker)
                  && r.objects[|r.objects| - 1] == Misc(misc))
  {
  }

  /** A library object is yielded, first, exactly when the file names a
      library, and at no other position; a successful extraction ends with
      the tracker and the misc object. */
  lemma {:induction false} DataObjectsShape(m: MakefileData)
    ensures var e := DataObjectsOf(m);
            && (HasOwnVariable(m, "LIBRARY_NAME") <==> |e.objects| > 0 && e.objects[0].Library?)
            && (|e.objects| > 0 && e.objects[0].Library? ==> e.objects[0].library == LibraryOf(m))
            && (forall i :: 0 < i < |e.objects| ==> !e.objects[i].Library?)
            && (!e.failed ==>
                  && |e.objects| >= 2
                  && e.objects[|e.objects| - 2] == UsedVariables(TrackerOf(m, TraitsOf(AllNames(m))))
                  && e.objects[|e.objects| - 1] == Misc(MiscOf(m)))
  {
    var traits := TraitsOf(AllNames(m));
    LibraryTraitIff(AllNames(m));
    LibraryObjectFirst(traits, LibraryOf(m), ExportsOf(m), XpidlOf(m), TestOf(m));
    ClosingObjectsShape(TraitObjectsOf(m, traits), TrackerOf(m, traits), MiscOf(m));
  }

  /** The tracker records `MODULE` exactly when the file defines it. */
  lemma {:induction false} TrackerRecordsModule(m: MakefileData)
    ensures "MODULE" in TrackerOf(m, TraitsOf(AllNames(m))).usedVariables <==> HasOwnVariable(m, "MODULE")
  {
    ModuleTraitIff(AllNames(m));
    assert "MODULE" !in Elems(CommonVariables);
  }

  /** A file of the end-to-end scenario: it defines exactly
      `LIBRARY_NAME = widget`, `CPPSRCS = a.cpp b.cpp` and
      `EXPORTS = widget.h`. */
  ghost predicate WidgetMakefile(m: MakefileData) {
    && m.variables.Keys == {"LIBRARY_NAME", "CPPSRCS", "EXPORTS"}
    && m.variables["LIBRARY_NAME"].value == "widget"
    && m.variables["CPPSRCS"].value == "a.cpp b.cpp"
    && m.variables["EXPORTS"].value == "widget.h"
  }

  lemma {:induction false} WidgetNotModule(m: MakefileData)
    requires WidgetMakefile(m)
    ensures ModuleTrait !in TraitsOf(AllNames(m)) && DirsTrait !in TraitsOf(AllNames(m))
  {
    ModuleTraitIff(AllNames(m));
    DirsTraitIff(AllNames(m));
  }

  lemma {:induction false} WidgetNotXpidlOrTest(m: MakefileData)
    requires WidgetMakefile(m)
    ensures XpidlTrait !in TraitsOf(AllNames(m)) && TestTrait !in TraitsOf(AllNames(m))
  {
    XpidlTraitIff(AllNames(m));
    TestTraitIff(AllNames(m));
  }

  lemma {:induction false} WidgetNotProgram(m: MakefileData)
    requires WidgetMakefile(m)
    ensures ProgramTrait !in TraitsOf(AllNames(m))
  {
    ProgramTraitIff(AllNames(m));
    forall n | n in AllNames(m) ensures !IsSubstring(n, "PROGRAM") {
      if IsSubstring(n, "PROGRAM") { SubstringChars(n, "PROGRAM", 0); }
    }
  }

  lemma {:induction false} WidgetTraits(m: MakefileData)
    requires WidgetMakefile(m)
    ensures TraitsOf(AllNames(m)) == {LibraryTrait, ExportsTrait}
  {
    LibraryTraitIff(AllNames(m));
    ExportsTraitIff(AllNames(m));
    WidgetNotModule(m);
    WidgetNotXpidlOrTest(m);
    WidgetNotProgram(m);
    forall t | t in TraitsOf(AllNames(m)) ensures t == LibraryTrait || t == ExportsTrait {
      match t
      case ModuleTrait =>
      case LibraryTrait =>
      case DirsTrait =>
      case XpidlTrait =>
      case ExportsTrait =>
      case TestTrait =>
      case ProgramTrait =>
    }
  }

  lemma SplitTwoSources()
    ensures Split("a.cpp b.cpp") == ["a.cpp", "b.cpp"]
  {
    SplitTwoWords("a.cpp", "b.cpp");
    assert "a.cpp" + " " + "b.cpp" == "a.cpp b.cpp";
  }

  /** With just the library and exports traits, the trait objects are the
      library and the exports object. */
  lemma {:induction false} LibraryAndExportsAssembled(library: LibraryRecord, exports: ExportsRecord,
                                                      idl: Result<XpidlRecord>, test: TestRecord)
    ensures AssembleTraitObjects({LibraryTrait, ExportsTrait}, library, exports, idl, test)
         == Extraction([Library(library), Exports(exports)], false)
  {
    var traits := {LibraryTrait, ExportsTrait};
    assert AppendIf([], LibraryTrait in traits, Library(library)) == [Library(library)];
  }

  /** A file with just the library and exports traits yields the library,
      the exports, the tracker and the misc object. */
  lemma {:induction false} LibraryAndExportsObjects(m: MakefileData)
    requires TraitsOf(AllNames(m)) == {LibraryTrait, ExportsTrait}
    ensures DataObjectsOf(m) == Extraction(
              [Library(LibraryOf(m)), Exports(ExportsOf(m)),
               UsedVariables(TrackerOf(m, {LibraryTrait, ExportsTrait})), Misc(MiscOf(m))], false)
  {
    LibraryAndExportsAssembled(LibraryOf(m), ExportsOf(m), XpidlOf(m), TestOf(m));
  }

  lemma {:induction false} WidgetSources(m: MakefileData)
    requires WidgetMakefile(m)
    ensures GetVariableSplit(m, "CPPSRCS") == ["a.cpp", "b.cpp"]
  {
    SplitTwoSources();
  }

  /** The sources of a library listing two files. */
  lemma {:induction false} TwoSourcesLibrary(m: MakefileData)
    requires GetVariableSplit(m, "CPPSRCS") == ["a.cpp", "b.cpp"]
    ensures LibraryOf(m).cppSources == {"a.cpp", "b.cpp"}
  {
    assert Elems(["a.cpp", "b.cpp"]) == {"a.cpp", "b.cpp"};
  }

  /** A file exporting one name, without namespaces, exports it under the
      default namespace only. */
  lemma {:induction false} SingleDefaultExport(m: MakefileData, w: string)
    requires GetVariableSplit(m, "EXPORTS") == [w]
    requires GetVariableSplit(m, "EXPORTS_NAMESPACES") == []
    ensures ExportsMapOf(m) == map["" := {w}]
  {
    assert [w][..0] == [];
    assert AddEach(map[], [w], None) == WithExport(map[], w, None);
    assert WithExport(map[], w, None) == map["" := {w}];
  }

  lemma {:induction false} WidgetExportsWord(m: MakefileData)
    requires WidgetMakefile(m)
    ensures GetVariableSplit(m, "EXPORTS") == ["widget.h"]
  {
    SplitWord("widget.h");
  }

  lemma {:induction false} WidgetNoNamespaces(m: MakefileData)
    requires WidgetMakefile(m)
    ensures GetVariableSplit(m, "EXPORTS_NAMESPACES") == []
  {
  }

  /** The scenario yields a library named `widget` with two sources, then
      the exports object holding `widget.h` under the default namespace,
      then the tracker and the misc object. */
  lemma {:induction false} WidgetScenario(m: MakefileData)
    requires WidgetMakefile(m)
    ensures DataObjectsOf(m) == Extraction(
              [Library(LibraryOf(m)), Exports(ExportsOf(m)),
               UsedVariables(TrackerOf(m, {LibraryTrait, ExportsTrait})), Misc(MiscOf(m))], false)
    ensures LibraryOf(m).name == Some("widget")
    ensures LibraryOf(m).cppSources == {"a.cpp", "b.cpp"}
    ensures ExportsOf(m).exports == map["" := {"widget.h"}]
  {
    WidgetTraits(m);
    LibraryAndExportsObjects(m);
    WidgetSources(m);
    TwoSourcesLibrary(m);
    WidgetExportsWord(m);
    WidgetNoNamespaces(m);
    SingleDefaultExport(m, "widget.h");
  }

  // ---------------------------------------------------------------------
  // The transformed relative directory

  /** Transforming a directory that is already transformed changes nothing. */
  lemma {:induction false} TransformedReldirIdempotent(reldir: string)
    ensures TransformedReldir(TransformedReldir(reldir)) == TransformedReldir(reldir)
  {
    var r := TransformedReldir(reldir);
    forall i | 0 <= i < |r| ensures TransformedReldir(r)[i] == r[i] {
      assert r[i] != '/' && r[i] != '\\';
    }
  }

  /** Two relative directories get the same transformed name exactly when
      they agree on every character that is not a separator, and have
      separators, of either kind, or `_` at the same places. */
  lemma {:induction false} TransformedReldirSame(a: string, b: string)
    requires |a| == |b|
    ensures TransformedReldir(a) == TransformedReldir(b) <==>
            forall i :: 0 <= i < |a| ==> (if a[i] in "/\\" then '_' else a[i]) == (if b[i] in "/\\" then '_' else b[i])
  {
    var ra, rb := TransformedReldir(a), TransformedReldir(b);
    forall i | 0 <= i < |a| ensures ra[i] == (if a[i] in "/\\" then '_' else a[i]) && rb[i] == (if b[i] in "/\\" then '_' else b[i]) {
    }
    if forall i :: 0 <= i < |a| ==> (if a[i] in "/\\" then '_' else a[i]) == (if b[i] in "/\\" then '_' else b[i]) {
      assert forall i :: 0 <= i < |a| ==> ra[i] == rb[i];
    }
  }

  /** `a/b`, `a\\b` and `a_b` share the transformed name `a_b`. */
  lemma TransformedReldirExample()
    ensures TransformedReldir("a/b") == TransformedReldir("a\\b") == TransformedReldir("a_b") == "a_b"
  {
    assert "a/b"[1] == '/' && "a\\b"[1] == '\\';
  }
}
