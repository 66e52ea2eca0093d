/** The set of Makefiles a build frontend hands to its backends
    (`MakefileCollection`) and the classification of the build files found
    while walking a source tree (`BuildSystemExtractor.get_build_files_in_tree`),
    from build/buildparser/extractor.py. */
module Collection {
  import opened Wrappers
  import opened PyStr
  import opened PyPath
  import opened Sorting
  import opened MakefileSource

  // ---------------------------------------------------------------------
  // MakefileCollection

  /** A parsed `makefile.Makefile` instance. The parser is not modelled: the
      collection is given what it makes of each path. */
  class ParsedMakefile {
    const filename: string
    const data: MakefileData

    constructor (filename: string, data: MakefileData)
      ensures this.filename == filename && this.data == data
    {
      this.filename := filename;
      this.data := data;
    }
  }

  class MakefileCollection {
    const sourceDirectory: string
    const objectDirectory: string
    /** Paths of all the Makefiles added so far. */
    var allPaths: set<string>
    /** The instances parsed so far, by path. */
    var cache: map<string, ParsedMakefile>

    /** The cache only holds instances of the paths they were parsed from. */
    ghost predicate Valid()
      reads this
    {
      forall p :: p in cache ==> cache[p].filename == p
    }

    /** Both directories must be absolute. */
    constructor (sourceDirectory: string, objectDirectory: string)
      requires IsAbs(sourceDirectory) && IsAbs(objectDirectory)
      ensures Valid()
      ensures this.sourceDirectory == sourceDirectory && this.objectDirectory == objectDirectory
      ensures allPaths == {} && cache == map[]
    {
      this.sourceDirectory := sourceDirectory;
      this.objectDirectory := objectDirectory;
      allPaths := {};
      cache := map[];
    }

    method Add(path: string)
      modifies this`allPaths
      ensures allPaths == old(allPaths) + {path}
    {
      allPaths := allPaths + {path};
    }

    /** `makefiles()`: one instance per path, in sorted path order. A path is
        parsed the first time it is asked for; later calls hand out the very
        same instance. */
    method Makefiles(parse: string -> MakefileData) returns (r: seq<ParsedMakefile>)
      requires Valid()
      modifies this`cache
      ensures Valid()
      ensures cache.Keys == old(cache.Keys) + allPaths
      ensures forall p :: p in old(cache) ==> cache[p] == old(cache[p])
      ensures forall p :: p in cache && p !in old(cache) ==> fresh(cache[p]) && cache[p].data == parse(p)
      ensures |r| == |SortedOf(allPaths)| == |allPaths|
      ensures forall i :: 0 <= i < |r| ==> r[i].filename == SortedOf(allPaths)[i]
      ensures forall i :: 0 <= i < |r| ==> r[i].filename in cache && r[i] == cache[r[i].filename]
    {
      var paths := SortStrings(allPaths);
      SortedOfListing(allPaths);
      r := LookupAll(paths, parse);
    }

    /** The cached instance of each path of `paths`, in order. */
    method LookupAll(paths: seq<string>, parse: string -> MakefileData) returns (r: seq<ParsedMakefile>)
      requires Valid()
      modifies this`cache
      ensures Valid()
      ensures forall p :: p in cache <==> p in old(cache) || p in paths
      ensures forall p :: p in old(cache) ==> cache[p] == old(cache[p])
      ensures forall p :: p in cache && p !in old(cache) ==> fresh(cache[p]) && cache[p].data == parse(p)
      ensures |r| == |paths|
      ensures forall i :: 0 <= i < |r| ==> r[i] == cache[paths[i]] && r[i].filename == paths[i]
    {
      r := [];
      var i := 0;
      while i < |paths|
        invariant 0 <= i <= |paths|
        invariant Valid()
        invariant |r| == i
        invariant forall k :: 0 <= k < i ==> paths[k] in cache && r[k] == cache[paths[k]]
        invariant forall p :: p in cache ==> p in old(cache) || p in paths[..i]
        invariant forall p :: p in old(cache) ==> p in cache && cache[p] == old(cache[p])
        invariant forall p :: p in cache && p !in old(cache) ==> fresh(cache[p]) && cache[p].data == parse(p)
      {
        var m := Lookup(paths[i], parse);
        r := r + [m];
        i := i + 1;
      }
      assert paths[..|paths|] == paths;
    }

    /** The cached instance of `path`, parsing and caching it if need be. */
    method Lookup(path: string, parse: string -> MakefileData) returns (m: ParsedMakefile)
      requires Valid()
      modifies this`cache
      ensures Valid() && m.filename == path
      ensures path in old(cache) ==> m == old(cache[path]) && cache == old(cache)
      ensures path !in old(cache) ==> fresh(m) && m.data == parse(path) && cache == old(cache)[path := m]
    {
      if path in cache {
        m := cache[path];
      } else {
        m := new ParsedMakefile(path, parse(path));
        cache := cache[path := m];
      }
    }
  }

  // ---------------------------------------------------------------------
  // get_build_files_in_tree

  datatype BuildFileKind = BuildFileInput | BuildFileMakefile | BuildFileMk

  /** One directory visited by `os.walk`: its path and its file names. */
  datatype WalkEntry = WalkEntry(root: string, files: seq<string>)

  /** A yielded build file: directory relative to the walked path, file name, kind. */
  datatype BuildFile = BuildFile(relative: string, name: string, kind: BuildFileKind)

  /** The kind of a file name: a `.in` suffix wins over the name `Makefile`,
      which wins over a `.mk` suffix; any other file is not a build file. */
  function ClassifyBuildFile(name: string): Option<BuildFileKind> {
    if Tail(name, 3) == ".in" then Some(BuildFileInput)
    else if name == "Makefile" then Some(BuildFileMakefile)
    else if Tail(name, 3) == ".mk" then Some(BuildFileMk)
    else None
  }

  /** The three kinds in terms of suffixes: `name[-3:] == '.in'` is
      `endswith('.in')`, and `Makefile` itself is never a `.mk` file. */
  lemma ClassifyBuildFileKinds(name: string)
    ensures ClassifyBuildFile(name) == Some(BuildFileInput) <==> HasSuffix(name, ".in")
    ensures ClassifyBuildFile(name) == Some(BuildFileMakefile) <==> name == "Makefile"
    ensures ClassifyBuildFile(name) == Some(BuildFileMk) <==> HasSuffix(name, ".mk") && name != "Makefile"
    ensures ClassifyBuildFile(name) == None <==> !HasSuffix(name, ".in") && !HasSuffix(name, ".mk") && name != "Makefile"
  {
    TailIsSuffix(name, ".in");
    TailIsSuffix(name, ".mk");
  }

  /** `root[len(path)+1:]`. */
  function RelativeRoot(path: string, root: string): string {
    SliceFrom(root, |path| + 1)
  }

  /** A visited directory is skipped when one of the relative ignore entries
      starts its relative path, or one of the full ones starts its root. */
  predicate IgnoredRoot(path: string, root: string, ignoreRelative: seq<string>, ignoreFull: seq<string>) {
    (exists i :: 0 <= i < |ignoreRelative| && HasPrefix(RelativeRoot(path, root), ignoreRelative[i])) ||
    (exists i :: 0 <= i < |ignoreFull| && HasPrefix(root, ignoreFull[i]))
  }

  /** What one visited directory contributes, in the order of its files. */
  function EntryBuildFiles(relative: string, files: seq<string>): (r: seq<BuildFile>)
    ensures |r| <= |files|
  {
    if files == [] then []
    else
      var rest := EntryBuildFiles(relative, files[..|files| - 1]);
      var name := files[|files| - 1];
      match ClassifyBuildFile(name)
      case Some(kind) => rest + [BuildFile(relative, name, kind)]
      case None => rest
  }

  /** Everything the generator yields for a walk, in walk order. */
  function BuildFilesOf(path: string, walk: seq<WalkEntry>, ignoreRelative: seq<string>, ignoreFull: seq<string>)
    : seq<BuildFile>
  {
    if walk == [] then []
    else
      var e := walk[|walk| - 1];
      BuildFilesOf(path, walk[..|walk| - 1], ignoreRelative, ignoreFull) +
      (if IgnoredRoot(path, e.root, ignoreRelative, ignoreFull) then []
       else EntryBuildFiles(RelativeRoot(path, e.root), e.files))
  }

  /** Whether some entry of `ignores` starts `s`. */
  method StartsWithAny(s: string, ignores: seq<string>) returns (found: bool)
    ensures found <==> exists i :: 0 <= i < |ignores| && HasPrefix(s, ignores[i])
  {
    found := false;
    var i := 0;
    while i < |ignores|
      invariant 0 <= i <= |ignores|
      invariant forall k :: 0 <= k < i ==> !HasPrefix(s, ignores[k])
    {
      if HasPrefix(s, ignores[i]) {
        found := true;
        return;
      }
      i := i + 1;
    }
  }

  /** `get_build_files_in_tree`: walks `path`, skips the ignored directories
      and yields every build file with its kind. An absent ignore list is
      the empty one. */
  method BuildFilesInTree(path: string, walk: seq<WalkEntry>, ignoreRelative: seq<string>, ignoreFull: seq<string>)
    returns (r: seq<BuildFile>)
    requires IsAbs(path)
    ensures r == BuildFilesOf(path, walk, ignoreRelative, ignoreFull)
  {
    r := [];
    var w := 0;
    while w < |walk|
      invariant 0 <= w <= |walk|
      invariant r == BuildFilesOf(path, walk[..w], ignoreRelative, ignoreFull)
    {
      var root := walk[w].root;
      var relative := RelativeRoot(path, root);
      assert walk[..w + 1][..w] == walk[..w];
      var ignored := StartsWithAny(relative, ignoreRelative);
      if !ignored {
        ignored := StartsWithAny(root, ignoreFull);
      }
      if !ignored {
        var files := walk[w].files;
        var j := 0;
        var found := [];
        while j < |files|
          invariant 0 <= j <= |files|
          invariant found == EntryBuildFiles(relative, files[..j])
        {
          assert files[..j + 1][..j] == files[..j];
          var name := files[j];
          var kind := ClassifyBuildFile(name);
          if kind.Some? {
            found := found + [BuildFile(relative, name, kind.value)];
          }
          j := j + 1;
        }
        assert files[..|files|] == files;
        r := r + found;
      }
      w := w + 1;
    }
    assert walk[..|walk|] == walk;
  }

  /** What the walk yields: exactly the build files of the directories that
      are not ignored, each with the kind its name gives it. */
  lemma {:induction false} BuildFilesMembership(path: string, walk: seq<WalkEntry>, ignoreRelative: seq<string>,
                                               ignoreFull: seq<string>, f: BuildFile)
    ensures f in BuildFilesOf(path, walk, ignoreRelative, ignoreFull) <==>
            (exists w :: 0 <= w < |walk| && f.name in walk[w].files
               && !IgnoredRoot(path, walk[w].root, ignoreRelative, ignoreFull)
               && f.relative == RelativeRoot(path, walk[w].root)
               && ClassifyBuildFile(f.name) == Some(f.kind))
    decreases |walk|
  {
    if walk != [] {
      var init := walk[..|walk| - 1];
      var e := walk[|walk| - 1];
      BuildFilesMembership(path, init, ignoreRelative, ignoreFull, f);
      EntryMembership(RelativeRoot(path, e.root), e.files, f);
      if exists w :: 0 <= w < |walk| && f.name in walk[w].files
           && !IgnoredRoot(path, walk[w].root, ignoreRelative, ignoreFull)
           && f.relative == RelativeRoot(path, walk[w].root)
           && ClassifyBuildFile(f.name) == Some(f.kind) {
        var w :| 0 <= w < |walk| && f.name in walk[w].files
           && !IgnoredRoot(path, walk[w].root, ignoreRelative, ignoreFull)
           && f.relative == RelativeRoot(path, walk[w].root)
           && ClassifyBuildFile(f.name) == Some(f.kind);
        if w < |walk| - 1 {
          assert init[w] == walk[w];
        }
      }
    }
  }

  lemma {:induction false} EntryMembership(relative: string, files: seq<string>, f: BuildFile)
    ensures f in EntryBuildFiles(relative, files) <==>
            (f.name in files && f.relative == relative && ClassifyBuildFile(f.name) == Some(f.kind))
    decreases |files|
  {
    if files != [] {
      var init := files[..|files| - 1];
      var name := files[|files| - 1];
      EntryMembership(relative, init, f);
      assert files == init + [name];
      assert f.name in files <==> f.name in init || f.name == name;
    }
  }
}
