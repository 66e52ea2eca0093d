/** The helpers the build backends share
    (build/pylib/mozbuild/mozbuild/buildconfig/backend/utils.py): where the
    translation of a `Makefile.in` goes, and which variables its
    substitutions see. */
module BackendUtils {
  import opened Wrappers
  import opened PyStr
  import opened PyPath

  /** What `rstrip('.in')` removes: its argument is a set of characters,
      not a suffix. */
  const InChars: set<char> := {'.', 'i', 'n'}

  /** The output name of a `Makefile.in`: its basename with every trailing
      `.`, `i` and `n` removed. */
  function OutputBasename(filename: string): (b: string)
    ensures HasPrefix(Basename(filename), b)
    ensures b == [] || b[|b| - 1] !in InChars
  {
    RStrip(Basename(filename), InChars)
  }

  /** `makefile_output_path(srcdir, objdir, makefile)`: the file name must
      end in `.in` and start with `srcdir` (the two assertions); the result
      is the object directory, then the part of the Makefile's directory
      below `srcdir`, then the output basename. */
  function MakefileOutputPath(srcdir: string, objdir: string, filename: string, directory: string): (r: Result<string>)
    ensures r.Success? <==> HasSuffix(filename, ".in") && HasPrefix(filename, srcdir)
  {
    if !HasSuffix(filename, ".in") then Failure("AssertionError: not a .in file")
    else if !HasPrefix(filename, srcdir) then Failure("AssertionError: not below the source directory")
    else Success(Join3(objdir, SliceFrom(directory, |srcdir| + 1), OutputBasename(filename)))
  }

  /** The basename of a path that ends in a separator and a name without
      one is that name. */
  lemma {:induction false} BasenameAfterSlash(dir: string, name: string)
    requires '/' !in name
    ensures Basename(dir + "/" + name) == name
  {
    var p := dir + "/" + name;
    assert p[|dir|] == '/';
    assert forall k :: |dir| < k < |p| ==> p[k] == name[k - |dir| - 1];
    assert RFind(p, '/') == |dir|;
    assert p[|dir| + 1..] == name;
  }

  /** The name `x + ".in"` loses exactly its `.in` when `x` is empty or
      ends in a character other than `.`, `i` and `n`; otherwise more is
      stripped. */
  lemma {:induction false} OutputBasenameOfIn(dir: string, x: string)
    requires '/' !in x
    ensures x == [] || x[|x| - 1] !in InChars ==> OutputBasename(dir + "/" + x + ".in") == x
    ensures x != [] && x[|x| - 1] in InChars ==> |OutputBasename(dir + "/" + x + ".in")| < |x|
  {
    var name := x + ".in";
    assert dir + "/" + x + ".in" == dir + "/" + name;
    BasenameAfterSlash(dir, name);
    assert ".in"[0] == '.' && ".in"[1] == 'i' && ".in"[2] == 'n';
    RStripAppended(x, ".in", InChars);
    if x != [] && x[|x| - 1] in InChars {
      assert x[..|x| - 1] + [x[|x| - 1]] == x;
      assert RStrip(x, InChars) == RStrip(x[..|x| - 1], InChars);
    }
  }

  /** Characters of the set appended to a string are all stripped again. */
  lemma {:induction false} RStripAppended(x: string, y: string, chars: set<char>)
    requires forall k :: 0 <= k < |y| ==> y[k] in chars
    ensures RStrip(x + y, chars) == RStrip(x, chars)
    decreases |y|
  {
    if y != [] {
      var front := y[..|y| - 1];
      assert (x + y)[..|x + y| - 1] == x + front;
      RStripAppended(x, front, chars);
    } else {
      assert x + y == x;
    }
  }

  /** `Makefile.in` becomes `Makefile`. */
  lemma MakefileInExample(dir: string)
    ensures OutputBasename(dir + "/Makefile.in") == "Makefile"
  {
    assert dir + "/Makefile.in" == dir + "/" + "Makefile" + ".in";
    assert "Makefile"[|"Makefile"| - 1] == 'e';
    OutputBasenameOfIn(dir, "Makefile");
  }

  /** `domain.in` becomes `doma`: the trailing `n` and `i` of the name go
      with the extension. */
  lemma DomainInExample(dir: string)
    ensures OutputBasename(dir + "/domain.in") == "doma"
  {
    var name := "domain.in";
    assert dir + "/domain.in" == dir + "/" + name;
    BasenameAfterSlash(dir, name);
    assert name == "doma" + "in.in";
    RStripAppended("doma", "in.in", InChars);
  }

  /** For a Makefile in the subdirectory `sub` of `srcdir`, the output path
      is `objdir/sub/<output basename>`. */
  lemma OutputPathBelowObjdir(srcdir: string, objdir: string, sub: string, x: string)
    requires objdir != [] && objdir[|objdir| - 1] != '/'
    requires sub != [] && sub[0] != '/' && sub[|sub| - 1] != '/'
    requires '/' !in x
    ensures var directory := srcdir + "/" + sub;
            var r := MakefileOutputPath(srcdir, objdir, directory + "/" + x + ".in", directory);
            r.Success? && r.value == objdir + "/" + sub + "/" + OutputBasename(directory + "/" + x + ".in")
  {
    var directory := srcdir + "/" + sub;
    var filename := directory + "/" + x + ".in";
    assert filename[..|srcdir|] == srcdir;
    assert filename[|filename| - 3..] == ".in";
    assert SliceFrom(directory, |srcdir| + 1) == sub;
    var b := OutputBasename(filename);
    assert !IsAbs(sub);
    assert Join(objdir, sub) == objdir + "/" + sub;
    assert !HasSuffix(objdir + "/" + sub, "/");
    if b != [] {
      assert b[0] != '/' by {
        assert Basename(filename)[0] == b[0];
      }
    }
    assert Join(objdir + "/" + sub, b) == objdir + "/" + sub + "/" + b;
  }

  /** The variables `substitute_makefile` substitutes into a Makefile: the
      autoconf values, with `top_srcdir` and `srcdir` set to the source
      directory and the Makefile's directory. The assertion fails unless
      the file name ends in `.in`. */
  function SubstitutionVariables(autoconf: map<string, string>, srcdir: string, filename: string, directory: string)
    : (r: Result<map<string, string>>)
    ensures r.Success? <==> HasSuffix(filename, ".in")
    ensures r.Success? ==> r.value.Keys == autoconf.Keys + {"top_srcdir", "srcdir"}
    ensures r.Success? ==> r.value["top_srcdir"] == srcdir && r.value["srcdir"] == directory
    ensures r.Success? ==> forall k :: k in autoconf && k != "top_srcdir" && k != "srcdir" ==> r.value[k] == autoconf[k]
  {
    if !HasSuffix(filename, ".in") then Failure("AssertionError: not a .in file")
    else Success(autoconf["top_srcdir" := srcdir]["srcdir" := directory])
  }

  /** `substitute_makefile`: the variables above are substituted into the
      Makefile with `raise_on_missing=True`, so it raises when one of the
      Makefile's `@NAME@` substitutions has no value among them. */
  function SubstituteMakefile(autoconf: map<string, string>, srcdir: string, filename: string, directory: string,
                              placeholders: set<string>): (r: Result<map<string, string>>)
    ensures r.Success? <==> HasSuffix(filename, ".in") && placeholders <= autoconf.Keys + {"top_srcdir", "srcdir"}
    ensures r.Success? ==> r == SubstitutionVariables(autoconf, srcdir, filename, directory)
  {
    var variables := SubstitutionVariables(autoconf, srcdir, filename, directory);
    if variables.Failure? then variables
    else if !(placeholders <= variables.value.Keys) then Failure("missing substitution")
    else variables
  }
}
