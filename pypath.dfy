/** The `posixpath` functions the build tooling uses (`join`, `basename`,
    `dirname`, `splitext`, `isabs`), as Python 2.7 defines them. */
module PyPath {
  import opened PyStr

  predicate IsAbs(p: string) {
    HasPrefix(p, "/")
  }

  /** `os.path.join(a, b)`: an absolute `b` replaces `a`; otherwise one
      separator is inserted unless `a` is empty or already ends in one. */
  function Join(a: string, b: string): string {
    if IsAbs(b) then b
    else if a == "" || HasSuffix(a, "/") then a + b
    else a + "/" + b
  }

  /** `os.path.join(a, b, c)`. */
  function Join3(a: string, b: string, c: string): string {
    Join(Join(a, b), c)
  }

  /** `os.path.basename(p)`: everything after the last separator. */
  function Basename(p: string): (r: string)
    ensures '/' !in r
  {
    var i := RFind(p, '/') + 1;
    assert forall k :: 0 <= k < |p[i..]| ==> p[i..][k] == p[i + k];
    p[i..]
  }

  predicate AllSlashes(s: string) {
    forall k :: 0 <= k < |s| ==> s[k] == '/'
  }

  /** `os.path.dirname(p)`: everything up to the last separator, with
      trailing separators removed unless it consists only of separators. */
  function Dirname(p: string): string {
    var head := p[..RFind(p, '/') + 1];
    if head != "" && !AllSlashes(head) then RStrip(head, {'/'}) else head
  }

  /** The first half of `os.path.splitext(p)`: `p` without its extension.
      An extension starts at the last dot after the last separator, provided
      some character between that separator and the dot is not a dot. */
  function SplitextRoot(p: string): string {
    var sep := RFind(p, '/');
    var dot := RFind(p, '.');
    if dot > sep && exists k :: sep < k < dot && p[k] != '.' then p[..dot] else p
  }
}
