/** The few Python 2 `str` operations the build tooling relies on, stated over
    `seq<char>`: whitespace splitting, prefix and suffix tests, slicing past the
    end, substring tests (`a in b`), `islower`, `rstrip(chars)` and `replace`. */
module PyStr {

  /** The characters `str.split()` treats as whitespace. */
  predicate IsSpace(c: char) {
    c == ' ' || c == '\t' || c == '\n' || c == '\r' || c == '\U{B}' || c == '\U{C}'
  }

  /** A token `str.split()` can produce: non-empty, no whitespace. */
  predicate IsWord(w: string) {
    w != [] && forall i :: 0 <= i < |w| ==> !IsSpace(w[i])
  }

  /** Length of the word at the head of `s`. */
  function WordLength(s: string): (n: nat)
    requires s != [] && !IsSpace(s[0])
    ensures 1 <= n <= |s| && IsWord(s[..n])
    ensures n < |s| ==> IsSpace(s[n])
  {
    if |s| == 1 || IsSpace(s[1]) then 1
    else
      var k := WordLength(s[1..]);
      assert s[..k + 1] == [s[0]] + s[1..][..k];
      1 + k
  }

  /** `s.split()`: the maximal runs of non-whitespace characters, in order. */
  function Split(s: string): (r: seq<string>)
    ensures forall i :: 0 <= i < |r| ==> IsWord(r[i])
    decreases |s|
  {
    if s == [] then []
    else if IsSpace(s[0]) then Split(s[1..])
    else
      var n := WordLength(s);
      [s[..n]] + Split(s[n..])
  }

  lemma {:induction false} WordLengthOfWord(w: string, rest: string)
    requires IsWord(w)
    requires rest == [] || IsSpace(rest[0])
    ensures WordLength(w + rest) == |w|
    decreases |w|
  {
    var s := w + rest;
    if |w| == 1 {
    } else {
      assert s[1..] == w[1..] + rest;
      WordLengthOfWord(w[1..], rest);
    }
  }

  /** A single word splits to itself. */
  lemma SplitWord(w: string)
    requires IsWord(w)
    ensures Split(w) == [w]
  {
    WordLengthOfWord(w, []);
    assert w + [] == w;
    assert w[|w|..] == [];
  }

  /** A word followed by one space splits into that word and the rest. */
  lemma SplitWordThen(w: string, rest: string)
    requires IsWord(w)
    ensures Split(w + " " + rest) == [w] + Split(rest)
  {
    var s := w + " " + rest;
    WordLengthOfWord(w, " " + rest);
    assert s == w + (" " + rest);
    assert s[..|w|] == w;
    assert s[|w|..] == " " + rest;
    assert (" " + rest)[1..] == rest;
  }

  /** Two words separated by one space split into those two words. */
  lemma SplitTwoWords(a: string, b: string)
    requires IsWord(a) && IsWord(b)
    ensures Split(a + " " + b) == [a, b]
  {
    SplitWordThen(a, b);
    SplitWord(b);
  }

  /** `s.startswith(p)`, equivalently `s.find(p) == 0`. */
  predicate HasPrefix(s: string, p: string) {
    |p| <= |s| && s[..|p|] == p
  }

  /** `s.endswith(p)`, equivalently `s[-len(p):] == p` for non-empty `p`. */
  predicate HasSuffix(s: string, p: string) {
    |p| <= |s| && s[|s| - |p|..] == p
  }

  /** `s[-n:]`: the last `n` characters, or all of `s` when it is shorter. */
  function Tail(s: string, n: nat): (r: string)
    ensures |r| <= n
  {
    if |s| <= n then s else s[|s| - n..]
  }

  /** Comparing `s[-len(p):]` with a non-empty `p` is `s.endswith(p)`. */
  lemma TailIsSuffix(s: string, p: string)
    requires p != []
    ensures Tail(s, |p|) == p <==> HasSuffix(s, p)
  {
  }

  /** `s[k:]`, which is empty when `k` is past the end. */
  function SliceFrom(s: string, k: nat): string {
    if k <= |s| then s[k..] else ""
  }

  /** `n in t` for two strings: `n` occurs in `t` as a contiguous run. */
  predicate IsSubstring(n: string, t: string)
    decreases |t|
  {
    HasPrefix(t, n) || (t != [] && IsSubstring(n, t[1..]))
  }

  predicate IsLowerLetter(c: char) { 'a' <= c <= 'z' }
  predicate IsUpperLetter(c: char) { 'A' <= c <= 'Z' }

  /** `s.islower()` for a byte string: at least one cased character and none
      of them upper case. */
  predicate IsLower(s: string) {
    (exists i :: 0 <= i < |s| && IsLowerLetter(s[i])) &&
    (forall i :: 0 <= i < |s| ==> !IsUpperLetter(s[i]))
  }

  /** `s.rstrip(chars)`: drop trailing characters that belong to the set. */
  function RStrip(s: string, chars: set<char>): (r: string)
    ensures HasPrefix(s, r)
    ensures r == [] || r[|r| - 1] !in chars
    ensures forall i :: |r| <= i < |s| ==> s[i] in chars
  {
    if s != [] && s[|s| - 1] in chars then RStrip(s[..|s| - 1], chars) else s
  }

  /** `s.replace(a, b)` for one-character `a` and `b`. */
  function ReplaceChar(s: string, a: char, b: char): (r: string)
    ensures |r| == |s|
    ensures forall i :: 0 <= i < |s| ==> r[i] == (if s[i] == a then b else s[i])
  {
    seq(|s|, i requires 0 <= i < |s| => if s[i] == a then b else s[i])
  }

  /** `s.rfind(c)`: index of the last occurrence of `c`, or -1. */
  function RFind(s: string, c: char): (r: int)
    ensures -1 <= r < |s|
    ensures 0 <= r ==> s[r] == c
    ensures forall k :: r < k < |s| ==> s[k] != c
  {
    if s == [] then -1
    else if s[|s| - 1] == c then |s| - 1
    else RFind(s[..|s| - 1], c)
  }

  /** `sep.join(items)`. */
  function JoinWith(sep: string, items: seq<string>): string {
    if items == [] then ""
    else if |items| == 1 then items[0]
    else items[0] + sep + JoinWith(sep, items[1..])
  }
}
