/** Python's `sorted()` over a set of strings: byte-wise lexicographic order. */
module Sorting {

  /** `a < b` on Python strings. */
  predicate Less(a: string, b: string)
    decreases |a|
  {
    if a == [] then b != []
    else if b == [] then false
    else a[0] < b[0] || (a[0] == b[0] && Less(a[1..], b[1..]))
  }

  lemma {:induction false} LessIrreflexive(a: string)
    ensures !Less(a, a)
    decreases |a|
  {
    if a != [] { LessIrreflexive(a[1..]); }
  }

  lemma {:induction false} LessTransitive(a: string, b: string, c: string)
    requires Less(a, b) && Less(b, c)
    ensures Less(a, c)
    decreases |a|
  {
    if a != [] && b != [] && c != [] && a[0] == b[0] == c[0] {
      LessTransitive(a[1..], b[1..], c[1..]);
    }
  }

  lemma {:induction false} LessTotal(a: string, b: string)
    requires a != b
    ensures Less(a, b) || Less(b, a)
    decreases |a|
  {
    if a != [] && b != [] && a[0] == b[0] {
      assert a == [a[0]] + a[1..] && b == [b[0]] + b[1..];
      LessTotal(a[1..], b[1..]);
    }
  }

  /** Strictly increasing, hence also free of duplicates. */
  predicate Sorted(r: seq<string>) {
    forall i, j :: 0 <= i < j < |r| ==> Less(r[i], r[j])
  }

  /** `r` lists exactly the elements of `s`, in increasing order. */
  ghost predicate SortedListing(r: seq<string>, s: set<string>) {
    Sorted(r) && (forall x :: x in r <==> x in s)
  }

  ghost predicate IsLeast(m: string, s: set<string>) {
    m in s && forall y :: y in s ==> !Less(y, m)
  }

  lemma {:induction false} LeastExists(s: set<string>)
    requires s != {}
    ensures exists m :: IsLeast(m, s)
    decreases |s|
  {
    var x :| x in s;
    if s == {x} {
      LessIrreflexive(x);
      assert IsLeast(x, s);
    } else {
      LeastExists(s - {x});
      var m :| IsLeast(m, s - {x});
      if Less(x, m) {
        forall y | y in s ensures !Less(y, x) {
          if y == x { LessIrreflexive(x); }
          else if Less(y, x) { LessTransitive(y, x, m); }
        }
        assert IsLeast(x, s);
      } else {
        LessIrreflexive(m);
        assert IsLeast(m, s);
      }
    }
  }

  /** The value of `sorted(s)`: the least element first, then the rest. */
  ghost function SortedOf(s: set<string>): seq<string>
    decreases |s|
  {
    if s == {} then []
    else
      LeastExists(s);
      var m :| IsLeast(m, s);
      [m] + SortedOf(s - {m})
  }

  /** `sorted(s)` lists exactly the elements of `s`, in increasing order. */
  lemma {:induction false} SortedOfListing(s: set<string>)
    ensures SortedListing(SortedOf(s), s) && |SortedOf(s)| == |s|
    decreases |s|
  {
    if s != {} {
      var r := SortedOf(s);
      var m := r[0];
      assert IsLeast(m, s) && r == [m] + SortedOf(s - {m});
      var rest := SortedOf(s - {m});
      SortedOfListing(s - {m});
      forall x | x in rest ensures Less(m, x) {
        LessTotal(m, x);
      }
      assert forall x :: x in r <==> x == m || x in rest;
    }
  }

  lemma {:induction false} LessAsymmetric(a: string, b: string)
    ensures !(Less(a, b) && Less(b, a))
    decreases |a|
  {
    if a != [] && b != [] && a[0] == b[0] { LessAsymmetric(a[1..], b[1..]); }
  }

  /** A sorted listing of a set is unique. */
  lemma {:induction false} SortedListingUnique(a: seq<string>, b: seq<string>, s: set<string>)
    requires SortedListing(a, s) && SortedListing(b, s)
    ensures a == b
    decreases |a|
  {
    assert a != [] ==> a[0] in s && a[0] in b;
    assert b != [] ==> b[0] in s && b[0] in a;
    if a != [] {
      var i :| 0 <= i < |b| && b[i] == a[0];
      var j :| 0 <= j < |a| && a[j] == b[0];
      LessAsymmetric(a[0], b[0]);
      assert a[0] == b[0];
      var s' := s - {a[0]};
      forall x ensures x in a[1..] <==> x in s' {
        if x in a[1..] {
          var k :| 1 <= k < |a| && a[k] == x;
          LessIrreflexive(x);
        }
      }
      forall x ensures x in b[1..] <==> x in s' {
        if x in b[1..] {
          var k :| 1 <= k < |b| && b[k] == x;
          LessIrreflexive(x);
        }
      }
      SortedListingUnique(a[1..], b[1..], s');
    }
  }

  /** `sorted(s)`, by inserting each element of the set into a sorted list. */
  method SortStrings(s: set<string>) returns (r: seq<string>)
    ensures r == SortedOf(s)
  {
    r := [];
    var rest := s;
    while rest != {}
      invariant rest <= s
      invariant SortedListing(r, s - rest)
      decreases rest
    {
      var x :| x in rest;
      var k := 0;
      while k < |r| && Less(r[k], x)
        invariant 0 <= k <= |r|
        invariant forall i :: 0 <= i < k ==> Less(r[i], x)
      {
        k := k + 1;
      }
      assert x !in r;
      forall i | k <= i < |r| ensures Less(x, r[i]) {
        LessTotal(x, r[k]);
        if i > k { LessTransitive(x, r[k], r[i]); }
      }
      var r' := r[..k] + [x] + r[k..];
      assert forall i :: 0 <= i < |r'| ==> r'[i] == (if i < k then r[i] else if i == k then x else r[i - 1]);
      forall i, j | 0 <= i < j < |r'| ensures Less(r'[i], r'[j]) {
        if i < k && j > k { LessTransitive(r[i], x, r[j - 1]); }
      }
      assert forall y :: y in r' <==> y in r || y == x;
      r := r';
      rest := rest - {x};
    }
    SortedOfListing(s);
    SortedListingUnique(r, SortedOf(s), s);
  }
}
