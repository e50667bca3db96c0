/**
 * Python's ordering of `str` values (code point by code point, a proper prefix first)
 * and `sorted` over strings.
 */
module Order {
  /** `a < b` on Python strings. */
  predicate Lt(a: string, b: string)
    decreases |a|
  {
    if |a| == 0 then |b| > 0
    else if |b| == 0 then false
    else if a[0] == b[0] then Lt(a[1..], b[1..])
    else a[0] < b[0]
  }

  predicate Le(a: string, b: string) { a == b || Lt(a, b) }

  lemma {:induction false} LtIrreflexive(a: string)
    ensures !Lt(a, a)
  {
    if |a| > 0 {
      LtIrreflexive(a[1..]);
    }
  }

  lemma {:induction false} LtTransitive(a: string, b: string, c: string)
    requires Lt(a, b) && Lt(b, c)
    ensures Lt(a, c)
    decreases |a|
  {
    if |a| > 0 && a[0] == b[0] && b[0] == c[0] {
      LtTransitive(a[1..], b[1..], c[1..]);
    }
  }

  /** Any two different strings are ordered one way or the other. */
  lemma {:induction false} LtTotal(a: string, b: string)
    requires a != b
    ensures Lt(a, b) || Lt(b, a)
    decreases |a|
  {
    if |a| > 0 && |b| > 0 && a[0] == b[0] {
      assert a == [a[0]] + a[1..] && b == [b[0]] + b[1..];
      LtTotal(a[1..], b[1..]);
    }
  }

  lemma LtAsymmetric(a: string, b: string)
    requires Lt(a, b)
    ensures !Lt(b, a)
  {
    if Lt(b, a) {
      LtTransitive(a, b, a);
      LtIrreflexive(a);
    }
  }

  lemma LeTransitive(a: string, b: string, c: string)
    requires Le(a, b) && Le(b, c)
    ensures Le(a, c)
  {
    if Lt(a, b) && Lt(b, c) {
      LtTransitive(a, b, c);
    }
  }

  predicate Sorted(s: seq<string>)
  {
    forall i, j :: 0 <= i < j < |s| ==> Le(s[i], s[j])
  }

  predicate StrictlySorted(s: seq<string>)
  {
    forall i, j :: 0 <= i < j < |s| ==> Lt(s[i], s[j])
  }

  /** Insert `x` in front of the first element of `s` that it does not exceed. */
  function Insert(x: string, s: seq<string>): (r: seq<string>)
    ensures forall y :: y in r <==> y == x || y in s
    ensures multiset(r) == multiset(s) + multiset{x}
  {
    if |s| == 0 then [x]
    else if Le(x, s[0]) then [x] + s
    else
      assert s == [s[0]] + s[1..];
      [s[0]] + Insert(x, s[1..])
  }

  lemma {:induction false} InsertSorted(x: string, s: seq<string>)
    requires Sorted(s)
    ensures Sorted(Insert(x, s))
  {
    if |s| > 0 {
      if Le(x, s[0]) {
        forall j | 0 <= j < |s| ensures Le(x, s[j]) {
          LeTransitive(x, s[0], s[j]);
        }
      } else {
        InsertSorted(x, s[1..]);
        LtTotal(x, s[0]);
        var t := Insert(x, s[1..]);
        forall j | 0 <= j < |t| ensures Le(s[0], t[j]) {
          assert t[j] in t;
          if t[j] != x {
            assert t[j] in s[1..];
          }
        }
      }
    }
  }

  /** `sorted(xs)`: insertion sort, ascending, keeping duplicates. */
  function SortStrings(xs: seq<string>): (r: seq<string>)
    ensures Sorted(r) && multiset(r) == multiset(xs)
  {
    if |xs| == 0 then []
    else
      assert xs == [xs[0]] + xs[1..];
      InsertSorted(xs[0], SortStrings(xs[1..]));
      Insert(xs[0], SortStrings(xs[1..]))
  }

  /** A sorted sequence without repeated elements is strictly sorted. */
  lemma SortedDistinctStrict(s: seq<string>)
    requires Sorted(s)
    requires forall i, j :: 0 <= i < j < |s| ==> s[i] != s[j]
    ensures StrictlySorted(s)
  {
  }

  /** Inserting a new element into a strictly increasing sequence keeps it strictly increasing. */
  lemma {:induction false} InsertStrict(x: string, s: seq<string>)
    requires StrictlySorted(s) && x !in s
    ensures StrictlySorted(Insert(x, s))
  {
    if |s| > 0 {
      if Le(x, s[0]) {
        forall j | 0 <= j < |s| ensures Lt(x, s[j]) {
          if j > 0 { LtTransitive(x, s[0], s[j]); }
        }
      } else {
        InsertStrict(x, s[1..]);
        LtTotal(x, s[0]);
        var t := Insert(x, s[1..]);
        assert s == [s[0]] + s[1..];
        forall j | 0 <= j < |t| ensures Lt(s[0], t[j]) {
          assert t[j] in t;
          if t[j] != x {
            assert t[j] in s[1..];
          }
        }
      }
    }
  }

  /** Every finite set of strings has a strictly increasing listing. */
  lemma {:induction false} SortedListingExists(st: set<string>)
    ensures exists r :: StrictlySorted(r) && forall x :: x in r <==> x in st
    decreases st
  {
    if st == {} {
      assert StrictlySorted([]) && forall x :: x in [] <==> x in st;
    } else {
      var x :| x in st;
      SortedListingExists(st - {x});
      var r :| StrictlySorted(r) && forall y :: y in r <==> y in st - {x};
      InsertStrict(x, r);
      assert StrictlySorted(Insert(x, r)) && forall y :: y in Insert(x, r) <==> y in st;
    }
  }

  /** `sorted(st)` as a specification: the strictly increasing listing of a set, which is unique. */
  ghost function SortedOf(st: set<string>): (r: seq<string>)
    ensures StrictlySorted(r)
    ensures forall x :: x in r <==> x in st
  {
    SortedListingExists(st);
    var r :| StrictlySorted(r) && forall x :: x in r <==> x in st;
    r
  }

  /** `sorted(st)` for a set: the one strictly increasing sequence holding exactly its elements. */
  method SortedSet(st: set<string>) returns (r: seq<string>)
    ensures r == SortedOf(st)
    ensures StrictlySorted(r)
    ensures forall x :: x in r <==> x in st
  {
    r := [];
    var rest := st;
    while rest != {}
      invariant StrictlySorted(r)
      invariant rest <= st
      invariant forall x :: x in r <==> x in st - rest
      decreases rest
    {
      var x :| x in rest;
      var t := Insert(x, r);
      InsertStrict(x, r);
      r, rest := t, rest - {x};
    }
    StrictlySortedUnique(r, SortedOf(st));
  }

  lemma HeadIsElement(s: seq<string>)
    requires |s| > 0
    ensures s[0] in s
  {
  }

  /**
   * Two strictly increasing sequences with the same elements are equal: the sorted
   * order of a set does not depend on the order in which the set was filled.
   */
  lemma {:induction false} StrictlySortedUnique(a: seq<string>, b: seq<string>)
    requires StrictlySorted(a) && StrictlySorted(b)
    requires forall x :: x in a <==> x in b
    ensures a == b
    decreases |a|
  {
    if |a| > 0 && |b| > 0 {
      assert a[0] in b && b[0] in a;
      if a[0] != b[0] {
        var i :| 0 <= i < |b| && b[i] == a[0];
        var j :| 0 <= j < |a| && a[j] == b[0];
        assert Lt(b[0], a[0]) by { assert i > 0; }
        assert Lt(a[0], b[0]) by { assert j > 0; }
        LtAsymmetric(a[0], b[0]);
      }
      forall x ensures x in a[1..] <==> x in b[1..] {
        if x in a[1..] {
          var i :| 1 <= i < |a| && a[i] == x;
          assert Lt(a[0], x);
          LtIrreflexive(x);
          assert x in b;
        }
        if x in b[1..] {
          var i :| 1 <= i < |b| && b[i] == x;
          assert Lt(b[0], x);
          LtIrreflexive(x);
          assert x in a;
        }
      }
      StrictlySortedUnique(a[1..], b[1..]);
    } else if |a| > 0 {
      HeadIsElement(a);
      assert false;
    } else if |b| > 0 {
      HeadIsElement(b);
      assert false;
    }
  }
}
