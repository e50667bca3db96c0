/**
 * Values that flow through the schema engine, Python dicts with insertion order,
 * and the sequence helpers shared by the filters.
 */
module Values {
  import opened Wrappers
  import opened Text

  /** An embedding vector. */
  type Emb = seq<real>

  /**
   * A value returned by an auto-query: a text (a name, a label, a pattern) or the
   * property dict of one node. Property values are modelled as strings only, so the
   * renderings below quote every value, as Python does for `str` values.
   */
  datatype Value = Str(s: string) | Props(entries: seq<(string, string)>)

  /** An `(object, embedding)` tuple as built by `get_list_embeddings`. */
  datatype Pair = Pair(obj: Value, emb: Emb)

  /** An element of a schema list: an embedded pair (full schema) or a bare value (a launch result). */
  datatype Elem = Embedded(pair: Pair) | Raw(value: Value)

  /** The arguments that a configuration tuple can pass to an executor. */
  datatype Param =
    | PNone
    | PInt(i: int)
    | PBool(b: bool)
    | PStr(s: string)
    | PSchema(schema: seq<(string, seq<Elem>)>)

  /** Python truthiness of an argument. */
  predicate Truthy(p: Param)
  {
    match p
    case PNone => false
    case PInt(i) => i != 0
    case PBool(b) => b
    case PStr(s) => |s| > 0
    case PSchema(d) => |d| > 0
  }

  /** The integer an argument stands for in a comparison (`bool` is an `int` in Python). */
  function AsInt(p: Param): Option<int>
  {
    match p
    case PInt(i) => Some(i)
    case PBool(b) => Some(if b then 1 else 0)
    case _ => None
  }

  /** Python `str(d)` of a property dict, with single-quoted keys and values. */
  function DictRepr(entries: seq<(string, string)>): string
  {
    "{" + Join(", ", DictItems(entries, "'")) + "}"
  }

  /** `json.dumps(d, ensure_ascii=False)` of a property dict, without escaping. */
  function JsonDump(entries: seq<(string, string)>): string
  {
    "{" + Join(", ", DictItems(entries, "\"")) + "}"
  }

  function DictItems(entries: seq<(string, string)>, q: string): (r: seq<string>)
    ensures |r| == |entries|
  {
    if |entries| == 0 then []
    else [q + entries[0].0 + q + ": " + q + entries[0].1 + q] + DictItems(entries[1..], q)
  }

  /** Python `str(v)`. */
  function Show(v: Value): string
  {
    match v
    case Str(s) => s
    case Props(d) => DictRepr(d)
  }

  /**
   * `e[0]`: the object of an embedded pair; the first character of a bare string
   * (IndexError when it is empty); a KeyError on a bare dict, whose keys are strings.
   */
  function First(e: Elem): (r: Result<Value>)
    ensures e.Embedded? ==> r == Ok(e.pair.obj)
    ensures e.Raw? && e.value.Props? ==> r == Fail(KeyError)
  {
    match e
    case Embedded(p) => Ok(p.obj)
    case Raw(Str(s)) => if |s| == 0 then Fail(IndexError) else Ok(Str([s[0]]))
    case Raw(Props(_)) => Fail(KeyError)
  }

  function Embed(pairs: seq<Pair>): (r: seq<Elem>)
    ensures |r| == |pairs|
    ensures forall i :: 0 <= i < |pairs| ==> r[i] == Embedded(pairs[i])
  {
    seq(|pairs|, i requires 0 <= i < |pairs| => Embedded(pairs[i]))
  }

  function RawAll(vs: seq<Value>): (r: seq<Elem>)
    ensures |r| == |vs|
    ensures forall i :: 0 <= i < |vs| ==> r[i] == Raw(vs[i])
  {
    seq(|vs|, i requires 0 <= i < |vs| => Raw(vs[i]))
  }

  // ---------------------------------------------------------------------------
  // Python dicts: a sequence of entries in insertion order.

  type Dict<V> = seq<(string, V)>

  function Keys<V>(d: Dict<V>): (r: seq<string>)
    ensures |r| == |d|
    ensures forall i :: 0 <= i < |d| ==> r[i] == d[i].0
  {
    seq(|d|, i requires 0 <= i < |d| => d[i].0)
  }

  predicate DistinctKeys<V>(d: Dict<V>)
  {
    forall i, j :: 0 <= i < j < |d| ==> d[i].0 != d[j].0
  }

  /** `d.get(k)` */
  function Get<V>(d: Dict<V>, k: string): (r: Option<V>)
    ensures r.Some? <==> k in Keys(d)
  {
    if |d| == 0 then None else if d[0].0 == k then Some(d[0].1) else Get(d[1..], k)
  }

  /** A key of a dict is the key of one of its entries, whose value `Get` returns. */
  lemma {:induction false} GetHas<V>(d: Dict<V>, k: string)
    requires k in Keys(d)
    ensures exists i :: 0 <= i < |d| && d[i].0 == k && Get(d, k) == Some(d[i].1)
  {
    if d[0].0 != k {
      assert Keys(d) == [d[0].0] + Keys(d[1..]);
      GetHas(d[1..], k);
      var i :| 0 <= i < |d[1..]| && d[1..][i].0 == k && Get(d[1..], k) == Some(d[1..][i].1);
      assert d[i + 1].0 == k;
    }
  }

  /** `Get` finds the first entry with the key. */
  lemma {:induction false} GetAt<V>(d: Dict<V>, i: nat, k: string)
    requires i < |d| && d[i].0 == k && forall j :: 0 <= j < i ==> d[j].0 != k
    ensures Get(d, k) == Some(d[i].1)
  {
    if i > 0 {
      GetAt(d[1..], i - 1, k);
    }
  }

  /** `d[k] = v`: an existing key keeps its position, a new key goes last. */
  function Put<V>(d: Dict<V>, k: string, v: V): (r: Dict<V>)
    ensures Keys(r) == if k in Keys(d) then Keys(d) else Keys(d) + [k]
  {
    if |d| == 0 then [(k, v)]
    else if d[0].0 == k then [(k, v)] + d[1..]
    else
      var rest := Put(d[1..], k, v);
      assert Keys(d) == [d[0].0] + Keys(d[1..]);
      [d[0]] + rest
  }

  lemma {:induction false} GetPut<V>(d: Dict<V>, k: string, v: V, k2: string)
    ensures Get(Put(d, k, v), k2) == if k2 == k then Some(v) else Get(d, k2)
  {
    if |d| > 0 && d[0].0 != k {
      GetPut(d[1..], k, v, k2);
    }
  }

  lemma {:induction false} PutDistinct<V>(d: Dict<V>, k: string, v: V)
    requires DistinctKeys(d)
    ensures DistinctKeys(Put(d, k, v))
  {
    var r := Put(d, k, v);
    var kr := Keys(r);
    forall i, j | 0 <= i < j < |r| ensures r[i].0 != r[j].0 {
      assert kr[i] == r[i].0 && kr[j] == r[j].0;
      var kd := Keys(d);
      if k in kd {
        assert kd[i] == d[i].0 && kd[j] == d[j].0;
      } else if j < |d| {
        assert kd[i] == d[i].0 && kd[j] == d[j].0;
      } else {
        assert kd[i] == d[i].0;
      }
    }
  }

  // ---------------------------------------------------------------------------
  // Sequences.

  ghost predicate NoDup<T>(s: seq<T>)
  {
    forall i, j :: 0 <= i < j < |s| ==> s[i] != s[j]
  }

  /** `s` is an order-preserving subsequence of `t`. */
  ghost predicate Subsequence<T>(s: seq<T>, t: seq<T>)
    decreases |t|
  {
    if |s| == 0 then true
    else if |t| == 0 then false
    else if s[0] == t[0] then Subsequence(s[1..], t[1..])
    else Subsequence(s, t[1..])
  }

  /**
   * The prefix that a counter loop with `if c == lim: break` keeps: the first `lim`
   * elements when `lim >= 1`; everything when `lim <= 0`, since the counter starts
   * at 1 and never meets it.
   */
  function TakeUpTo<T>(s: seq<T>, lim: int): (r: seq<T>)
    ensures lim >= 1 ==> |r| == if lim < |s| then lim else |s|
    ensures lim <= 0 ==> r == s
    ensures r == s[..|r|]
  {
    if 1 <= lim < |s| then s[..lim] else s
  }

  /** `list(st)`: a sequence that lists every element of the set exactly once. */
  ghost predicate Enumerates(r: seq<string>, st: set<string>)
  {
    NoDup(r) && forall x :: x in r <==> x in st
  }

  /** A duplicate-free sequence drawn from the elements of `s` is no longer than `s`. */
  lemma {:induction false} DistinctDrawnBound<T>(r: seq<T>, s: seq<T>)
    requires NoDup(r) && forall x :: x in r ==> x in s
    ensures |r| <= |s|
    decreases |s|
  {
    if |r| > 0 {
      var x := r[0];
      assert x in r;
      var i :| 0 <= i < |s| && s[i] == x;
      var s' := s[..i] + s[i + 1..];
      var r' := r[1..];
      forall y | y in r' ensures y in s' {
        var j :| 1 <= j < |r| && r[j] == y;
        assert y != x && y in r;
        var k :| 0 <= k < |s| && s[k] == y;
        if k < i { assert s'[k] == y; } else { assert s'[k - 1] == y; }
      }
      DistinctDrawnBound(r', s');
    }
  }

  /** The elements `x` of `s` with `keep(ctx, x)`, in order: a Python list comprehension with a condition. */
  function Filter<C, T>(s: seq<T>, ctx: C, keep: (C, T) -> bool): (r: seq<T>)
    ensures |r| <= |s|
  {
    if |s| == 0 then [] else (if keep(ctx, s[0]) then [s[0]] else []) + Filter(s[1..], ctx, keep)
  }

  lemma {:induction false} FilterAppend<C, T>(a: seq<T>, b: seq<T>, ctx: C, keep: (C, T) -> bool)
    ensures Filter(a + b, ctx, keep) == Filter(a, ctx, keep) + Filter(b, ctx, keep)
  {
    if |a| > 0 {
      FilterAppend(a[1..], b, ctx, keep);
      assert (a + b)[1..] == a[1..] + b;
    } else {
      assert a + b == b;
    }
  }

  /** Extending the scanned prefix by one element: the loop step of a filtering loop. */
  lemma FilterSnoc<C, T>(s: seq<T>, i: int, ctx: C, keep: (C, T) -> bool)
    requires 0 <= i < |s|
    ensures Filter(s[..i + 1], ctx, keep)
         == Filter(s[..i], ctx, keep) + (if keep(ctx, s[i]) then [s[i]] else [])
  {
    assert s[..i + 1] == s[..i] + [s[i]];
    FilterAppend(s[..i], [s[i]], ctx, keep);
  }

  /** An element is kept exactly when it occurs in the input and passes the test. */
  lemma {:induction false} FilterMembers<C, T>(s: seq<T>, ctx: C, keep: (C, T) -> bool, x: T)
    ensures x in Filter(s, ctx, keep) <==> x in s && keep(ctx, x)
  {
    if |s| > 0 {
      FilterMembers(s[1..], ctx, keep, x);
      assert s == [s[0]] + s[1..];
    }
  }

  /** The kept elements keep their input order. */
  lemma {:induction false} FilterSubsequence<C, T>(s: seq<T>, ctx: C, keep: (C, T) -> bool)
    ensures Subsequence(Filter(s, ctx, keep), s)
  {
    if |s| > 0 {
      FilterSubsequence(s[1..], ctx, keep);
      var r := Filter(s[1..], ctx, keep);
      if keep(ctx, s[0]) {
        assert ([s[0]] + r)[0] == s[0] && ([s[0]] + r)[1..] == r;
      } else {
        assert Filter(s, ctx, keep) == r;
        if |r| > 0 {
          assert r[0] in r;
          FilterMembers(s[1..], ctx, keep, r[0]);
          assert r[0] != s[0];
        }
      }
    }
  }

  /** Some element satisfies `f` exactly when some element before the last does, or the last one does. */
  lemma ExistsSnoc<T>(s: seq<T>, prefix: seq<T>, f: T -> bool)
    requires |s| > 0 && prefix == s[..|s| - 1]
    ensures (exists i :: 0 <= i < |s| && f(s[i])) <==>
      (exists i :: 0 <= i < |prefix| && f(prefix[i])) || f(s[|s| - 1])
  {
    var n := |s| - 1;
    if exists i :: 0 <= i < n && f(prefix[i]) {
      var i :| 0 <= i < n && f(prefix[i]);
      assert s[i] == prefix[i];
    }
    if exists i :: 0 <= i < |s| && f(s[i]) {
      var i :| 0 <= i < |s| && f(s[i]);
      if i < n {
        assert prefix[i] == s[i];
      }
    }
  }

  /** Every element satisfies `f` exactly when every element before the last does and the last one does. */
  lemma ForallSnoc<T>(s: seq<T>, prefix: seq<T>, f: T -> bool)
    requires |s| > 0 && prefix == s[..|s| - 1]
    ensures (forall i :: 0 <= i < |s| ==> f(s[i])) <==>
      (forall i :: 0 <= i < |prefix| ==> f(prefix[i])) && f(s[|s| - 1])
  {
    forall i | 0 <= i < |prefix|
      ensures prefix[i] == s[i]
    {
    }
  }

  /** The pieces `f` gives for each element, concatenated in order. */
  function FlatMap<T, U>(f: T -> seq<U>, s: seq<T>): seq<U>
  {
    if |s| == 0 then [] else FlatMap(f, s[..|s| - 1]) + f(s[|s| - 1])
  }

  lemma FlatMapStep<T, U>(f: T -> seq<U>, s: seq<T>, i: nat)
    requires i < |s|
    ensures FlatMap(f, s[..i + 1]) == FlatMap(f, s[..i]) + f(s[i])
  {
    assert s[..i + 1][..i] == s[..i];
  }

  /** Whatever `f` gives for an element is in the result. */
  lemma {:induction false} FlatMapHas<T, U>(f: T -> seq<U>, s: seq<T>, i: nat, y: U)
    requires i < |s| && y in f(s[i])
    ensures y in FlatMap(f, s)
  {
    var n := |s| - 1;
    if i < n {
      assert s[..n][i] == s[i];
      FlatMapHas(f, s[..n], i, y);
    }
  }

  /** Everything in the result comes from some element. */
  lemma {:induction false} FlatMapFrom<T, U>(f: T -> seq<U>, s: seq<T>, y: U)
    requires y in FlatMap(f, s)
    ensures exists i :: 0 <= i < |s| && y in f(s[i])
  {
    var n := |s| - 1;
    if y in FlatMap(f, s[..n]) {
      FlatMapFrom(f, s[..n], y);
      var i :| 0 <= i < n && y in f(s[..n][i]);
      assert s[..n][i] == s[i];
    }
  }

  lemma {:induction false} FlatMapAppend<T, U>(f: T -> seq<U>, a: seq<T>, b: seq<T>)
    ensures FlatMap(f, a + b) == FlatMap(f, a) + FlatMap(f, b)
    decreases |b|
  {
    if |b| > 0 {
      var n := |b| - 1;
      assert (a + b)[..|a + b| - 1] == a + b[..n];
      FlatMapAppend(f, a, b[..n]);
    } else {
      assert a + b == a;
    }
  }

  /** Each element's piece sits between the pieces of the elements before and after it. */
  lemma FlatMapAt<T, U>(f: T -> seq<U>, s: seq<T>, i: nat)
    requires i < |s|
    ensures FlatMap(f, s) == FlatMap(f, s[..i]) + f(s[i]) + FlatMap(f, s[i + 1..])
  {
    assert s == s[..i + 1] + s[i + 1..];
    FlatMapAppend(f, s[..i + 1], s[i + 1..]);
    FlatMapStep(f, s, i);
  }

  /** Elements that give the same pieces give the same result. */
  lemma {:induction false} FlatMapSame<T, U>(f: T -> seq<U>, s: seq<T>, t: seq<T>)
    requires |s| == |t|
    requires forall i :: 0 <= i < |s| ==> f(s[i]) == f(t[i])
    ensures FlatMap(f, s) == FlatMap(f, t)
  {
    if |s| > 0 {
      var n := |s| - 1;
      FlatMapSame(f, s[..n], t[..n]);
    }
  }
}
