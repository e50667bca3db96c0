/**
 * The auto-queries of the reference implementation and their catalog: introspection
 * queries over the graph whose results feed the schema.
 */
module AutoQueries {
  import opened Wrappers
  import opened Text
  import opened Values

  /** The part of the database the auto-queries read. */
  datatype Graph = Graph(
    names: seq<string>,                              // COLLECT(n.name) over NamedIndividual nodes
    labels: seq<string>,                             // the records of db.labels()
    relTypes: seq<string>,                           // the records of db.relationshipTypes()
    nodeProps: map<string, seq<(string, string)>>)   // name -> property dict of that NamedIndividual

  /**
   * What Python leaves open: the permutation `random.shuffle` picks, and the order in
   * which `list(...)` enumerates a set of strings.
   */
  datatype Chance = Chance(shuffle: seq<Elem> -> seq<Elem>, enumerate: set<string> -> seq<string>)

  // ---------------------------------------------------------------------------
  // get_properties

  predicate KeyNotIn(keys: seq<string>, e: (string, string)) { e.0 !in keys }

  /** The entries of a property dict whose key is not one of `keys`, in order. */
  function WithoutKeys(d: seq<(string, string)>, keys: seq<string>): seq<(string, string)>
  {
    Filter(d, keys, KeyNotIn)
  }

  /** The property dict that `get_properties` returns for `name`, or the TypeError of a missing node. */
  function PropertiesOf(g: Graph, sys: seq<string>, name: string): Result<seq<(string, string)>>
  {
    if name in g.nodeProps then Ok(WithoutKeys(g.nodeProps[name], sys)) else Fail(TypeError)
  }

  /** No system key survives, every other entry does, and the entries keep their order. */
  lemma PropertiesOfSpec(g: Graph, sys: seq<string>, name: string)
    requires name in g.nodeProps
    ensures PropertiesOf(g, sys, name).Ok?
    ensures forall e :: e in PropertiesOf(g, sys, name).value <==> e in g.nodeProps[name] && e.0 !in sys
    ensures Subsequence(PropertiesOf(g, sys, name).value, g.nodeProps[name])
  {
    forall e ensures e in WithoutKeys(g.nodeProps[name], sys) <==> e in g.nodeProps[name] && e.0 !in sys {
      FilterMembers(g.nodeProps[name], sys, KeyNotIn, e);
    }
    FilterSubsequence(g.nodeProps[name], sys, KeyNotIn);
  }

  /** Popping key `k`, if present, from a property dict with distinct keys. */
  function Pop(d: seq<(string, string)>, k: string): seq<(string, string)>
  {
    WithoutKeys(d, [k])
  }

  lemma {:induction false} PopStep(d: seq<(string, string)>, keys: seq<string>, k: string)
    ensures Pop(WithoutKeys(d, keys), k) == WithoutKeys(d, keys + [k])
  {
    if |d| > 0 {
      PopStep(d[1..], keys, k);
      var w := WithoutKeys(d[1..], keys);
      if d[0].0 !in keys {
        assert WithoutKeys(d, keys) == [d[0]] + w;
        assert ([d[0]] + w)[1..] == w;
      } else {
        assert WithoutKeys(d, keys) == w;
      }
    }
  }

  method GetProperties(g: Graph, sys: seq<string>, name: string) returns (r: Result<seq<(string, string)>>)
    ensures r == PropertiesOf(g, sys, name)
  {
    if name !in g.nodeProps {
      return Fail(TypeError);  // `record.single()` is None and `None['props']` raises
    }
    var props := g.nodeProps[name];
    var i := 0;
    assert sys[..0] == [];
    WithoutNoKeys(props);
    while i < |sys|
      invariant 0 <= i <= |sys|
      invariant props == WithoutKeys(g.nodeProps[name], sys[..i])
    {
      PopStep(g.nodeProps[name], sys[..i], sys[i]);
      assert sys[..i + 1] == sys[..i] + [sys[i]];
      if sys[i] in Keys(props) {
        props := Pop(props, sys[i]);
      } else {
        PopAbsent(props, sys[i]);
      }
      i := i + 1;
    }
    assert sys[..i] == sys;
    r := Ok(props);
  }

  lemma {:induction false} WithoutNoKeys(d: seq<(string, string)>)
    ensures WithoutKeys(d, []) == d
  {
    if |d| > 0 {
      WithoutNoKeys(d[1..]);
    }
  }

  lemma {:induction false} PopAbsent(d: seq<(string, string)>, k: string)
    requires k !in Keys(d)
    ensures Pop(d, k) == d
  {
    if |d| > 0 {
      assert Keys(d) == [d[0].0] + Keys(d[1..]);
      PopAbsent(d[1..], k);
    }
  }

  // ---------------------------------------------------------------------------
  // object_properties

  /** One round of the fetching loop: read `pair[0]`, fetch that node's properties, append them. */
  function Extend(g: Graph, sys: seq<string>, acc: Result<seq<Value>>, e: Elem): Result<seq<Value>>
  {
    match acc
    case Fail(err) => Fail(err)
    case Ok(vs) =>
      match First(e)
      case Fail(err) => Fail(err)
      case Ok(v) =>
        match PropertiesOf(g, sys, Show(v))
        case Fail(err) => Fail(err)
        case Ok(p) => Ok(vs + [Props(p)])
  }

  /** The property dicts of the names in `es` (`pair[0]` of each), stopping at the first error. */
  function Fetched(g: Graph, sys: seq<string>, es: seq<Elem>): Result<seq<Value>>
  {
    if |es| == 0 then Ok([]) else Extend(g, sys, Fetched(g, sys, es[..|es| - 1]), es[|es| - 1])
  }

  /** The first failure ends the loop: what follows it does not matter. */
  lemma {:induction false} FetchedFailExtends(g: Graph, sys: seq<string>, es: seq<Elem>, k: nat)
    requires k <= |es| && Fetched(g, sys, es[..k]).Fail?
    ensures Fetched(g, sys, es) == Fetched(g, sys, es[..k])
    decreases |es|
  {
    if k < |es| {
      var init := es[..|es| - 1];
      assert init[..k] == es[..k];
      FetchedFailExtends(g, sys, init, k);
    } else {
      assert es[..k] == es;
    }
  }

  /** An element whose `pair[0]` names a node of the graph. */
  predicate Resolvable(g: Graph, e: Elem)
  {
    First(e).Ok? && Show(First(e).value) in g.nodeProps
  }

  /**
   * Fetching succeeds exactly when every element names a node; then it yields, in order,
   * one property dict per element, with the system keys removed.
   */
  lemma {:induction false} FetchedElementwise(g: Graph, sys: seq<string>, es: seq<Elem>)
    ensures Fetched(g, sys, es).Ok? <==> forall i :: 0 <= i < |es| ==> Resolvable(g, es[i])
    ensures Fetched(g, sys, es).Ok? ==>
      |Fetched(g, sys, es).value| == |es| &&
      forall i :: 0 <= i < |es| ==>
        Fetched(g, sys, es).value[i] == Props(WithoutKeys(g.nodeProps[Show(First(es[i]).value)], sys))
  {
    if |es| > 0 {
      var n := |es| - 1;
      var init := es[..n];
      FetchedElementwise(g, sys, init);
      var prev := Fetched(g, sys, init);
      assert Fetched(g, sys, es) == Extend(g, sys, prev, es[n]);
      assert forall i :: 0 <= i < n ==> init[i] == es[i];
      if prev.Ok? && Resolvable(g, es[n]) {
        var name := Show(First(es[n]).value);
        assert PropertiesOf(g, sys, name) == Ok(WithoutKeys(g.nodeProps[name], sys));
      }
    }
  }

  /**
   * object_properties(tx, schema, c_lim, randomizer). `None` gives `[]`; a schema that is
   * not a dict, or a `c_lim` that is not a number, raises TypeError; a missing NAMES raises
   * KeyError. `c_lim` is first clamped to the number of names; the loop then stops after
   * the `c_lim`-th name, which never happens when `c_lim <= 0`.
   */
  function ObjectPropertiesOf(g: Graph, sys: seq<string>, ch: Chance, schema: Param, cLim: Param, randomizer: Param)
    : Result<seq<Value>>
  {
    match schema
    case PNone => Ok([])
    case PSchema(d) =>
      (match Get(d, "NAMES")
       case None => Fail(KeyError)
       case Some(names) =>
         match AsInt(cLim)
         case None => Fail(TypeError)
         case Some(c) =>
           var lim := if c > |names| then |names| else c;
           var order := if Truthy(randomizer) then ch.shuffle(names) else names;
           Fetched(g, sys, TakeUpTo(order, lim)))
    case _ => Fail(TypeError)
  }

  /**
   * Without shuffling, and when every name resolves, the result holds one dict per name
   * for the first `min(c_lim, len(NAMES))` names in list order, or for all names when
   * `c_lim <= 0`.
   */
  lemma ObjectPropertiesFirstNames(g: Graph, sys: seq<string>, ch: Chance, d: Dict<seq<Elem>>, c: int)
    requires Get(d, "NAMES").Some?
    requires forall e :: e in Get(d, "NAMES").value ==> Resolvable(g, e)
    ensures var names := Get(d, "NAMES").value;
      var n := if 1 <= c < |names| then c else |names|;
      var r := ObjectPropertiesOf(g, sys, ch, PSchema(d), PInt(c), PBool(false));
      r.Ok? && |r.value| == n &&
      forall i :: 0 <= i < n ==>
        Resolvable(g, names[i]) && r.value[i] == Props(WithoutKeys(g.nodeProps[Show(First(names[i]).value)], sys))
  {
    var names := Get(d, "NAMES").value;
    var lim := if c > |names| then |names| else c;
    var taken := TakeUpTo(names, lim);
    assert ObjectPropertiesOf(g, sys, ch, PSchema(d), PInt(c), PBool(false)) == Fetched(g, sys, taken);
    forall i | 0 <= i < |taken| ensures Resolvable(g, taken[i]) {
      assert taken[i] == names[i];
      assert names[i] in names;
    }
    FetchedElementwise(g, sys, taken);
  }

  method ObjectProperties(g: Graph, sys: seq<string>, ch: Chance, schema: Param, cLim: Param, randomizer: Param)
    returns (r: Result<seq<Value>>)
    ensures r == ObjectPropertiesOf(g, sys, ch, schema, cLim, randomizer)
  {
    if schema.PNone? {
      return Ok([]);
    }
    if !schema.PSchema? {
      return Fail(TypeError);
    }
    var found := Get(schema.schema, "NAMES");
    if found.None? {
      return Fail(KeyError);
    }
    var names := found.value;  // a copy: the caller's list is not touched
    var given := AsInt(cLim);
    if given.None? {
      return Fail(TypeError);
    }
    var lim := given.value;
    if lim > |names| {
      lim := |names|;
    }
    if Truthy(randomizer) {
      names := ch.shuffle(names);
    }
    r := FetchNames(g, sys, names, lim);
  }

  /** The counter loop of object_properties: fetch names in order and stop after the `lim`-th. */
  method FetchNames(g: Graph, sys: seq<string>, names: seq<Elem>, lim: int) returns (r: Result<seq<Value>>)
    ensures r == Fetched(g, sys, TakeUpTo(names, lim))
  {
    var out: seq<Value> := [];
    var c := 0;
    while c < |names|
      invariant 0 <= c <= |names|
      invariant lim >= 1 ==> c < lim
      invariant Fetched(g, sys, names[..c]) == Ok(out)
    {
      FetchedStep(g, sys, names, c);
      c := c + 1;
      var v := First(names[c - 1]);
      if v.Fail? {
        FetchedFailPrefix(g, sys, names, lim, c);
        return Fail(v.error);
      }
      var p := GetProperties(g, sys, Show(v.value));
      if p.Fail? {
        FetchedFailPrefix(g, sys, names, lim, c);
        return Fail(p.error);
      }
      out := out + [Props(p.value)];
      if c == lim {
        assert TakeUpTo(names, lim) == names[..c];
        return Ok(out);
      }
    }
    assert names[..c] == names == TakeUpTo(names, lim);
    r := Ok(out);
  }

  lemma FetchedStep(g: Graph, sys: seq<string>, es: seq<Elem>, c: nat)
    requires c < |es|
    ensures Fetched(g, sys, es[..c + 1]) == Extend(g, sys, Fetched(g, sys, es[..c]), es[c])
  {
    assert es[..c + 1][..c] == es[..c];
    assert es[..c + 1][c] == es[c];
  }

  lemma FetchedFailPrefix(g: Graph, sys: seq<string>, names: seq<Elem>, lim: int, c: nat)
    requires 1 <= c <= |names| && (lim >= 1 ==> c <= lim)
    requires Fetched(g, sys, names[..c]).Fail?
    ensures Fetched(g, sys, TakeUpTo(names, lim)) == Fetched(g, sys, names[..c])
  {
    var taken := TakeUpTo(names, lim);
    assert taken[..c] == names[..c];
    FetchedFailExtends(g, sys, taken, c);
  }

  // ---------------------------------------------------------------------------
  // relationships_names

  predicate NotListed(sys: seq<string>, name: string) { name !in sys }

  /** The limit a `c_lim` argument imposes: `c == c_lim != 0` never holds for a non-number. */
  function CountLimit(cLim: Param): int
  {
    match AsInt(cLim) case Some(i) => i case None => 0
  }

  /**
   * The set that relationships_names collects: the relationship types not listed
   * (case-sensitively) in `sys_labels`, up to the `c_lim`-th such record.
   */
  function RelationshipNameSet(g: Graph, sys: seq<string>, cLim: Param): set<string>
  {
    Elems(TakeUpTo(Filter(g.relTypes, sys, NotListed), CountLimit(cLim)))
  }

  /** The set of the elements of a list: `set(...)` of the collected names. */
  function Elems(s: seq<string>): set<string>
  {
    set x | x in s
  }

  lemma ElemsSnoc(s: seq<string>, x: string)
    ensures Elems(s + [x]) == Elems(s) + {x}
  {
  }

  /**
   * A listing of the collected set has no system name, no duplicate, and with `c_lim > 0`
   * at most `c_lim` names.
   */
  lemma RelationshipNamesBound(g: Graph, sys: seq<string>, cLim: Param, r: seq<string>)
    requires Enumerates(r, RelationshipNameSet(g, sys, cLim))
    ensures forall x :: x in r ==> x in g.relTypes && x !in sys
    ensures CountLimit(cLim) >= 1 ==> |r| <= CountLimit(cLim)
  {
    var kept := Filter(g.relTypes, sys, NotListed);
    var taken := TakeUpTo(kept, CountLimit(cLim));
    forall x | x in r ensures x in g.relTypes && x !in sys {
      assert x in taken;
      assert x in kept;
      FilterMembers(g.relTypes, sys, NotListed, x);
    }
    DistinctDrawnBound(r, taken);
  }

  method RelationshipsNames(g: Graph, sys: seq<string>, ch: Chance, cLim: Param) returns (r: seq<string>)
    ensures r == ch.enumerate(RelationshipNameSet(g, sys, cLim))
  {
    var lim := CountLimit(cLim);
    var relations: set<string> := {};
    var c := 0;
    var i := 0;
    ghost var kept: seq<string> := [];
    assert g.relTypes[..0] == [];
    while i < |g.relTypes|
      invariant 0 <= i <= |g.relTypes|
      invariant kept == Filter(g.relTypes[..i], sys, NotListed)
      invariant c == |kept| && relations == Elems(kept)
      invariant lim >= 1 ==> c < lim
    {
      FilterSnoc(g.relTypes, i, sys, NotListed);
      var name := g.relTypes[i];
      i := i + 1;
      if name in sys {
        continue;
      }
      ElemsSnoc(kept, name);
      relations := relations + {name};
      c := c + 1;
      kept := kept + [name];
      if c == lim && lim != 0 {
        KeptPrefix(g.relTypes, i, sys, lim);
        return ch.enumerate(relations);
      }
    }
    assert g.relTypes[..i] == g.relTypes;
    assert TakeUpTo(kept, lim) == kept;
    r := ch.enumerate(relations);
  }

  lemma KeptPrefix(s: seq<string>, i: int, sys: seq<string>, lim: int)
    requires 0 <= i <= |s| && lim >= 1 && |Filter(s[..i], sys, NotListed)| == lim
    ensures TakeUpTo(Filter(s, sys, NotListed), lim) == Filter(s[..i], sys, NotListed)
  {
    assert s == s[..i] + s[i..];
    FilterAppend(s[..i], s[i..], sys, NotListed);
  }

  // ---------------------------------------------------------------------------
  // labels_names

  predicate LabelKept(sys: seq<string>, l: string) { Lower(l) !in sys }

  /** The labels whose lower-case form is not a system label, in result order. */
  function LabelsOf(g: Graph, sys: seq<string>): seq<string>
  {
    Filter(g.labels, sys, LabelKept)
  }

  lemma LabelsOfSpec(g: Graph, sys: seq<string>)
    ensures forall l :: l in LabelsOf(g, sys) <==> l in g.labels && Lower(l) !in sys
    ensures Subsequence(LabelsOf(g, sys), g.labels)
  {
    forall l ensures l in LabelsOf(g, sys) <==> l in g.labels && Lower(l) !in sys {
      FilterMembers(g.labels, sys, LabelKept, l);
    }
    FilterSubsequence(g.labels, sys, LabelKept);
  }

  method LabelsNames(g: Graph, sys: seq<string>) returns (labels: seq<string>)
    ensures labels == LabelsOf(g, sys)
  {
    labels := [];
    for i := 0 to |g.labels|
      invariant labels == Filter(g.labels[..i], sys, LabelKept)
    {
      FilterSnoc(g.labels, i, sys, LabelKept);
      if Lower(g.labels[i]) !in sys {
        labels := labels + [g.labels[i]];
      }
    }
    assert g.labels[..|g.labels|] == g.labels;
  }

  // ---------------------------------------------------------------------------
  // The catalog and the call `session.execute_read(function, *params)`.

  datatype Executor = NamesQuery | LabelsQuery | ObjectPropertiesQuery | RelationshipsQuery

  datatype Format = ListFormat | ListOfDictFormat

  datatype CatalogEntry = CatalogEntry(exec: Executor, results: Format, heading: Option<string>)

  /** `global_aq_dict` */
  const Catalog: Dict<CatalogEntry> := [
    ("NAMES", CatalogEntry(NamesQuery, ListFormat, Some("Use these values for the 'name' property"))),
    ("LABELS", CatalogEntry(LabelsQuery, ListFormat, Some("These are the class labels: "))),
    ("OBJECT PROPERTIES", CatalogEntry(ObjectPropertiesQuery, ListOfDictFormat, Some("Here's some property values"))),
    ("RELATIONSHIPS NAMES", CatalogEntry(RelationshipsQuery, ListFormat,
      Some("These are the relationships: *don't invent other relationships*")))
  ]

  /** The catalog knows exactly four names, each with a distinct executor and a heading. */
  lemma CatalogShape()
    ensures Keys(Catalog) == ["NAMES", "LABELS", "OBJECT PROPERTIES", "RELATIONSHIPS NAMES"]
    ensures forall name :: Get(Catalog, name).Some? <==> name in Keys(Catalog)
    ensures forall i :: 0 <= i < |Catalog| ==> Catalog[i].1.heading.Some?
    ensures forall i, j :: 0 <= i < j < |Catalog| ==> Catalog[i].1.exec != Catalog[j].1.exec
    ensures Get(Catalog, "OBJECT PROPERTIES") == Some(Catalog[2].1) && Catalog[2].1.results == ListOfDictFormat
    ensures Get(Catalog, "RELATIONSHIPS VISUAL") == None
  {
  }

  lemma CatalogKeys()
    ensures Keys(Catalog) == ["NAMES", "LABELS", "OBJECT PROPERTIES", "RELATIONSHIPS NAMES"]
  {
  }

  function Strs(xs: seq<string>): (r: seq<Value>)
    ensures |r| == |xs| && forall i :: 0 <= i < |xs| ==> r[i] == Str(xs[i])
  {
    seq(|xs|, i requires 0 <= i < |xs| => Str(xs[i]))
  }

  /** The argument at `i`, or the parameter's default when the call passes fewer. */
  function Arg(args: seq<Param>, i: nat, default: Param): Param
  {
    if i < |args| then args[i] else default
  }

  /**
   * What `execute_read(function, *params)` returns: more arguments than the function
   * declares raise TypeError; missing ones take the declared defaults.
   */
  function Executed(g: Graph, sys: seq<string>, ch: Chance, f: Executor, args: seq<Param>): Result<seq<Value>>
  {
    match f
    case NamesQuery => if |args| > 0 then Fail(TypeError) else Ok(Strs(g.names))
    case LabelsQuery => if |args| > 0 then Fail(TypeError) else Ok(Strs(LabelsOf(g, sys)))
    case ObjectPropertiesQuery =>
      if |args| > 3 then Fail(TypeError)
      else ObjectPropertiesOf(g, sys, ch, Arg(args, 0, PNone), Arg(args, 1, PInt(3)), Arg(args, 2, PBool(false)))
    case RelationshipsQuery =>
      if |args| > 1 then Fail(TypeError)
      else Ok(Strs(ch.enumerate(RelationshipNameSet(g, sys, Arg(args, 0, PInt(0))))))
  }

  method Execute(g: Graph, sys: seq<string>, ch: Chance, f: Executor, args: seq<Param>) returns (r: Result<seq<Value>>)
    ensures r == Executed(g, sys, ch, f, args)
  {
    match f
    case NamesQuery =>
      r := if |args| > 0 then Fail(TypeError) else Ok(Strs(g.names));
    case LabelsQuery =>
      if |args| > 0 {
        r := Fail(TypeError);
      } else {
        var labels := LabelsNames(g, sys);
        r := Ok(Strs(labels));
      }
    case ObjectPropertiesQuery =>
      if |args| > 3 {
        r := Fail(TypeError);
      } else {
        r := ObjectProperties(g, sys, ch, Arg(args, 0, PNone), Arg(args, 1, PInt(3)), Arg(args, 2, PBool(false)));
      }
    case RelationshipsQuery =>
      if |args| > 1 {
        r := Fail(TypeError);
      } else {
        var names := RelationshipsNames(g, sys, ch, Arg(args, 0, PInt(0)));
        r := Ok(Strs(names));
      }
  }
}
