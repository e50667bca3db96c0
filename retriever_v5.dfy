/**
 * The retriever of version 5: twelve catalogued auto-queries, some bound to arguments,
 * a full schema filled once, and a filtered schema rebuilt for each question by lexical,
 * node-property or top-10 dense filtering; groups are written with `#` templates, sorted.
 */
module RetrieverV5 {
  import opened Wrappers
  import opened Values
  import opened Dense
  import opened LegacyData
  import opened LegacyQueries
  import opened LegacySchema
  import opened Lexical

  /** `AQ.global_aq_dict` */
  const Catalog: Dict<Entry> := [
    ("LABELS", Entry(Collected(Labels), [], ListFormat, Some("Use only these Labels"), None, None)),
    ("PROPERTIES", Entry(Collected(PropKeys), [], ListFormat, None, None, None)),
    ("RELATIONSHIPS LIST", Entry(Collected(Relationships), [], ListOfDictFormat, None, None, None)),
    ("RELATIONSHIP TYPES", Entry(Collected(RelTypes), [], ListFormat, Some("These are the relationship types"), None, None)),
    ("NAMES", Entry(GetNames, [], ListFormat, Some("These are values for the 'name' property"), None, Some("dense"))),
    ("NODES_WITH_PROPS", Entry(GetNames, [], ListFormat, Some("These are values for the 'name' property"), None,
                               Some("node_props"))),
    ("GLOBAL SCHEMA", Entry(Collected(Global), [], ListOfDictFormat, None, None, None)),
    ("PROPS_PER_LABEL", Entry(PropsPerLabelQuery(true), [], GroupFormat, Some("Each label has these properties"),
                              Some("Label: `#` has ONLY these properties: "), None)),
    ("EXAMPLES_PER_LABEL", Entry(ExamplesPerLabelQuery, [ALimits(50, 5), AStr("name")], GroupFormat,
                                 Some("Examples per Label"), Some("Examples for `#` -> "), Some("dense-2"))),
    ("RELATIONSHIPS VISUAL", Entry(RelationshipsVisualQuery, [AInt(0)], ListFormat,
                                   Some("These are the relationship types per labels"), Some(""), None)),
    ("NODE PROPERTIES", Entry(NodePropertiesQuery, [AStr("Lamp_38")], OtherFormat("dict"), None, None, None)),
    ("CLASSES", Entry(Collected(Classes), [], ListFormat, Some("Here are all the available classes"), None, Some("dense")))
  ]

  /** print_dict_of_group: templates split on `#`, each group sorted. */
  const Style: GroupStyle := GroupStyle('#', true)

  /** dense_filtering's default `k_lim`, which filter_schema does not override. */
  const DenseK: int := 10

  /** The modes filter_schema dispatches on; every other mode passes the entry through. */
  predicate Dispatched(mode: Option<string>)
  {
    mode == Some("lexical") || mode == Some("node_props") || mode == Some("dense")
  }

  /**
   * The catalog's names, in order, and the modes they carry: NAMES and CLASSES are
   * dense, NODES_WITH_PROPS is node_props, and EXAMPLES_PER_LABEL's 'dense-2' is not
   * a mode filter_schema knows.
   */
  lemma CatalogShape()
    ensures Keys(Catalog) == ["LABELS", "PROPERTIES", "RELATIONSHIPS LIST", "RELATIONSHIP TYPES", "NAMES",
                              "NODES_WITH_PROPS", "GLOBAL SCHEMA", "PROPS_PER_LABEL", "EXAMPLES_PER_LABEL",
                              "RELATIONSHIPS VISUAL", "NODE PROPERTIES", "CLASSES"]
    ensures forall i :: 0 <= i < |Catalog| ==> (Catalog[i].1.filter == Some("dense") <==> i == 4 || i == 11)
    ensures forall i :: 0 <= i < |Catalog| ==> (Catalog[i].1.filter == Some("node_props") <==> i == 5)
    ensures forall i :: 0 <= i < |Catalog| ==> Catalog[i].1.filter != Some("lexical")
    ensures Catalog[8].1.filter == Some("dense-2") && !Dispatched(Catalog[8].1.filter)
  {
  }

  // ---------------------------------------------------------------------------
  // init_global_schema

  /** init_global_schema runs every required entry, with the arguments its tuple binds, and no `try`. */
  function Run(db: Db, sys: seq<string>, order: Listing, name: string): Option<Result<Response>>
  {
    match Get(Catalog, name)
    case None => Some(Fail(KeyError))
    case Some(e) => Some(Executed(db, sys, order, e.query, e.args))
  }

  function Runner(db: Db, sys: seq<string>, order: Listing): string -> Option<Result<Response>>
  {
    n => Run(db, sys, order, n)
  }

  /**
   * A completed initialisation stores under every required name what its query returns,
   * and leaves every other key as it was; a failing query stops it, with that failure.
   */
  lemma InitSpec(db: Db, sys: seq<string>, order: Listing, full: Dict<Response>, names: seq<string>)
    ensures var p := InitPass(Runner(db, sys, order), full, names);
      p.crashed.None? ==> forall n :: n in names ==>
        (n in Keys(Catalog) &&
         Executed(db, sys, order, Get(Catalog, n).value.query, Get(Catalog, n).value.args).Ok? &&
         Get(p.full, n) == Some(Executed(db, sys, order, Get(Catalog, n).value.query, Get(Catalog, n).value.args).value))
    ensures var p := InitPass(Runner(db, sys, order), full, names);
      p.crashed.None? ==> forall n :: n !in names ==> Get(p.full, n) == Get(full, n)
    ensures var p := InitPass(Runner(db, sys, order), full, names);
      p.crashed.Some? ==> exists i :: 0 <= i < |names| && Runner(db, sys, order)(names[i]) == Some(Fail(p.crashed.value))
  {
    var run := Runner(db, sys, order);
    InitPassDone(run, full, names);
    InitPassCrash(run, full, names);
    var p := InitPass(run, full, names);
    if p.crashed.None? {
      forall n | n in names
        ensures n in Keys(Catalog) &&
          Executed(db, sys, order, Get(Catalog, n).value.query, Get(Catalog, n).value.args).Ok? &&
          Get(p.full, n) == Some(Executed(db, sys, order, Get(Catalog, n).value.query, Get(Catalog, n).value.args).value)
      {
        var i :| 0 <= i < |names| && names[i] == n;
        assert Ran(run, names[i]);
      }
    }
  }

  /** RELATIONSHIPS VISUAL is bound to mode 0, which its executor accepts. */
  lemma RelationshipsVisualBound(db: Db, sys: seq<string>, order: Listing)
    ensures Run(db, sys, order, "RELATIONSHIPS VISUAL") == Some(Ok(Items(TextItems(order(PatternSet(sys, 0, db.relations))))))
  {
    GetAt(Catalog, 9, "RELATIONSHIPS VISUAL");
    RelationshipsVisualRun(db, sys, order, 0);
  }

  /** NODE PROPERTIES fetches the properties of the node named `Lamp_38`. */
  lemma NodePropertiesBound(db: Db, sys: seq<string>, order: Listing)
    ensures Run(db, sys, order, "NODE PROPERTIES") == Some(Ok(NodePropsOf(db, sys, "Lamp_38")))
  {
    GetAt(Catalog, 10, "NODE PROPERTIES");
    NodePropertiesRun(db, sys, order, "Lamp_38");
  }

  /** EXAMPLES_PER_LABEL collects up to 50 `name` values per label. */
  lemma ExamplesBound(db: Db, sys: seq<string>, order: Listing)
    ensures Run(db, sys, order, "EXAMPLES_PER_LABEL") == Some(ExamplesResult(db, 50, "name"))
  {
    GetAt(Catalog, 8, "EXAMPLES_PER_LABEL");
    ExamplesPerLabelRun(db, sys, order, 50, 5, "name");
  }

  // ---------------------------------------------------------------------------
  // node_props_filtering

  /** The first result of node_properties for each name, stopping at the first failure. */
  function NodeDicts(db: Db, sys: seq<string>, names: seq<string>): Result<seq<Item>>
  {
    if |names| == 0 then Ok([])
    else
      match NodeDicts(db, sys, names[..|names| - 1])
      case Fail(e) => Fail(e)
      case Ok(xs) =>
        match Head(NodePropsOf(db, sys, names[|names| - 1]))
        case Fail(e) => Fail(e)
        case Ok(x) => Ok(xs + [x])
  }

  /**
   * One property dict per name, in order, holding that node's non-system properties; a
   * name no node carries makes node_properties return `{}`, and `{}[0]` raises KeyError.
   */
  lemma {:induction false} NodeDictsSpec(db: Db, sys: seq<string>, names: seq<string>)
    ensures NodeDicts(db, sys, names).Ok? <==> forall i :: 0 <= i < |names| ==> names[i] in db.graph.nodeProps
    ensures NodeDicts(db, sys, names).Fail? ==> NodeDicts(db, sys, names).error == KeyError
    ensures NodeDicts(db, sys, names).Ok? ==>
      var xs := NodeDicts(db, sys, names).value;
      |xs| == |names| &&
      forall i :: 0 <= i < |names| ==>
        xs[i].DictItem? && forall e :: e in xs[i].entries <==> e in db.graph.nodeProps[names[i]] && e.0 !in sys
  {
    if |names| > 0 {
      var init := names[..|names| - 1];
      var last := names[|names| - 1];
      NodeDictsSpec(db, sys, init);
      NodePropsSpec(db, sys, last);
      if NodeDicts(db, sys, init).Fail? {
        var i :| 0 <= i < |init| && init[i] !in db.graph.nodeProps;
        assert names[i] == init[i];
      }
    }
  }

  /** node_props_filtering: lexical filtering, then the property dict of each surviving name. */
  function NodePropsKept(db: Db, sys: seq<string>, results: Response, q: string): Result<seq<Item>>
  {
    match LexicalV5(results, q)
    case Fail(e) => Fail(e)
    case Ok(names) => NodeDicts(db, sys, names)
  }

  // ---------------------------------------------------------------------------
  // filter_schema

  /** A required name the catalog lacks raises KeyError before anything is read. */
  function Direct(name: string): Option<Result<Response>>
  {
    if name in Keys(Catalog) then None else Some(Fail(KeyError))
  }

  /** What filter_schema makes of a stored response, by the entry's filter mode. */
  function Keep(db: Db, sys: seq<string>, score: Item -> real, q: string, name: string, v: Response): Result<Response>
  {
    match Get(Catalog, name)
    case None => Ok(v)
    case Some(e) =>
      if e.filter == Some("lexical") then
        (match LexicalV5(v, q)
         case Fail(err) => Fail(err)
         case Ok(ss) => Ok(Items(TextItems(ss))))
      else if e.filter == Some("node_props") then
        (match NodePropsKept(db, sys, v, q)
         case Fail(err) => Fail(err)
         case Ok(xs) => Ok(Items(xs)))
      else if e.filter == Some("dense") then
        (match DenseKept(v, score, DenseK)
         case Fail(err) => Fail(err)
         case Ok(xs) => Ok(Items(xs)))
      else Ok(v)
  }

  function KeepFor(db: Db, sys: seq<string>, score: Item -> real, q: string): (string, Response) -> Result<Response>
  {
    (n, v) => Keep(db, sys, score, q, n, v)
  }

  /**
   * The outcome of one catalogued name: the lexically kept strings, the property dicts
   * of the lexically kept names, the top 10 by similarity, or, for every other mode
   * ('dense-2' and no mode included), the stored response unchanged.
   */
  lemma OutcomeSpec(db: Db, sys: seq<string>, score: Item -> real, q: string, full: Dict<Response>, n: string)
    ensures n !in Keys(Catalog) ==> Outcome(Direct, KeepFor(db, sys, score, q), full, n) == Fail(KeyError)
    ensures n in Keys(Catalog) ==>
      var o := Outcome(Direct, KeepFor(db, sys, score, q), full, n);
      var v := ReadOf(full, n);
      var mode := Get(Catalog, n).value.filter;
      (mode == Some("lexical") ==> (o.Ok? <==> LexicalV5(v, q).Ok?) && (o.Ok? ==> o.value == Items(TextItems(LexicalV5(v, q).value)))) &&
      (mode == Some("node_props") ==> (o.Ok? <==> NodePropsKept(db, sys, v, q).Ok?) && (o.Ok? ==> o.value == Items(NodePropsKept(db, sys, v, q).value))) &&
      (mode == Some("dense") ==> (o.Ok? <==> !v.Cursor?) && (o.Ok? && v.Items? ==> o.value == Items(TopK(v.items, score, DenseK)))) &&
      (!Dispatched(mode) ==> o == Ok(v))
  {
    if n in Keys(Catalog) {
      DenseKeptSpec(ReadOf(full, n), score, DenseK);
    }
  }

  /**
   * filter_schema completes exactly when every required name's outcome is a value, and
   * then maps exactly the required names to their outcomes (see OutcomeSpec); otherwise
   * it stops with the first failing name's exception.
   */
  lemma FilterSpec(db: Db, sys: seq<string>, score: Item -> real, q: string, full: Dict<Response>, names: seq<string>)
    ensures var p := FilterPass(Direct, KeepFor(db, sys, score, q), full, names);
      p.crashed.None? <==> forall i :: 0 <= i < |names| ==> Outcome(Direct, KeepFor(db, sys, score, q), full, names[i]).Ok?
    ensures var p := FilterPass(Direct, KeepFor(db, sys, score, q), full, names);
      p.crashed.None? ==> forall n :: n in Keys(p.filtered) <==> n in names
    ensures var p := FilterPass(Direct, KeepFor(db, sys, score, q), full, names);
      p.crashed.None? ==> forall n :: n in names ==>
        (Outcome(Direct, KeepFor(db, sys, score, q), full, n).Ok? &&
         Get(p.filtered, n) == Some(Outcome(Direct, KeepFor(db, sys, score, q), full, n).value))
    ensures var p := FilterPass(Direct, KeepFor(db, sys, score, q), full, names);
      p.crashed.Some? ==> exists i :: (0 <= i < |names| &&
                                       Outcome(Direct, KeepFor(db, sys, score, q), full, names[i]) == Fail(p.crashed.value) &&
                                       forall j :: 0 <= j < i ==> Outcome(Direct, KeepFor(db, sys, score, q), full, names[j]).Ok?)
  {
    var keep := KeepFor(db, sys, score, q);
    FilterPassDone(Direct, keep, full, names);
    FilterPassCrash(Direct, keep, full, names);
    var p := FilterPass(Direct, keep, full, names);
    if p.crashed.Some? {
      var i :| 0 <= i < |names| && Outcome(Direct, keep, full, names[i]) == Fail(p.crashed.value) &&
        forall j :: 0 <= j < i ==> Outcome(Direct, keep, full, names[j]).Ok?;
    }
  }

  // ---------------------------------------------------------------------------
  // The retriever object.

  class DataRetriever {
    const db: Db
    const sys: seq<string>
    const order: Listing
    const sim: (string, Item) -> real  // similarity of the question's embedding to an element's
    const aqRequired: seq<string>
    var fullSchema: Dict<Response>
    var filteredSchema: Option<Dict<Response>>

    /** The required auto-queries are those of `requiredAq` the catalog knows, or all of them. */
    constructor (db: Db, sys: seq<string>, order: Listing, sim: (string, Item) -> real, requiredAq: Option<seq<string>>)
      ensures this.db == db && this.sys == sys && this.order == order && this.sim == sim
      ensures aqRequired == Available(requiredAq, Keys(Catalog))
      ensures fullSchema == [] && filteredSchema == None
    {
      var aqs := InitAutoQueries(requiredAq, Keys(Catalog));
      this.db := db;
      this.sys := sys;
      this.order := order;
      this.sim := sim;
      aqRequired := aqs;
      fullSchema := [];
      filteredSchema := None;
    }

    /** The similarity of each element to the question. */
    function Similarity(question: string): Item -> real
    {
      x => sim(question, x)
    }

    /** init_global_schema: every required entry is launched, in order, and stored. */
    method InitGlobalSchema() returns (err: Option<PyError>)
      modifies this
      ensures var l := InitPass(Runner(db, sys, order), old(fullSchema), aqRequired);
        fullSchema == l.full && err == l.crashed
      ensures filteredSchema == old(filteredSchema)
    {
      ghost var run := Runner(db, sys, order);
      for i := 0 to |aqRequired|
        invariant InitPass(run, old(fullSchema), aqRequired[..i]) == Loaded(fullSchema, None)
        invariant filteredSchema == old(filteredSchema)
      {
        InitPassSnoc(run, old(fullSchema), aqRequired, i);
        err := InitEntry(aqRequired[i]);
        if err.Some? {
          InitPassCrashSticks(run, old(fullSchema), aqRequired, i + 1);
          return;
        }
      }
      assert aqRequired[..|aqRequired|] == aqRequired;
      err := None;
    }

    /** One required name of init_global_schema. */
    method InitEntry(name: string) returns (err: Option<PyError>)
      modifies this
      ensures var l := InitStep(Runner(db, sys, order), old(fullSchema), name);
        fullSchema == l.full && err == l.crashed
      ensures filteredSchema == old(filteredSchema)
    {
      var entry := Get(Catalog, name);
      if entry.None? {
        return Some(KeyError);
      }
      var response := Execute(db, sys, order, entry.value.query, entry.value.args);
      if response.Fail? {
        return Some(response.error);
      }
      fullSchema := Put(fullSchema, name, response.value);
      err := None;
    }

    /** reset_filter: the filtered schema becomes a copy of the full one. */
    method ResetFilter()
      modifies this
      ensures filteredSchema == Some(fullSchema) && fullSchema == old(fullSchema)
    {
      filteredSchema := Some(fullSchema);
    }

    /** `full_schema[name]` on the defaultdict. */
    method ReadFull(name: string) returns (v: Response)
      modifies this
      ensures (fullSchema, v) == Touch(old(fullSchema), name)
      ensures filteredSchema == old(filteredSchema)
    {
      var found := Get(fullSchema, name);
      if found.Some? {
        v := found.value;
      } else {
        fullSchema := fullSchema + [(name, Items([]))];
        v := Items([]);
      }
    }

    /** node_props_filtering: one property dict per lexically kept name, in order. */
    method NodePropsFiltering(results: Response, question: string) returns (r: Result<seq<Item>>)
      ensures r == NodePropsKept(db, sys, results, question)
    {
      var filtered := LexicalFilteringV5(results, question);
      if filtered.Fail? {
        return Fail(filtered.error);
      }
      var names := filtered.value;
      var allProps: seq<Item> := [];
      for i := 0 to |names|
        invariant NodeDicts(db, sys, names[..i]) == Ok(allProps)
      {
        assert names[..i + 1][..i] == names[..i];
        var nodeProps := NodeProperties(db, sys, names[i]);
        var first := Head(nodeProps);
        if first.Fail? {
          NodeDictsStuck(db, sys, names, i + 1);
          return Fail(first.error);
        }
        allProps := allProps + [first.value];
      }
      assert names[..|names|] == names;
      r := Ok(allProps);
    }

    /** dense_filtering: the `k_lim` elements most similar to the question, best first. */
    method DenseFiltering(results: Response, question: string, kLim: int := 10) returns (r: Result<seq<Item>>)
      ensures r == DenseKept(results, Similarity(question), kLim)
    {
      var score := Similarity(question);
      r := DenseTopK(results, score, kLim);
    }

    /**
     * filter_schema: a fresh dict over the required names, assigned only at the end; an
     * exception leaves the filtered schema as it was (the defaultdict reads stay).
     */
    method FilterSchema(question: string) returns (err: Option<PyError>)
      modifies this
      ensures var p := FilterPass(Direct, KeepFor(db, sys, Similarity(question), question), old(fullSchema), aqRequired);
        fullSchema == p.full && err == p.crashed &&
        filteredSchema == if p.crashed.None? then Some(p.filtered) else old(filteredSchema)
    {
      ghost var keep := KeepFor(db, sys, Similarity(question), question);
      var filtered: Dict<Response> := [];
      for i := 0 to |aqRequired|
        invariant FilterPass(Direct, keep, old(fullSchema), aqRequired[..i]) == Pass(fullSchema, filtered, None)
        invariant filteredSchema == old(filteredSchema)
      {
        FilterPassSnoc(Direct, keep, old(fullSchema), aqRequired, i);
        filtered, err := FilterEntry(question, filtered, aqRequired[i]);
        if err.Some? {
          FilterPassCrashSticks(Direct, keep, old(fullSchema), aqRequired, i + 1);
          return;
        }
      }
      assert aqRequired[..|aqRequired|] == aqRequired;
      filteredSchema := Some(filtered);
      err := None;
    }

    /** One required name of filter_schema, by its filter mode. */
    method FilterEntry(question: string, filtered: Dict<Response>, name: string)
      returns (filtered': Dict<Response>, err: Option<PyError>)
      modifies this
      ensures FilterStep(Direct, KeepFor(db, sys, Similarity(question), question), Pass(old(fullSchema), filtered, None), name)
        == Pass(fullSchema, filtered', err)
      ensures filteredSchema == old(filteredSchema)
    {
      filtered' := filtered;
      var entry := Get(Catalog, name);
      if entry.None? {
        return filtered, Some(KeyError);
      }
      var mode := entry.value.filter;
      var v := ReadFull(name);
      if mode == Some("lexical") {
        var out := LexicalFilteringV5(v, question);
        if out.Fail? {
          return filtered, Some(out.error);
        }
        filtered' := Put(filtered, name, Items(TextItems(out.value)));
      } else if mode == Some("node_props") {
        var out := NodePropsFiltering(v, question);
        if out.Fail? {
          return filtered, Some(out.error);
        }
        filtered' := Put(filtered, name, Items(out.value));
      } else if mode == Some("dense") {
        var out := DenseFiltering(v, question);
        if out.Fail? {
          return filtered, Some(out.error);
        }
        filtered' := Put(filtered, name, Items(out.value));
      } else {
        filtered' := Put(filtered, name, v);
      }
      err := None;
    }

    /** write_schema: `None.keys()` raises AttributeError when no filtered schema exists yet. */
    method WriteSchema(intro: Option<string>, filtered: bool) returns (r: Result<string>)
      ensures filtered && filteredSchema.None? ==> r == Fail(AttributeError)
      ensures filtered && filteredSchema.Some? ==> r == Transcript(Catalog, filteredSchema.value, intro, Style, sys, order)
      ensures !filtered ==> r == Transcript(Catalog, fullSchema, intro, Style, sys, order)
    {
      var chosen: Dict<Response>;
      if filtered {
        if filteredSchema.None? {
          return Fail(AttributeError);
        }
        chosen := filteredSchema.value;
      } else {
        chosen := fullSchema;
      }
      r := WriteTranscript(Catalog, chosen, intro, Style, sys, order);
    }
  }

  /** Once a prefix of the names fails, so does the whole list. */
  lemma {:induction false} NodeDictsStuck(db: Db, sys: seq<string>, names: seq<string>, k: nat)
    requires k <= |names| && NodeDicts(db, sys, names[..k]).Fail?
    ensures NodeDicts(db, sys, names) == NodeDicts(db, sys, names[..k])
    decreases |names|
  {
    if k < |names| {
      assert names[..|names| - 1][..k] == names[..k];
      NodeDictsStuck(db, sys, names[..|names| - 1], k);
    } else {
      assert names[..k] == names;
    }
  }
}
