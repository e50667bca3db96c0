/**
 * The retriever of version 6: six catalogued auto-queries, a full schema filled once,
 * a filtered schema rebuilt for each question by top-k dense filtering, and the prompt
 * text written with `§` group templates.
 */
module RetrieverV6 {
  import opened Wrappers
  import opened Values
  import opened Dense
  import opened LegacyData
  import opened LegacyQueries
  import opened LegacySchema

  /** `AQ.global_aq_dict` */
  const Catalog: Dict<Entry> := [
    ("NAMES", Entry(GetNames, [], ListFormat, Some("These are values for the 'name' property"), None, Some("dense"))),
    ("GENERAL SCHEMA", Entry(NodeTypeProperties, [], ListFormat, None, None, None)),
    ("PROPS_PER_LABEL", Entry(PropsPerLabelQuery(true), [], GroupFormat, Some("Each label has these properties"),
                              Some("Label: `§` has ONLY these properties: "), None)),
    ("RELATIONSHIPS VISUAL", Entry(RelationshipsVisualQuery, [], ListFormat,
                                   Some("These are the relationship types per labels"), Some(""), Some("dense"))),
    ("CLASS HIERARCHY", Entry(ClassHierarchyQuery(Sentence), [], ListFormat, Some("This is the classes hierarchy"),
                              Some(""), Some("dense"))),
    ("OBJECT PROPERTIES", Entry(ObjectPropertiesQuery, [], ListOfDictFormat, Some("Here's some property values"),
                                Some(""), Some("autoquery")))
  ]

  /** write_dict_of_group: templates split on `§`, groups listed as they come. */
  const Style: GroupStyle := GroupStyle('§', false)

  /**
   * The catalog holds six entries in this order. Three of them are filtered densely and
   * none is marked 'exec': OBJECT PROPERTIES is marked 'autoquery', which the retriever
   * treats as "no filtering".
   */
  lemma CatalogShape()
    ensures Keys(Catalog) == ["NAMES", "GENERAL SCHEMA", "PROPS_PER_LABEL", "RELATIONSHIPS VISUAL",
                              "CLASS HIERARCHY", "OBJECT PROPERTIES"]
    ensures forall i :: 0 <= i < |Catalog| ==> Catalog[i].1.filter != Some("exec") && Catalog[i].1.args == []
    ensures forall i :: 0 <= i < |Catalog| ==>
      (Catalog[i].1.filter == Some("dense") <==> Catalog[i].0 in ["NAMES", "RELATIONSHIPS VISUAL", "CLASS HIERARCHY"])
  {
  }

  // ---------------------------------------------------------------------------
  // init_full_schema

  /**
   * What init_full_schema does with one required name, as written: an 'exec' entry is
   * skipped, and any other reads `AQ.func_key`, an attribute the catalog class does not
   * define (its key is named `function`), so it raises AttributeError.
   */
  function RunAsWritten(name: string): Option<Result<Response>>
  {
    match Get(Catalog, name)
    case None => Some(Fail(KeyError))
    case Some(e) => if e.filter == Some("exec") then None else Some(Fail(AttributeError))
  }

  /** The same, reading the executor under the key the catalog defines, with no `try`. */
  function RunCorrected(db: Db, sys: seq<string>, order: Listing, name: string): Option<Result<Response>>
  {
    match Get(Catalog, name)
    case None => Some(Fail(KeyError))
    case Some(e) => if e.filter == Some("exec") then None else Some(Executed(db, sys, order, e.query, e.args))
  }

  /**
   * As written, initialisation stops at the first required entry and stores nothing:
   * every catalogued entry raises AttributeError.
   */
  lemma InitAsWrittenFails(full: Dict<Response>, names: seq<string>)
    requires |names| > 0 && names[0] in Keys(Catalog)
    ensures InitPass(RunAsWritten, full, names) == Loaded(full, Some(AttributeError))
  {
    CatalogShape();
    GetHas(Catalog, names[0]);
    assert names[..1][..0] == [];
    InitPassCrashSticks(RunAsWritten, full, names, 1);
  }

  /** The corrected executor of init_full_schema, for one database. */
  function Runner(db: Db, sys: seq<string>, order: Listing): string -> Option<Result<Response>>
  {
    n => RunCorrected(db, sys, order, n)
  }

  /** The corrected executor applied to one name. */
  lemma RunnerStep(db: Db, sys: seq<string>, order: Listing, name: string)
    ensures var e := Get(Catalog, name);
      Runner(db, sys, order)(name) ==
        if e.None? then Some(Fail(KeyError))
        else if e.value.filter == Some("exec") then None
        else Some(Executed(db, sys, order, e.value.query, e.value.args))
  {
  }

  /**
   * With the executor read from the right key, a completed initialisation stores, under
   * every required name, what its query returns.
   */
  lemma InitCorrectedSpec(db: Db, sys: seq<string>, order: Listing, full: Dict<Response>, names: seq<string>)
    ensures var p := InitPass(Runner(db, sys, order), full, names);
      p.crashed.None? ==> forall n :: n in names ==>
        (n in Keys(Catalog) &&
         Executed(db, sys, order, Get(Catalog, n).value.query, []).Ok? &&
         Get(p.full, n) == Some(Executed(db, sys, order, Get(Catalog, n).value.query, []).value))
    ensures var p := InitPass(Runner(db, sys, order), full, names);
      p.crashed.None? ==> forall n :: n !in names ==> Get(p.full, n) == Get(full, n)
  {
    var run := Runner(db, sys, order);
    InitPassDone(run, full, names);
    InitPassCrash(run, full, names);
    var p := InitPass(run, full, names);
    if p.crashed.None? {
      forall n | n in names
        ensures n in Keys(Catalog) && Executed(db, sys, order, Get(Catalog, n).value.query, []).Ok? &&
          Get(p.full, n) == Some(Executed(db, sys, order, Get(Catalog, n).value.query, []).value)
      {
        var i :| 0 <= i < |names| && names[i] == n;
        assert Ran(run, names[i]);
        if n in Keys(Catalog) {
          CatalogEntry(n);
          CatalogArgs(n);
        }
      }
    }
  }

  /** Every catalogued entry is launched without arguments. */
  lemma CatalogArgs(n: string)
    requires n in Keys(Catalog)
    ensures Get(Catalog, n).value.args == []
  {
    CatalogShape();
    GetHas(Catalog, n);
  }

  /**
   * Even with the right key, RELATIONSHIPS VISUAL is launched without its `filter_mode`
   * argument, so a corrected initialisation that requires it raises TypeError.
   */
  lemma RelationshipsVisualNeedsMode(db: Db, sys: seq<string>, order: Listing)
    ensures RunCorrected(db, sys, order, "RELATIONSHIPS VISUAL") == Some(Fail(TypeError))
  {
    GetAt(Catalog, 3, "RELATIONSHIPS VISUAL");
    RelationshipsVisualRun(db, sys, order, 0);
  }

  // ---------------------------------------------------------------------------
  // filter_schema

  /**
   * The entries filter_schema computes without reading the full schema: a name the
   * catalog lacks, and an 'exec' entry, whose re-execution reads `AQ.func_key` again.
   */
  function DirectAsWritten(name: string): Option<Result<Response>>
  {
    match Get(Catalog, name)
    case None => Some(Fail(KeyError))
    case Some(e) => if e.filter == Some("exec") then Some(Fail(AttributeError)) else None
  }

  function DirectCorrected(db: Db, sys: seq<string>, order: Listing, name: string): Option<Result<Response>>
  {
    match Get(Catalog, name)
    case None => Some(Fail(KeyError))
    case Some(e) => if e.filter == Some("exec") then Some(Executed(db, sys, order, e.query, e.args)) else None
  }

  /** What a stored response becomes: the top `k_lim` for a 'dense' entry, unchanged otherwise. */
  function KeepV6(score: Item -> real, kLim: int, name: string, v: Response): Result<Response>
  {
    match Get(Catalog, name)
    case None => Ok(v)
    case Some(e) =>
      if e.filter == Some("dense") then
        match DenseKept(v, score, kLim)
        case Fail(err) => Fail(err)
        case Ok(xs) => Ok(Items(xs))
      else Ok(v)
  }

  /** No shipped entry is 'exec', so the mistaken re-execution in filter_schema is never reached. */
  lemma FilterExecUnreached(db: Db, sys: seq<string>, order: Listing, name: string)
    ensures DirectAsWritten(name) == DirectCorrected(db, sys, order, name)
  {
    CatalogShape();
    if name in Keys(Catalog) {
      GetHas(Catalog, name);
    }
  }

  /** What filter_schema does with a stored response, for a given question's scoring. */
  function KeepFor(score: Item -> real, kLim: int): (string, Response) -> Result<Response>
  {
    (n, v) => KeepV6(score, kLim, n, v)
  }

  /** A catalogued entry is never 'exec' and is 'dense' exactly for the three listed names. */
  lemma CatalogEntry(n: string)
    requires n in Keys(Catalog)
    ensures Get(Catalog, n).value.filter != Some("exec")
    ensures Get(Catalog, n).value.filter == Some("dense") <==> n in ["NAMES", "RELATIONSHIPS VISUAL", "CLASS HIERARCHY"]
  {
    CatalogShape();
    GetHas(Catalog, n);
  }

  /**
   * The outcome of one required name: KeyError when it is not catalogued, the top
   * `k_lim` elements of its stored response when it is 'dense' (TypeError on a
   * cursor, which cannot be iterated synchronously), its stored response otherwise.
   */
  lemma OutcomeV6(score: Item -> real, kLim: int, full: Dict<Response>, n: string)
    ensures var o := Outcome(DirectAsWritten, KeepFor(score, kLim), full, n);
      o.Ok? <==> (n in Keys(Catalog) && (Get(Catalog, n).value.filter == Some("dense") ==> !ReadOf(full, n).Cursor?))
    ensures var o := Outcome(DirectAsWritten, KeepFor(score, kLim), full, n);
      n !in Keys(Catalog) ==> o == Fail(KeyError)
    ensures var o := Outcome(DirectAsWritten, KeepFor(score, kLim), full, n);
      n in Keys(Catalog) && Get(Catalog, n).value.filter != Some("dense") ==> o == Ok(ReadOf(full, n))
    ensures var o := Outcome(DirectAsWritten, KeepFor(score, kLim), full, n);
      n in Keys(Catalog) && Get(Catalog, n).value.filter == Some("dense") && ReadOf(full, n).Items? ==>
        o == Ok(Items(TopK(ReadOf(full, n).items, score, kLim)))
  {
    if n in Keys(Catalog) {
      CatalogEntry(n);
      DenseKeptSpec(ReadOf(full, n), score, kLim);
    }
  }

  /**
   * filter_schema completes exactly when every required name is catalogued and no
   * 'dense' entry holds an unread cursor, and it then maps every required name to its
   * outcome (see OutcomeV6).
   */
  lemma FilterSpec(score: Item -> real, kLim: int, full: Dict<Response>, names: seq<string>)
    ensures var p := FilterPass(DirectAsWritten, KeepFor(score, kLim), full, names);
      p.crashed.None? <==> forall n :: n in names ==>
        (n in Keys(Catalog) && (Get(Catalog, n).value.filter == Some("dense") ==> !ReadOf(full, n).Cursor?))
    ensures var p := FilterPass(DirectAsWritten, KeepFor(score, kLim), full, names);
      p.crashed.None? ==> forall n :: n in Keys(p.filtered) <==> n in names
    ensures var p := FilterPass(DirectAsWritten, KeepFor(score, kLim), full, names);
      p.crashed.None? ==> forall n :: n in names ==>
        (Outcome(DirectAsWritten, KeepFor(score, kLim), full, n).Ok? &&
         Get(p.filtered, n) == Some(Outcome(DirectAsWritten, KeepFor(score, kLim), full, n).value))
  {
    var keep := KeepFor(score, kLim);
    FilterPassDone(DirectAsWritten, keep, full, names);
    FilterPassCrash(DirectAsWritten, keep, full, names);
    var p := FilterPass(DirectAsWritten, keep, full, names);
    forall n | n in names
      ensures Outcome(DirectAsWritten, keep, full, n).Ok? <==>
        (n in Keys(Catalog) && (Get(Catalog, n).value.filter == Some("dense") ==> !ReadOf(full, n).Cursor?))
    {
      OutcomeV6(score, kLim, full, n);
    }
    if !p.crashed.None? {
      var i :| 0 <= i < |names| && Outcome(DirectAsWritten, keep, full, names[i]) == Fail(p.crashed.value);
      assert names[i] in names;
    } else {
      forall n | n in names
        ensures Outcome(DirectAsWritten, keep, full, n).Ok?
      {
        var i :| 0 <= i < |names| && names[i] == n;
      }
    }
  }

  // ---------------------------------------------------------------------------
  // The retriever object.

  class DataRetriever {
    const db: Db
    const sys: seq<string>
    const order: Listing
    const sim: (string, Item) -> real  // similarity of the question's embedding to an element's
    const requiredAQs: seq<string>
    const kLim: int
    var fullSchema: Dict<Response>
    var filteredSchema: Option<Dict<Response>>

    /** The required auto-queries are those of `requiredAq` the catalog knows, or all of them. */
    constructor (db: Db, sys: seq<string>, order: Listing, sim: (string, Item) -> real,
                 requiredAq: Option<seq<string>>, kLim: int := 10)
      ensures this.db == db && this.sys == sys && this.order == order && this.sim == sim && this.kLim == kLim
      ensures requiredAQs == Available(requiredAq, Keys(Catalog))
      ensures fullSchema == [] && filteredSchema == None
    {
      var aqs := InitAutoQueries(requiredAq, Keys(Catalog));
      this.db := db;
      this.sys := sys;
      this.order := order;
      this.sim := sim;
      this.kLim := kLim;
      requiredAQs := aqs;
      fullSchema := [];
      filteredSchema := None;
    }

    /** The similarity of each element to the question. */
    function Similarity(question: string): Item -> real
    {
      x => sim(question, x)
    }

    /** init_full_schema, as written: it raises at the first entry that is not 'exec'. */
    method InitFullSchema() returns (err: Option<PyError>)
      modifies this
      ensures var l := InitPass(RunAsWritten, old(fullSchema), requiredAQs);
        fullSchema == l.full && err == l.crashed
      ensures filteredSchema == old(filteredSchema)
    {
      for i := 0 to |requiredAQs|
        invariant InitPass(RunAsWritten, old(fullSchema), requiredAQs[..i]) == Loaded(fullSchema, None)
        invariant filteredSchema == old(filteredSchema)
      {
        InitPassSnoc(RunAsWritten, old(fullSchema), requiredAQs, i);
        var entry := Get(Catalog, requiredAQs[i]);
        if entry.None? {
          InitPassCrashSticks(RunAsWritten, old(fullSchema), requiredAQs, i + 1);
          return Some(KeyError);
        }
        if entry.value.filter == Some("exec") {
          continue;
        }
        InitPassCrashSticks(RunAsWritten, old(fullSchema), requiredAQs, i + 1);
        return Some(AttributeError);  // operation[AQ.func_key]
      }
      assert requiredAQs[..|requiredAQs|] == requiredAQs;
      err := None;
    }

    /** init_full_schema reading the executor under the `function` key. */
    method InitFullSchemaCorrected() returns (err: Option<PyError>)
      modifies this
      ensures var l := InitPass(Runner(db, sys, order), old(fullSchema), requiredAQs);
        fullSchema == l.full && err == l.crashed
      ensures filteredSchema == old(filteredSchema)
    {
      ghost var run := Runner(db, sys, order);
      for i := 0 to |requiredAQs|
        invariant InitPass(run, old(fullSchema), requiredAQs[..i]) == Loaded(fullSchema, None)
        invariant filteredSchema == old(filteredSchema)
      {
        InitPassSnoc(run, old(fullSchema), requiredAQs, i);
        err := InitEntry(requiredAQs[i]);
        if err.Some? {
          InitPassCrashSticks(run, old(fullSchema), requiredAQs, i + 1);
          return;
        }
      }
      assert requiredAQs[..|requiredAQs|] == requiredAQs;
      err := None;
    }

    /** One required name of init_full_schema: skipped when 'exec', else launched and stored. */
    method InitEntry(name: string) returns (err: Option<PyError>)
      modifies this
      ensures var l := InitStep(Runner(db, sys, order), old(fullSchema), name);
        fullSchema == l.full && err == l.crashed
      ensures filteredSchema == old(filteredSchema)
    {
      RunnerStep(db, sys, order, name);
      var entry := Get(Catalog, name);
      if entry.None? {
        return Some(KeyError);
      }
      if entry.value.filter == Some("exec") {
        return None;
      }
      var response := Execute(db, sys, order, entry.value.query, entry.value.args);
      if response.Fail? {
        return Some(response.error);
      }
      fullSchema := Put(fullSchema, name, response.value);
      err := None;
    }

    /** reset_filter: the filtered schema becomes a copy of the full one. */
    method ResetFilter()
      modifies this
      ensures filteredSchema == Some(fullSchema) && fullSchema == old(fullSchema)
    {
      filteredSchema := Some(fullSchema);
    }

    /** dense_filtering: the `k_lim` elements most similar to the question, best first. */
    method DenseFiltering(results: Response, question: string, kLim: int) returns (r: Result<seq<Item>>)
      ensures r == DenseKept(results, Similarity(question), kLim)
    {
      var score := Similarity(question);
      r := DenseTopK(results, score, kLim);
    }

    /** `full_schema[name]` on the defaultdict. */
    method ReadFull(name: string) returns (v: Response)
      modifies this
      ensures (fullSchema, v) == Touch(old(fullSchema), name)
      ensures filteredSchema == old(filteredSchema)
    {
      var found := Get(fullSchema, name);
      if found.Some? {
        v := found.value;
      } else {
        fullSchema := fullSchema + [(name, Items([]))];
        v := Items([]);
      }
    }

    /**
     * filter_schema: a fresh dict over the required names, assigned only at the end; an
     * exception leaves the filtered schema as it was (the defaultdict reads stay).
     */
    method FilterSchema(question: string) returns (err: Option<PyError>)
      modifies this
      ensures var p := FilterPass(DirectAsWritten, KeepFor(Similarity(question), kLim), old(fullSchema), requiredAQs);
        fullSchema == p.full && err == p.crashed &&
        filteredSchema == if p.crashed.None? then Some(p.filtered) else old(filteredSchema)
    {
      ghost var keep := KeepFor(Similarity(question), kLim);
      var filtered: Dict<Response> := [];
      for i := 0 to |requiredAQs|
        invariant FilterPass(DirectAsWritten, keep, old(fullSchema), requiredAQs[..i]) == Pass(fullSchema, filtered, None)
        invariant filteredSchema == old(filteredSchema)
      {
        FilterPassSnoc(DirectAsWritten, keep, old(fullSchema), requiredAQs, i);
        filtered, err := FilterEntry(question, filtered, requiredAQs[i]);
        if err.Some? {
          FilterPassCrashSticks(DirectAsWritten, keep, old(fullSchema), requiredAQs, i + 1);
          return;
        }
      }
      assert requiredAQs[..|requiredAQs|] == requiredAQs;
      filteredSchema := Some(filtered);
      err := None;
    }

    /** One required name of filter_schema, by its filter mode. */
    method FilterEntry(question: string, filtered: Dict<Response>, name: string)
      returns (filtered': Dict<Response>, err: Option<PyError>)
      modifies this
      ensures FilterStep(DirectAsWritten, KeepFor(Similarity(question), kLim), Pass(old(fullSchema), filtered, None), name)
        == Pass(fullSchema, filtered', err)
      ensures filteredSchema == old(filteredSchema)
    {
      filtered' := filtered;
      var entry := Get(Catalog, name);
      if entry.None? {
        return filtered, Some(KeyError);
      }
      var mode := entry.value.filter;
      if mode == Some("dense") {
        var v := ReadFull(name);
        var out := DenseFiltering(v, question, kLim);
        if out.Fail? {
          return filtered, Some(out.error);
        }
        filtered' := Put(filtered, name, Items(out.value));
      } else if mode == Some("exec") {
        return filtered, Some(AttributeError);  // AQ.global_aq_dict[aq_name][AQ.func_key]
      } else {
        var v := ReadFull(name);
        filtered' := Put(filtered, name, v);
      }
      err := None;
    }

    /** write_schema: `None.keys()` raises AttributeError when no filtered schema exists yet. */
    method WriteSchema(intro: Option<string>, filtered: bool) returns (r: Result<string>)
      ensures filtered && filteredSchema.None? ==> r == Fail(AttributeError)
      ensures filtered && filteredSchema.Some? ==> r == Transcript(Catalog, filteredSchema.value, intro, Style, sys, order)
      ensures !filtered ==> r == Transcript(Catalog, fullSchema, intro, Style, sys, order)
    {
      var chosen: Dict<Response>;
      if filtered {
        if filteredSchema.None? {
          return Fail(AttributeError);
        }
        chosen := filteredSchema.value;
      } else {
        chosen := fullSchema;
      }
      r := WriteTranscript(Catalog, chosen, intro, Style, sys, order);
    }
  }
}
