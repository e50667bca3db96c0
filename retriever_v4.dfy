/**
 * The retriever of version 4: no stored schema; prepare_schema runs the requested
 * auto-queries one after another and writes their results straight into the prompt
 * text, and a few selectors pick fixed prompts.
 */
module RetrieverV4 {
  import opened Wrappers
  import opened Text
  import opened Values
  import opened LegacyData
  import opened LegacyQueries
  import opened LegacySchema

  const SysClasses: seq<string> := ["Resource", "ObjectProperty", "DatatypeProperty", "Ontology"]
  const SysRelTypes: seq<string> := ["TYPE"]

  /** The labels print_list leaves out, compared exactly as written (no lower-casing). */
  const SysLabels: seq<string> := SysClasses + SysRelTypes

  /**
   * The class attributes of `AutoQueries` in the `res` package, the class retriever.py
   * imports as AQ: four query functions and no catalog.
   */
  const ImportedAttributes: seq<string> := ["get_labels", "get_rel_types", "get_prop_keys", "get_global_schema"]

  /**
   * The class attributes of `AutoQueries` in the `resources` package that prepare_schema
   * reads: the catalog and its two keys.
   */
  const CatalogAttributes: seq<string> := ["query_key", "results_key", "global_aq_dict"]

  /**
   * `global_aq_dict` of the `resources` package: the catalog prepare_schema evidently
   * means, not the one it imports.
   */
  const Catalog: Dict<Entry> := [
    ("LABELS", Entry(Collected(Labels), [], ListFormat, Some("Use only these Labels"), None, None)),
    ("PROPERTIES", Entry(Collected(PropKeys), [], ListFormat, None, None, None)),
    ("RELATIONSHIPS", Entry(Collected(Relationships), [], ListOfDictFormat, None, None, None)),
    ("RELATIONSHIP TYPES", Entry(Collected(RelTypes), [], ListFormat, Some("These are the relationship types"), None, None)),
    ("NAMES", Entry(GetNames, [], ListFormat, Some("These are values for the 'name' property"), None, Some("lexical"))),
    ("GLOBAL SCHEMA", Entry(Collected(Global), [], ListOfDictFormat, None, None, None)),
    ("PROPS_PER_LABEL", Entry(PropsPerLabelQuery(false), [], GroupFormat, Some("Properties per label"),
                              Some("Label: `#` has properties: "), None)),
    ("EXAMPLES_PER_LABEL", Entry(PropsPerLabelQuery(false), [], GroupFormat, Some("Examples per Label"),
                                 Some("Example for `#` -> "), None))
  ]

  /**
   * Eight entries; only NAMES has a filter mode, and EXAMPLES_PER_LABEL runs the same
   * query as PROPS_PER_LABEL.
   */
  lemma CatalogShape()
    ensures Keys(Catalog) == ["LABELS", "PROPERTIES", "RELATIONSHIPS", "RELATIONSHIP TYPES", "NAMES",
                              "GLOBAL SCHEMA", "PROPS_PER_LABEL", "EXAMPLES_PER_LABEL"]
    ensures forall i :: 0 <= i < |Catalog| ==> (Catalog[i].1.filter.Some? <==> i == 4)
    ensures Catalog[4].1.filter == Some("lexical")
    ensures Catalog[6].1.query == Catalog[7].1.query == PropsPerLabelQuery(false)
  {
  }

  // ---------------------------------------------------------------------------
  // print_list

  /** The `- ` lines print_list writes: every element whose text is not exactly a system label. */
  function ListText(xs: seq<Item>, order: Listing): string
  {
    Bullets("- ", Filter(Shown(xs, order), Exclusion(SysLabels, false), Printed))
  }

  /** print_list: one bullet line per element, in order, unless the text is a system label. */
  method PrintListV4(results: seq<Item>, order: Listing) returns (message: string)
    ensures message == ListText(results, order)
  {
    message := PrintList(results, "- ", "", Exclusion(SysLabels, false), order);
  }

  /**
   * A text is printed exactly when some element shows as it and it is not one of the
   * five system labels as written: `resource` is printed, `Resource` is not.
   */
  lemma ListTextSpec(results: seq<Item>, order: Listing, s: string)
    ensures s in Filter(Shown(results, order), Exclusion(SysLabels, false), Printed) <==>
      (exists i :: 0 <= i < |results| && ShowItem(results[i], order) == s) && s !in SysLabels
    ensures Printed(Exclusion(SysLabels, false), "resource") && !Printed(Exclusion(SysLabels, false), "Resource")
  {
    PrintedElements(results, Exclusion(SysLabels, false), order, s);
    assert "resource" != "Resource" by {
      assert "resource"[0] != "Resource"[0];
    }
  }

  // ---------------------------------------------------------------------------
  // prepare_schema

  /** How prepare_schema writes a response: 'list', 'list > dict', and `str(response)` for the rest. */
  function Rendered(e: Entry, response: Response, order: Listing): Result<string>
  {
    match e.results
    case ListFormat =>
      (match Elements(response)
       case Fail(err) => Fail(err)
       case Ok(xs) => Ok(ListText(xs, order)))
    case ListOfDictFormat =>
      (match Elements(response)
       case Fail(err) => Fail(err)
       case Ok(xs) => Ok("\n**WIP**" + ListText(xs, order) + "\n**WIP**"))
    case _ => Ok("\n" + ShowResponse(response, order))
  }

  /** What one catalogued entry adds: `'\n\n' + name` and the rendered result, or the exception. */
  function Launched(db: Db, order: Listing, name: string, e: Entry): Result<string>
  {
    match Executed(db, SysLabels, order, e.query, e.args)
    case Fail(err) => Fail(err)
    case Ok(response) =>
      match Rendered(e, response, order)
      case Fail(err) => Fail(err)
      case Ok(t) => Ok("\n\n" + name + t)
  }

  /** What one requested name adds: nothing when it is not catalogued. */
  function Part(db: Db, order: Listing, name: string): Option<Result<string>>
  {
    match Get(Catalog, name)
    case None => None
    case Some(e) => Some(Launched(db, order, name, e))
  }

  function Parts(db: Db, order: Listing): string -> Option<Result<string>>
  {
    n => Part(db, order, n)
  }

  /** The text so far, extended by one part: a skipped name adds nothing, an exception ends the text. */
  function Extend(acc: Result<string>, part: Option<Result<string>>): Result<string>
  {
    match acc
    case Fail(e) => Fail(e)
    case Ok(s) =>
      match part
      case None => Ok(s)
      case Some(Fail(e)) => Fail(e)
      case Some(Ok(t)) => Ok(s + t)
  }

  /** The loop of prepare_schema over the requested names. */
  function Prepared(start: string, part: string -> Option<Result<string>>, names: seq<string>): Result<string>
  {
    if |names| == 0 then Ok(start) else Extend(Prepared(start, part, names[..|names| - 1]), part(names[|names| - 1]))
  }

  /** Preparing completes exactly when no requested name's part is an exception, and then extends the start. */
  lemma {:induction false} PreparedSpec(start: string, part: string -> Option<Result<string>>, names: seq<string>)
    ensures Prepared(start, part, names).Ok? <==> forall i :: 0 <= i < |names| ==> part(names[i]).None? || part(names[i]).value.Ok?
    ensures Prepared(start, part, names).Ok? ==> start <= Prepared(start, part, names).value
  {
    if |names| > 0 {
      var init := names[..|names| - 1];
      PreparedSpec(start, part, init);
      if !Prepared(start, part, init).Ok? {
        var i :| 0 <= i < |init| && !(part(init[i]).None? || part(init[i]).value.Ok?);
        assert names[i] == init[i];
      }
    }
  }

  /** A name without a part is skipped: removing it from the request changes nothing. */
  lemma {:induction false} PreparedSkip(start: string, part: string -> Option<Result<string>>, a: seq<string>, n: string, b: seq<string>)
    requires part(n).None?
    ensures Prepared(start, part, a + [n] + b) == Prepared(start, part, a + b)
    decreases |b|
  {
    if |b| == 0 {
      assert (a + [n] + b)[..|a|] == a && a + b == a;
    } else {
      var b' := b[..|b| - 1];
      PreparedSkip(start, part, a, n, b');
      assert (a + [n] + b)[..|a + [n] + b| - 1] == a + [n] + b';
      assert (a + b)[..|a + b| - 1] == a + b';
    }
  }

  /** The intro prepare_schema writes when none is given. */
  const DefaultIntro: string := "Here's the database schema:"

  /**
   * prepare_schema with AQ a class holding `attrs`: the first thing read is
   * `AQ.global_aq_dict`, an AttributeError when the class lacks it; with the resources
   * class the rest is `SchemaText`.
   */
  function SchemaTextOf(attrs: seq<string>, db: Db, order: Listing, aqTuple: Option<seq<string>>, intro: Option<string>): Result<string>
  {
    if "global_aq_dict" in attrs then SchemaText(db, order, aqTuple, intro) else Fail(AttributeError)
  }

  /** The imported class has no catalog; the resources class has one. */
  lemma ImportedLacksCatalog()
    ensures "global_aq_dict" !in ImportedAttributes && "global_aq_dict" in CatalogAttributes
  {
    var a := "global_aq_dict";
    assert |a| == 14;
    assert |ImportedAttributes[0]| == 10 && |ImportedAttributes[1]| == 13 &&
           |ImportedAttributes[2]| == 13 && |ImportedAttributes[3]| == 17;
    assert CatalogAttributes[2] == a;
  }

  /**
   * As written, prepare_schema raises AttributeError for every request, because the
   * imported class has no catalog; reading the resources class instead writes the
   * schema text, which for an empty request is the bare intro.
   */
  lemma PrepareAsWrittenFails(db: Db, order: Listing, aqTuple: Option<seq<string>>, intro: Option<string>)
    ensures SchemaTextOf(ImportedAttributes, db, order, aqTuple, intro) == Fail(AttributeError)
    ensures SchemaTextOf(CatalogAttributes, db, order, aqTuple, intro) == SchemaText(db, order, aqTuple, intro)
    ensures SchemaTextOf(CatalogAttributes, db, order, Some([]), None) == Ok("\n" + DefaultIntro)
  {
    ImportedLacksCatalog();
    var start := DefaultIntro;
    calc {
      SchemaText(db, order, Some([]), None);
      { assert Prepared(start, Parts(db, order), []) == Ok(start); }
      Ok("\n" + start);
    }
  }

  /** prepare_schema with the catalog it evidently means: `'\n'` and the intro (by default "Here's the database schema:"), then each requested part. */
  function SchemaText(db: Db, order: Listing, aqTuple: Option<seq<string>>, intro: Option<string>): Result<string>
  {
    var names := if aqTuple.None? then Keys(Catalog) else aqTuple.value;
    var start := if intro.None? then DefaultIntro else intro.value;
    match Prepared(start, Parts(db, order), names)
    case Fail(e) => Fail(e)
    case Ok(s) => Ok("\n" + s)
  }

  /**
   * The schema text is written exactly when every requested, catalogued name runs and
   * renders, and then starts with `'\n'` and the intro.
   */
  lemma SchemaTextSpec(db: Db, order: Listing, aqTuple: Option<seq<string>>, intro: Option<string>)
    ensures var names := if aqTuple.None? then Keys(Catalog) else aqTuple.value;
      SchemaText(db, order, aqTuple, intro).Ok? <==>
        forall i :: 0 <= i < |names| ==> Part(db, order, names[i]).None? || Part(db, order, names[i]).value.Ok?
    ensures SchemaText(db, order, aqTuple, intro).Ok? ==>
      "\n" + (if intro.None? then DefaultIntro else intro.value) <= SchemaText(db, order, aqTuple, intro).value
  {
    var names := if aqTuple.None? then Keys(Catalog) else aqTuple.value;
    var start := if intro.None? then DefaultIntro else intro.value;
    var prepared := Prepared(start, Parts(db, order), names);
    PreparedSpec(start, Parts(db, order), names);
    assert SchemaText(db, order, aqTuple, intro) == if prepared.Ok? then Ok("\n" + prepared.value) else Fail(prepared.error);
    assert forall n :: Parts(db, order)(n) == Part(db, order, n);
    if prepared.Ok? {
      assert "\n" + start <= "\n" + prepared.value;
    }
  }

  /** Requesting nothing in particular requests every catalogued name, in catalog order. */
  lemma WholeCatalogByDefault(db: Db, order: Listing, intro: Option<string>)
    ensures SchemaText(db, order, None, intro) == SchemaText(db, order, Some(Keys(Catalog)), intro)
  {
  }

  /** A request for a name the catalog lacks writes the same text as the request without it. */
  lemma UnknownNameSkipped(db: Db, order: Listing, a: seq<string>, n: string, b: seq<string>, intro: Option<string>)
    requires n !in Keys(Catalog)
    ensures SchemaText(db, order, Some(a + [n] + b), intro) == SchemaText(db, order, Some(a + b), intro)
  {
    var start := if intro.None? then DefaultIntro else intro.value;
    PreparedSkip(start, Parts(db, order), a, n, b);
  }

  /** Exactly the names the catalog lacks add nothing. */
  lemma PartSkipped(db: Db, order: Listing, name: string)
    ensures Part(db, order, name).None? <==> name !in Keys(Catalog)
  {
  }

  /**
   * 'dict > group' has no branch of its own here: an entry running props_per_label is
   * written as the printed one-element list holding the label -> properties grouping.
   */
  lemma GroupWrittenRaw(db: Db, order: Listing, name: string, e: Entry)
    requires e.query == PropsPerLabelQuery(false) && e.args == [] && e.results == GroupFormat
    ensures Launched(db, order, name, e) ==
      Ok("\n\n" + name + "\n" + ShowResponse(Items([GroupsItem(Grouped(db.typeProps, []), true)]), order))
  {
    var response := Items([GroupsItem(Grouped(db.typeProps, []), true)]);
    PropsPerLabelRun(db, SysLabels, order, false);
    assert Executed(db, SysLabels, order, e.query, e.args) == Ok(response);
    assert Rendered(e, response, order) == Ok("\n" + ShowResponse(response, order));
    assert "\n\n" + name + ("\n" + ShowResponse(response, order)) == "\n\n" + name + "\n" + ShowResponse(response, order);
  }

  /** PROPS_PER_LABEL and EXAMPLES_PER_LABEL write the same grouping, each under its own name. */
  lemma GroupsWrittenRaw(db: Db, order: Listing, name: string)
    requires name == "PROPS_PER_LABEL" || name == "EXAMPLES_PER_LABEL"
    ensures Part(db, order, name) ==
      Some(Ok("\n\n" + name + "\n" + ShowResponse(Items([GroupsItem(Grouped(db.typeProps, []), true)]), order)))
  {
    var i := if name == "PROPS_PER_LABEL" then 6 else 7;
    GetAt(Catalog, i, name);
    GroupWrittenRaw(db, order, name, Catalog[i].1);
  }

  /**
   * prepare_schema with AQ a class holding `attrs`: AttributeError without a catalog,
   * otherwise the text built name by name, which an exception ends.
   */
  method PrepareSchema(attrs: seq<string>, db: Db, order: Listing, aqTuple: Option<seq<string>>, intro: Option<string>) returns (r: Result<string>)
    ensures r == SchemaTextOf(attrs, db, order, aqTuple, intro)
    ensures attrs == ImportedAttributes ==> r == Fail(AttributeError)
  {
    if "global_aq_dict" !in attrs {
      return Fail(AttributeError);
    }
    ImportedLacksCatalog();
    var names := if aqTuple.None? then Keys(Catalog) else aqTuple.value;
    var schema := if intro.None? then DefaultIntro else intro.value;
    assert SchemaTextOf(attrs, db, order, aqTuple, intro) == SchemaText(db, order, aqTuple, intro);
    var written := PrepareNames(db, order, names, schema);
    if written.Fail? {
      return Fail(written.error);
    }
    r := Ok("\n" + written.value);
  }

  /** The loop of prepare_schema: each requested name in turn, stopping at the first exception. */
  method PrepareNames(db: Db, order: Listing, names: seq<string>, start: string) returns (r: Result<string>)
    ensures r == Prepared(start, Parts(db, order), names)
  {
    var schema := start;
    for i := 0 to |names|
      invariant Prepared(start, Parts(db, order), names[..i]) == Ok(schema)
    {
      assert names[..i + 1][..i] == names[..i];
      var next := PrepareEntry(db, order, names[i], schema);
      if next.Fail? {
        PreparedStuck(start, Parts(db, order), names, i + 1);
        return Fail(next.error);
      }
      schema := next.value;
    }
    assert names[..|names|] == names;
    r := Ok(schema);
  }

  /** One requested name of prepare_schema. */
  method PrepareEntry(db: Db, order: Listing, name: string, schema: string) returns (r: Result<string>)
    ensures r == Extend(Ok(schema), Part(db, order, name))
  {
    var entry := Get(Catalog, name);
    if entry.None? {
      return Ok(schema);
    }
    var e := entry.value;
    var response := Execute(db, SysLabels, order, e.query, e.args);
    if response.Fail? {
      return Fail(response.error);
    }
    var text := "\n\n" + name;
    match e.results
    case ListFormat =>
      var xs := Elements(response.value);
      if xs.Fail? {
        return Fail(xs.error);
      }
      var lines := PrintListV4(xs.value, order);
      r := Ok(schema + (text + lines));
    case ListOfDictFormat =>
      var xs := Elements(response.value);
      if xs.Fail? {
        return Fail(xs.error);
      }
      var lines := PrintListV4(xs.value, order);
      r := Ok(schema + (text + ("\n**WIP**" + lines + "\n**WIP**")));
    case _ =>
      r := Ok(schema + (text + ("\n" + ShowResponse(response.value, order))));
  }

  /** Once a prefix of the names ends in an exception, so does the whole request. */
  lemma {:induction false} PreparedStuck(start: string, part: string -> Option<Result<string>>, names: seq<string>, k: nat)
    requires k <= |names| && Prepared(start, part, names[..k]).Fail?
    ensures Prepared(start, part, names) == Prepared(start, part, names[..k])
    decreases |names|
  {
    if k < |names| {
      assert names[..|names| - 1][..k] == names[..k];
      PreparedStuck(start, part, names[..|names| - 1], k);
    } else {
      assert names[..k] == names;
    }
  }

  // ---------------------------------------------------------------------------
  // The selectors and initialize.

  /** The fixed prompts the selectors choose among; an example is a dict with `user_query` and `cypher_query`. */
  datatype Prompts = Prompts(instruction1: string, testingInstructions: string,
                             examples1: seq<Dict<string>>, testingExamples: seq<Dict<string>>,
                             answer1: string, testingAnswer: string)

  function SelectInstructions(p: Prompts, sel: int): string
  {
    if sel == 1 then p.instruction1 else p.testingInstructions
  }

  function SelectExamples(p: Prompts, sel: int): seq<Dict<string>>
  {
    if sel == 1 then p.examples1 else p.testingExamples
  }

  function SelectAnswer(p: Prompts, sel: int): string
  {
    if sel == 1 then p.answer1 else p.testingAnswer
  }

  /** Each selector gives the variant-1 prompt for 1 and the testing prompt for any other value. */
  lemma SelectorsSpec(p: Prompts, sel: int)
    ensures sel == 1 ==> SelectInstructions(p, sel) == p.instruction1 && SelectExamples(p, sel) == p.examples1 && SelectAnswer(p, sel) == p.answer1
    ensures sel != 1 ==> SelectInstructions(p, sel) == SelectInstructions(p, 0) == p.testingInstructions &&
                         SelectExamples(p, sel) == SelectExamples(p, 0) == p.testingExamples &&
                         SelectAnswer(p, sel) == SelectAnswer(p, 0) == p.testingAnswer
  {
  }

  /**
   * initialize: the default instructions followed by the prepared schema, and the default
   * answer prompt; as written (AQ the imported class) the AttributeError of prepare_schema.
   */
  method Initialize(attrs: seq<string>, db: Db, order: Listing, p: Prompts, autoQueries: seq<string>) returns (r: Result<(string, string)>)
    ensures SchemaTextOf(attrs, db, order, Some(autoQueries), None).Fail? ==>
      r == Fail(SchemaTextOf(attrs, db, order, Some(autoQueries), None).error)
    ensures SchemaTextOf(attrs, db, order, Some(autoQueries), None).Ok? ==>
      r == Ok((p.testingInstructions + SchemaTextOf(attrs, db, order, Some(autoQueries), None).value, p.testingAnswer))
    ensures attrs == ImportedAttributes ==> r == Fail(AttributeError)
  {
    var questionPrompt := SelectInstructions(p, 0);
    var schema := PrepareSchema(attrs, db, order, Some(autoQueries), None);
    if schema.Fail? {
      return Fail(schema.error);
    }
    r := Ok((questionPrompt + schema.value, SelectAnswer(p, 0)));
  }
}
