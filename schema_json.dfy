/**
 * The JSON form of `genera_schema_strutturato` (2_way_pipeline_new_graph_json.py): every
 * label from db.labels() first, then the properties of each node type under its main
 * label, sampled names for the labels with a `name` property, and the sorted relationship
 * patterns. Any failed read makes the whole result None.
 */
module SchemaJson {
  import opened Wrappers
  import opened Values
  import opened Order
  import opened LegacyQueries
  import opened SchemaBuilders

  /** `limite_esempi` */
  const JsonSampleLimit: nat := 50

  /** `{"properties": {...}}`, with `"examples"` once some names were sampled. */
  datatype NodeEntry = NodeEntry(properties: Dict<string>, examples: Option<seq<string>>)

  /** `{"nodes": {...}, "relationships": [...]}` before `json.dumps`. */
  datatype JsonSchema = JsonSchema(nodes: Dict<NodeEntry>, relationships: seq<string>)

  // ---------------------------------------------------------------------------
  // Step 1: every label that is not ignored, with no properties yet

  function LabelNodes(labels: seq<string>): Dict<NodeEntry>
  {
    if |labels| == 0 then []
    else
      var prev := LabelNodes(labels[..|labels| - 1]);
      var l := labels[|labels| - 1];
      if l in IgnoredLabels then prev else Put(prev, l, NodeEntry([], None))
  }

  /** The nodes are exactly the labels that are not ignored, each once and still empty. */
  lemma {:induction false} LabelNodesSpec(labels: seq<string>)
    ensures DistinctKeys(LabelNodes(labels))
    ensures forall l :: l in Keys(LabelNodes(labels)) <==> l in labels && l !in IgnoredLabels
    ensures forall l :: l in Keys(LabelNodes(labels)) ==> Get(LabelNodes(labels), l) == Some(NodeEntry([], None))
  {
    if |labels| > 0 {
      var n := |labels| - 1;
      var prev := LabelNodes(labels[..n]);
      LabelNodesSpec(labels[..n]);
      assert labels == labels[..n] + [labels[n]];
      if labels[n] !in IgnoredLabels {
        PutDistinct(prev, labels[n], NodeEntry([], None));
        forall l | l in Keys(LabelNodes(labels))
          ensures Get(LabelNodes(labels), l) == Some(NodeEntry([], None))
        {
          GetPut(prev, labels[n], NodeEntry([], None), l);
        }
      }
    }
  }

  // ---------------------------------------------------------------------------
  // Step 2: properties under the main label

  /** The first label of a record that is not ignored, if any. */
  function MainLabel(r: TypeProp): (m: Option<string>)
    ensures m.Some? ==> m.value in r.nodeLabels && m.value !in IgnoredLabels
    ensures m.None? <==> forall l :: l in r.nodeLabels ==> l in IgnoredLabels
  {
    FirstGoodLabel(r.nodeLabels);
    var good := GoodLabels(r.nodeLabels);
    if |good| == 0 then None else Some(good[0])
  }

  /** The property names of a node, empty for a label that is no node. */
  function PropertyNames(d: Dict<NodeEntry>, l: string): seq<string>
  {
    match Get(d, l)
    case Some(e) => Keys(e.properties)
    case None => []
  }

  /** `if main_label and main_label in nodes: nodes[main_label]["properties"][prop_name] = ""` */
  function AddProperty(nodes: Dict<NodeEntry>, r: TypeProp): Dict<NodeEntry>
  {
    match MainLabel(r)
    case None => nodes
    case Some(l) =>
      match Get(nodes, l)
      case None => nodes
      case Some(e) => if l == "" then nodes else Put(nodes, l, e.(properties := Put(e.properties, r.propertyName, "")))
  }

  function WithProperties(nodes: Dict<NodeEntry>, records: seq<TypeProp>): Dict<NodeEntry>
  {
    if |records| == 0 then nodes
    else AddProperty(WithProperties(nodes, records[..|records| - 1]), records[|records| - 1])
  }

  /** A record gives `p` to `l` when `l` is its main label, `p` its property, and `l` is not the empty string. */
  ghost predicate Claims(records: seq<TypeProp>, l: string, p: string)
  {
    l != "" && exists i :: 0 <= i < |records| && ClaimedBy(records[i], l, p)
  }

  predicate ClaimedBy(r: TypeProp, l: string, p: string)
  {
    MainLabel(r) == Some(l) && r.propertyName == p
  }

  /** The records claim `p` for `l` when the earlier ones do or the last one does. */
  lemma ClaimsSnoc(records: seq<TypeProp>, l: string, p: string)
    requires |records| > 0
    ensures Claims(records, l, p) <==>
      Claims(records[..|records| - 1], l, p) || (l != "" && ClaimedBy(records[|records| - 1], l, p))
  {
    ExistsSnoc(records, records[..|records| - 1], r => ClaimedBy(r, l, p));
  }

  lemma AddPropertySpec(nodes: Dict<NodeEntry>, r: TypeProp, l: string)
    ensures Keys(AddProperty(nodes, r)) == Keys(nodes)
    ensures Get(AddProperty(nodes, r), l).Some? <==> Get(nodes, l).Some?
    ensures Get(nodes, l).Some? ==> Get(AddProperty(nodes, r), l).value.examples == Get(nodes, l).value.examples
    ensures forall p :: p in PropertyNames(AddProperty(nodes, r), l) <==>
      p in PropertyNames(nodes, l) || (l != "" && l in Keys(nodes) && MainLabel(r) == Some(l) && r.propertyName == p)
  {
    if MainLabel(r).Some? && Get(nodes, MainLabel(r).value).Some? && MainLabel(r).value != "" {
      var m := MainLabel(r).value;
      var e := Get(nodes, m).value;
      var props := Put(e.properties, r.propertyName, "");
      GetPut(nodes, m, e.(properties := props), l);
      assert m in Keys(nodes);
      if l == m {
        assert PropertyNames(AddProperty(nodes, r), l) == Keys(props);
        assert PropertyNames(nodes, l) == Keys(e.properties);
        forall p
          ensures p in Keys(props) <==> p in Keys(e.properties) || r.propertyName == p
        {
        }
      } else {
        assert PropertyNames(AddProperty(nodes, r), l) == PropertyNames(nodes, l);
      }
    } else {
      assert AddProperty(nodes, r) == nodes;
      if MainLabel(r) == Some(l) && l != "" {
        assert l !in Keys(nodes);
      }
    }
  }

  /** Adding properties keeps every node, nodes without properties included, with its examples. */
  lemma {:induction false} WithPropertiesKeys(nodes: Dict<NodeEntry>, records: seq<TypeProp>, l: string)
    ensures Keys(WithProperties(nodes, records)) == Keys(nodes)
    ensures Get(WithProperties(nodes, records), l).Some? <==> Get(nodes, l).Some?
    ensures Get(nodes, l).Some? ==> Get(WithProperties(nodes, records), l).value.examples == Get(nodes, l).value.examples
  {
    if |records| > 0 {
      var n := |records| - 1;
      WithPropertiesKeys(nodes, records[..n], l);
      AddPropertySpec(WithProperties(nodes, records[..n]), records[n], l);
    }
  }

  /** Adding properties gives each node exactly the properties of the records whose main label it is. */
  lemma {:induction false} WithPropertiesSpec(nodes: Dict<NodeEntry>, records: seq<TypeProp>, l: string)
    ensures forall p :: p in PropertyNames(WithProperties(nodes, records), l) <==>
      p in PropertyNames(nodes, l) || (l in Keys(nodes) && Claims(records, l, p))
  {
    if |records| > 0 {
      var n := |records| - 1;
      var prev := WithProperties(nodes, records[..n]);
      WithPropertiesSpec(nodes, records[..n], l);
      WithPropertiesKeys(nodes, records[..n], l);
      AddPropertySpec(prev, records[n], l);
      forall p
        ensures p in PropertyNames(WithProperties(nodes, records), l) <==>
          p in PropertyNames(nodes, l) || (l in Keys(nodes) && Claims(records, l, p))
      {
        ClaimsSnoc(records, l, p);
      }
    }
  }

  method AddProperties(nodes0: Dict<NodeEntry>, records: seq<TypeProp>) returns (nodes: Dict<NodeEntry>)
    ensures nodes == WithProperties(nodes0, records)
  {
    nodes := nodes0;
    for i := 0 to |records|
      invariant nodes == WithProperties(nodes0, records[..i])
    {
      assert records[..i + 1][..i] == records[..i];
      var mainLabel := MainLabel(records[i]);
      if mainLabel.Some? && mainLabel.value != "" {
        var entry := Get(nodes, mainLabel.value);
        if entry.Some? {
          var props := Put(entry.value.properties, records[i].propertyName, "");
          nodes := Put(nodes, mainLabel.value, entry.value.(properties := props));
        }
      }
    }
    assert records[..|records|] == records;
  }

  // ---------------------------------------------------------------------------
  // Step 2.5: names for the labels with a `name` property

  function JsonRead(run: SampleQuery -> Read<string>, l: string): Read<string>
  {
    run(SampleQuery(l, JsonSampleLimit))
  }

  /** The node of `l` exists and has the identity property. */
  predicate Named(d: Dict<NodeEntry>, l: string)
  {
    IdentityProperty in PropertyNames(d, l)
  }

  function AddExamples(nodes: Dict<NodeEntry>, l: string, run: SampleQuery -> Read<string>): Option<Dict<NodeEntry>>
  {
    match Get(nodes, l)
    case None => Some(nodes)
    case Some(e) =>
      if IdentityProperty !in Keys(e.properties) then Some(nodes)
      else
        var rd := JsonRead(run, l);
        if rd.failure.Some? then None
        else if |rd.rows| > 0 then Some(Put(nodes, l, e.(examples := Some(rd.rows))))
        else Some(nodes)
  }

  function WithExamples(nodes: Dict<NodeEntry>, labels: seq<string>, run: SampleQuery -> Read<string>): Option<Dict<NodeEntry>>
  {
    if |labels| == 0 then Some(nodes)
    else
      match WithExamples(nodes, labels[..|labels| - 1], run)
      case None => None
      case Some(cur) => AddExamples(cur, labels[|labels| - 1], run)
  }

  /** What the entry of `k` becomes once `labels` were sampled. */
  ghost function Sampled(nodes: Dict<NodeEntry>, labels: seq<string>, run: SampleQuery -> Read<string>, k: string): Option<NodeEntry>
  {
    match Get(nodes, k)
    case None => None
    case Some(e) =>
      if k in labels && IdentityProperty in Keys(e.properties) && |JsonRead(run, k).rows| > 0
      then Some(e.(examples := Some(JsonRead(run, k).rows)))
      else Some(e)
  }

  lemma {:induction false} WithExamplesNoneSticks(nodes: Dict<NodeEntry>, labels: seq<string>, k: nat, run: SampleQuery -> Read<string>)
    requires k <= |labels| && WithExamples(nodes, labels[..k], run).None?
    ensures WithExamples(nodes, labels, run).None?
    decreases |labels| - k
  {
    if k < |labels| {
      assert labels[..k + 1][..k] == labels[..k];
      WithExamplesNoneSticks(nodes, labels, k + 1, run);
    } else {
      assert labels[..k] == labels;
    }
  }

  /** Sampling one label keeps the nodes and changes at most the examples of that label. */
  lemma AddExamplesSpec(cur: Dict<NodeEntry>, l: string, run: SampleQuery -> Read<string>, k: string)
    requires AddExamples(cur, l, run).Some?
    ensures Keys(AddExamples(cur, l, run).value) == Keys(cur)
    ensures Get(AddExamples(cur, l, run).value, k) ==
      if k == l && Named(cur, l) && |JsonRead(run, l).rows| > 0
      then Some(Get(cur, l).value.(examples := Some(JsonRead(run, l).rows)))
      else Get(cur, k)
  {
    if Named(cur, l) && |JsonRead(run, l).rows| > 0 {
      var e := Get(cur, l).value;
      GetPut(cur, l, e.(examples := Some(JsonRead(run, l).rows)), k);
      assert l in Keys(cur);
    }
  }

  /**
   * When sampling succeeds it keeps every node and its properties, and gives each named
   * node of `labels` whose read returned names those names as its examples.
   */
  lemma {:induction false} WithExamplesFilled(nodes: Dict<NodeEntry>, labels: seq<string>, run: SampleQuery -> Read<string>)
    requires WithExamples(nodes, labels, run).Some?
    ensures Keys(WithExamples(nodes, labels, run).value) == Keys(nodes)
    ensures forall k :: Get(WithExamples(nodes, labels, run).value, k) == Sampled(nodes, labels, run, k)
  {
    if |labels| == 0 {
      forall k ensures Get(nodes, k) == Sampled(nodes, labels, run, k) {
      }
    } else {
      var n := |labels| - 1;
      var pre := labels[..n];
      var l := labels[n];
      WithExamplesFilled(nodes, pre, run);
      assert labels == pre + [l];
      var cur := WithExamples(nodes, pre, run).value;
      assert Get(cur, l) == Sampled(nodes, pre, run, l);
      forall k
        ensures Get(AddExamples(cur, l, run).value, k) == Sampled(nodes, labels, run, k)
      {
        AddExamplesSpec(cur, l, run, k);
      }
      AddExamplesSpec(cur, l, run, l);
    }
  }

  /** The node of `l` is named and its sampling read fails. */
  predicate ReadFails(nodes: Dict<NodeEntry>, l: string, run: SampleQuery -> Read<string>)
  {
    Named(nodes, l) && JsonRead(run, l).failure.Some?
  }

  /** The read of some named node among `labels` fails. */
  ghost predicate SomeReadFails(nodes: Dict<NodeEntry>, labels: seq<string>, run: SampleQuery -> Read<string>)
  {
    exists i :: 0 <= i < |labels| && ReadFails(nodes, labels[i], run)
  }

  lemma SomeReadFailsSnoc(nodes: Dict<NodeEntry>, labels: seq<string>, run: SampleQuery -> Read<string>)
    requires |labels| > 0
    ensures SomeReadFails(nodes, labels, run) <==>
      SomeReadFails(nodes, labels[..|labels| - 1], run) || ReadFails(nodes, labels[|labels| - 1], run)
  {
    ExistsSnoc(labels, labels[..|labels| - 1], l => ReadFails(nodes, l, run));
  }

  /** Sampling fails exactly when the read of some named node among `labels` fails. */
  lemma {:induction false} WithExamplesFails(nodes: Dict<NodeEntry>, labels: seq<string>, run: SampleQuery -> Read<string>)
    ensures WithExamples(nodes, labels, run).None? <==> SomeReadFails(nodes, labels, run)
  {
    if |labels| > 0 {
      var n := |labels| - 1;
      var pre := labels[..n];
      WithExamplesFails(nodes, pre, run);
      SomeReadFailsSnoc(nodes, labels, run);
      if WithExamples(nodes, pre, run).Some? {
        WithExamplesFilled(nodes, pre, run);
        var cur := WithExamples(nodes, pre, run).value;
        assert Get(cur, labels[n]) == Sampled(nodes, pre, run, labels[n]);
        assert Named(cur, labels[n]) == Named(nodes, labels[n]);
      }
    }
  }

  method AddAllExamples(nodes: Dict<NodeEntry>, run: SampleQuery -> Read<string>) returns (r: Option<Dict<NodeEntry>>)
    ensures r == WithExamples(nodes, Keys(nodes), run)
  {
    var keys := Keys(nodes);
    var cur := nodes;
    for i := 0 to |keys|
      invariant WithExamples(nodes, keys[..i], run) == Some(cur)
    {
      assert keys[..i + 1][..i] == keys[..i];
      var l := keys[i];
      var entry := Get(cur, l);
      if entry.Some? && IdentityProperty in Keys(entry.value.properties) {
        var rd := run(SampleQuery(l, JsonSampleLimit));
        if rd.failure.Some? {
          WithExamplesNoneSticks(nodes, keys, i + 1, run);
          return None;
        }
        if |rd.rows| > 0 {
          cur := Put(cur, l, entry.value.(examples := Some(rd.rows)));
        }
      }
    }
    assert keys[..|keys|] == keys;
    return Some(cur);
  }

  // ---------------------------------------------------------------------------
  // The whole builder

  ghost function JsonSchemaOf(labels: Read<string>, props: Read<TypeProp>, run: SampleQuery -> Read<string>, rels: Read<Relation>)
    : Option<JsonSchema>
  {
    if labels.failure.Some? || props.failure.Some? then None
    else
      var nodes := WithProperties(LabelNodes(labels.rows), props.rows);
      match WithExamples(nodes, Keys(nodes), run)
      case None => None
      case Some(filled) =>
        if rels.failure.Some? then None else Some(JsonSchema(filled, SortedOf(Patterns(rels.rows))))
  }

  /**
   * genera_schema_strutturato, JSON version: `labels` is what db.labels() streams, `props`
   * the records of db.schema.nodeTypeProperties(), `run` answers each sampling query and
   * `rels` is the relationships of db.schema.visualization().
   */
  method GenerateJsonSchema(labels: Read<string>, props: Read<TypeProp>, run: SampleQuery -> Read<string>, rels: Read<Relation>)
    returns (r: Option<JsonSchema>)
    ensures r == JsonSchemaOf(labels, props, run, rels)
  {
    var nodes: Dict<NodeEntry> := [];
    for i := 0 to |labels.rows|
      invariant nodes == LabelNodes(labels.rows[..i])
    {
      assert labels.rows[..i + 1][..i] == labels.rows[..i];
      var l := labels.rows[i];
      if l !in IgnoredLabels {
        nodes := Put(nodes, l, NodeEntry([], None));
      }
    }
    assert labels.rows[..|labels.rows|] == labels.rows;
    if labels.failure.Some? {
      return None;
    }
    nodes := AddProperties(nodes, props.rows);
    if props.failure.Some? {
      return None;
    }
    var filled := AddAllExamples(nodes, run);
    if filled.None? || rels.failure.Some? {
      return None;
    }
    var patterns := CollectPatterns(rels.rows);
    var relationships := SortedSet(patterns);
    return Some(JsonSchema(filled.value, relationships));
  }

  /**
   * The JSON schema exists exactly when no read fails; it then holds a node for every
   * label that is not ignored, nodes without properties included, each with the
   * properties whose main label it is, and the relationship patterns sorted without
   * repeats, the same patterns the Markdown builder lists.
   */
  lemma JsonSchemaSpec(labels: Read<string>, props: Read<TypeProp>, run: SampleQuery -> Read<string>, rels: Read<Relation>)
    ensures var nodes := WithProperties(LabelNodes(labels.rows), props.rows);
      JsonSchemaOf(labels, props, run, rels).Some? <==>
        labels.failure.None? && props.failure.None? && rels.failure.None? &&
        forall l :: l in Keys(nodes) && Named(nodes, l) ==> JsonRead(run, l).failure.None?
    ensures JsonSchemaOf(labels, props, run, rels).Some? ==>
      var js := JsonSchemaOf(labels, props, run, rels).value;
      (forall l :: l in Keys(js.nodes) <==> l in labels.rows && l !in IgnoredLabels) &&
      (forall l, p :: l in Keys(js.nodes) ==> (p in PropertyNames(js.nodes, l) <==> Claims(props.rows, l, p))) &&
      StrictlySorted(js.relationships) &&
      (forall p :: p in js.relationships <==> exists i :: 0 <= i < |rels.rows| && PatternOf(rels.rows[i]) == Some(p))
  {
    var base := LabelNodes(labels.rows);
    var nodes := WithProperties(base, props.rows);
    LabelNodesSpec(labels.rows);
    WithExamplesFails(nodes, Keys(nodes), run);
    forall l | l in Keys(nodes) && Named(nodes, l) && JsonRead(run, l).failure.Some?
      ensures WithExamples(nodes, Keys(nodes), run).None?
    {
      var i :| 0 <= i < |Keys(nodes)| && Keys(nodes)[i] == l;
    }
    if JsonSchemaOf(labels, props, run, rels).Some? {
      var js := JsonSchemaOf(labels, props, run, rels).value;
      WithExamplesFilled(nodes, Keys(nodes), run);
      WithPropertiesKeys(base, props.rows, "");
      forall l, p | l in Keys(js.nodes)
        ensures p in PropertyNames(js.nodes, l) <==> Claims(props.rows, l, p)
      {
        WithPropertiesSpec(base, props.rows, l);
        assert Get(js.nodes, l) == Sampled(nodes, Keys(nodes), run, l);
        assert PropertyNames(base, l) == [];
      }
      RelationLinesSpec(rels.rows);
    }
  }
}
