/**
 * `genera_schema_strutturato`, the hand-rolled Markdown schema builder: three stages
 * read the node properties, sample instance names per label and collect relationship
 * patterns, each behind its own `try`, and the sections are joined by blank lines.
 * The English copy (2_way_pipeline_new_graph.py) and the Italian one
 * (pipeline_nicolas.py) differ only in their wording.
 */
module SchemaBuilders {
  import opened Wrappers
  import opened Text
  import opened Order
  import opened Values
  import opened LegacyData
  import opened LegacyQueries
  import FormattingV3

  /** `etichette_da_ignorare` */
  const IgnoredLabels: set<string> := {"_GraphConfig", "Resource", "Ontology"}
  /** `proprieta_identificativa` */
  const IdentityProperty := "name"
  /** `limite` */
  const SampleLimit: nat := 100

  /**
   * What one query gives back: the rows the driver streamed and, when it then raised,
   * the text of the exception.
   */
  datatype Read<T> = Read(rows: seq<T>, failure: Option<string>)

  /** A label is kept unless it is ignored. */
  predicate Kept(ignored: set<string>, l: string) { l !in ignored }

  /** The labels of a node without the ignored ones, in their order. */
  function GoodLabels(labels: seq<string>): seq<string>
  {
    Filter(labels, IgnoredLabels, Kept)
  }

  /**
   * The query sampling the identity property of the nodes of one label; the database
   * is a function from these queries to what they read.
   */
  datatype SampleQuery = SampleQuery(nodeLabel: string, limit: nat)

  /** The Cypher text of a sampling query. */
  function QueryText(q: SampleQuery): string
  {
    "MATCH (n:`" + q.nodeLabel + "`) WHERE n." + IdentityProperty + " IS NOT NULL RETURN n."
      + IdentityProperty + " AS instance_name LIMIT " + FormattingV3.NatText(q.limit)
  }

  // ---------------------------------------------------------------------------
  // Wording

  datatype Language = English | Italian

  const NodesError := "## Errore nel recupero dello schema dei nodi: "
  const ExamplesError := "## Errore nel recupero degli esempi di istanze: "
  const RelationsError := "## Errore nel recupero dello schema delle relazioni: "

  function NodesHead(lang: Language): seq<string>
  {
    match lang
    case English => ["## List of nodes and their properties", "Nodes and their respective properties are listed below.\n"]
    case Italian => ["## Schema delle Proprietà dei Nodi", "Di seguito sono elencati i nodi e le rispettive proprietà.\n"]
  }

  function NodeLine(lang: Language, nodeLabel: string, props: seq<string>): string
  {
    match lang
    case English => "- Node`:" + nodeLabel + "` has the following properties:: `" + ListRepr(props) + "`."
    case Italian => "- Nodo con etichetta `:" + nodeLabel + "` ha le proprietà: `" + ListRepr(props) + "`."
  }

  function ExamplesHead(lang: Language): seq<string>
  {
    match lang
    case English => ["\n## Elements for each Node of the graph schema"]
    case Italian =>
      ["\n## Esempi di Istanze per Etichetta",
       "Per darti un'idea dei dati reali, ecco alcuni nomi di istanze per etichetta.\n"]
  }

  function ExampleLine(lang: Language, nodeLabel: string, names: seq<string>): string
  {
    match lang
    case English => "- Examples for `:" + nodeLabel + "`: `" + ListRepr(names) + "`"
    case Italian => "- Esempi per `:" + nodeLabel + "`: `" + ListRepr(names) + "`"
  }

  function RelationsHead(lang: Language): seq<string>
  {
    match lang
    case English => ["\n## Relationships between nodes in the graph", "Lists the existing relationship patterns between nodes.\n"]
    case Italian =>
      ["\n## Schema delle Relazioni", "Di seguito sono elencati i pattern di relazione esistenti tra i nodi.\n"]
  }

  // ---------------------------------------------------------------------------
  // Stage 1: nodes and their properties

  /** The labels `nodi_e_proprieta` holds a key for. */
  function KeySet(d: Dict<Group>): set<string>
  {
    set k | k in Keys(d)
  }

  /** The properties the records declare for a label. */
  ghost function PropsOf(records: seq<TypeProp>, l: string): set<string>
  {
    set i | 0 <= i < |records| && l in records[i].nodeLabels :: records[i].propertyName
  }

  /** `etichette_valide`: the sorted labels that are not ignored. */
  ghost function ValidLabels(d: Dict<Group>): seq<string>
  {
    SortedOf(KeySet(d) - IgnoredLabels)
  }

  ghost function NodeLines(lang: Language, d: Dict<Group>, labels: seq<string>): seq<string>
  {
    seq(|labels|, i requires 0 <= i < |labels| => NodeLine(lang, labels[i], SortedOf(Lookup(d, labels[i]))))
  }

  ghost function NodesSection(lang: Language, d: Dict<Group>): string
  {
    Join("\n", NodesHead(lang) + NodeLines(lang, d, ValidLabels(d)))
  }

  lemma NodeLinesSnoc(lang: Language, d: Dict<Group>, labels: seq<string>, l: string)
    ensures NodeLines(lang, d, labels + [l]) == NodeLines(lang, d, labels) + [NodeLine(lang, l, SortedOf(Lookup(d, l)))]
  {
  }

  /** Dropping some elements of a strictly increasing sequence leaves it strictly increasing. */
  lemma {:induction false} FilterStrict(s: seq<string>, ignored: set<string>)
    requires StrictlySorted(s)
    ensures StrictlySorted(Filter(s, ignored, Kept))
  {
    if |s| > 0 {
      FilterStrict(s[1..], ignored);
      var r := Filter(s[1..], ignored, Kept);
      forall j | 0 <= j < |r|
        ensures Lt(s[0], r[j])
      {
        FilterMembers(s[1..], ignored, Kept, r[j]);
        var k :| 0 <= k < |s[1..]| && s[1..][k] == r[j];
        assert s[k + 1] == r[j];
      }
      if Kept(ignored, s[0]) {
        var f := [s[0]] + r;
        forall i, j | 0 <= i < j < |f|
          ensures Lt(f[i], f[j])
        {
          if i > 0 {
            assert f[i] == r[i - 1] && f[j] == r[j - 1];
          } else {
            assert f[j] == r[j - 1];
          }
        }
      }
    }
  }

  /**
   * Walking the sorted keys and skipping the ignored ones visits exactly
   * `etichette_valide`, in the same order.
   */
  lemma FilterSortedOf(st: set<string>, ignored: set<string>)
    ensures Filter(SortedOf(st), ignored, Kept) == SortedOf(st - ignored)
  {
    FilterStrict(SortedOf(st), ignored);
    forall x
      ensures x in Filter(SortedOf(st), ignored, Kept) <==> x in SortedOf(st - ignored)
    {
      FilterMembers(SortedOf(st), ignored, Kept, x);
    }
    StrictlySortedUnique(Filter(SortedOf(st), ignored, Kept), SortedOf(st - ignored));
  }

  /** The node section: the heading, then one line per valid label with its sorted properties. */
  method NodeSection(lang: Language, d: Dict<Group>) returns (section: string)
    ensures section == NodesSection(lang, d)
  {
    var all := SortedSet(KeySet(d));
    var lines := [];
    for i := 0 to |all|
      invariant lines == NodeLines(lang, d, Filter(all[..i], IgnoredLabels, Kept))
    {
      ghost var seen := Filter(all[..i], IgnoredLabels, Kept);
      FilterSnoc(all, i, IgnoredLabels, Kept);
      if all[i] in IgnoredLabels {
        assert Filter(all[..i + 1], IgnoredLabels, Kept) == seen;
        continue;
      }
      var props := SortedSet(Lookup(d, all[i]));
      NodeLinesSnoc(lang, d, seen, all[i]);
      assert Filter(all[..i + 1], IgnoredLabels, Kept) == seen + [all[i]];
      lines := lines + [NodeLine(lang, all[i], props)];
    }
    assert all[..|all|] == all;
    FilterSortedOf(KeySet(d), IgnoredLabels);
    section := Join("\n", NodesHead(lang) + lines);
  }

  /**
   * The valid labels are sorted, free of the ignored labels, and are exactly the labels
   * some record names; each carries exactly the properties the records declare for it.
   */
  lemma ValidLabelsSpec(records: seq<TypeProp>)
    ensures StrictlySorted(ValidLabels(Grouped(records, [])))
    ensures forall l :: l in ValidLabels(Grouped(records, [])) <==>
      l !in IgnoredLabels && exists i :: 0 <= i < |records| && l in records[i].nodeLabels
    ensures forall l :: Lookup(Grouped(records, []), l) == PropsOf(records, l)
  {
    var d := Grouped(records, []);
    GroupedSpec(records, []);
    forall l
      ensures Lookup(d, l) == PropsOf(records, l)
    {
      forall p
        ensures p in Lookup(d, l) <==> p in PropsOf(records, l)
      {
        if p in PropsOf(records, l) {
          var i :| 0 <= i < |records| && l in records[i].nodeLabels && records[i].propertyName == p;
          assert Declares(records, [], l, p);
        }
      }
      FormattingV3.SameMembers(Lookup(d, l), PropsOf(records, l));
    }
    forall l
      ensures l in ValidLabels(d) <==> l !in IgnoredLabels && exists i :: 0 <= i < |records| && l in records[i].nodeLabels
    {
      if exists i :: 0 <= i < |records| && l in records[i].nodeLabels {
        var i :| 0 <= i < |records| && l in records[i].nodeLabels;
        assert records[i].propertyName in PropsOf(records, l);
      }
    }
  }

  // ---------------------------------------------------------------------------
  // Stage 2: instance names per label

  /** `esempi_per_etichetta` once the loop ends, or the exception that interrupted it. */
  datatype Sampling = Sampled(kept: seq<(string, seq<string>)>) | SampleError(msg: string)

  function ReadOf(run: SampleQuery -> Read<string>, l: string): Read<string>
  {
    run(SampleQuery(l, SampleLimit))
  }

  function Sample(run: SampleQuery -> Read<string>, labels: seq<string>): Sampling
  {
    if |labels| == 0 then Sampled([])
    else
      match Sample(run, labels[..|labels| - 1])
      case SampleError(m) => SampleError(m)
      case Sampled(kept) =>
        var l := labels[|labels| - 1];
        var rd := ReadOf(run, l);
        if rd.failure.Some? then SampleError(rd.failure.value)
        else if |rd.rows| > 0 then Sampled(kept + [(l, rd.rows)])
        else Sampled(kept)
  }

  /** Once a sample fails, the later labels are not read. */
  lemma {:induction false} SampleErrorSticks(run: SampleQuery -> Read<string>, labels: seq<string>, k: nat)
    requires k <= |labels| && Sample(run, labels[..k]).SampleError?
    ensures Sample(run, labels) == Sample(run, labels[..k])
    decreases |labels| - k
  {
    if k < |labels| {
      assert labels[..k + 1][..k] == labels[..k];
      SampleErrorSticks(run, labels, k + 1);
    } else {
      assert labels[..k] == labels;
    }
  }

  method SampleLabels(run: SampleQuery -> Read<string>, labels: seq<string>) returns (s: Sampling)
    ensures s == Sample(run, labels)
  {
    var kept := [];
    for i := 0 to |labels|
      invariant Sample(run, labels[..i]) == Sampled(kept)
    {
      assert labels[..i + 1][..i] == labels[..i];
      var rd := run(SampleQuery(labels[i], SampleLimit));
      if rd.failure.Some? {
        SampleErrorSticks(run, labels, i + 1);
        return SampleError(rd.failure.value);
      }
      if |rd.rows| > 0 {
        kept := kept + [(labels[i], rd.rows)];
      }
    }
    assert labels[..|labels|] == labels;
    return Sampled(kept);
  }

  /** Sampling fails with the error of the first label whose read fails, and only then. */
  lemma {:induction false} SampleErrorSpec(run: SampleQuery -> Read<string>, labels: seq<string>, m: string)
    ensures Sample(run, labels) == SampleError(m) <==>
      exists i :: 0 <= i < |labels| && ReadOf(run, labels[i]).failure == Some(m) &&
        forall j :: 0 <= j < i ==> ReadOf(run, labels[j]).failure.None?
  {
    if |labels| > 0 {
      var n := |labels| - 1;
      var pre := labels[..n];
      SampleErrorSpec(run, pre, m);
      SampleFailsSpec(run, pre);
      if Sample(run, labels) == SampleError(m) {
        if Sample(run, pre).SampleError? {
          var i :| 0 <= i < n && ReadOf(run, pre[i]).failure == Some(m) &&
            forall j :: 0 <= j < i ==> ReadOf(run, pre[j]).failure.None?;
          assert labels[i] == pre[i];
          assert forall j :: 0 <= j < i ==> labels[j] == pre[j];
        } else {
          assert forall j :: 0 <= j < n ==> labels[j] == pre[j];
        }
      }
      if exists i :: 0 <= i < |labels| && ReadOf(run, labels[i]).failure == Some(m) &&
                     (forall j :: 0 <= j < i ==> ReadOf(run, labels[j]).failure.None?) {
        var i :| 0 <= i < |labels| && ReadOf(run, labels[i]).failure == Some(m) &&
          forall j :: 0 <= j < i ==> ReadOf(run, labels[j]).failure.None?;
        if i < n {
          assert pre[i] == labels[i];
          assert forall j :: 0 <= j < i ==> pre[j] == labels[j];
        } else {
          assert forall j :: 0 <= j < n ==> pre[j] == labels[j];
        }
      }
    }
  }

  /** Sampling fails exactly when the read of some label fails. */
  lemma {:induction false} SampleFailsSpec(run: SampleQuery -> Read<string>, labels: seq<string>)
    ensures Sample(run, labels).SampleError? <==> exists i :: 0 <= i < |labels| && ReadOf(run, labels[i]).failure.Some?
  {
    if |labels| > 0 {
      var n := |labels| - 1;
      SampleFailsSpec(run, labels[..n]);
      if exists i :: 0 <= i < n && ReadOf(run, labels[..n][i]).failure.Some? {
        var i :| 0 <= i < n && ReadOf(run, labels[..n][i]).failure.Some?;
        assert labels[i] == labels[..n][i];
      }
      if exists i :: 0 <= i < |labels| && ReadOf(run, labels[i]).failure.Some? {
        var i :| 0 <= i < |labels| && ReadOf(run, labels[i]).failure.Some?;
        if i < n {
          assert labels[..n][i] == labels[i];
        }
      }
    }
  }

  /**
   * When no read fails, a label is kept exactly when its read returned some names, and it
   * is kept with those names; kept labels follow the order of the labels.
   */
  lemma {:induction false} SampledSpec(run: SampleQuery -> Read<string>, labels: seq<string>)
    requires Sample(run, labels).Sampled?
    ensures forall l, names :: (l, names) in Sample(run, labels).kept <==>
      l in labels && names == ReadOf(run, l).rows && |names| > 0
    ensures StrictlySorted(labels) ==> StrictlySorted(Keys(Sample(run, labels).kept))
  {
    if |labels| > 0 {
      var n := |labels| - 1;
      var pre := labels[..n];
      SampledSpec(run, pre);
      assert labels == pre + [labels[n]];
      var kept := Sample(run, pre).kept;
      if StrictlySorted(labels) {
        assert StrictlySorted(pre);
        var ks := Keys(Sample(run, labels).kept);
        forall i, j | 0 <= i < j < |ks|
          ensures Lt(ks[i], ks[j])
        {
          if j == |kept| {
            assert (ks[i], kept[i].1) in kept && ks[j] == labels[n];
            var k :| 0 <= k < n && pre[k] == ks[i];
          } else {
            assert ks[i] == Keys(kept)[i] && ks[j] == Keys(kept)[j];
          }
        }
      }
    }
  }

  ghost function ExampleLines(lang: Language, kept: seq<(string, seq<string>)>): seq<string>
  {
    seq(|kept|, i requires 0 <= i < |kept| => ExampleLine(lang, kept[i].0, kept[i].1))
  }

  /** The sections stage 2 contributes: the error, nothing, or the example lines. */
  ghost function ExamplesSections(lang: Language, s: Sampling): seq<string>
  {
    match s
    case SampleError(m) => [ExamplesError + m]
    case Sampled(kept) => if |kept| == 0 then [] else [Join("\n", ExamplesHead(lang) + ExampleLines(lang, kept))]
  }

  lemma ExampleLinesSnoc(lang: Language, kept: seq<(string, seq<string>)>, i: nat)
    requires i < |kept|
    ensures ExampleLines(lang, kept[..i + 1]) == ExampleLines(lang, kept[..i]) + [ExampleLine(lang, kept[i].0, kept[i].1)]
  {
  }

  method ExamplesSection(lang: Language, kept: seq<(string, seq<string>)>) returns (section: string)
    ensures section == Join("\n", ExamplesHead(lang) + ExampleLines(lang, kept))
  {
    var lines := [];
    for i := 0 to |kept|
      invariant lines == ExampleLines(lang, kept[..i])
    {
      ExampleLinesSnoc(lang, kept, i);
      lines := lines + [ExampleLine(lang, kept[i].0, kept[i].1)];
    }
    assert kept[..|kept|] == kept;
    section := Join("\n", ExamplesHead(lang) + lines);
  }

  /** The examples section appears exactly when sampling succeeded and found names for some label. */
  lemma ExamplesShown(lang: Language, run: SampleQuery -> Read<string>, labels: seq<string>)
    ensures |ExamplesSections(lang, Sample(run, labels))| <= 1
    ensures |ExamplesSections(lang, Sample(run, labels))| == 1 <==>
      (exists i :: 0 <= i < |labels| && ReadOf(run, labels[i]).failure.Some?) ||
      (exists i :: 0 <= i < |labels| && |ReadOf(run, labels[i]).rows| > 0)
  {
    SampleFailsSpec(run, labels);
    var s := Sample(run, labels);
    if s.Sampled? {
      SampledSpec(run, labels);
      if exists i :: 0 <= i < |labels| && |ReadOf(run, labels[i]).rows| > 0 {
        var i :| 0 <= i < |labels| && |ReadOf(run, labels[i]).rows| > 0;
        assert (labels[i], ReadOf(run, labels[i]).rows) in s.kept;
      }
      if |s.kept| > 0 {
        assert (s.kept[0].0, s.kept[0].1) in s.kept;
      }
    }
  }

  // ---------------------------------------------------------------------------
  // Stage 3: relationship patterns

  /** The pattern of one relationship, from the first good label at each end; none when an end has none. */
  function PatternOf(r: Relation): Option<string>
  {
    var starts := GoodLabels(r.startLabels);
    var ends := GoodLabels(r.endLabels);
    if |starts| == 0 || |ends| == 0 then None else Some(Arrow(starts[0], r.relType, ends[0]))
  }

  /** `relazioni_uniche` after the loop. */
  function Patterns(rels: seq<Relation>): set<string>
  {
    if |rels| == 0 then {}
    else
      var rest := Patterns(rels[..|rels| - 1]);
      match PatternOf(rels[|rels| - 1])
      case Some(p) => rest + {p}
      case None => rest
  }

  /** The first good label is a label that is not ignored and after only ignored ones. */
  lemma {:induction false} FirstGoodLabel(labels: seq<string>)
    ensures |GoodLabels(labels)| == 0 <==> forall l :: l in labels ==> l in IgnoredLabels
    ensures |GoodLabels(labels)| > 0 ==>
      exists i :: 0 <= i < |labels| && labels[i] == GoodLabels(labels)[0] &&
                  labels[i] !in IgnoredLabels && forall j :: 0 <= j < i ==> labels[j] in IgnoredLabels
  {
    if |labels| > 0 {
      FirstGoodLabel(labels[1..]);
      assert labels == [labels[0]] + labels[1..];
      if labels[0] in IgnoredLabels && |GoodLabels(labels[1..])| > 0 {
        var i :| 0 <= i < |labels[1..]| && labels[1..][i] == GoodLabels(labels[1..])[0] &&
          labels[1..][i] !in IgnoredLabels && forall j :: 0 <= j < i ==> labels[1..][j] in IgnoredLabels;
        assert labels[i + 1] == GoodLabels(labels)[0];
        assert forall j :: 0 < j < i + 1 ==> labels[j] == labels[1..][j - 1];
      }
    }
  }

  /**
   * A relationship gives no pattern when all labels of an end are ignored; otherwise its
   * pattern joins the first non-ignored label of each end by its type.
   */
  lemma PatternOfSpec(r: Relation)
    ensures PatternOf(r).None? <==>
      (forall a :: a in r.startLabels ==> a in IgnoredLabels) || (forall b :: b in r.endLabels ==> b in IgnoredLabels)
    ensures PatternOf(r).Some? ==> exists i, j ::
      0 <= i < |r.startLabels| && 0 <= j < |r.endLabels| &&
      r.startLabels[i] !in IgnoredLabels && (forall k :: 0 <= k < i ==> r.startLabels[k] in IgnoredLabels) &&
      r.endLabels[j] !in IgnoredLabels && (forall k :: 0 <= k < j ==> r.endLabels[k] in IgnoredLabels) &&
      PatternOf(r).value == Arrow(r.startLabels[i], r.relType, r.endLabels[j])
  {
    FirstGoodLabel(r.startLabels);
    FirstGoodLabel(r.endLabels);
  }

  /** The collected set holds exactly the patterns of the individual relationships. */
  lemma {:induction false} PatternsSpec(rels: seq<Relation>, p: string)
    ensures p in Patterns(rels) <==> exists i :: 0 <= i < |rels| && PatternOf(rels[i]) == Some(p)
  {
    if |rels| > 0 {
      var n := |rels| - 1;
      PatternsSpec(rels[..n], p);
      if exists i :: 0 <= i < n && PatternOf(rels[..n][i]) == Some(p) {
        var i :| 0 <= i < n && PatternOf(rels[..n][i]) == Some(p);
        assert rels[i] == rels[..n][i];
      }
      if exists i :: 0 <= i < |rels| && PatternOf(rels[i]) == Some(p) {
        var i :| 0 <= i < |rels| && PatternOf(rels[i]) == Some(p);
        if i < n {
          assert rels[..n][i] == rels[i];
        }
      }
    }
  }

  method CollectPatterns(rels: seq<Relation>) returns (patterns: set<string>)
    ensures patterns == Patterns(rels)
  {
    patterns := {};
    for i := 0 to |rels|
      invariant patterns == Patterns(rels[..i])
    {
      assert rels[..i + 1][..i] == rels[..i];
      var starts := GoodLabels(rels[i].startLabels);
      var ends := GoodLabels(rels[i].endLabels);
      if |starts| == 0 || |ends| == 0 {
        continue;
      }
      patterns := patterns + {Arrow(starts[0], rels[i].relType, ends[0])};
    }
    assert rels[..|rels|] == rels;
  }

  function Bulleted(ps: seq<string>): (r: seq<string>)
    ensures |r| == |ps|
  {
    seq(|ps|, i requires 0 <= i < |ps| => "- " + ps[i])
  }

  /** The sections stage 3 contributes: the error, or the sorted patterns. */
  ghost function RelationsSections(lang: Language, rd: Read<Relation>): seq<string>
  {
    if rd.failure.Some? then [RelationsError + rd.failure.value]
    else [Join("\n", RelationsHead(lang) + Bulleted(SortedOf(Patterns(rd.rows))))]
  }

  method RelationsSection(lang: Language, patterns: set<string>) returns (section: string)
    ensures section == Join("\n", RelationsHead(lang) + Bulleted(SortedOf(patterns)))
  {
    var sorted := SortedSet(patterns);
    var lines := [];
    for i := 0 to |sorted|
      invariant lines == Bulleted(sorted[..i])
    {
      assert Bulleted(sorted[..i + 1]) == Bulleted(sorted[..i]) + ["- " + sorted[i]];
      lines := lines + ["- " + sorted[i]];
    }
    assert sorted[..|sorted|] == sorted;
    section := Join("\n", RelationsHead(lang) + lines);
  }

  // ---------------------------------------------------------------------------
  // The whole schema

  /** The sections stage 1 contributes: the error first if the read failed, then the nodes read before it. */
  ghost function NodeSections(lang: Language, nodes: Read<TypeProp>): seq<string>
  {
    (if nodes.failure.Some? then [NodesError + nodes.failure.value] else []) + [NodesSection(lang, Grouped(nodes.rows, []))]
  }

  ghost function Schema(lang: Language, nodes: Read<TypeProp>, run: SampleQuery -> Read<string>, rels: Read<Relation>): string
  {
    Join("\n\n", NodeSections(lang, nodes) + ExamplesSections(lang, Sample(run, ValidLabels(Grouped(nodes.rows, []))))
      + RelationsSections(lang, rels))
  }

  /** Stage 1, and the labels stage 2 samples. */
  method NodeStage(lang: Language, nodes: Read<TypeProp>) returns (sections: seq<string>, valid: seq<string>)
    ensures sections == NodeSections(lang, nodes)
    ensures valid == ValidLabels(Grouped(nodes.rows, []))
  {
    var d := PropsPerLabel(nodes.rows, []);
    var nodeSection := NodeSection(lang, d);
    if nodes.failure.Some? {
      sections := [NodesError + nodes.failure.value] + [nodeSection];
    } else {
      sections := [nodeSection];
    }
    valid := SortedSet(KeySet(d) - IgnoredLabels);
  }

  method ExampleStage(lang: Language, run: SampleQuery -> Read<string>, valid: seq<string>) returns (sections: seq<string>)
    ensures sections == ExamplesSections(lang, Sample(run, valid))
  {
    var sampling := SampleLabels(run, valid);
    match sampling {
      case SampleError(m) =>
        sections := [ExamplesError + m];
      case Sampled(kept) =>
        if |kept| > 0 {
          var examples := ExamplesSection(lang, kept);
          sections := [examples];
        } else {
          sections := [];
        }
    }
  }

  method RelationStage(lang: Language, rels: Read<Relation>) returns (sections: seq<string>)
    ensures sections == RelationsSections(lang, rels)
  {
    if rels.failure.Some? {
      sections := [RelationsError + rels.failure.value];
    } else {
      var patterns := CollectPatterns(rels.rows);
      var relations := RelationsSection(lang, patterns);
      sections := [relations];
    }
  }

  /**
   * genera_schema_strutturato: `nodes` is what db.schema.nodeTypeProperties() streams,
   * `run` answers each sampling query and `rels` is the relationships of
   * db.schema.visualization(), record after record.
   */
  method GenerateStructuredSchema(lang: Language, nodes: Read<TypeProp>, run: SampleQuery -> Read<string>, rels: Read<Relation>)
    returns (schema: string)
    ensures schema == Schema(lang, nodes, run, rels)
  {
    var nodeSections, valid := NodeStage(lang, nodes);
    var exampleSections := ExampleStage(lang, run, valid);
    var relationSections := RelationStage(lang, rels);
    schema := Join("\n\n", nodeSections + exampleSections + relationSections);
  }

  /**
   * A failed read of the node properties does not lose what was read before it: the
   * schema is the one those records give, preceded by the error.
   */
  lemma NodesFailureKeepsPartial(lang: Language, rows: seq<TypeProp>, m: string, run: SampleQuery -> Read<string>, rels: Read<Relation>)
    ensures Schema(lang, Read(rows, Some(m)), run, rels) == NodesError + m + "\n\n" + Schema(lang, Read(rows, None), run, rels)
  {
    var nodes := NodeSections(lang, Read(rows, None));
    assert NodeSections(lang, Read(rows, Some(m))) == [NodesError + m] + nodes;
    JoinFront("\n\n", NodesError + m, nodes,
      ExamplesSections(lang, Sample(run, ValidLabels(Grouped(rows, [])))), RelationsSections(lang, rels));
  }

  lemma JoinFront(sep: string, e: string, a: seq<string>, b: seq<string>, c: seq<string>)
    requires |a| > 0
    ensures Join(sep, [e] + a + b + c) == e + sep + Join(sep, a + b + c)
  {
    assert [e] + a + b + c == [e] + (a + b + c);
    assert ([e] + (a + b + c))[1..] == a + b + c;
  }

  /**
   * The relationship stage is isolated: whatever it reads, the schema begins with the same
   * node and example sections, and a failure replaces only its own section by the error.
   */
  lemma RelationsIsolated(lang: Language, nodes: Read<TypeProp>, run: SampleQuery -> Read<string>, rels: Read<Relation>)
    ensures Schema(lang, nodes, run, rels) ==
      Join("\n\n", NodeSections(lang, nodes) + ExamplesSections(lang, Sample(run, ValidLabels(Grouped(nodes.rows, [])))))
      + "\n\n" + (if rels.failure.Some? then RelationsError + rels.failure.value
                  else Join("\n", RelationsHead(lang) + Bulleted(SortedOf(Patterns(rels.rows)))))
  {
    var front := NodeSections(lang, nodes) + ExamplesSections(lang, Sample(run, ValidLabels(Grouped(nodes.rows, []))));
    FormattingV3.JoinSnoc("\n\n", front, RelationsSections(lang, rels)[0]);
  }

  /** The listed patterns are sorted, without repeats, and each comes from some relationship. */
  lemma RelationLinesSpec(rows: seq<Relation>)
    ensures StrictlySorted(SortedOf(Patterns(rows)))
    ensures forall p :: p in SortedOf(Patterns(rows)) <==> exists i :: 0 <= i < |rows| && PatternOf(rows[i]) == Some(p)
  {
    forall p
      ensures p in SortedOf(Patterns(rows)) <==> exists i :: 0 <= i < |rows| && PatternOf(rows[i]) == Some(p)
    {
      PatternsSpec(rows, p);
    }
  }
}
