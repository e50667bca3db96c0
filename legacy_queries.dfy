/**
 * The auto-queries of the earlier retrievers (versions 4 to 7): grouping the records
 * of db.schema.nodeTypeProperties() per label, collecting examples per label, the
 * relationship patterns of db.schema.visualization(), the class hierarchy, and the
 * per-object fetches driven by the NAMES entry of a schema.
 */
module LegacyQueries {
  import opened Wrappers
  import opened Text
  import opened Values
  import opened LegacyData
  import AutoQueries
  import FormattingV3

  /** A record of db.schema.nodeTypeProperties(): the labels of a node type and one of its properties. */
  datatype TypeProp = TypeProp(nodeLabels: seq<string>, propertyName: string)

  /** A relationship of db.schema.visualization(): the labels of its two ends and its type. */
  datatype Relation = Relation(startLabels: seq<string>, relType: string, endLabels: seq<string>)

  /** Queries whose collected result the retrievers store as they come. */
  datatype Collect = Labels | PropKeys | RelTypes | Relationships | Global | Classes

  /** The part of the database these auto-queries read. */
  datatype Db = Db(
    graph: AutoQueries.Graph,                          // names and property dicts of NamedIndividual nodes
    typeProps: seq<TypeProp>,                          // the records of db.schema.nodeTypeProperties()
    relations: seq<Relation>,                          // the relationships of db.schema.visualization(), record after record
    subclasses: seq<(string, string)>,                 // (sub.name, sup.name) of each SUBCLASSOF pair
    memberOf: map<string, seq<string>>,                // name -> the classes it is a MEMBEROF, in result order
    examples: map<(string, string), seq<string>>,      // (label, property) -> its values on nodes of that label
    collected: Collect -> seq<Item>)                   // what the collecting queries return

  // ---------------------------------------------------------------------------
  // props_per_label

  /** `nodes_props[label]` as a set: empty for a label the dict does not hold yet. */
  function Lookup(d: Dict<Group>, l: string): set<string>
  {
    match Get(d, l)
    case Some(g) => MemberSet(g)
    case None => {}
  }

  /** Adding a property to the set of a label, creating that set when absent. */
  function AddProp(d: Dict<Group>, l: string, p: string): Dict<Group>
  {
    Put(d, l, SetGroup(Lookup(d, l) + {p}))
  }

  /** The inner loop over the labels of one record. */
  function AddLabels(d: Dict<Group>, labels: seq<string>, p: string, exclude: seq<string>): Dict<Group>
  {
    if |labels| == 0 then d
    else
      var d' := AddLabels(d, labels[..|labels| - 1], p, exclude);
      if p in exclude then d' else AddProp(d', labels[|labels| - 1], p)
  }

  /** The dict props_per_label builds; `exclude` is `sys_labels`, or empty in version 4. */
  function Grouped(records: seq<TypeProp>, exclude: seq<string>): Dict<Group>
  {
    if |records| == 0 then []
    else
      var r := records[|records| - 1];
      AddLabels(Grouped(records[..|records| - 1], exclude), r.nodeLabels, r.propertyName, exclude)
  }

  /** Some record pairs label `l` with the property `p`, and `p` is not excluded. */
  ghost predicate Declares(records: seq<TypeProp>, exclude: seq<string>, l: string, p: string)
  {
    p !in exclude && exists i :: 0 <= i < |records| && l in records[i].nodeLabels && records[i].propertyName == p
  }

  /** A dict whose keys are distinct and are exactly the labels with a non-empty group. */
  ghost predicate WellGrouped(d: Dict<Group>)
  {
    DistinctKeys(d) && forall l :: l in Keys(d) <==> Lookup(d, l) != {}
  }

  lemma LookupAddProp(d: Dict<Group>, l: string, p: string, l2: string)
    ensures Lookup(AddProp(d, l, p), l2) == if l2 == l then Lookup(d, l) + {p} else Lookup(d, l2)
  {
    GetPut(d, l, SetGroup(Lookup(d, l) + {p}), l2);
  }

  lemma AddPropWell(d: Dict<Group>, l: string, p: string)
    requires WellGrouped(d)
    ensures WellGrouped(AddProp(d, l, p))
  {
    PutDistinct(d, l, SetGroup(Lookup(d, l) + {p}));
    forall l2 ensures l2 in Keys(AddProp(d, l, p)) <==> Lookup(AddProp(d, l, p), l2) != {} {
      LookupAddProp(d, l, p, l2);
    }
  }

  lemma {:induction false} AddLabelsSpec(d: Dict<Group>, labels: seq<string>, p: string, exclude: seq<string>, l: string)
    ensures Lookup(AddLabels(d, labels, p, exclude), l)
      == if l in labels && p !in exclude then Lookup(d, l) + {p} else Lookup(d, l)
  {
    if |labels| > 0 {
      var n := |labels| - 1;
      AddLabelsSpec(d, labels[..n], p, exclude, l);
      assert labels == labels[..n] + [labels[n]];
      if p !in exclude {
        LookupAddProp(AddLabels(d, labels[..n], p, exclude), labels[n], p, l);
      }
    }
  }

  lemma {:induction false} AddLabelsWell(d: Dict<Group>, labels: seq<string>, p: string, exclude: seq<string>)
    requires WellGrouped(d)
    ensures WellGrouped(AddLabels(d, labels, p, exclude))
  {
    if |labels| > 0 {
      AddLabelsWell(d, labels[..|labels| - 1], p, exclude);
      if p !in exclude {
        AddPropWell(AddLabels(d, labels[..|labels| - 1], p, exclude), labels[|labels| - 1], p);
      }
    }
  }

  /**
   * props_per_label maps every label to exactly the non-excluded properties some record
   * declares for it, holds a key exactly for the labels with such a property, and holds
   * each label once.
   */
  lemma {:induction false} GroupedSpec(records: seq<TypeProp>, exclude: seq<string>)
    ensures WellGrouped(Grouped(records, exclude))
    ensures forall l, p :: p in Lookup(Grouped(records, exclude), l) <==> Declares(records, exclude, l, p)
  {
    if |records| == 0 {
      forall l ensures Lookup([], l) == {} {
      }
    } else {
      var n := |records| - 1;
      var r := records[n];
      GroupedSpec(records[..n], exclude);
      var d := Grouped(records[..n], exclude);
      AddLabelsWell(d, r.nodeLabels, r.propertyName, exclude);
      forall l, p ensures p in Lookup(Grouped(records, exclude), l) <==> Declares(records, exclude, l, p) {
        AddLabelsSpec(d, r.nodeLabels, r.propertyName, exclude, l);
        if Declares(records[..n], exclude, l, p) {
          var i :| 0 <= i < n && l in records[..n][i].nodeLabels && records[..n][i].propertyName == p;
          assert records[i] == records[..n][i];
        }
      }
    }
  }

  method PropsPerLabel(records: seq<TypeProp>, exclude: seq<string>) returns (d: Dict<Group>)
    ensures d == Grouped(records, exclude)
  {
    d := [];
    for i := 0 to |records|
      invariant d == Grouped(records[..i], exclude)
    {
      var labels := records[i].nodeLabels;
      var prop := records[i].propertyName;
      ghost var before := d;
      for j := 0 to |labels|
        invariant d == AddLabels(before, labels[..j], prop, exclude)
      {
        AddLabelsSnoc(before, labels, j, prop, exclude);
        if prop !in exclude {
          d := AddProp(d, labels[j], prop);
        }
      }
      assert labels[..|labels|] == labels;
      GroupedSnoc(records, i, exclude);
    }
    assert records[..|records|] == records;
  }

  lemma GroupedSnoc(records: seq<TypeProp>, i: nat, exclude: seq<string>)
    requires i < |records|
    ensures Grouped(records[..i + 1], exclude)
      == AddLabels(Grouped(records[..i], exclude), records[i].nodeLabels, records[i].propertyName, exclude)
  {
    assert records[..i + 1][..i] == records[..i];
  }

  lemma AddLabelsSnoc(d: Dict<Group>, labels: seq<string>, j: nat, p: string, exclude: seq<string>)
    requires j < |labels|
    ensures AddLabels(d, labels[..j + 1], p, exclude)
      == if p in exclude then AddLabels(d, labels[..j], p, exclude) else AddProp(AddLabels(d, labels[..j], p, exclude), labels[j], p)
  {
    assert labels[..j + 1][..j] == labels[..j];
  }

  // ---------------------------------------------------------------------------
  // examples_per_label (version 5)

  /** The values of property `name` on nodes labelled `l`. */
  function ExamplesOf(db: Db, l: string, name: string): seq<string>
  {
    if (l, name) in db.examples then db.examples[(l, name)] else []
  }

  /** The rows of the example query for one label: `LIMIT lim` keeps the first `lim`. */
  function Rows(db: Db, l: string, name: string, lim: nat): (r: seq<string>)
    ensures |r| <= lim && |r| <= |ExamplesOf(db, l, name)| && r == ExamplesOf(db, l, name)[..|r|]
    ensures |ExamplesOf(db, l, name)| <= lim ==> r == ExamplesOf(db, l, name)
  {
    var all := ExamplesOf(db, l, name);
    if lim < |all| then all[..lim] else all
  }

  /** The loop over the labels of one record: a label is stored only when its rows are not empty. */
  function StoreLabels(d: Dict<Group>, labels: seq<string>, db: Db, name: string, lim: nat): Dict<Group>
  {
    if |labels| == 0 then d
    else
      var d' := StoreLabels(d, labels[..|labels| - 1], db, name, lim);
      var rows := Rows(db, labels[|labels| - 1], name, lim);
      if |rows| == 0 then d' else Put(d', labels[|labels| - 1], ListGroup(rows))
  }

  /** The `examples_dict` of examples_per_label. */
  function ExampleDict(records: seq<TypeProp>, db: Db, name: string, lim: nat): Dict<Group>
  {
    if |records| == 0 then []
    else StoreLabels(ExampleDict(records[..|records| - 1], db, name, lim), records[|records| - 1].nodeLabels, db, name, lim)
  }

  ghost predicate Mentions(records: seq<TypeProp>, l: string)
  {
    exists i :: 0 <= i < |records| && l in records[i].nodeLabels
  }

  /** What a label maps to once the dict is built. */
  function ExampleEntry(db: Db, l: string, name: string, lim: nat): Option<Group>
  {
    var rows := Rows(db, l, name, lim);
    if |rows| == 0 then None else Some(ListGroup(rows))
  }

  lemma {:induction false} StoreLabelsSpec(d: Dict<Group>, labels: seq<string>, db: Db, name: string, lim: nat, l: string)
    ensures Get(StoreLabels(d, labels, db, name, lim), l)
      == if l in labels && ExampleEntry(db, l, name, lim).Some? then ExampleEntry(db, l, name, lim) else Get(d, l)
  {
    if |labels| > 0 {
      var n := |labels| - 1;
      StoreLabelsSpec(d, labels[..n], db, name, lim, l);
      assert labels == labels[..n] + [labels[n]];
      var d' := StoreLabels(d, labels[..n], db, name, lim);
      var rows := Rows(db, labels[n], name, lim);
      if |rows| > 0 {
        GetPut(d', labels[n], ListGroup(rows), l);
      }
    }
  }

  /**
   * examples_per_label stores a label exactly when some record names it and its example
   * query returns rows; the label then maps to those rows, at most `lim` of them, in
   * result order.
   */
  lemma {:induction false} ExampleDictSpec(records: seq<TypeProp>, db: Db, name: string, lim: nat, l: string)
    ensures Get(ExampleDict(records, db, name, lim), l)
      == if Mentions(records, l) then ExampleEntry(db, l, name, lim) else None
  {
    if |records| > 0 {
      var n := |records| - 1;
      ExampleDictSpec(records[..n], db, name, lim, l);
      StoreLabelsSpec(ExampleDict(records[..n], db, name, lim), records[n].nodeLabels, db, name, lim, l);
      if Mentions(records[..n], l) {
        var i :| 0 <= i < n && l in records[..n][i].nodeLabels;
        assert records[i] == records[..n][i];
      }
      if Mentions(records, l) && !Mentions(records[..n], l) {
        var i :| 0 <= i < |records| && l in records[i].nodeLabels;
        assert i == n;
      }
    }
  }

  lemma {:induction false} PutPut<V>(d: Dict<V>, k: string, v: V, w: V)
    ensures Put(Put(d, k, v), k, w) == Put(d, k, w)
  {
    if |d| > 0 && d[0].0 != k {
      PutPut(d[1..], k, v, w);
    }
  }

  predicate HasLabel(records: seq<TypeProp>)
  {
    exists i :: 0 <= i < |records| && |records[i].nodeLabels| > 0
  }

  /** What examples_per_label returns: a negative `LIMIT` is refused by the database at the first label. */
  function ExamplesResult(db: Db, lim: int, name: string): Result<Response>
  {
    if lim < 0 then (if HasLabel(db.typeProps) then Fail(QueryError("negative LIMIT")) else Ok(Items([GroupsItem([], false)])))
    else Ok(Items([GroupsItem(ExampleDict(db.typeProps, db, name, lim), false)]))
  }

  method ExamplesPerLabel(db: Db, lim: int, name: string) returns (r: Result<Response>)
    ensures r == ExamplesResult(db, lim, name)
  {
    var records := db.typeProps;
    if lim < 0 {
      // the example query of the first label is rejected
      for i := 0 to |records|
        invariant !HasLabel(records[..i])
      {
        if |records[i].nodeLabels| > 0 {
          assert records[i] == records[..i + 1][i];
          assert HasLabel(records);
          return Fail(QueryError("negative LIMIT"));
        }
        NoLabelSnoc(records, i);
      }
      assert records[..|records|] == records;
      return Ok(Items([GroupsItem([], false)]));
    }
    var d: Dict<Group> := [];
    for i := 0 to |records|
      invariant d == ExampleDict(records[..i], db, name, lim)
    {
      assert records[..i + 1][..i] == records[..i];
      d := StoreExamples(d, records[i].nodeLabels, db, name, lim);
    }
    assert records[..|records|] == records;
    r := Ok(Items([GroupsItem(d, false)]));
  }

  lemma NoLabelSnoc(records: seq<TypeProp>, i: int)
    requires 0 <= i < |records| && !HasLabel(records[..i]) && |records[i].nodeLabels| == 0
    ensures !HasLabel(records[..i + 1])
  {
    assert records[..i + 1] == records[..i] + [records[i]];
  }

  /** The loop over the labels of one record, with the loop over the rows of each example query. */
  method StoreExamples(d0: Dict<Group>, labels: seq<string>, db: Db, name: string, lim: nat) returns (d: Dict<Group>)
    ensures d == StoreLabels(d0, labels, db, name, lim)
  {
    d := d0;
    for j := 0 to |labels|
      invariant d == StoreLabels(d0, labels[..j], db, name, lim)
    {
      assert labels[..j + 1][..j] == labels[..j];
      var rows := Rows(db, labels[j], name, lim);
      d := StoreRows(d, labels[j], rows);
    }
    assert labels[..|labels|] == labels;
  }

  /**
   * The loop over the rows of one example query: the growing list is stored under the
   * label after each row, and a label without rows is not stored.
   */
  method StoreRows(previous: Dict<Group>, l: string, rows: seq<string>) returns (d: Dict<Group>)
    ensures d == if |rows| == 0 then previous else Put(previous, l, ListGroup(rows))
  {
    d := previous;
    var exmpList: seq<string> := [];
    for k := 0 to |rows|
      invariant exmpList == rows[..k]
      invariant d == RowsStored(previous, l, rows[..k])
    {
      exmpList := exmpList + [rows[k]];
      StoreRowsStep(previous, l, rows, k);
      d := Put(d, l, ListGroup(exmpList));
    }
    assert rows[..|rows|] == rows;
  }

  /** The dict after the rows read so far have been stored under `l`. */
  function RowsStored(previous: Dict<Group>, l: string, rows: seq<string>): Dict<Group>
  {
    if |rows| == 0 then previous else Put(previous, l, ListGroup(rows))
  }

  /** Storing the list of the first `k + 1` rows replaces the list of the first `k`. */
  lemma StoreRowsStep(previous: Dict<Group>, l: string, rows: seq<string>, k: nat)
    requires k < |rows|
    ensures rows[..k] + [rows[k]] == rows[..k + 1]
    ensures Put(RowsStored(previous, l, rows[..k]), l, ListGroup(rows[..k] + [rows[k]])) == RowsStored(previous, l, rows[..k + 1])
  {
    assert rows[..k] + [rows[k]] == rows[..k + 1];
    if k > 0 {
      PutPut(previous, l, ListGroup(rows[..k]), ListGroup(rows[..k + 1]));
    }
  }

  // ---------------------------------------------------------------------------
  // relationships_visual (versions 5, 6 and 7)

  /** The pattern from a node labelled `a` through type `t` to a node labelled `b`. */
  function Arrow(a: string, t: string, b: string): string
  {
    "(:" + a + ")-[:" + t + "]->(:" + b + ")"
  }

  /**
   * The pattern one relationship contributes: its end labels without the system labels,
   * nothing when an end has none left or the type is a system label, nothing for a
   * self-loop on the first labels when `filter_mode >= 1`.
   */
  function Pattern(sys: seq<string>, mode: int, r: Relation): Option<string>
  {
    var starts := Filter(r.startLabels, sys, AutoQueries.LabelKept);
    var ends := Filter(r.endLabels, sys, AutoQueries.LabelKept);
    if |starts| == 0 || |ends| == 0 then None
    else if Lower(r.relType) in sys then None
    else if mode >= 1 && starts[0] == ends[0] then None
    else Some(Arrow(starts[0], r.relType, ends[0]))
  }

  /** The set `relations` after the loop over the relationships. */
  function PatternSet(sys: seq<string>, mode: int, rels: seq<Relation>): set<string>
  {
    if |rels| == 0 then {}
    else
      var rest := PatternSet(sys, mode, rels[..|rels| - 1]);
      match Pattern(sys, mode, rels[|rels| - 1])
      case Some(p) => rest + {p}
      case None => rest
  }

  /** A pattern joins two kept end labels by a kept type; only then, and never a self-loop once `filter_mode >= 1`. */
  lemma PatternSpec(sys: seq<string>, mode: int, r: Relation)
    ensures Pattern(sys, mode, r).Some? ==>
      Lower(r.relType) !in sys &&
      exists a, b :: a in r.startLabels && Lower(a) !in sys && b in r.endLabels && Lower(b) !in sys &&
        Pattern(sys, mode, r).value == Arrow(a, r.relType, b) && (mode >= 1 ==> a != b)
    ensures (forall a :: a in r.startLabels ==> Lower(a) in sys) ==> Pattern(sys, mode, r).None?
    ensures (forall b :: b in r.endLabels ==> Lower(b) in sys) ==> Pattern(sys, mode, r).None?
    ensures Lower(r.relType) in sys ==> Pattern(sys, mode, r).None?
    ensures (mode < 1 && Lower(r.relType) !in sys && (exists a :: a in r.startLabels && Lower(a) !in sys)
      && (exists b :: b in r.endLabels && Lower(b) !in sys)) ==> Pattern(sys, mode, r).Some?
  {
    var starts := Filter(r.startLabels, sys, AutoQueries.LabelKept);
    var ends := Filter(r.endLabels, sys, AutoQueries.LabelKept);
    forall a ensures a in starts <==> a in r.startLabels && Lower(a) !in sys {
      FilterMembers(r.startLabels, sys, AutoQueries.LabelKept, a);
    }
    forall b ensures b in ends <==> b in r.endLabels && Lower(b) !in sys {
      FilterMembers(r.endLabels, sys, AutoQueries.LabelKept, b);
    }
    if |starts| > 0 && |ends| > 0 {
      assert starts[0] in starts && ends[0] in ends;
    }
  }

  /** The collected set holds exactly the patterns of the individual relationships. */
  lemma {:induction false} PatternSetSpec(sys: seq<string>, mode: int, rels: seq<Relation>, p: string)
    ensures p in PatternSet(sys, mode, rels) <==> exists i :: 0 <= i < |rels| && Pattern(sys, mode, rels[i]) == Some(p)
  {
    if |rels| > 0 {
      var n := |rels| - 1;
      PatternSetSpec(sys, mode, rels[..n], p);
      if exists i :: 0 <= i < n && Pattern(sys, mode, rels[..n][i]) == Some(p) {
        var i :| 0 <= i < n && Pattern(sys, mode, rels[..n][i]) == Some(p);
        assert rels[i] == rels[..n][i];
      }
      if exists i :: 0 <= i < |rels| && Pattern(sys, mode, rels[i]) == Some(p) {
        var i :| 0 <= i < |rels| && Pattern(sys, mode, rels[i]) == Some(p);
        if i < n {
          assert rels[..n][i] == rels[i];
        }
      }
    }
  }

  /** relationships_visual: the collected patterns, listed in the order Python iterates the set. */
  method RelationshipsVisual(sys: seq<string>, mode: int, rels: seq<Relation>, order: Listing) returns (r: seq<string>)
    ensures r == order(PatternSet(sys, mode, rels))
  {
    var relations: set<string> := {};
    for i := 0 to |rels|
      invariant relations == PatternSet(sys, mode, rels[..i])
    {
      assert rels[..i + 1][..i] == rels[..i];
      var startLabels := FilterLabels(rels[i].startLabels, sys);
      var endLabels := FilterLabels(rels[i].endLabels, sys);
      if |startLabels| == 0 || |endLabels| == 0 {
        continue;
      }
      if Lower(rels[i].relType) in sys {
        continue;
      }
      if mode >= 1 && startLabels[0] == endLabels[0] {
        continue;
      }
      relations := relations + {Arrow(startLabels[0], rels[i].relType, endLabels[0])};
    }
    assert rels[..|rels|] == rels;
    r := order(relations);
  }

  /** The labels whose lower-case form is not a system label, in order. */
  method FilterLabels(labels: seq<string>, sys: seq<string>) returns (kept: seq<string>)
    ensures kept == Filter(labels, sys, AutoQueries.LabelKept)
  {
    kept := [];
    for i := 0 to |labels|
      invariant kept == Filter(labels[..i], sys, AutoQueries.LabelKept)
    {
      FilterSnoc(labels, i, sys, AutoQueries.LabelKept);
      if Lower(labels[i]) !in sys {
        kept := kept + [labels[i]];
      }
    }
    assert labels[..|labels|] == labels;
  }

  // ---------------------------------------------------------------------------
  // class_hierarchy (versions 6 and 7)

  /** Version 6 writes a sentence per pair, version 7 a Cypher-like pattern. */
  datatype HierarchyStyle = Sentence | SubclassArrow

  function HierarchyLine(style: HierarchyStyle, pair: (string, string)): string
  {
    match style
    case Sentence => pair.0 + " is subclass of " + pair.1
    case SubclassArrow => "(:" + pair.0 + ")-[:SUBCLASSOF]->(:" + pair.1 + ") "
  }

  /** One line per SUBCLASSOF pair, in record order. */
  method ClassHierarchy(style: HierarchyStyle, pairs: seq<(string, string)>) returns (r: seq<string>)
    ensures |r| == |pairs| && forall i :: 0 <= i < |pairs| ==> r[i] == HierarchyLine(style, pairs[i])
  {
    r := [];
    for i := 0 to |pairs|
      invariant |r| == i && forall k :: 0 <= k < i ==> r[k] == HierarchyLine(style, pairs[k])
    {
      r := r + [HierarchyLine(style, pairs[i])];
    }
  }

  // ---------------------------------------------------------------------------
  // object_properties (versions 6 and 7) and object_classes (version 7)

  /** What is fetched for each name: its property dict (get_properties) or its classes (get_class). */
  datatype Fetch = PropsFetch | ClassesFetch

  /** The rows of get_class for a name: none for a name without classes. */
  function ClassesOf(db: Db, name: string): seq<string>
  {
    if name in db.memberOf then db.memberOf[name] else []
  }

  /** The result of one fetch; get_properties fails with TypeError when no node has that name. */
  function FetchOne(db: Db, sys: seq<string>, f: Fetch, name: string): Result<Item>
  {
    match f
    case PropsFetch =>
      (match AutoQueries.PropertiesOf(db.graph, sys, name)
       case Ok(d) => Ok(DictItem(d))
       case Fail(e) => Fail(e))
    case ClassesFetch => Ok(ListItem(ClassesOf(db, name)))
  }

  /** The fetches of a list of names, in order; the first failure ends the loop. */
  function FetchAll(db: Db, sys: seq<string>, f: Fetch, names: seq<string>): Result<seq<Item>>
  {
    if |names| == 0 then Ok([])
    else
      match FetchAll(db, sys, f, names[..|names| - 1])
      case Fail(e) => Fail(e)
      case Ok(items) =>
        match FetchOne(db, sys, f, names[|names| - 1])
        case Fail(e) => Fail(e)
        case Ok(x) => Ok(items + [x])
  }

  /**
   * What object_properties / object_classes return for a schema: nothing without a schema
   * or when NAMES is not a list, KeyError when NAMES is missing, and otherwise one fetch
   * for each of the first `c_lim` names (all of them when `c_lim <= 0`).
   */
  function ObjectFetch(db: Db, sys: seq<string>, order: Listing, f: Fetch, schema: Option<Dict<Response>>, cLim: int): Result<Response>
  {
    match schema
    case None => Ok(Items([]))
    case Some(d) =>
      match Get(d, "NAMES")
      case None => Fail(KeyError)
      case Some(names) =>
        if !names.Items? then Ok(Items([]))
        else
          match FetchAll(db, sys, f, Shown(TakeUpTo(names.items, cLim), order))
          case Ok(items) => Ok(Items(items))
          case Fail(e) => Fail(e)
  }

  /** The fetches succeed exactly when each one does, and then give one result per name, in order. */
  lemma {:induction false} FetchAllSpec(db: Db, sys: seq<string>, f: Fetch, names: seq<string>)
    ensures FetchAll(db, sys, f, names).Ok? <==> forall i :: 0 <= i < |names| ==> FetchOne(db, sys, f, names[i]).Ok?
    ensures FetchAll(db, sys, f, names).Ok? ==>
      |FetchAll(db, sys, f, names).value| == |names| &&
      forall i :: 0 <= i < |names| ==> FetchAll(db, sys, f, names).value[i] == FetchOne(db, sys, f, names[i]).value
  {
    if |names| > 0 {
      var n := |names| - 1;
      FetchAllSpec(db, sys, f, names[..n]);
      assert forall i :: 0 <= i < n ==> names[..n][i] == names[i];
    }
  }

  /** Once a prefix of the names fails, the whole loop fails with the same error. */
  lemma {:induction false} FetchFailSticks(db: Db, sys: seq<string>, f: Fetch, names: seq<string>, k: nat)
    requires k <= |names| && FetchAll(db, sys, f, names[..k]).Fail?
    ensures FetchAll(db, sys, f, names) == FetchAll(db, sys, f, names[..k])
    decreases |names| - k
  {
    if k < |names| {
      var n := |names| - 1;
      assert names[..n][..k] == names[..k];
      FetchFailSticks(db, sys, f, names[..n], k);
    } else {
      assert names[..k] == names;
    }
  }

  /**
   * With no schema the answer is empty; with `c_lim >= 1` one object for each of the
   * first `c_lim` names (all of them when there are fewer); with `c_lim <= 0` one per name; each result is the fetch of the name at the
   * same position of NAMES.
   */
  lemma ObjectFetchSpec(db: Db, sys: seq<string>, order: Listing, f: Fetch, d: Dict<Response>, xs: seq<Item>, cLim: int)
    requires Get(d, "NAMES") == Some(Items(xs))
    ensures ObjectFetch(db, sys, order, f, None, cLim) == Ok(Items([]))
    ensures var r := ObjectFetch(db, sys, order, f, Some(d), cLim);
      r.Ok? ==> ((cLim >= 1 ==> |r.value.items| <= cLim) && (cLim <= 0 ==> |r.value.items| == |xs|) &&
        |r.value.items| == |TakeUpTo(xs, cLim)| &&
        forall i :: 0 <= i < |r.value.items| ==>
          (i < |xs| && FetchOne(db, sys, f, ShowItem(xs[i], order)).Ok? &&
           r.value.items[i] == FetchOne(db, sys, f, ShowItem(xs[i], order)).value))
  {
    var t := TakeUpTo(xs, cLim);
    var names := Shown(t, order);
    FetchAllSpec(db, sys, f, names);
    assert forall i :: 0 <= i < |t| ==> names[i] == ShowItem(xs[i], order);
  }

  /** The answer for a schema with a list of NAMES is an error exactly when one of the fetched names fails. */
  lemma ObjectFetchFails(db: Db, sys: seq<string>, order: Listing, f: Fetch, d: Dict<Response>, xs: seq<Item>, cLim: int)
    requires Get(d, "NAMES") == Some(Items(xs))
    ensures ObjectFetch(db, sys, order, f, Some(d), cLim).Fail? <==>
      exists i :: 0 <= i < |TakeUpTo(xs, cLim)| && FetchOne(db, sys, f, ShowItem(xs[i], order)).Fail?
  {
    var t := TakeUpTo(xs, cLim);
    var names := Shown(t, order);
    FetchAllSpec(db, sys, f, names);
    assert forall i :: 0 <= i < |t| ==> names[i] == ShowItem(xs[i], order);
  }

  /** `get_properties` or `get_class` for one name. */
  method FetchObject(db: Db, sys: seq<string>, f: Fetch, name: string) returns (r: Result<Item>)
    ensures r == FetchOne(db, sys, f, name)
  {
    match f
    case PropsFetch =>
      var props := AutoQueries.GetProperties(db.graph, sys, name);
      r := if props.Ok? then Ok(DictItem(props.value)) else Fail(props.error);
    case ClassesFetch =>
      r := Ok(ListItem(ClassesOf(db, name)));
  }

  /** Showing one more item of a list adds its text at the end. */
  lemma ShownPrefix(xs: seq<Item>, order: Listing, i: nat)
    requires i < |xs|
    ensures Shown(xs[..i + 1], order) == Shown(xs[..i], order) + [ShowItem(xs[i], order)]
  {
    var a := Shown(xs[..i + 1], order);
    var b := Shown(xs[..i], order) + [ShowItem(xs[i], order)];
    forall j | 0 <= j < |a|
      ensures a[j] == b[j]
    {
      if j < i {
        assert xs[..i + 1][j] == xs[..i][j];
      }
    }
  }

  /** The body of object_properties (`PropsFetch`) and object_classes (`ClassesFetch`). */
  method ObjectQuery(db: Db, sys: seq<string>, order: Listing, f: Fetch, schema: Option<Dict<Response>>, cLim: int)
    returns (r: Result<Response>)
    ensures r == ObjectFetch(db, sys, order, f, schema, cLim)
  {
    if schema.None? {
      return Ok(Items([]));
    }
    var names := Get(schema.value, "NAMES");
    if names.None? {
      return Fail(KeyError);
    }
    if !names.value.Items? {
      return Ok(Items([]));
    }
    var xs := names.value.items;
    ghost var visited := Shown(TakeUpTo(xs, cLim), order);
    var objs: seq<Item> := [];
    var c := 0;
    var i := 0;
    while i < |xs|
      invariant 0 <= i <= |xs| && c == i
      invariant cLim >= 1 ==> i < cLim
      invariant FetchAll(db, sys, f, Shown(xs[..i], order)) == Ok(objs)
    {
      var name := ShowItem(xs[i], order);
      ShownPrefix(xs, order, i);
      c := c + 1;
      var one := FetchObject(db, sys, f, name);
      if one.Fail? {
        assert visited[..i + 1] == Shown(xs[..i + 1], order);
        FetchFailSticks(db, sys, f, visited, i + 1);
        return Fail(one.error);
      }
      objs := objs + [one.value];
      i := i + 1;
      if c == cLim {
        assert visited == Shown(xs[..i], order);
        return Ok(Items(objs));
      }
    }
    assert xs[..i] == xs;
    r := Ok(Items(objs));
  }

  // ---------------------------------------------------------------------------
  // node_properties (version 5)

  /** `[props]` without the system keys, or `{}` when no node has that name (the caught TypeError). */
  function NodePropsOf(db: Db, sys: seq<string>, name: string): Response
  {
    match AutoQueries.PropertiesOf(db.graph, sys, name)
    case Ok(d) => Items([DictItem(d)])
    case Fail(_) => EmptyDict
  }

  lemma NodePropsSpec(db: Db, sys: seq<string>, name: string)
    ensures name !in db.graph.nodeProps ==> NodePropsOf(db, sys, name) == EmptyDict
    ensures name in db.graph.nodeProps ==>
      NodePropsOf(db, sys, name).Items? && |NodePropsOf(db, sys, name).items| == 1 &&
      NodePropsOf(db, sys, name).items[0].DictItem? &&
      (forall e :: e in NodePropsOf(db, sys, name).items[0].entries <==> e in db.graph.nodeProps[name] && e.0 !in sys)
  {
    if name in db.graph.nodeProps {
      AutoQueries.PropertiesOfSpec(db.graph, sys, name);
    }
  }

  method NodeProperties(db: Db, sys: seq<string>, name: string) returns (r: Response)
    ensures r == NodePropsOf(db, sys, name)
  {
    var props := AutoQueries.GetProperties(db.graph, sys, name);
    match props
    case Ok(d) => r := Items([DictItem(d)]);
    case Fail(_) => r := EmptyDict;  // except TypeError: return {}
  }

  // ---------------------------------------------------------------------------
  // The executors the catalogs name, and `session.execute_read(action, *params)`.

  datatype Query =
    | GetNames                                  // COLLECT(n.name) over NamedIndividual nodes
    | Collected(c: Collect)                     // a query whose single collected list is returned
    | NodeTypeProperties                        // the unread cursor of db.schema.nodeTypeProperties()
    | PropsPerLabelQuery(excludeSys: bool)      // version 4 keeps every property
    | ExamplesPerLabelQuery
    | RelationshipsVisualQuery
    | ClassHierarchyQuery(style: HierarchyStyle)
    | ObjectPropertiesQuery
    | ObjectClassesQuery
    | NodePropertiesQuery

  /** The parameters a catalog tuple can carry. */
  datatype Arg = AInt(i: int) | AStr(s: string) | ALimits(first: int, second: int) | ASchema(schema: Option<Dict<Response>>)

  function HierarchyLines(style: HierarchyStyle, pairs: seq<(string, string)>): (r: seq<string>)
    ensures |r| == |pairs| && forall i :: 0 <= i < |pairs| ==> r[i] == HierarchyLine(style, pairs[i])
  {
    seq(|pairs|, i requires 0 <= i < |pairs| => HierarchyLine(style, pairs[i]))
  }

  /**
   * The schema and `c_lim` arguments of object_properties / object_classes, with their
   * defaults. Subscripting a first argument that is not a dict or None raises TypeError;
   * a `c_lim` that is not an int never equals the counter, so it caps nothing, as 0 does.
   */
  function ObjectArgs(args: seq<Arg>): Result<(Option<Dict<Response>>, int)>
  {
    if |args| > 2 then Fail(TypeError)
    else if |args| >= 1 && !args[0].ASchema? then Fail(TypeError)
    else Ok((if |args| >= 1 then args[0].schema else None,
             if |args| == 2 then (if args[1].AInt? then args[1].i else 0) else 3))
  }

  /**
   * `limits[0]` as the LIMIT of the example query: an int or None cannot be subscripted,
   * a schema dict has no key 0, an empty string has no first character, and a one-character
   * LIMIT is read as a number only when it is a digit.
   */
  function FirstLimit(a: Arg): Result<int>
  {
    match a
    case ALimits(first, _) => Ok(first)
    case AInt(_) => Fail(TypeError)
    case ASchema(None) => Fail(TypeError)
    case ASchema(Some(_)) => Fail(KeyError)
    case AStr(s) =>
      if |s| == 0 then Fail(IndexError)
      else if IsDigit(s[0]) then Ok(s[0] as int - '0' as int)
      else Fail(QueryError("LIMIT is not a number"))
  }

  /**
   * `str(a)` as it lands in the text of a query; None for a non-empty schema dict, whose
   * quoted keys cannot form a property name or close a quoted name.
   */
  function ArgText(a: Arg): Option<string>
  {
    match a
    case AStr(s) => Some(s)
    case AInt(i) => Some(FormattingV3.IntText(i))
    case ALimits(first, second) => Some("(" + FormattingV3.IntText(first) + ", " + FormattingV3.IntText(second) + ")")
    case ASchema(None) => Some("None")
    case ASchema(Some(d)) => if |d| == 0 then Some("{}") else None
  }

  /** A relationship that passes the label and type checks of relationships_visual and so reaches the `filter_mode >= 1` test. */
  predicate ReachesModeTest(sys: seq<string>, r: Relation)
  {
    |Filter(r.startLabels, sys, AutoQueries.LabelKept)| > 0 && |Filter(r.endLabels, sys, AutoQueries.LabelKept)| > 0
    && Lower(r.relType) !in sys
  }

  predicate SomeReachesModeTest(sys: seq<string>, rels: seq<Relation>)
  {
    exists i :: 0 <= i < |rels| && ReachesModeTest(sys, rels[i])
  }

  /**
   * What `execute_read(action, *params)` returns: a call with too many or too few
   * arguments raises TypeError; otherwise each argument goes where the body puts it.
   * An ill-typed `limits` raises only once a record has a label, an ill-typed
   * `filter_mode` only once a relationship reaches the comparison, and any other
   * argument is turned into text with `str`.
   */
  function Executed(db: Db, sys: seq<string>, order: Listing, q: Query, args: seq<Arg>): Result<Response>
  {
    match q
    case GetNames => if |args| > 0 then Fail(TypeError) else Ok(Items(TextItems(db.graph.names)))
    case Collected(c) => if |args| > 0 then Fail(TypeError) else Ok(Items(db.collected(c)))
    case NodeTypeProperties => if |args| > 0 then Fail(TypeError) else Ok(Cursor)
    case PropsPerLabelQuery(ex) =>
      if |args| > 0 then Fail(TypeError)
      else Ok(Items([GroupsItem(Grouped(db.typeProps, if ex then sys else []), true)]))
    case ExamplesPerLabelQuery =>
      if |args| < 1 || |args| > 2 then Fail(TypeError)
      else if !HasLabel(db.typeProps) then Ok(Items([GroupsItem([], false)]))
      else
        (match FirstLimit(args[0])
         case Fail(e) => Fail(e)
         case Ok(lim) =>
           (match (if |args| == 2 then ArgText(args[1]) else Some("name"))
            case None => Fail(QueryError("invalid property name"))
            case Some(name) => ExamplesResult(db, lim, name)))
    case RelationshipsVisualQuery =>
      if |args| != 1 then Fail(TypeError)
      else if args[0].AInt? then Ok(Items(TextItems(order(PatternSet(sys, args[0].i, db.relations)))))
      else if SomeReachesModeTest(sys, db.relations) then Fail(TypeError)
      else Ok(Items([]))
    case ClassHierarchyQuery(style) =>
      if |args| > 0 then Fail(TypeError) else Ok(Items(TextItems(HierarchyLines(style, db.subclasses))))
    case ObjectPropertiesQuery =>
      (match ObjectArgs(args)
       case Fail(e) => Fail(e)
       case Ok(a) => ObjectFetch(db, sys, order, PropsFetch, a.0, a.1))
    case ObjectClassesQuery =>
      (match ObjectArgs(args)
       case Fail(e) => Fail(e)
       case Ok(a) => ObjectFetch(db, sys, order, ClassesFetch, a.0, a.1))
    case NodePropertiesQuery =>
      if |args| != 1 then Fail(TypeError)
      else
        match ArgText(args[0])
        case None => Fail(QueryError("invalid node name"))
        case Some(name) => Ok(NodePropsOf(db, sys, name))
  }

  /** relationships_visual bound to an integer mode returns the distinct patterns for that mode. */
  lemma RelationshipsVisualRun(db: Db, sys: seq<string>, order: Listing, mode: int)
    ensures Executed(db, sys, order, RelationshipsVisualQuery, [AInt(mode)]) == Ok(Items(TextItems(order(PatternSet(sys, mode, db.relations)))))
    ensures Executed(db, sys, order, RelationshipsVisualQuery, []) == Fail(TypeError)
  {
  }

  /** props_per_label takes no argument and returns the grouping wrapped in a one-element list. */
  lemma PropsPerLabelRun(db: Db, sys: seq<string>, order: Listing, ex: bool)
    ensures Executed(db, sys, order, PropsPerLabelQuery(ex), []) == Ok(Items([GroupsItem(Grouped(db.typeProps, if ex then sys else []), true)]))
  {
  }

  /** node_properties bound to a name returns that node's properties, or `{}`. */
  lemma NodePropertiesRun(db: Db, sys: seq<string>, order: Listing, name: string)
    ensures Executed(db, sys, order, NodePropertiesQuery, [AStr(name)]) == Ok(NodePropsOf(db, sys, name))
  {
  }

  /** examples_per_label bound to limits and a property collects up to the first limit of its values. */
  lemma ExamplesPerLabelRun(db: Db, sys: seq<string>, order: Listing, a: int, b: int, name: string)
    ensures Executed(db, sys, order, ExamplesPerLabelQuery, [ALimits(a, b), AStr(name)]) == ExamplesResult(db, a, name)
  {
    if !HasLabel(db.typeProps) {
      ExamplesArgsUnread(db, sys, order, [ALimits(a, b), AStr(name)], a, name);
    }
  }

  /** examples_per_label never reads the second limit. */
  lemma SecondLimitUnused(db: Db, sys: seq<string>, order: Listing, a: int, b: int, c: int, rest: seq<Arg>)
    ensures Executed(db, sys, order, ExamplesPerLabelQuery, [ALimits(a, b)] + rest)
      == Executed(db, sys, order, ExamplesPerLabelQuery, [ALimits(a, c)] + rest)
  {
  }

  /** node_properties puts `str` of its argument into the query, so an int names the node spelled by its digits. */
  lemma NodePropertiesIntName(db: Db, sys: seq<string>, order: Listing, i: int)
    ensures Executed(db, sys, order, NodePropertiesQuery, [AInt(i)]) == Ok(NodePropsOf(db, sys, FormattingV3.IntText(i)))
    ensures Executed(db, sys, order, NodePropertiesQuery, [ASchema(None)]) == Ok(NodePropsOf(db, sys, "None"))
  {
  }

  /** Records without labels leave the examples dict empty, whatever the limit and property. */
  lemma {:induction false} ExamplesNoLabel(records: seq<TypeProp>, db: Db, name: string, lim: nat)
    requires !HasLabel(records)
    ensures ExampleDict(records, db, name, lim) == []
  {
    if |records| > 0 {
      var n := |records| - 1;
      assert !HasLabel(records[..n]) by {
        forall i | 0 <= i < n ensures |records[..n][i].nodeLabels| == 0 {
          assert records[..n][i] == records[i];
        }
      }
      ExamplesNoLabel(records[..n], db, name, lim);
      assert |records[n].nodeLabels| == 0;
    }
  }

  /**
   * Without a labelled record examples_per_label never reads its arguments: the answer
   * is the one any well-typed limits and property would give.
   */
  lemma ExamplesArgsUnread(db: Db, sys: seq<string>, order: Listing, args: seq<Arg>, lim: int, name: string)
    requires !HasLabel(db.typeProps) && 1 <= |args| <= 2
    ensures Executed(db, sys, order, ExamplesPerLabelQuery, args) == ExamplesResult(db, lim, name)
  {
    if lim >= 0 {
      ExamplesNoLabel(db.typeProps, db, name, lim);
    }
  }

  /**
   * Once a record has a label, `limits[0]` is evaluated: an int or None raises TypeError,
   * a schema dict KeyError, an empty string IndexError, and a string starting with a
   * digit limits the query to that digit.
   */
  lemma ExamplesIllTypedLimits(db: Db, sys: seq<string>, order: Listing, rest: seq<Arg>, i: int, d: Dict<Response>, c: char, s: string, k: int)
    requires HasLabel(db.typeProps) && |rest| <= 1
    ensures Executed(db, sys, order, ExamplesPerLabelQuery, [AInt(i)] + rest) == Fail(TypeError)
    ensures Executed(db, sys, order, ExamplesPerLabelQuery, [ASchema(None)] + rest) == Fail(TypeError)
    ensures Executed(db, sys, order, ExamplesPerLabelQuery, [ASchema(Some(d))] + rest) == Fail(KeyError)
    ensures Executed(db, sys, order, ExamplesPerLabelQuery, [AStr("")] + rest) == Fail(IndexError)
    ensures IsDigit(c) ==>
      Executed(db, sys, order, ExamplesPerLabelQuery, [AStr([c] + s)] + rest)
        == Executed(db, sys, order, ExamplesPerLabelQuery, [ALimits(c as int - '0' as int, k)] + rest)
  {
    assert ([AStr([c] + s)] + rest)[0].s[0] == c;
  }

  /** Without a relationship reaching the mode test no mode yields a pattern. */
  lemma {:induction false} NoPatternWithoutModeTest(sys: seq<string>, mode: int, rels: seq<Relation>)
    requires !SomeReachesModeTest(sys, rels)
    ensures PatternSet(sys, mode, rels) == {}
  {
    if |rels| > 0 {
      var n := |rels| - 1;
      assert !SomeReachesModeTest(sys, rels[..n]) by {
        forall i | 0 <= i < n ensures !ReachesModeTest(sys, rels[..n][i]) {
          assert rels[..n][i] == rels[i];
        }
      }
      NoPatternWithoutModeTest(sys, mode, rels[..n]);
      assert !ReachesModeTest(sys, rels[n]);
    }
  }

  /** A relationship reaching the mode test gives a pattern in mode 0. */
  lemma ModeTestGivesPattern(sys: seq<string>, rels: seq<Relation>, i: int)
    requires 0 <= i < |rels| && ReachesModeTest(sys, rels[i])
    ensures PatternSet(sys, 0, rels) != {}
  {
    var p := Pattern(sys, 0, rels[i]).value;
    PatternSetSpec(sys, 0, rels, p);
  }

  /**
   * A `filter_mode` that is not an int raises TypeError exactly when mode 0 would return
   * some pattern; otherwise the answer is the empty list, and every int mode agrees that
   * there is no pattern.
   */
  lemma RelationshipsVisualIllTyped(db: Db, sys: seq<string>, order: Listing, a: Arg, mode: int)
    requires !a.AInt?
    ensures Executed(db, sys, order, RelationshipsVisualQuery, [a]).Fail? <==> PatternSet(sys, 0, db.relations) != {}
    ensures Executed(db, sys, order, RelationshipsVisualQuery, [a]).Ok? ==>
      Executed(db, sys, order, RelationshipsVisualQuery, [a]) == Ok(Items([])) && PatternSet(sys, mode, db.relations) == {}
  {
    if SomeReachesModeTest(sys, db.relations) {
      var i :| 0 <= i < |db.relations| && ReachesModeTest(sys, db.relations[i]);
      ModeTestGivesPattern(sys, db.relations, i);
    } else {
      NoPatternWithoutModeTest(sys, 0, db.relations);
      NoPatternWithoutModeTest(sys, mode, db.relations);
    }
  }

  /** A `c_lim` that is not an int caps nothing: every name of NAMES is fetched, as with 0. */
  lemma ObjectLimitNotInt(db: Db, sys: seq<string>, order: Listing, s: Option<Dict<Response>>, a: Arg, d: Dict<Response>, xs: seq<Item>)
    requires !a.AInt? && Get(d, "NAMES") == Some(Items(xs))
    ensures Executed(db, sys, order, ObjectPropertiesQuery, [ASchema(s), a]) == Executed(db, sys, order, ObjectPropertiesQuery, [ASchema(s), AInt(0)])
    ensures Executed(db, sys, order, ObjectClassesQuery, [ASchema(s), a]) == Executed(db, sys, order, ObjectClassesQuery, [ASchema(s), AInt(0)])
    ensures var r := Executed(db, sys, order, ObjectPropertiesQuery, [ASchema(Some(d)), a]);
      r.Ok? ==> |r.value.items| == |xs|
    ensures var r := Executed(db, sys, order, ObjectClassesQuery, [ASchema(Some(d)), a]);
      r.Ok? ==> |r.value.items| == |xs|
  {
    ObjectFetchSpec(db, sys, order, PropsFetch, d, xs, 0);
    ObjectFetchSpec(db, sys, order, ClassesFetch, d, xs, 0);
  }

  method Execute(db: Db, sys: seq<string>, order: Listing, q: Query, args: seq<Arg>) returns (r: Result<Response>)
    ensures r == Executed(db, sys, order, q, args)
  {
    match q
    case GetNames =>
      r := if |args| > 0 then Fail(TypeError) else Ok(Items(TextItems(db.graph.names)));
    case Collected(c) =>
      r := if |args| > 0 then Fail(TypeError) else Ok(Items(db.collected(c)));
    case NodeTypeProperties =>
      r := if |args| > 0 then Fail(TypeError) else Ok(Cursor);
    case PropsPerLabelQuery(ex) =>
      if |args| > 0 {
        return Fail(TypeError);
      }
      var d := PropsPerLabel(db.typeProps, if ex then sys else []);
      r := Ok(Items([GroupsItem(d, true)]));
    case ExamplesPerLabelQuery =>
      if |args| < 1 || |args| > 2 {
        return Fail(TypeError);
      }
      if !HasLabel(db.typeProps) {
        // the loop over the labels never runs, so neither argument is read
        return Ok(Items([GroupsItem([], false)]));
      }
      var lim := FirstLimit(args[0]);
      if lim.Fail? {
        return Fail(lim.error);
      }
      var name := if |args| == 2 then ArgText(args[1]) else Some("name");
      if name.None? {
        return Fail(QueryError("invalid property name"));
      }
      r := ExamplesPerLabel(db, lim.value, name.value);
    case RelationshipsVisualQuery =>
      if |args| != 1 {
        return Fail(TypeError);
      }
      if !args[0].AInt? {
        // `filter_mode >= 1` raises at the first relationship that reaches it
        r := if SomeReachesModeTest(sys, db.relations) then Fail(TypeError) else Ok(Items([]));
        return;
      }
      var patterns := RelationshipsVisual(sys, args[0].i, db.relations, order);
      r := Ok(Items(TextItems(patterns)));
    case ClassHierarchyQuery(style) =>
      if |args| > 0 {
        return Fail(TypeError);
      }
      var lines := ClassHierarchy(style, db.subclasses);
      assert lines == HierarchyLines(style, db.subclasses);
      r := Ok(Items(TextItems(lines)));
    case ObjectPropertiesQuery =>
      var a := ObjectArgs(args);
      if a.Fail? {
        return Fail(a.error);
      }
      r := ObjectQuery(db, sys, order, PropsFetch, a.value.0, a.value.1);
    case ObjectClassesQuery =>
      var a := ObjectArgs(args);
      if a.Fail? {
        return Fail(a.error);
      }
      r := ObjectQuery(db, sys, order, ClassesFetch, a.value.0, a.value.1);
    case NodePropertiesQuery =>
      if |args| != 1 {
        return Fail(TypeError);
      }
      var name := ArgText(args[0]);
      if name.None? {
        return Fail(QueryError("invalid node name"));
      }
      var props := NodeProperties(db, sys, name.value);
      r := Ok(props);
  }
}
