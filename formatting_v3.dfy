/**
 * The text formatting of the version 3 auto-queries: removing the ontology prefixes from
 * a schema text, and turning the records of the label, relationship and device queries
 * into the PROPERTIES SCHEMA, RELATIONSHIPS SCHEMA, device-list and device-map texts.
 * The records a query returns are inputs; the database itself is not modelled.
 */
module FormattingV3 {
  import opened Wrappers
  import opened Text
  import opened Order
  import opened Values

  // ---------------------------------------------------------------------------
  // remove_prefix

  /** `removable_pref`: the prefixes removed when no list is given. */
  const DefaultPrefixes: seq<string> := ["owl__", "ns0__", "rdf__", "rdfs__"]

  /** The schema after deleting every occurrence of each prefix, first prefix to last. */
  function RemoveEach(schema: string, prefixes: seq<string>): string
    decreases |prefixes|
  {
    if |prefixes| == 0 then schema else RemoveEach(ReplaceAll(schema, prefixes[0], ""), prefixes[1..])
  }

  /** remove_prefix: the given prefixes, or the default ones, removed one after the other. */
  method RemovePrefix(schema: string, prefixes: Option<seq<string>>) returns (r: string)
    ensures r == RemoveEach(schema, if prefixes.None? then DefaultPrefixes else prefixes.value)
  {
    var prefs := if prefixes.None? then DefaultPrefixes else prefixes.value;
    r := schema;
    for i := 0 to |prefs|
      invariant RemoveEach(r, prefs[i..]) == RemoveEach(schema, prefs)
    {
      assert prefs[i..][1..] == prefs[i + 1..];
      r := ReplaceAll(r, prefs[i], "");
    }
  }

  /** Removing the prefixes of `p + q` is removing those of `p`, then those of `q`. */
  lemma {:induction false} RemoveEachSplit(schema: string, p: seq<string>, q: seq<string>)
    ensures RemoveEach(schema, p + q) == RemoveEach(RemoveEach(schema, p), q)
    decreases |p|
  {
    if |p| > 0 {
      assert (p + q)[0] == p[0] && (p + q)[1..] == p[1..] + q;
      RemoveEachSplit(ReplaceAll(schema, p[0], ""), p[1..], q);
    } else {
      assert p + q == q;
    }
  }

  /** Deleting a text never makes the string longer; deleting the empty text changes nothing. */
  lemma {:induction false} DeleteShrinks(s: string, target: string)
    ensures |ReplaceAll(s, target, "")| <= |s|
    ensures |target| == 0 ==> ReplaceAll(s, target, "") == s
    decreases |s|
  {
    if |target| == 0 {
      if |s| > 0 {
        DeleteShrinks(s[1..], target);
        assert s == [s[0]] + s[1..];
      }
    } else if |s| >= |target| {
      if s[..|target|] == target {
        DeleteShrinks(s[|target|..], target);
      } else {
        DeleteShrinks(s[1..], target);
      }
    }
  }

  /** Removing prefixes never lengthens the schema. */
  lemma {:induction false} RemoveEachShrinks(schema: string, prefixes: seq<string>)
    ensures |RemoveEach(schema, prefixes)| <= |schema|
    decreases |prefixes|
  {
    if |prefixes| > 0 {
      DeleteShrinks(schema, prefixes[0]);
      RemoveEachShrinks(ReplaceAll(schema, prefixes[0], ""), prefixes[1..]);
    }
  }

  /** A schema in which none of the prefixes occurs comes back unchanged. */
  lemma {:induction false} RemoveEachAbsent(schema: string, prefixes: seq<string>)
    requires forall i :: 0 <= i < |prefixes| ==> !Contains(schema, prefixes[i])
    ensures RemoveEach(schema, prefixes) == schema
    decreases |prefixes|
  {
    if |prefixes| > 0 {
      assert !Contains(schema, prefixes[0]);
      ReplaceAbsent(schema, prefixes[0], "");
      forall i | 0 <= i < |prefixes[1..]| ensures !Contains(schema, prefixes[1..][i]) {
        assert prefixes[1..][i] == prefixes[i + 1];
      }
      RemoveEachAbsent(schema, prefixes[1..]);
    }
  }

  // ---------------------------------------------------------------------------
  // Shared pieces of get_properties and of the relationship schemas

  /** The elements of a sequence, as a set. */
  function SetOf<T>(s: seq<T>): set<T>
  {
    set x | x in s
  }

  /** `d[k]` on a `defaultdict(set)`: the empty set for a key not yet present. */
  function DefaultGet<T>(d: map<string, set<T>>, k: string): set<T>
  {
    if k in d then d[k] else {}
  }

  /** Records of `(name, results)`: a label or relationship type and what its query returned. */
  type Records<T> = seq<(string, seq<T>)>

  /** `d[name]` after adding the results of every record of that name. */
  function Collected<T>(recs: Records<T>, name: string): set<T>
  {
    if |recs| == 0 then {}
    else
      var n := |recs| - 1;
      Collected(recs[..n], name) + (if recs[n].0 == name then SetOf(recs[n].1) else {})
  }

  /** What is collected under a name is exactly what its records returned. */
  lemma {:induction false} CollectedSpec<T>(recs: Records<T>, name: string, x: T)
    ensures x in Collected(recs, name) <==> exists i :: 0 <= i < |recs| && recs[i].0 == name && x in recs[i].1
  {
    if |recs| > 0 {
      var n := |recs| - 1;
      CollectedSpec(recs[..n], name, x);
      if exists i :: 0 <= i < n && recs[..n][i].0 == name && x in recs[..n][i].1 {
        var i :| 0 <= i < n && recs[..n][i].0 == name && x in recs[..n][i].1;
        assert recs[i] == recs[..n][i];
      }
      if exists i :: 0 <= i < |recs| && recs[i].0 == name && x in recs[i].1 {
        var i :| 0 <= i < |recs| && recs[i].0 == name && x in recs[i].1;
        if i < n {
          assert recs[..n][i] == recs[i];
        }
      }
    }
  }

  /** What a record collects when no other record has its name. */
  lemma CollectedOwn<T>(recs: Records<T>, i: nat, x: T)
    requires i < |recs| && forall j :: 0 <= j < |recs| && j != i ==> recs[j].0 != recs[i].0
    ensures x in Collected(recs, recs[i].0) <==> x in recs[i].1
  {
    CollectedSpec(recs, recs[i].0, x);
    if x in Collected(recs, recs[i].0) {
      var j :| 0 <= j < |recs| && recs[j].0 == recs[i].0 && x in recs[j].1;
      assert j == i;
    }
  }

  /** Two sets with the same members are equal. */
  lemma SameMembers<T>(a: set<T>, b: set<T>)
    requires forall x :: x in a <==> x in b
    ensures a == b
  {
  }

  /** Records whose names differ: each collects only its own results. */
  lemma CollectedDistinct<T>(recs: Records<T>, i: nat)
    requires i < |recs| && forall j :: 0 <= j < |recs| && j != i ==> recs[j].0 != recs[i].0
    ensures Collected(recs, recs[i].0) == SetOf(recs[i].1)
  {
    forall x: T ensures x in Collected(recs, recs[i].0) <==> x in SetOf(recs[i].1) {
      CollectedOwn(recs, i, x);
    }
    SameMembers(Collected(recs, recs[i].0), SetOf(recs[i].1));
  }

  /**
   * Adding each returned key to the set of `name`; the entry exists afterwards, since
   * reading `d[name]` creates it even when nothing was added.
   */
  method AddAll<T>(d: map<string, set<T>>, name: string, items: seq<T>) returns (r: map<string, set<T>>)
    ensures r == d[name := DefaultGet(d, name) + SetOf(items)]
  {
    r := d[name := DefaultGet(d, name)];
    assert SetOf(items[..0]) == {};
    assert DefaultGet(d, name) + SetOf(items[..0]) == DefaultGet(d, name);
    for j := 0 to |items|
      invariant r == d[name := DefaultGet(d, name) + SetOf(items[..j])]
    {
      assert SetOf(items[..j + 1]) == SetOf(items[..j]) + {items[j]} by {
        assert items[..j + 1] == items[..j] + [items[j]];
      }
      assert r[name] + {items[j]} == DefaultGet(d, name) + SetOf(items[..j + 1]);
      r := r[name := r[name] + {items[j]}];
    }
    assert items[..|items|] == items;
  }

  /** The collecting loop over the records keeps every entry equal to what its records returned. */
  lemma CollectedStep<T>(recs: Records<T>, i: nat, d: map<string, set<T>>, d': map<string, set<T>>)
    requires i < |recs| && forall n :: DefaultGet(d, n) == Collected(recs[..i], n)
    requires d' == d[recs[i].0 := DefaultGet(d, recs[i].0) + SetOf(recs[i].1)]
    ensures forall n :: DefaultGet(d', n) == Collected(recs[..i + 1], n)
  {
    assert recs[..i + 1][..i] == recs[..i];
  }

  const NoProperties := "no properties"

  /** The sorted keys separated by commas, or `no properties` when that text is empty. */
  ghost function PropsText(keys: set<string>): string
  {
    var joined := Join(", ", SortedOf(keys));
    if joined == "" then NoProperties else joined
  }

  /** A joined list is at least as long as each of its parts. */
  lemma {:induction false} JoinHasPart(sep: string, xs: seq<string>, i: nat)
    requires i < |xs|
    ensures |Join(sep, xs)| >= |xs[i]|
  {
    if |xs| > 1 && i > 0 {
      JoinHasPart(sep, xs[1..], i - 1);
    }
  }

  /**
   * The keys appear sorted and without repetition; "no properties" stands in exactly when
   * no key other than the empty one was found.
   */
  lemma PropsTextSpec(keys: set<string>)
    ensures keys <= {""} ==> PropsText(keys) == NoProperties
    ensures !(keys <= {""}) ==> PropsText(keys) == Join(", ", SortedOf(keys))
    ensures StrictlySorted(SortedOf(keys)) && forall k :: k in SortedOf(keys) <==> k in keys
  {
    var s := SortedOf(keys);
    if keys <= {""} {
      if |s| >= 2 {
        assert s[0] in keys && s[1] in keys;
        assert Lt(s[0], s[1]);
        LtIrreflexive(s[0]);
      }
      if |s| == 1 {
        assert s[0] in keys;
      }
    } else {
      var k :| k in keys && k != "";
      var i :| 0 <= i < |s| && s[i] == k;
      JoinHasPart(", ", s, i);
    }
  }

  /** The property list of a key set, computed. */
  method FormatKeys(keys: set<string>) returns (props: string)
    ensures props == PropsText(keys)
  {
    var sorted := SortedSet(keys);
    var joined := Join(", ", sorted);
    props := if joined == "" then NoProperties else joined;
  }

  // ---------------------------------------------------------------------------
  // get_properties

  /** The header of `GeneralQueries.get_properties` (Nicolas' version 3). */
  const PropertiesHeaderN := "\n\nPROPERTIES SCHEMA\n        \nClass : (Properties) \n"
  /** The header of `get_properties` (Enrico's version 3). */
  const PropertiesHeaderE := "\n\nPROPERTIES SCHEMA\n\n    Class : (Properties) \n"

  /** The line of one label: its name, a colon and its property list in parentheses. */
  ghost function PropertyLine(name: string, keys: set<string>): string
  {
    name + " : (" + PropsText(keys) + ")\n"
  }

  /** The lines for the labels, each listing every key found so far for its name. */
  ghost function PropertiesText(labels: Records<string>): string
  {
    if |labels| == 0 then ""
    else
      var n := |labels| - 1;
      PropertiesText(labels[..n]) + PropertyLine(labels[n].0, Collected(labels, labels[n].0))
  }

  /**
   * get_properties: the header, then one line per label of `db.labels()`, in result
   * order; `labels` pairs each label with the keys its query returned.
   */
  method GetProperties(header: string, labels: Records<string>) returns (schema: string)
    ensures schema == header + PropertiesText(labels)
  {
    var properties: map<string, set<string>> := map[];
    schema := header;
    for i := 0 to |labels|
      invariant schema == header + PropertiesText(labels[..i])
      invariant forall n :: DefaultGet(properties, n) == Collected(labels[..i], n)
    {
      var name := labels[i].0;
      ghost var before := properties;
      var line;
      properties, line := AddProperties(properties, name, labels[i].1);
      CollectedStep(labels, i, before, properties);
      assert DefaultGet(properties, name) == DefaultGet(before, name) + SetOf(labels[i].1);
      PropertiesTextStep(labels, i);
      ConcatAssoc(header, PropertiesText(labels[..i]), line);
      schema := schema + line;
    }
    assert labels[..|labels|] == labels;
  }

  /** One record of get_properties: merge its keys into the label's set and format the line. */
  method AddProperties(d: map<string, set<string>>, name: string, keys: seq<string>)
    returns (r: map<string, set<string>>, line: string)
    ensures r == d[name := DefaultGet(d, name) + SetOf(keys)]
    ensures line == PropertyLine(name, DefaultGet(d, name) + SetOf(keys))
  {
    r := AddAll(d, name, keys);
    var props := FormatKeys(r[name]);
    line := name + " : (" + props + ")\n";
  }

  lemma PropertiesTextStep(labels: Records<string>, i: nat)
    requires i < |labels|
    ensures PropertiesText(labels[..i + 1]) ==
      PropertiesText(labels[..i]) + PropertyLine(labels[i].0, Collected(labels[..i + 1], labels[i].0))
  {
    assert labels[..i + 1][..i] == labels[..i];
  }

  /**
   * With distinct label names, as `db.labels()` gives them, each line lists exactly the
   * keys of its own label: one line per label, in the order of the labels.
   */
  lemma {:induction false} PropertiesTextDistinct(labels: Records<string>)
    requires forall i, j :: 0 <= i < j < |labels| ==> labels[i].0 != labels[j].0
    ensures |labels| > 0 ==>
      PropertiesText(labels) == PropertiesText(labels[..|labels| - 1]) +
        PropertyLine(labels[|labels| - 1].0, SetOf(labels[|labels| - 1].1))
  {
    if |labels| > 0 {
      CollectedDistinct(labels, |labels| - 1);
    }
  }

  // ---------------------------------------------------------------------------
  // get_classes_rel (Nicolas) and get_relationships (Enrico)

  /** The header of `GeneralQueries.get_classes_rel` (Nicolas' version 3). */
  const RelationshipsHeaderN := "\n        \nRELATIONSHIPS SCHEMA \n        \n(node)-[relationship]->(node)\n"
  /** The header of `get_relationships` (Enrico's version 3): it does not end the line. */
  const RelationshipsHeaderE := "\nRELATIONSHIPS SCHEMA\n\n    (node)-[relationship]->(node)"

  /** A relationship type, the keys its first query returned and the end-label lists its second one returned. */
  datatype RelRecords = RelRecords(relType: string, keys: seq<string>, ends: seq<(seq<string>, seq<string>)>)

  /** The order in which Python happens to iterate over a set of label pairs. */
  type PairListing = set<(string, string)> -> seq<(string, string)>

  /** The labels of each end joined by colons. */
  function Direction(e: (seq<string>, seq<string>)): (string, string)
  {
    (Join(":", e.0), Join(":", e.1))
  }

  function Directions(ends: seq<(seq<string>, seq<string>)>): (r: seq<(string, string)>)
    ensures |r| == |ends| && forall j :: 0 <= j < |ends| ==> r[j] == Direction(ends[j])
  {
    seq(|ends|, j requires 0 <= j < |ends| => Direction(ends[j]))
  }

  /** The types with the keys their records returned. */
  function KeyRecords(rels: seq<RelRecords>): (r: Records<string>)
    ensures |r| == |rels| && forall i :: 0 <= i < |rels| ==> r[i] == (rels[i].relType, rels[i].keys)
  {
    seq(|rels|, i requires 0 <= i < |rels| => (rels[i].relType, rels[i].keys))
  }

  /** The types with the label pairs of their records. */
  function DirectionRecords(rels: seq<RelRecords>): (r: Records<(string, string)>)
    ensures |r| == |rels| && forall i :: 0 <= i < |rels| ==> r[i] == (rels[i].relType, Directions(rels[i].ends))
  {
    seq(|rels|, i requires 0 <= i < |rels| => (rels[i].relType, Directions(rels[i].ends)))
  }

  /** The bullet line of one direction: both ends, the type and its properties in braces. */
  function PatternLine(relType: string, props: string, d: (string, string)): string
  {
    "- (" + d.0 + ")-[:" + relType + " {" + props + "}]->(" + d.1 + ")\n"
  }

  /** The lines for the label pairs `ds`, in that order. */
  function PatternLines(relType: string, props: string, ds: seq<(string, string)>): string
  {
    if |ds| == 0 then "" else PatternLines(relType, props, ds[..|ds| - 1]) + PatternLine(relType, props, ds[|ds| - 1])
  }

  /** Each listed pair has its line among the lines. */
  lemma {:induction false} PatternLineShown(relType: string, props: string, ds: seq<(string, string)>, j: nat)
    requires j < |ds|
    ensures exists k :: InfixAt(PatternLine(relType, props, ds[j]), PatternLines(relType, props, ds), k)
  {
    var n := |ds| - 1;
    var line := PatternLine(relType, props, ds[j]);
    if j == n {
      var s := PatternLines(relType, props, ds);
      var a := PatternLines(relType, props, ds[..n]);
      assert s[|a|..|a| + |line|] == line;
      assert InfixAt(line, s, |a|);
    } else {
      assert ds[..n][j] == ds[j];
      PatternLineShown(relType, props, ds[..n], j);
      var k :| InfixAt(line, PatternLines(relType, props, ds[..n]), k);
      InfixWithin(line, PatternLines(relType, props, ds[..n]), k, "",
        PatternLine(relType, props, ds[n]), PatternLines(relType, props, ds));
    }
  }

  /** The lines of one type: every label pair found so far, in the order Python lists the set. */
  ghost function TypeText(rels: seq<RelRecords>, order: PairListing): string
    requires |rels| > 0
  {
    var t := rels[|rels| - 1].relType;
    PatternLines(t, PropsText(Collected(KeyRecords(rels), t)), order(Collected(DirectionRecords(rels), t)))
  }

  /** The lines for the relationship types, type after type. */
  ghost function RelationshipsText(rels: seq<RelRecords>, order: PairListing): string
  {
    if |rels| == 0 then "" else RelationshipsText(rels[..|rels| - 1], order) + TypeText(rels, order)
  }

  /** Appending the pattern line of each direction, in the order given. */
  method AppendPatterns(schema: string, relType: string, props: string, ds: seq<(string, string)>) returns (r: string)
    ensures r == schema + PatternLines(relType, props, ds)
  {
    r := schema;
    for j := 0 to |ds|
      invariant r == schema + PatternLines(relType, props, ds[..j])
    {
      assert ds[..j + 1][..j] == ds[..j];
      r := r + PatternLine(relType, props, ds[j]);
    }
    assert ds[..|ds|] == ds;
  }

  /** The label pairs of one type's records, added to `rel_directions[rel_type]`. */
  method AddDirections(d: map<string, set<(string, string)>>, relType: string, ends: seq<(seq<string>, seq<string>)>)
    returns (r: map<string, set<(string, string)>>)
    ensures r == d[relType := DefaultGet(d, relType) + SetOf(Directions(ends))]
  {
    r := d[relType := DefaultGet(d, relType)];
    ghost var ds := Directions(ends);
    assert SetOf(ds[..0]) == {};
    assert DefaultGet(d, relType) + SetOf(ds[..0]) == DefaultGet(d, relType);
    for j := 0 to |ends|
      invariant r == d[relType := DefaultGet(d, relType) + SetOf(ds[..j])]
    {
      var fromLabels := Join(":", ends[j].0);
      var toLabels := Join(":", ends[j].1);
      assert SetOf(ds[..j + 1]) == SetOf(ds[..j]) + {(fromLabels, toLabels)} by {
        assert ds[..j + 1] == ds[..j] + [ds[j]];
      }
      assert r[relType] + {(fromLabels, toLabels)} == DefaultGet(d, relType) + SetOf(ds[..j + 1]);
      r := r[relType := r[relType] + {(fromLabels, toLabels)}];
    }
    assert ds[..|ends|] == ds;
  }

  /**
   * get_classes_rel and get_relationships: the header, then for each relationship type
   * one line per distinct pair of joined end labels found so far, each showing the sorted
   * keys of the type.
   */
  method GetRelationships(header: string, rels: seq<RelRecords>, order: PairListing) returns (schema: string)
    ensures schema == header + RelationshipsText(rels, order)
  {
    var relProps: map<string, set<string>> := map[];
    var relDirections: map<string, set<(string, string)>> := map[];
    schema := header;
    for i := 0 to |rels|
      invariant schema == header + RelationshipsText(rels[..i], order)
      invariant forall n :: DefaultGet(relProps, n) == Collected(KeyRecords(rels[..i]), n)
      invariant forall n :: DefaultGet(relDirections, n) == Collected(DirectionRecords(rels[..i]), n)
    {
      ghost var props0, dirs0, text := relProps, relDirections, schema;
      relProps, relDirections, schema := AddRelationship(relProps, relDirections, schema, rels[i], order);
      RelationshipsTextStep(rels, i, order, props0, dirs0, relProps, relDirections);
      RelationshipsTextSnoc(rels, i, order);
      ConcatAssoc(header, RelationshipsText(rels[..i], order), TypeText(rels[..i + 1], order));
    }
    assert rels[..|rels|] == rels;
  }

  /** One record of get_relationships: merge its keys and label pairs, then list the type's patterns. */
  method AddRelationship(relProps: map<string, set<string>>, relDirections: map<string, set<(string, string)>>,
                         schema: string, rel: RelRecords, order: PairListing)
    returns (props': map<string, set<string>>, dirs': map<string, set<(string, string)>>, schema': string)
    ensures props' == relProps[rel.relType := DefaultGet(relProps, rel.relType) + SetOf(rel.keys)]
    ensures dirs' == relDirections[rel.relType := DefaultGet(relDirections, rel.relType) + SetOf(Directions(rel.ends))]
    ensures schema' == schema + PatternLines(rel.relType, PropsText(props'[rel.relType]), order(dirs'[rel.relType]))
  {
    var t := rel.relType;
    props' := AddAll(relProps, t, rel.keys);
    dirs' := AddDirections(relDirections, t, rel.ends);
    var props := FormatKeys(props'[t]);
    schema' := AppendPatterns(schema, t, props, order(dirs'[t]));
  }

  /** The state get_relationships keeps after one more record, and the lines it adds. */
  lemma RelationshipsTextStep(rels: seq<RelRecords>, i: nat, order: PairListing,
                              props0: map<string, set<string>>, dirs0: map<string, set<(string, string)>>,
                              props1: map<string, set<string>>, dirs1: map<string, set<(string, string)>>)
    requires i < |rels|
    requires forall n :: DefaultGet(props0, n) == Collected(KeyRecords(rels[..i]), n)
    requires forall n :: DefaultGet(dirs0, n) == Collected(DirectionRecords(rels[..i]), n)
    requires props1 == props0[rels[i].relType := DefaultGet(props0, rels[i].relType) + SetOf(rels[i].keys)]
    requires dirs1 == dirs0[rels[i].relType := DefaultGet(dirs0, rels[i].relType) + SetOf(Directions(rels[i].ends))]
    ensures forall n :: DefaultGet(props1, n) == Collected(KeyRecords(rels[..i + 1]), n)
    ensures forall n :: DefaultGet(dirs1, n) == Collected(DirectionRecords(rels[..i + 1]), n)
    ensures TypeText(rels[..i + 1], order) ==
      PatternLines(rels[i].relType, PropsText(props1[rels[i].relType]), order(dirs1[rels[i].relType]))
  {
    KeysStep(rels, i, props0, props1);
    DirectionsStep(rels, i, dirs0, dirs1);
  }

  lemma RelationshipsTextSnoc(rels: seq<RelRecords>, i: nat, order: PairListing)
    requires i < |rels|
    ensures RelationshipsText(rels[..i + 1], order) == RelationshipsText(rels[..i], order) + TypeText(rels[..i + 1], order)
  {
    assert rels[..i + 1][..i] == rels[..i];
  }

  lemma KeysStep(rels: seq<RelRecords>, i: nat, props0: map<string, set<string>>, props1: map<string, set<string>>)
    requires i < |rels|
    requires forall n :: DefaultGet(props0, n) == Collected(KeyRecords(rels[..i]), n)
    requires props1 == props0[rels[i].relType := DefaultGet(props0, rels[i].relType) + SetOf(rels[i].keys)]
    ensures forall n :: DefaultGet(props1, n) == Collected(KeyRecords(rels[..i + 1]), n)
    ensures props1[rels[i].relType] == Collected(KeyRecords(rels[..i + 1]), rels[i].relType)
  {
    var keys := KeyRecords(rels[..i + 1]);
    assert keys[..i] == KeyRecords(rels[..i]);
    assert keys[..i + 1] == keys;
    CollectedStep(keys, i, props0, props1);
    assert DefaultGet(props1, rels[i].relType) == Collected(keys, rels[i].relType);
  }

  lemma DirectionsStep(rels: seq<RelRecords>, i: nat,
                       dirs0: map<string, set<(string, string)>>, dirs1: map<string, set<(string, string)>>)
    requires i < |rels|
    requires forall n :: DefaultGet(dirs0, n) == Collected(DirectionRecords(rels[..i]), n)
    requires dirs1 == dirs0[rels[i].relType := DefaultGet(dirs0, rels[i].relType) + SetOf(Directions(rels[i].ends))]
    ensures forall n :: DefaultGet(dirs1, n) == Collected(DirectionRecords(rels[..i + 1]), n)
    ensures dirs1[rels[i].relType] == Collected(DirectionRecords(rels[..i + 1]), rels[i].relType)
  {
    var dirs := DirectionRecords(rels[..i + 1]);
    assert dirs[..i] == DirectionRecords(rels[..i]);
    assert dirs[..i + 1] == dirs;
    CollectedStep(dirs, i, dirs0, dirs1);
    assert DefaultGet(dirs1, rels[i].relType) == Collected(dirs, rels[i].relType);
  }

  /**
   * A label pair is listed under a type exactly when some record of that type joined its
   * two label lists into it.
   */
  lemma DirectionsFound(rels: seq<RelRecords>, t: string, d: (string, string))
    ensures d in Collected(DirectionRecords(rels), t) <==>
      exists i, j :: 0 <= i < |rels| && rels[i].relType == t && 0 <= j < |rels[i].ends| && Direction(rels[i].ends[j]) == d
  {
    var recs := DirectionRecords(rels);
    CollectedSpec(recs, t, d);
    if d in Collected(recs, t) {
      var i :| 0 <= i < |recs| && recs[i].0 == t && d in recs[i].1;
      var j :| 0 <= j < |recs[i].1| && recs[i].1[j] == d;
      assert rels[i].relType == t && Direction(rels[i].ends[j]) == d;
    }
    if exists i, j :: 0 <= i < |rels| && rels[i].relType == t && 0 <= j < |rels[i].ends| && Direction(rels[i].ends[j]) == d {
      var i, j :| 0 <= i < |rels| && rels[i].relType == t && 0 <= j < |rels[i].ends| && Direction(rels[i].ends[j]) == d;
      assert recs[i].1[j] == d;
    }
  }

  /** When Python lists the set of pairs of a type, each pair gets its line among that type's lines. */
  lemma PatternListed(rels: seq<RelRecords>, order: PairListing, d: (string, string))
    requires |rels| > 0
    requires d in order(Collected(DirectionRecords(rels), rels[|rels| - 1].relType))
    ensures var t := rels[|rels| - 1].relType;
      exists k :: InfixAt(PatternLine(t, PropsText(Collected(KeyRecords(rels), t)), d), TypeText(rels, order), k)
  {
    var t := rels[|rels| - 1].relType;
    var ds := order(Collected(DirectionRecords(rels), t));
    var j :| 0 <= j < |ds| && ds[j] == d;
    PatternLineShown(t, PropsText(Collected(KeyRecords(rels), t)), ds, j);
    assert TypeText(rels, order) == PatternLines(t, PropsText(Collected(KeyRecords(rels), t)), ds);
  }

  /** The text of the `LIMIT` clause: the keyword and the limit, or nothing for a limit of 0. */
  function LimitClause(limit: int): string
  {
    if limit == 0 then "" else "LIMIT " + IntText(limit)
  }

  /** `str(n)` for a natural number. */
  function NatText(n: nat): (r: string)
    ensures |r| > 0 && forall i :: 0 <= i < |r| ==> IsDigit(r[i])
  {
    if n < 10 then [('0' as int + n) as char] else NatText(n / 10) + [('0' as int + n % 10) as char]
  }

  /** `str(n)` */
  function IntText(n: int): string
  {
    if n < 0 then "-" + NatText(-n) else NatText(n)
  }

  /** The number a string of decimal digits denotes. */
  function DigitsValue(s: string): nat
  {
    if |s| == 0 then 0
    else
      var d := s[|s| - 1] as int - '0' as int;
      DigitsValue(s[..|s| - 1]) * 10 + (if 0 <= d then d else 0)
  }

  /** Reading back the decimal text of a number gives the number. */
  lemma {:induction false} NatTextValue(n: nat)
    ensures DigitsValue(NatText(n)) == n
  {
    if n >= 10 {
      NatTextValue(n / 10);
      var r := NatText(n);
      assert r[..|r| - 1] == NatText(n / 10);
    }
  }

  /**
   * Only a zero limit leaves the clause out; any other limit gives `LIMIT` and its decimal
   * text, which reads back as the limit.
   */
  lemma LimitClauseSpec(limit: int)
    ensures LimitClause(limit) == "" <==> limit == 0
    ensures limit > 0 ==> LimitClause(limit) == "LIMIT " + NatText(limit) && DigitsValue(LimitClause(limit)[6..]) == limit
    ensures limit < 0 ==> LimitClause(limit) == "LIMIT -" + NatText(-limit)
  {
    if limit > 0 {
      NatTextValue(limit);
      assert LimitClause(limit)[6..] == NatText(limit);
    }
  }

  // ---------------------------------------------------------------------------
  // devices_map and devices_list (the same code in both versions)

  const DevicesMapHeader := "Devices' allocations in Rooms: "

  /** The line of one allocation: the object, `is in`, and the room. */
  function Allocation(r: (string, string)): string
  {
    r.0 + " is in " + r.1
  }

  /** The allocation texts of the records, in order. */
  function Allocations(records: seq<(string, string)>): (r: seq<string>)
    ensures |r| == |records| && forall i :: 0 <= i < |records| ==> r[i] == Allocation(records[i])
  {
    seq(|records|, i requires 0 <= i < |records| => Allocation(records[i]))
  }

  /** `sep + allocation` for each record. */
  function NewlineAllocation(r: (string, string)): string
  {
    "\n" + Allocation(r)
  }

  /** The text devices_map builds from its (object, room) records. */
  function DevicesMapText(records: seq<(string, string)>): string
  {
    DevicesMapHeader + FlatMap(NewlineAllocation, records) + "\n"
  }

  method DevicesMap(records: seq<(string, string)>) returns (text: string)
    ensures text == DevicesMapText(records)
  {
    text := DevicesMapHeader;
    for i := 0 to |records|
      invariant text == DevicesMapHeader + FlatMap(NewlineAllocation, records[..i])
    {
      FlatMapStep(NewlineAllocation, records, i);
      text := text + "\n" + (records[i].0 + " is in " + records[i].1);
    }
    assert records[..|records|] == records;
    text := text + "\n";
  }

  /** `sep.join(xs + [y])` is `sep.join(xs)`, the separator and `y`. */
  lemma {:induction false} JoinSnoc(sep: string, xs: seq<string>, y: string)
    requires |xs| > 0
    ensures Join(sep, xs + [y]) == Join(sep, xs) + sep + y
  {
    if |xs| > 1 {
      JoinSnoc(sep, xs[1..], y);
      assert (xs + [y])[1..] == xs[1..] + [y];
    }
  }

  /** The header line followed by the allocations, one per line. */
  lemma {:induction false} AllocationLines(records: seq<(string, string)>)
    ensures Join("\n", [DevicesMapHeader] + Allocations(records)) == DevicesMapHeader + FlatMap(NewlineAllocation, records)
  {
    if |records| > 0 {
      var n := |records| - 1;
      AllocationLines(records[..n]);
      assert Allocations(records) == Allocations(records[..n]) + [Allocation(records[n])];
      JoinSnoc("\n", [DevicesMapHeader] + Allocations(records[..n]), Allocation(records[n]));
      assert [DevicesMapHeader] + Allocations(records) == [DevicesMapHeader] + Allocations(records[..n]) + [Allocation(records[n])];
      FlatMapStep(NewlineAllocation, records, n);
      assert records[..n + 1] == records;
    } else {
      assert [DevicesMapHeader] + Allocations(records) == [DevicesMapHeader];
    }
  }

  /** The device map is its header line, one "object is in room" line per record, and a final newline. */
  lemma DevicesMapLines(records: seq<(string, string)>)
    ensures DevicesMapText(records) == Join("\n", [DevicesMapHeader] + Allocations(records) + [""])
  {
    AllocationLines(records);
    JoinSnoc("\n", [DevicesMapHeader] + Allocations(records), "");
  }

  const DevicesHeading := "DEVICE CLASSES"

  /** `class + sep` */
  function ClassLine(c: string): string
  {
    c + "\n"
  }

  /** The text devices_list builds, as written: the heading is not followed by a newline. */
  function DevicesListText(classes: seq<string>): string
  {
    "\n" + DevicesHeading + FlatMap(ClassLine, classes)
  }

  method DevicesList(classes: seq<string>) returns (text: string)
    ensures text == DevicesListText(classes)
  {
    text := "\n" + DevicesHeading;
    for i := 0 to |classes|
      invariant text == "\n" + DevicesHeading + FlatMap(ClassLine, classes[..i])
    {
      FlatMapStep(ClassLine, classes, i);
      text := text + classes[i] + "\n";
    }
    assert classes[..|classes|] == classes;
  }

  /** The device list with the heading on a line of its own. */
  function DevicesListCorrected(classes: seq<string>): string
  {
    "\n" + DevicesHeading + "\n" + FlatMap(ClassLine, classes)
  }

  /** Lines each ending in a newline, as a text, are those lines joined by newlines with an empty last line. */
  lemma {:induction false} JoinTerminated(xs: seq<string>)
    ensures Join("\n", xs + [""]) == FlatMap(ClassLine, xs)
  {
    if |xs| > 0 {
      var n := |xs| - 1;
      JoinTerminated(xs[..n]);
      FlatMapStep(ClassLine, xs, n);
      assert xs[..n + 1] == xs;
      if n == 0 {
        assert xs + [""] == [xs[0], ""];
        assert FlatMap(ClassLine, xs[..0]) == [];
      } else {
        assert xs + [""] == xs[..n] + [xs[n]] + [""];
        JoinSnoc("\n", xs[..n] + [xs[n]], "");
        JoinSnoc("\n", xs[..n], xs[n]);
        JoinSnoc("\n", xs[..n], "");
      }
    }
  }

  /** The corrected list has an empty first line, the heading, then each class on a line of its own. */
  lemma DevicesListCorrectedLines(classes: seq<string>)
    ensures DevicesListCorrected(classes) == Join("\n", ["", DevicesHeading] + classes + [""])
  {
    JoinTerminated(classes);
    assert ["", DevicesHeading] + classes + [""] == ["", DevicesHeading] + (classes + [""]);
    assert (["", DevicesHeading] + (classes + [""]))[1..] == [DevicesHeading] + (classes + [""]);
    assert ([DevicesHeading] + (classes + [""]))[1..] == classes + [""];
  }

  /** As written, the first class is glued to the heading on the heading's line. */
  lemma DevicesListGlued(classes: seq<string>)
    requires |classes| > 0
    ensures DevicesListText(classes) == Join("\n", ["", DevicesHeading + classes[0]] + classes[1..] + [""])
  {
    var rest := classes[1..];
    JoinTerminated(classes);
    JoinTerminated(rest);
    assert classes + [""] == [classes[0]] + (rest + [""]);
    var tail := Join("\n", rest + [""]);
    assert Join("\n", classes + [""]) == classes[0] + "\n" + tail;
    var parts := ["", DevicesHeading + classes[0]] + rest + [""];
    assert parts == ["", DevicesHeading + classes[0]] + (rest + [""]);
    assert parts[1..] == [DevicesHeading + classes[0]] + (rest + [""]);
    assert parts[1..][1..] == rest + [""];
  }
}
