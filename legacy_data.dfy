/**
 * What the earlier retrievers (versions 4 to 7) share: the values their auto-queries
 * return, how Python prints them, and the list, group and lexical helpers that those
 * retrievers copy from one another.
 */
module LegacyData {
  import opened Wrappers
  import opened Text
  import opened Values
  import opened Order

  /** A group of a label -> group dict: a `set` (props_per_label) or a `list` (examples_per_label). */
  datatype Group = SetGroup(members: set<string>) | ListGroup(elems: seq<string>)

  /**
   * An element of a query result: a text, a property dict, a list of texts, or a
   * label -> group dict (a `defaultdict(set)` when `isDefault`).
   */
  datatype Item =
    | TextItem(s: string)
    | DictItem(entries: seq<(string, string)>)
    | ListItem(ss: seq<string>)
    | GroupsItem(groups: Dict<Group>, isDefault: bool)

  /** What an auto-query hands back: a list, an empty dict (`return {}`), or an unread driver cursor. */
  datatype Response = Items(items: seq<Item>) | EmptyDict | Cursor

  /** The order in which Python happens to iterate over a set. */
  type Listing = set<string> -> seq<string>

  /** `list(group)` */
  function Members(g: Group, order: Listing): seq<string>
  {
    match g
    case SetGroup(m) => order(m)
    case ListGroup(es) => es
  }

  /** The elements of a group as a set. */
  function MemberSet(g: Group): set<string>
  {
    match g
    case SetGroup(m) => m
    case ListGroup(es) => set x | x in es
  }

  /** `repr` of a group. */
  function GroupRepr(g: Group, order: Listing): string
  {
    match g
    case SetGroup(m) => if |order(m)| == 0 then "set()" else "{" + Join(", ", Quoted(order(m))) + "}"
    case ListGroup(es) => ListRepr(es)
  }

  function GroupEntries(d: Dict<Group>, order: Listing): (r: seq<string>)
    ensures |r| == |d|
  {
    if |d| == 0 then [] else ["'" + d[0].0 + "': " + GroupRepr(d[0].1, order)] + GroupEntries(d[1..], order)
  }

  /** `str(item)` */
  function ShowItem(it: Item, order: Listing): string
  {
    match it
    case TextItem(s) => s
    case DictItem(d) => DictRepr(d)
    case ListItem(ss) => ListRepr(ss)
    case GroupsItem(d, isDefault) =>
      var body := "{" + Join(", ", GroupEntries(d, order)) + "}";
      if isDefault then "defaultdict(<class 'set'>, " + body + ")" else body
  }

  /** `repr(item)`, as it appears inside a printed list. */
  function ReprItem(it: Item, order: Listing): string
  {
    if it.TextItem? then "'" + it.s + "'" else ShowItem(it, order)
  }

  /** `str(e)` of each element, in order. */
  function Shown(items: seq<Item>, order: Listing): (r: seq<string>)
    ensures |r| == |items| && forall i :: 0 <= i < |items| ==> r[i] == ShowItem(items[i], order)
  {
    seq(|items|, i requires 0 <= i < |items| => ShowItem(items[i], order))
  }

  function Reprs(items: seq<Item>, order: Listing): (r: seq<string>)
    ensures |r| == |items|
  {
    seq(|items|, i requires 0 <= i < |items| => ReprItem(items[i], order))
  }

  /** What `str` shows for a driver cursor object (its address is left out). */
  const CursorText: string := "<neo4j AsyncResult>"

  /** `str(response)` */
  function ShowResponse(r: Response, order: Listing): string
  {
    match r
    case Items(xs) => "[" + Join(", ", Reprs(xs, order)) + "]"
    case EmptyDict => "{}"
    case Cursor => CursorText
  }

  /** `for e in response`: a dict yields its (no) keys, a cursor cannot be iterated synchronously. */
  function Elements(r: Response): Result<seq<Item>>
  {
    match r
    case Items(xs) => Ok(xs)
    case EmptyDict => Ok([])
    case Cursor => Fail(TypeError)
  }

  /** `response[0]` */
  function Head(r: Response): Result<Item>
  {
    match r
    case Items(xs) => if |xs| == 0 then Fail(IndexError) else Ok(xs[0])
    case EmptyDict => Fail(KeyError)
    case Cursor => Fail(TypeError)
  }

  function TextItems(ss: seq<string>): (r: seq<Item>)
    ensures |r| == |ss| && forall i :: 0 <= i < |ss| ==> r[i] == TextItem(ss[i])
  {
    seq(|ss|, i requires 0 <= i < |ss| => TextItem(ss[i]))
  }

  /** `d[k]` on a `defaultdict(list)`: a missing key is inserted with an empty list. */
  function Touch(d: Dict<Response>, k: string): (r: (Dict<Response>, Response))
    ensures Get(d, k).Some? ==> r == (d, Get(d, k).value)
    ensures Get(d, k).None? ==> r == (d + [(k, Items([]))], Items([]))
  {
    match Get(d, k)
    case Some(v) => (d, v)
    case None => (d + [(k, Items([]))], Items([]))
  }

  // ---------------------------------------------------------------------------
  // print_list / write_list

  /** Which elements are system labels: compared as written (`fold == false`) or lower-cased. */
  datatype Exclusion = Exclusion(sys: seq<string>, fold: bool)

  predicate Printed(ex: Exclusion, s: string) { (if ex.fold then Lower(s) else s) !in ex.sys }

  /** One line per element, in order: a newline, the head, then the element. */
  function Bullets(head: string, ss: seq<string>): string
  {
    if |ss| == 0 then "" else Bullets(head, ss[..|ss| - 1]) + ("\n" + head + ss[|ss| - 1])
  }

  lemma BulletsSnoc(head: string, ss: seq<string>, x: string)
    ensures Bullets(head, ss + [x]) == Bullets(head, ss) + ("\n" + head + x)
  {
    assert (ss + [x])[..|ss|] == ss;
  }

  /**
   * The loop of print_list/write_list: starting from `start`, one line for each element
   * whose text is not a system label, in input order.
   */
  method PrintList(results: seq<Item>, head: string, start: string, ex: Exclusion, order: Listing)
    returns (message: string)
    ensures message == start + Bullets(head, Filter(Shown(results, order), ex, Printed))
  {
    ghost var shown := Shown(results, order);
    message := start;
    for i := 0 to |results|
      invariant message == start + Bullets(head, Filter(shown[..i], ex, Printed))
    {
      var element := ShowItem(results[i], order);
      PrintStep(shown, i, head, start, ex);
      if Printed(ex, element) {
        message := message + ("\n" + head + element);
      }
    }
    assert shown[..|results|] == shown;
  }

  lemma PrintStep(shown: seq<string>, i: nat, head: string, start: string, ex: Exclusion)
    requires i < |shown|
    ensures Printed(ex, shown[i]) ==>
      (start + Bullets(head, Filter(shown[..i + 1], ex, Printed))
       == start + Bullets(head, Filter(shown[..i], ex, Printed)) + ("\n" + head + shown[i]))
    ensures !Printed(ex, shown[i]) ==>
      (start + Bullets(head, Filter(shown[..i + 1], ex, Printed))
       == start + Bullets(head, Filter(shown[..i], ex, Printed)))
  {
    FilterSnoc(shown, i, ex, Printed);
    var kept := Filter(shown[..i], ex, Printed);
    if Printed(ex, shown[i]) {
      BulletsSnoc(head, kept, shown[i]);
      ConcatAssoc(start, Bullets(head, kept), "\n" + head + shown[i]);
    } else {
      assert kept + [] == kept;
    }
  }

  /** A text gets a line exactly when it is the text of an element and not a system label. */
  lemma PrintedElements(results: seq<Item>, ex: Exclusion, order: Listing, s: string)
    ensures s in Filter(Shown(results, order), ex, Printed) <==>
      (exists i :: 0 <= i < |results| && ShowItem(results[i], order) == s) && Printed(ex, s)
  {
    var shown := Shown(results, order);
    FilterMembers(shown, ex, Printed, s);
    if s in shown {
      var i :| 0 <= i < |shown| && shown[i] == s;
      assert ShowItem(results[i], order) == s;
    }
  }

  // ---------------------------------------------------------------------------
  // print_dict_of_group / write_dict_of_group

  /** The printed list of a group's members, in set order, or sorted when `sorted`. */
  function GroupShown(g: Group, order: Listing, sorted: bool): string
  {
    var ms := Members(g, order);
    ListRepr(if sorted then SortStrings(ms) else ms)
  }

  predicate KeyListed(sys: seq<string>, e: (string, Group)) { Lower(e.0) !in sys }

  /** The line of one key: a newline, the first template piece, the key, the second piece and the group. */
  function GroupLine(e: (string, Group), heads: seq<string>, order: Listing, sorted: bool): string
    requires |heads| >= 2
  {
    "\n" + heads[0] + e.0 + heads[1] + GroupShown(e.1, order, sorted)
  }

  function GroupLines(es: Dict<Group>, heads: seq<string>, order: Listing, sorted: bool): string
    requires |heads| >= 2
  {
    if |es| == 0 then ""
    else GroupLines(es[..|es| - 1], heads, order, sorted) + GroupLine(es[|es| - 1], heads, order, sorted)
  }

  /** The text a group writer returns for a template split on `sep`. */
  function GroupText(d: Dict<Group>, head: string, sep: char, sys: seq<string>, order: Listing, sorted: bool): string
  {
    var heads := SplitChar(head, sep);
    if |heads| < 2 then "" else GroupLines(Filter(d, sys, KeyListed), heads, order, sorted)
  }

  /**
   * A template without the separator gives no text at all; otherwise there is one line
   * per key that is not a system label, in key order.
   */
  lemma GroupTextTemplate(d: Dict<Group>, head: string, sep: char, sys: seq<string>, order: Listing, sorted: bool)
    ensures sep !in head ==> GroupText(d, head, sep, sys, order, sorted) == ""
    ensures sep in head ==> (|SplitChar(head, sep)| >= 2 &&
      GroupText(d, head, sep, sys, order, sorted) == GroupLines(Filter(d, sys, KeyListed), SplitChar(head, sep), order, sorted))
  {
    SplitCharParts(head, sep);
  }

  method WriteDictOfGroup(resDict: Dict<Group>, head: string, sep: char, sys: seq<string>, order: Listing, sorted: bool)
    returns (message: string)
    ensures message == GroupText(resDict, head, sep, sys, order, sorted)
  {
    message := "";
    var heads := SplitChar(head, sep);
    if |heads| < 2 {
      return "";  // 'ERROR: missing heads in dictionary'
    }
    for i := 0 to |resDict|
      invariant message == GroupLines(Filter(resDict[..i], sys, KeyListed), heads, order, sorted)
    {
      GroupStep(resDict, i, heads, sys, order, sorted);
      var key := resDict[i].0;
      if Lower(key) in sys {
        continue;
      }
      var group := Members(resDict[i].1, order);
      if sorted {
        group := SortStrings(group);
      }
      message := message + ("\n" + heads[0] + key + heads[1] + ListRepr(group));
    }
    assert resDict[..|resDict|] == resDict;
  }

  lemma GroupStep(d: Dict<Group>, i: nat, heads: seq<string>, sys: seq<string>, order: Listing, sorted: bool)
    requires i < |d| && |heads| >= 2
    ensures KeyListed(sys, d[i]) ==>
      (GroupLines(Filter(d[..i + 1], sys, KeyListed), heads, order, sorted)
       == GroupLines(Filter(d[..i], sys, KeyListed), heads, order, sorted) + GroupLine(d[i], heads, order, sorted))
    ensures !KeyListed(sys, d[i]) ==>
      (GroupLines(Filter(d[..i + 1], sys, KeyListed), heads, order, sorted)
       == GroupLines(Filter(d[..i], sys, KeyListed), heads, order, sorted))
  {
    FilterSnoc(d, i, sys, KeyListed);
    var kept := Filter(d[..i], sys, KeyListed);
    if KeyListed(sys, d[i]) {
      assert (kept + [d[i]])[..|kept|] == kept;
    } else {
      assert kept + [] == kept;
    }
  }

  /** Sorting a listing of a set gives the one strictly increasing listing of that set. */
  lemma SortedEnumeration(xs: seq<string>, st: set<string>)
    requires Enumerates(xs, st)
    ensures StrictlySorted(SortStrings(xs)) && forall x :: x in SortStrings(xs) <==> x in st
  {
    var a := SortStrings(xs);
    forall x ensures x in a <==> x in st {
      assert x in a <==> x in multiset(a);
      assert x in xs <==> x in multiset(xs);
    }
    forall i, j | 0 <= i < j < |a| ensures a[i] != a[j] {
      if a[i] == a[j] {
        CountTwo(a, i, j);
        NoDupCount(xs, a[i]);
      }
    }
    SortedDistinctStrict(a);
  }

  lemma CountTwo(a: seq<string>, i: int, j: int)
    requires 0 <= i < j < |a| && a[i] == a[j]
    ensures multiset(a)[a[i]] >= 2
  {
    assert a == a[..j] + a[j..];
    assert a[i] in a[..j] && a[j] in a[j..];
  }

  /** A sequence without repetitions holds every value at most once. */
  lemma {:induction false} NoDupCount(xs: seq<string>, v: string)
    requires NoDup(xs)
    ensures multiset(xs)[v] <= 1
  {
    if |xs| > 0 {
      assert xs == [xs[0]] + xs[1..];
      NoDupCount(xs[1..], v);
      if xs[0] == v {
        assert v !in xs[1..];
      }
    }
  }

  /**
   * Sorted groups print the same whatever order the sets are iterated in: the output of
   * the sorting writer depends only on the dict.
   */
  lemma {:induction false} SortedGroupLinesCanonical(es: Dict<Group>, heads: seq<string>, o1: Listing, o2: Listing)
    requires |heads| >= 2
    requires forall i :: 0 <= i < |es| && es[i].1.SetGroup? ==>
      Enumerates(o1(es[i].1.members), es[i].1.members) && Enumerates(o2(es[i].1.members), es[i].1.members)
    ensures GroupLines(es, heads, o1, true) == GroupLines(es, heads, o2, true)
  {
    if |es| > 0 {
      var n := |es| - 1;
      SortedGroupLinesCanonical(es[..n], heads, o1, o2);
      var g := es[n].1;
      if g.SetGroup? {
        SortedEnumeration(o1(g.members), g.members);
        SortedEnumeration(o2(g.members), g.members);
        StrictlySortedUnique(SortStrings(o1(g.members)), SortStrings(o2(g.members)));
      }
    }
  }

  // ---------------------------------------------------------------------------
  // init_auto_queries

  predicate InCatalog(keys: seq<string>, name: string) { name in keys }

  /** The requested names that the catalog knows, in requested order; all catalog names for `None`. */
  function Available(required: Option<seq<string>>, keys: seq<string>): seq<string>
  {
    match required
    case None => keys
    case Some(req) => Filter(req, keys, InCatalog)
  }

  /** Unknown names are skipped, known ones kept in order, and nothing else is added. */
  lemma AvailableSpec(required: Option<seq<string>>, keys: seq<string>)
    ensures forall x :: x in Available(required, keys) ==> x in keys
    ensures required.Some? ==> Subsequence(Available(required, keys), required.value)
    ensures required.Some? ==> forall x :: x in required.value && x in keys ==> x in Available(required, keys)
  {
    if required.Some? {
      forall x ensures x in Available(required, keys) <==> x in required.value && x in keys {
        FilterMembers(required.value, keys, InCatalog, x);
      }
      FilterSubsequence(required.value, keys, InCatalog);
    }
  }

  method InitAutoQueries(required: Option<seq<string>>, keys: seq<string>) returns (aqs: seq<string>)
    ensures aqs == Available(required, keys)
  {
    if required.None? {
      return keys;
    }
    var req := required.value;
    aqs := [];
    for i := 0 to |req|
      invariant aqs == Filter(req[..i], keys, InCatalog)
    {
      FilterSnoc(req, i, keys, InCatalog);
      if req[i] !in keys {
        continue;  // 'Warning: the query is not available'
      }
      aqs := aqs + [req[i]];
    }
    assert req[..|req|] == req;
  }

  // ---------------------------------------------------------------------------
  // lexical_filtering

  /** Some `'_'`-part of the result, lower-cased, is one of the question words. */
  predicate Matches(words: seq<string>, result: string)
  {
    exists k :: 0 <= k < |SplitChar(result, '_')| && Lower(SplitChar(result, '_')[k]) in words
  }

  /** The loop of lexical_filtering once the question has been cut into words. */
  method LexicalKeep(results: seq<string>, words: seq<string>) returns (filtered: seq<string>)
    ensures filtered == Filter(results, words, Matches)
  {
    filtered := [];
    for i := 0 to |results|
      invariant filtered == Filter(results[..i], words, Matches)
    {
      FilterSnoc(results, i, words, Matches);
      var parts := SplitChar(results[i], '_');
      var any := false;
      for k := 0 to |parts|
        invariant any <==> exists j :: 0 <= j < k && Lower(parts[j]) in words
      {
        if Lower(parts[k]) in words {
          any := true;
        }
      }
      if any {
        filtered := filtered + [results[i]];
      }
    }
    assert results[..|results|] == results;
  }

  /** Exactly the matching results are kept, in their input order. */
  lemma LexicalKeepSpec(results: seq<string>, words: seq<string>)
    ensures forall r :: r in Filter(results, words, Matches) <==> r in results && Matches(words, r)
    ensures Subsequence(Filter(results, words, Matches), results)
  {
    forall r ensures r in Filter(results, words, Matches) <==> r in results && Matches(words, r) {
      FilterMembers(results, words, Matches, r);
    }
    FilterSubsequence(results, words, Matches);
  }
}
