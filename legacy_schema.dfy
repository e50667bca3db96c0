/**
 * What the retrievers of versions 4 to 7 do with their catalogs: the catalog entry, the
 * rendering of a stored response under its entry (write_schema / prepare_schema), top-k
 * dense filtering without a threshold, and the two passes over the required entries that
 * fill the full schema and cut it down for a question.
 */
module LegacySchema {
  import opened Wrappers
  import opened Text
  import opened Values
  import opened Dense
  import opened LegacyData
  import opened LegacyQueries
  import Ranking

  /** The `results` key of a catalog entry: how the stored response is written. */
  datatype Format = ListFormat | ListOfDictFormat | GroupFormat | OtherFormat(name: string)

  /**
   * A catalog entry: the executor with the parameters its tuple binds, then the
   * results, heading, text and filtering keys.
   */
  datatype Entry = Entry(query: Query, args: seq<Arg>, results: Format, heading: Option<string>,
                         text: Option<string>, filter: Option<string>)

  /** How a `dict > group` response is written: the template's separator, and whether groups are sorted. */
  datatype GroupStyle = GroupStyle(sep: char, sorted: bool)

  /** The heading of an entry, or its name when the entry has none. */
  function Heading(e: Entry, name: string): string
  {
    match e.heading case Some(h) => h case None => name
  }

  /** What write_list / print_list give for the elements of a response: one `- ` line per non-system element. */
  function ListText(xs: seq<Item>, sys: seq<string>, order: Listing): string
  {
    Bullets("- ", Filter(Shown(xs, order), Exclusion(sys, true), Printed))
  }

  /** `list(s)` of a text: its characters, one string each. */
  function Chars(s: string): (r: seq<string>)
    ensures |r| == |s| && forall i :: 0 <= i < |s| ==> r[i] == [s[i]]
  {
    seq(|s|, i requires 0 <= i < |s| => [s[i]])
  }

  function CharGroups(es: seq<(string, string)>): (r: Dict<Group>)
    ensures |r| == |es| && forall i :: 0 <= i < |es| ==> r[i] == (es[i].0, ListGroup(Chars(es[i].1)))
  {
    seq(|es|, i requires 0 <= i < |es| => (es[i].0, ListGroup(Chars(es[i].1))))
  }

  /**
   * `res_dict` seen as a dict of groups: a label -> group dict as it is; a property dict,
   * whose values `list()` cuts into characters; anything else has no `keys()`.
   */
  function AsGroups(it: Item): Option<Dict<Group>>
  {
    match it
    case GroupsItem(d, _) => Some(d)
    case DictItem(es) => Some(CharGroups(es))
    case _ => None
  }

  /**
   * The text written for a stored response under its entry's results key. A `list`
   * iterates over the response (a cursor cannot be iterated); `dict > group` reads
   * `response[0]`, splits the text template (None has no `split`) and returns "" for a
   * template without the separator before it touches the dict.
   */
  function Rendering(e: Entry, response: Response, style: GroupStyle, sys: seq<string>, order: Listing): Result<string>
  {
    match e.results
    case ListFormat =>
      (match Elements(response)
       case Fail(err) => Fail(err)
       case Ok(xs) => Ok(ListText(xs, sys, order)))
    case ListOfDictFormat =>
      (match Elements(response)
       case Fail(err) => Fail(err)
       case Ok(xs) => Ok("\n**WIP**" + ListText(xs, sys, order) + "\n**WIP**"))
    case GroupFormat =>
      (match Head(response)
       case Fail(err) => Fail(err)
       case Ok(first) =>
         match e.text
         case None => Fail(AttributeError)
         case Some(t) =>
           if |SplitChar(t, style.sep)| < 2 then Ok("")
           else
             match AsGroups(first)
             case None => Fail(AttributeError)
             case Some(d) => Ok(GroupText(d, t, style.sep, sys, order, style.sorted)))
    case OtherFormat(_) => Ok("\n" + ShowResponse(response, order))
  }

  /** `list > dict` writes exactly the `list` text, between two `**WIP**` markers. */
  lemma RenderingWip(e: Entry, response: Response, style: GroupStyle, sys: seq<string>, order: Listing)
    requires e.results == ListOfDictFormat
    ensures var asList := Rendering(e.(results := ListFormat), response, style, sys, order);
      var r := Rendering(e, response, style, sys, order);
      (r.Ok? <==> asList.Ok?) &&
      (r.Ok? ==> r.value == "\n**WIP**" + asList.value + "\n**WIP**") &&
      (r.Fail? ==> r.error == asList.error)
  {
  }

  /**
   * A `dict > group` entry writes the group dict at the head of the response with the
   * entry's template: nothing when the template lacks the separator, otherwise one line
   * per non-system key.
   */
  lemma RenderingGroups(e: Entry, d: Dict<Group>, isDefault: bool, rest: seq<Item>, t: string,
                        style: GroupStyle, sys: seq<string>, order: Listing)
    requires e.results == GroupFormat && e.text == Some(t)
    ensures var r := Rendering(e, Items([GroupsItem(d, isDefault)] + rest), style, sys, order);
      r.Ok? && (style.sep !in t ==> r.value == "") &&
      (style.sep in t ==> (|SplitChar(t, style.sep)| >= 2 &&
                           r.value == GroupLines(Filter(d, sys, KeyListed), SplitChar(t, style.sep), order, style.sorted)))
  {
    GroupTextTemplate(d, t, style.sep, sys, order, style.sorted);
  }

  /** A blank line, the heading, then the rendering; a name the catalog lacks is a KeyError. */
  function Section(catalog: Dict<Entry>, name: string, response: Response, style: GroupStyle,
                   sys: seq<string>, order: Listing): Result<string>
  {
    match Get(catalog, name)
    case None => Fail(KeyError)
    case Some(e) =>
      match Rendering(e, response, style, sys, order)
      case Fail(err) => Fail(err)
      case Ok(text) => Ok("\n\n" + Heading(e, name) + text)
  }

  function Start(intro: Option<string>, default: string): string
  {
    match intro case None => default case Some(s) => s
  }

  const DefaultIntro: string := "\nHere's the database schema:"

  /** A start text followed by one section per dict entry, in order; the first exception stops the writing. */
  function Written<V>(start: string, section: (string, V) -> Result<string>, entries: Dict<V>): Result<string>
  {
    if |entries| == 0 then Ok(start)
    else
      var n := |entries| - 1;
      match Written(start, section, entries[..n])
      case Fail(err) => Fail(err)
      case Ok(text) =>
        match section(entries[n].0, entries[n].1)
        case Fail(err) => Fail(err)
        case Ok(sec) => Ok(text + sec)
  }

  /** A written text starts with the start text. */
  lemma {:induction false} WrittenStart<V>(start: string, section: (string, V) -> Result<string>, entries: Dict<V>)
    ensures var t := Written(start, section, entries);
      t.Ok? ==> |start| <= |t.value| && t.value[..|start|] == start
  {
    if |entries| > 0 {
      var n := |entries| - 1;
      WrittenStart(start, section, entries[..n]);
      var t := Written(start, section, entries);
      if t.Ok? {
        var prefix := Written(start, section, entries[..n]).value;
        assert t.value == prefix + section(entries[n].0, entries[n].1).value;
        assert t.value[..|start|] == prefix[..|start|];
      }
    }
  }

  /** The text is written exactly when every section can be written. */
  lemma {:induction false} WrittenOk<V>(start: string, section: (string, V) -> Result<string>, entries: Dict<V>)
    ensures Written(start, section, entries).Ok? <==>
      forall i :: 0 <= i < |entries| ==> section(entries[i].0, entries[i].1).Ok?
  {
    if |entries| > 0 {
      var n := |entries| - 1;
      WrittenOk(start, section, entries[..n]);
      assert forall i :: 0 <= i < n ==> entries[..n][i] == entries[i];
    }
  }

  /** One step of a writing loop. */
  lemma WrittenSnoc<V>(start: string, section: (string, V) -> Result<string>, entries: Dict<V>, i: nat)
    requires i < |entries| && Written(start, section, entries[..i]).Ok?
    ensures var sec := section(entries[i].0, entries[i].1);
      Written(start, section, entries[..i + 1]) ==
        if sec.Fail? then Fail(sec.error) else Ok(Written(start, section, entries[..i]).value + sec.value)
  {
    assert entries[..i + 1][..i] == entries[..i];
  }

  lemma {:induction false} WrittenFailSticks<V>(start: string, section: (string, V) -> Result<string>, entries: Dict<V>, k: nat)
    requires k <= |entries| && Written(start, section, entries[..k]).Fail?
    ensures Written(start, section, entries) == Written(start, section, entries[..k])
    decreases |entries|
  {
    if k < |entries| {
      var init := entries[..|entries| - 1];
      assert init[..k] == entries[..k];
      WrittenFailSticks(start, section, init, k);
    } else {
      assert entries[..k] == entries;
    }
  }

  /** The text write_schema builds from the chosen schema, key after key. */
  function Transcript(catalog: Dict<Entry>, chosen: Dict<Response>, intro: Option<string>, style: GroupStyle,
                      sys: seq<string>, order: Listing): Result<string>
  {
    Written(Start(intro, DefaultIntro), (name, response) => Section(catalog, name, response, style, sys, order), chosen)
  }

  /**
   * A written schema starts with the intro (or the default one), and it is written
   * exactly when every key is catalogued and its section can be written.
   */
  lemma TranscriptSpec(catalog: Dict<Entry>, chosen: Dict<Response>, intro: Option<string>, style: GroupStyle,
                       sys: seq<string>, order: Listing)
    ensures var t := Transcript(catalog, chosen, intro, style, sys, order);
      var start := Start(intro, DefaultIntro);
      t.Ok? ==> |start| <= |t.value| && t.value[..|start|] == start
    ensures Transcript(catalog, chosen, intro, style, sys, order).Ok? <==>
      forall i :: 0 <= i < |chosen| ==> Section(catalog, chosen[i].0, chosen[i].1, style, sys, order).Ok?
    ensures Transcript(catalog, chosen, intro, style, sys, order).Fail? <==>
      exists i :: 0 <= i < |chosen| && Section(catalog, chosen[i].0, chosen[i].1, style, sys, order).Fail?
  {
    var sec := (name, response) => Section(catalog, name, response, style, sys, order);
    WrittenStart(Start(intro, DefaultIntro), sec, chosen);
    WrittenOk(Start(intro, DefaultIntro), sec, chosen);
  }

  /**
   * Every section starts with a blank line and the heading of its entry; it fails exactly
   * when the name is not catalogued or its results cannot be rendered.
   */
  lemma SectionSpec(catalog: Dict<Entry>, name: string, response: Response, style: GroupStyle,
                    sys: seq<string>, order: Listing)
    ensures Get(catalog, name).None? ==> Section(catalog, name, response, style, sys, order) == Fail(KeyError)
    ensures Section(catalog, name, response, style, sys, order).Fail? <==>
      Get(catalog, name).None? || Rendering(Get(catalog, name).value, response, style, sys, order).Fail?
    ensures var s := Section(catalog, name, response, style, sys, order);
      s.Ok? ==> var h := "\n\n" + Heading(Get(catalog, name).value, name);
        |h| <= |s.value| && s.value[..|h|] == h
  {
  }

  /** The loop of write_schema over the chosen schema. */
  method WriteTranscript(catalog: Dict<Entry>, chosen: Dict<Response>, intro: Option<string>, style: GroupStyle,
                         sys: seq<string>, order: Listing) returns (r: Result<string>)
    ensures r == Transcript(catalog, chosen, intro, style, sys, order)
  {
    var start := Start(intro, DefaultIntro);
    ghost var sec := (name, response) => Section(catalog, name, response, style, sys, order);
    var schema := start;
    for i := 0 to |chosen|
      invariant Written(start, sec, chosen[..i]) == Ok(schema)
    {
      WrittenSnoc(start, sec, chosen, i);
      var name := chosen[i].0;
      var entry := Get(catalog, name);
      if entry.None? {
        WrittenFailSticks(start, sec, chosen, i + 1);
        return Fail(KeyError);
      }
      var text := Render(entry.value, chosen[i].1, style, sys, order);
      if text.Fail? {
        WrittenFailSticks(start, sec, chosen, i + 1);
        return Fail(text.error);
      }
      schema := schema + ("\n\n" + Heading(entry.value, name) + text.value);
    }
    assert chosen[..|chosen|] == chosen;
    r := Ok(schema);
  }

  /** The result printing of one entry, with the writers' own loops. */
  method Render(e: Entry, response: Response, style: GroupStyle, sys: seq<string>, order: Listing)
    returns (r: Result<string>)
    ensures r == Rendering(e, response, style, sys, order)
  {
    match e.results
    case ListFormat =>
      var xs := Elements(response);
      if xs.Fail? {
        return Fail(xs.error);
      }
      var text := PrintList(xs.value, "- ", "", Exclusion(sys, true), order);
      assert "" + ListText(xs.value, sys, order) == ListText(xs.value, sys, order);
      r := Ok(text);
    case ListOfDictFormat =>
      var xs := Elements(response);
      if xs.Fail? {
        return Fail(xs.error);
      }
      var text := PrintList(xs.value, "- ", "", Exclusion(sys, true), order);
      assert "" + ListText(xs.value, sys, order) == ListText(xs.value, sys, order);
      r := Ok("\n**WIP**" + text + "\n**WIP**");
    case GroupFormat =>
      var first := Head(response);
      if first.Fail? {
        return Fail(first.error);
      }
      if e.text.None? {
        return Fail(AttributeError);  // None.split
      }
      var t := e.text.value;
      if |SplitChar(t, style.sep)| < 2 {
        return Ok("");  // 'ERROR: missing heads in dictionary'
      }
      var groups := AsGroups(first.value);
      if groups.None? {
        return Fail(AttributeError);  // no keys()
      }
      var text := WriteDictOfGroup(groups.value, t, style.sep, sys, order, style.sorted);
      r := Ok(text);
    case OtherFormat(_) =>
      r := Ok("\n" + ShowResponse(response, order));
  }

  // ---------------------------------------------------------------------------
  // dense_filtering without a threshold (versions 5 and 6)

  /** The top `k_lim` elements of a response by similarity; a cursor cannot be iterated. */
  function DenseKept(results: Response, score: Item -> real, kLim: int): Result<seq<Item>>
  {
    match Elements(results)
    case Fail(err) => Fail(err)
    case Ok(xs) => Ok(TopK(xs, score, kLim))
  }

  /**
   * Dense filtering keeps the best-scored elements of the response, in descending order
   * of score: `k_lim` of them (or all when fewer), every one when `k_lim <= 0`.
   */
  lemma DenseKeptSpec(results: Response, score: Item -> real, kLim: int)
    ensures results.Cursor? <==> DenseKept(results, score, kLim).Fail?
    ensures results.EmptyDict? ==> DenseKept(results, score, kLim) == Ok([])
    ensures results.Items? ==>
      var r := DenseKept(results, score, kLim).value;
      var ranked := Ranked(results.items, score);
      r == Unscored(ranked)[..|r|] &&
      (kLim >= 1 ==> |r| == if kLim < |results.items| then kLim else |results.items|) &&
      (kLim <= 0 ==> |r| == |results.items|) &&
      forall i, j :: 0 <= i < |r| <= j < |ranked| ==> ranked[j].score <= score(r[i])
  {
    if results.Items? {
      TopKSpec(results.items, score, kLim);
    } else if results.EmptyDict? {
      assert Ranked<Item>([], score) == [];
    }
  }

  /** The loop of dense_filtering: score each element, sort, keep until `k_lim` are kept. */
  method DenseTopK(results: Response, score: Item -> real, kLim: int) returns (r: Result<seq<Item>>)
    ensures r == DenseKept(results, score, kLim)
  {
    var xs := Elements(results);
    if xs.Fail? {
      return Fail(xs.error);
    }
    var items := xs.value;
    var resList: seq<Scored<Item>> := [];
    for i := 0 to |items|
      invariant resList == ScoredBy(items[..i], score)
    {
      resList := resList + [Scored(items[i], score(items[i]))];
    }
    assert items[..|items|] == items;
    resList := Ranking.SortDesc(resList, ScoreOf);
    var outList := ScanTopK(resList, kLim);
    r := Ok(outList);
  }

  /** The scan of dense_filtering: append, and break once `k_lim` items are kept. */
  method ScanTopK<T>(resList: seq<Scored<T>>, kLim: int) returns (outList: seq<T>)
    ensures outList == Unscored(TakeUpTo(resList, kLim))
  {
    outList := [];
    var i := 0;
    while i < |resList|
      invariant i <= |resList|
      invariant outList == Unscored(resList[..i])
      invariant kLim >= 1 ==> i < kLim
    {
      outList := outList + [resList[i].item];
      i := i + 1;
      assert Unscored(resList[..i]) == Unscored(resList[..i - 1]) + [resList[i - 1].item];
      if |outList| == kLim {
        assert TakeUpTo(resList, kLim) == resList[..i];
        return;
      }
    }
    assert resList[..i] == resList;
  }

  // ---------------------------------------------------------------------------
  // Reading the full schema, a `defaultdict(list)`.

  /** What `full_schema[name]` reads: the stored response, or the empty list of a missing key. */
  function ReadOf(d: Dict<Response>, k: string): Response
  {
    match Get(d, k) case Some(v) => v case None => Items([])
  }

  lemma {:induction false} GetAppend<V>(d: Dict<V>, k: string, v: V, n: string)
    ensures Get(d + [(k, v)], n) == if n in Keys(d) then Get(d, n) else if n == k then Some(v) else None
  {
    if |d| > 0 {
      assert (d + [(k, v)])[1..] == d[1..] + [(k, v)];
      assert Keys(d) == [d[0].0] + Keys(d[1..]);
      GetAppend(d[1..], k, v, n);
    }
  }

  /** A read inserts at most an empty entry at the end, and changes what no key reads. */
  lemma TouchRead(d: Dict<Response>, k: string, n: string)
    ensures ReadOf(Touch(d, k).0, n) == ReadOf(d, n)
    ensures Touch(d, k).1 == ReadOf(d, k)
    ensures |Touch(d, k).0| >= |d| && Touch(d, k).0[..|d|] == d
    ensures forall i :: |d| <= i < |Touch(d, k).0| ==> Touch(d, k).0[i].1 == Items([])
  {
    if Get(d, k).None? {
      GetAppend(d, k, Items([]), n);
      assert (d + [(k, Items([]))])[..|d|] == d;
    }
  }

  // ---------------------------------------------------------------------------
  // init_full_schema / init_global_schema

  /** The full schema after the init pass, and the exception that stopped it, if any. */
  datatype Loaded = Loaded(full: Dict<Response>, crashed: Option<PyError>)

  /**
   * The init pass: for each required name, `run` says whether the entry is executed
   * (None: skipped) and what the execution gives; the first exception stops the pass,
   * keeping what was stored before it.
   */
  function InitPass(run: string -> Option<Result<Response>>, full: Dict<Response>, names: seq<string>): Loaded
  {
    if |names| == 0 then Loaded(full, None)
    else
      var prev := InitPass(run, full, names[..|names| - 1]);
      if prev.crashed.Some? then prev else InitStep(run, prev.full, names[|names| - 1])
  }

  function InitStep(run: string -> Option<Result<Response>>, full: Dict<Response>, name: string): Loaded
  {
    match run(name)
    case None => Loaded(full, None)
    case Some(Fail(e)) => Loaded(full, Some(e))
    case Some(Ok(x)) => Loaded(Put(full, name, x), None)
  }

  /** The entry of `name` was skipped or executed without an exception. */
  predicate Ran(run: string -> Option<Result<Response>>, name: string)
  {
    run(name).None? || run(name).value.Ok?
  }

  /**
   * A pass that completes stores the result of every executed required name and leaves
   * every other key, skipped names included, as it was.
   */
  lemma {:induction false} InitPassDone(run: string -> Option<Result<Response>>, full: Dict<Response>, names: seq<string>)
    ensures var p := InitPass(run, full, names);
      p.crashed.None? ==> forall n :: n in names && run(n).Some? ==> (run(n).value.Ok? && Get(p.full, n) == Some(run(n).value.value))
    ensures var p := InitPass(run, full, names);
      p.crashed.None? ==> forall n :: !(n in names && run(n).Some?) ==> Get(p.full, n) == Get(full, n)
  {
    if |names| > 0 {
      var n := |names| - 1;
      var init := names[..n];
      var name := names[n];
      InitPassDone(run, full, init);
      var prev := InitPass(run, full, init);
      var p := InitPass(run, full, names);
      if p.crashed.None? {
        assert prev.crashed.None?;
        assert names == init + [name];
        forall m ensures Get(p.full, m) == if run(name).Some? && m == name then Some(run(name).value.value) else Get(prev.full, m) {
          if run(name).Some? {
            GetPut(prev.full, name, run(name).value.value, m);
          }
        }
      }
    }
  }

  /**
   * A pass that stops reports the exception of the first required name whose execution
   * raised; one that completes raised nowhere.
   */
  lemma {:induction false} InitPassCrash(run: string -> Option<Result<Response>>, full: Dict<Response>, names: seq<string>)
    ensures var p := InitPass(run, full, names);
      p.crashed.Some? ==> (exists i :: 0 <= i < |names| && run(names[i]) == Some(Fail(p.crashed.value)) &&
                                   forall j :: 0 <= j < i ==> Ran(run, names[j]))
    ensures InitPass(run, full, names).crashed.None? ==> forall i :: 0 <= i < |names| ==> Ran(run, names[i])
  {
    if |names| > 0 {
      var n := |names| - 1;
      var init := names[..n];
      InitPassCrash(run, full, init);
      var prev := InitPass(run, full, init);
      var p := InitPass(run, full, names);
      if prev.crashed.Some? {
        var i :| 0 <= i < n && run(init[i]) == Some(Fail(prev.crashed.value)) && forall j :: 0 <= j < i ==> Ran(run, init[j]);
        assert names[i] == init[i];
        forall j | 0 <= j < i ensures Ran(run, names[j]) {
          assert names[j] == init[j];
        }
      } else {
        forall j | 0 <= j < n ensures Ran(run, names[j]) {
          assert names[j] == init[j];
        }
      }
    }
  }

  /** One step of the init loop. */
  lemma InitPassSnoc(run: string -> Option<Result<Response>>, full: Dict<Response>, names: seq<string>, i: nat)
    requires i < |names| && InitPass(run, full, names[..i]).crashed.None?
    ensures InitPass(run, full, names[..i + 1]) == InitStep(run, InitPass(run, full, names[..i]).full, names[i])
  {
    assert names[..i + 1][..i] == names[..i];
  }

  lemma {:induction false} InitPassCrashSticks(run: string -> Option<Result<Response>>, full: Dict<Response>, names: seq<string>, k: nat)
    requires k <= |names| && InitPass(run, full, names[..k]).crashed.Some?
    ensures InitPass(run, full, names) == InitPass(run, full, names[..k])
    decreases |names|
  {
    if k < |names| {
      var init := names[..|names| - 1];
      assert init[..k] == names[..k];
      InitPassCrashSticks(run, full, init, k);
    } else {
      assert names[..k] == names;
    }
  }

  // ---------------------------------------------------------------------------
  // filter_schema

  /** The full schema (with the reads' insertions), the filtered dict, and the exception that stopped the pass. */
  datatype Pass = Pass(full: Dict<Response>, filtered: Dict<Response>, crashed: Option<PyError>)

  /**
   * The filter pass. For each required name, `direct` gives the value of an entry computed
   * without reading the full schema (a catalog miss, an execution); otherwise the stored
   * response is read, with defaultdict insertion, and `keep` filters it. Entries go into a
   * fresh dict; the first exception stops the pass.
   */
  function FilterPass(direct: string -> Option<Result<Response>>, keep: (string, Response) -> Result<Response>,
                      full: Dict<Response>, names: seq<string>): Pass
  {
    if |names| == 0 then Pass(full, [], None)
    else
      var prev := FilterPass(direct, keep, full, names[..|names| - 1]);
      if prev.crashed.Some? then prev else FilterStep(direct, keep, prev, names[|names| - 1])
  }

  function FilterStep(direct: string -> Option<Result<Response>>, keep: (string, Response) -> Result<Response>,
                      p: Pass, name: string): Pass
  {
    match direct(name)
    case Some(Fail(e)) => Pass(p.full, p.filtered, Some(e))
    case Some(Ok(x)) => Pass(p.full, Put(p.filtered, name, x), None)
    case None =>
      var t := Touch(p.full, name);
      match keep(name, t.1)
      case Fail(e) => Pass(t.0, p.filtered, Some(e))
      case Ok(x) => Pass(t.0, Put(p.filtered, name, x), None)
  }

  /** What the pass stores for one name, computed from the full schema it started from. */
  function Outcome(direct: string -> Option<Result<Response>>, keep: (string, Response) -> Result<Response>,
                   full: Dict<Response>, name: string): Result<Response>
  {
    match direct(name)
    case Some(out) => out
    case None => keep(name, ReadOf(full, name))
  }

  /**
   * The filter pass only appends empty entries to the full schema (the defaultdict
   * reads), so it never changes what a key reads there.
   */
  lemma {:induction false} FilterPassFull(direct: string -> Option<Result<Response>>, keep: (string, Response) -> Result<Response>,
                                          full: Dict<Response>, names: seq<string>)
    ensures var p := FilterPass(direct, keep, full, names);
      |p.full| >= |full| && p.full[..|full|] == full &&
      (forall i :: |full| <= i < |p.full| ==> p.full[i].1 == Items([])) &&
      forall n :: ReadOf(p.full, n) == ReadOf(full, n)
  {
    if |names| > 0 {
      var n := |names| - 1;
      FilterPassFull(direct, keep, full, names[..n]);
      var prev := FilterPass(direct, keep, full, names[..n]);
      if prev.crashed.None? {
        FilterStepSpec(direct, keep, full, prev, names[n]);
      }
    }
  }

  /**
   * A pass that completes gives a dict whose keys are exactly the required names, each
   * holding the outcome computed from the full schema the pass started from.
   */
  lemma {:induction false} FilterPassDone(direct: string -> Option<Result<Response>>, keep: (string, Response) -> Result<Response>,
                                          full: Dict<Response>, names: seq<string>)
    ensures var p := FilterPass(direct, keep, full, names);
      p.crashed.None? ==> forall n :: n in Keys(p.filtered) <==> n in names
    ensures var p := FilterPass(direct, keep, full, names);
      p.crashed.None? ==> forall n :: n in names ==>
        (Outcome(direct, keep, full, n).Ok? && Get(p.filtered, n) == Some(Outcome(direct, keep, full, n).value))
  {
    if |names| > 0 {
      var n := |names| - 1;
      var init := names[..n];
      FilterPassDone(direct, keep, full, init);
      FilterPassFull(direct, keep, full, init);
      var prev := FilterPass(direct, keep, full, init);
      var p := FilterPass(direct, keep, full, names);
      if p.crashed.None? {
        FilterStepSpec(direct, keep, full, prev, names[n]);
        assert names == init + [names[n]];
        forall m | m in names
          ensures Outcome(direct, keep, full, m).Ok? && Get(p.filtered, m) == Some(Outcome(direct, keep, full, m).value)
        {
          GetPut(prev.filtered, names[n], Outcome(direct, keep, full, names[n]).value, m);
        }
      }
    }
  }

  /** A pass that stops reports the error of the first required name whose outcome is an exception. */
  lemma FilterPassCrash(direct: string -> Option<Result<Response>>, keep: (string, Response) -> Result<Response>,
                        full: Dict<Response>, names: seq<string>)
    ensures var p := FilterPass(direct, keep, full, names);
      p.crashed.Some? ==> (exists i :: 0 <= i < |names| && Outcome(direct, keep, full, names[i]) == Fail(p.crashed.value) &&
                                   forall j :: 0 <= j < i ==> Outcome(direct, keep, full, names[j]).Ok?)
    ensures var p := FilterPass(direct, keep, full, names);
      p.crashed.None? ==> forall i :: 0 <= i < |names| ==> Outcome(direct, keep, full, names[i]).Ok?
  {
    FilterPassFirstCrash(direct, keep, full, names);
    FilterPassAllOk(direct, keep, full, names);
  }

  /** A pass that completes found every outcome to be a value. */
  lemma {:induction false} FilterPassAllOk(direct: string -> Option<Result<Response>>, keep: (string, Response) -> Result<Response>,
                                           full: Dict<Response>, names: seq<string>)
    ensures FilterPass(direct, keep, full, names).crashed.None? ==>
      forall i :: 0 <= i < |names| ==> Outcome(direct, keep, full, names[i]).Ok?
  {
    if |names| > 0 {
      var n := |names| - 1;
      var init := names[..n];
      FilterPassAllOk(direct, keep, full, init);
      var prev := FilterPass(direct, keep, full, init);
      var p := FilterStep(direct, keep, prev, names[n]);
      if prev.crashed.None? && p.crashed.None? {
        assert FilterPass(direct, keep, full, names) == p;
        assert Outcome(direct, keep, full, names[n]).Ok? by {
          FilterPassFull(direct, keep, full, init);
          StepOutcome(direct, keep, full, prev, names[n]);
        }
        ForallSnoc(names, init, m => Outcome(direct, keep, full, m).Ok?);
      }
    }
  }

  /** A step whose read agrees with the full schema succeeds exactly when the outcome is a value. */
  lemma StepOutcome(direct: string -> Option<Result<Response>>, keep: (string, Response) -> Result<Response>,
                    full: Dict<Response>, prev: Pass, name: string)
    requires ReadOf(prev.full, name) == ReadOf(full, name)
    ensures FilterStep(direct, keep, prev, name).crashed.None? <==> Outcome(direct, keep, full, name).Ok?
  {
    TouchRead(prev.full, name, name);
  }

  /** A pass that stops does so at a name whose outcome is its error, after names whose outcomes are values. */
  lemma {:induction false} FilterPassFirstCrash(direct: string -> Option<Result<Response>>, keep: (string, Response) -> Result<Response>,
                                                full: Dict<Response>, names: seq<string>)
    ensures var p := FilterPass(direct, keep, full, names);
      p.crashed.Some? ==> (exists i :: 0 <= i < |names| && Outcome(direct, keep, full, names[i]) == Fail(p.crashed.value) &&
                                   forall j :: 0 <= j < i ==> Outcome(direct, keep, full, names[j]).Ok?)
  {
    if |names| > 0 {
      var n := |names| - 1;
      var init := names[..n];
      var prev := FilterPass(direct, keep, full, init);
      if prev.crashed.Some? {
        FilterPassFirstCrash(direct, keep, full, init);
        var i :| 0 <= i < n && Outcome(direct, keep, full, init[i]) == Fail(prev.crashed.value) &&
          forall j :: 0 <= j < i ==> Outcome(direct, keep, full, init[j]).Ok?;
        assert names[i] == init[i];
        forall j | 0 <= j < i ensures Outcome(direct, keep, full, names[j]).Ok? {
          assert names[j] == init[j];
        }
      } else {
        FilterPassAllOk(direct, keep, full, init);
        FilterPassFull(direct, keep, full, init);
        FilterStepSpec(direct, keep, full, prev, names[n]);
        forall j | 0 <= j < n ensures Outcome(direct, keep, full, names[j]).Ok? {
          assert names[j] == init[j];
        }
      }
    }
  }

  /** One step, seen from the full schema the pass started from. */
  lemma FilterStepSpec(direct: string -> Option<Result<Response>>, keep: (string, Response) -> Result<Response>,
                       full: Dict<Response>, prev: Pass, name: string)
    requires forall n :: ReadOf(prev.full, n) == ReadOf(full, n)
    requires |prev.full| >= |full| && prev.full[..|full|] == full
    requires forall i :: |full| <= i < |prev.full| ==> prev.full[i].1 == Items([])
    ensures var p := FilterStep(direct, keep, prev, name);
      |p.full| >= |full| && p.full[..|full|] == full &&
      (forall i :: |full| <= i < |p.full| ==> p.full[i].1 == Items([])) &&
      (forall n :: ReadOf(p.full, n) == ReadOf(full, n)) &&
      (p.crashed.None? <==> Outcome(direct, keep, full, name).Ok?) &&
      (p.crashed.Some? ==> Outcome(direct, keep, full, name) == Fail(p.crashed.value)) &&
      (p.crashed.None? ==> p.filtered == Put(prev.filtered, name, Outcome(direct, keep, full, name).value))
  {
    var t := Touch(prev.full, name);
    forall n ensures ReadOf(t.0, n) == ReadOf(full, n) {
      TouchRead(prev.full, name, n);
    }
    TouchRead(prev.full, name, name);
    assert t.0[..|full|] == prev.full[..|full|];
  }

  /** One step of the filter loop. */
  lemma FilterPassSnoc(direct: string -> Option<Result<Response>>, keep: (string, Response) -> Result<Response>,
                       full: Dict<Response>, names: seq<string>, i: nat)
    requires i < |names| && FilterPass(direct, keep, full, names[..i]).crashed.None?
    ensures FilterPass(direct, keep, full, names[..i + 1]) == FilterStep(direct, keep, FilterPass(direct, keep, full, names[..i]), names[i])
  {
    assert names[..i + 1][..i] == names[..i];
  }

  lemma {:induction false} FilterPassCrashSticks(direct: string -> Option<Result<Response>>, keep: (string, Response) -> Result<Response>,
                                                 full: Dict<Response>, names: seq<string>, k: nat)
    requires k <= |names| && FilterPass(direct, keep, full, names[..k]).crashed.Some?
    ensures FilterPass(direct, keep, full, names) == FilterPass(direct, keep, full, names[..k])
    decreases |names|
  {
    if k < |names| {
      var init := names[..|names| - 1];
      assert init[..k] == names[..k];
      FilterPassCrashSticks(direct, keep, full, init, k);
    } else {
      assert names[..k] == names;
    }
  }
}
