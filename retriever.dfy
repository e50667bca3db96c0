/**
 * The reference retriever: it runs the required auto-queries once to build the full
 * schema (with embeddings), cuts it down per question, and writes the chosen schema
 * as prompt text.
 */
module Retriever {
  import opened Wrappers
  import opened Text
  import opened Values
  import opened Dense
  import opened AutoQueries
  import opened Embedding

  // ---------------------------------------------------------------------------
  // write_list

  /** The line write_list adds for one element: a newline, the item prefix, then the element. */
  function Line(item: string, v: Value): string
  {
    "\n" + item + Show(v)
  }

  /** An element is written when its lowercase text is not a system label. */
  predicate Listed(sys: seq<string>, v: Value) { Lower(Show(v)) !in sys }

  /** `message` after the loop of write_list has read `results`; `pair[0]` may raise. */
  function WriteListText(results: seq<Elem>, item: string, head: string, sys: seq<string>): Result<string>
  {
    if |results| == 0 then Ok(head)
    else
      match WriteListText(results[..|results| - 1], item, head, sys)
      case Fail(e) => Fail(e)
      case Ok(message) =>
        match First(results[|results| - 1])
        case Fail(e) => Fail(e)
        case Ok(v) => Ok(if Listed(sys, v) then message + Line(item, v) else message)
  }

  /** One line per value, in order. */
  function Lines(item: string, vs: seq<Value>): string
  {
    if |vs| == 0 then "" else Lines(item, vs[..|vs| - 1]) + Line(item, vs[|vs| - 1])
  }

  /**
   * On embedded pairs write_list never fails: it gives `head` and then one line per
   * object whose lowercase text is not a system label, in input order.
   */
  lemma {:induction false} WriteListOfPairs(pairs: seq<Pair>, item: string, head: string, sys: seq<string>)
    ensures WriteListText(Embed(pairs), item, head, sys) == Ok(head + Lines(item, Filter(Objects(pairs), sys, Listed)))
  {
    if |pairs| > 0 {
      var n := |pairs| - 1;
      var es := Embed(pairs);
      var objs := Objects(pairs);
      assert es[..n] == Embed(pairs[..n]);
      assert objs[..n] == Objects(pairs[..n]);
      assert objs[..n + 1] == objs;
      WriteListOfPairs(pairs[..n], item, head, sys);
      var l := Lines(item, Filter(objs[..n], sys, Listed));
      var obj := pairs[n].obj;
      assert objs[n] == obj;
      assert WriteListText(es[..n], item, head, sys) == Ok(head + l);
      assert First(es[n]) == Ok(obj);
      var line := if Listed(sys, obj) then Line(item, obj) else "";
      WriteListTextSnoc(es, item, head, sys, head + l);
      LinesStep(objs, n, item, sys);
      assert Lines(item, Filter(objs, sys, Listed)) == l + line;
      ConcatAssoc(head, l, line);
    } else {
      assert head + "" == head;
    }
  }

  /** One more element read by write_list appends its line, when it is listed. */
  lemma WriteListTextSnoc(results: seq<Elem>, item: string, head: string, sys: seq<string>, message: string)
    requires |results| > 0 && First(results[|results| - 1]).Ok?
    requires WriteListText(results[..|results| - 1], item, head, sys) == Ok(message)
    ensures var v := First(results[|results| - 1]).value;
      WriteListText(results, item, head, sys) == Ok(message + if Listed(sys, v) then Line(item, v) else "")
  {
    var v := First(results[|results| - 1]).value;
    if !Listed(sys, v) {
      assert message + "" == message;
    }
  }

  lemma LinesStep(vs: seq<Value>, i: nat, item: string, sys: seq<string>)
    requires i < |vs|
    ensures Lines(item, Filter(vs[..i + 1], sys, Listed))
         == Lines(item, Filter(vs[..i], sys, Listed)) + (if Listed(sys, vs[i]) then Line(item, vs[i]) else "")
  {
    FilterSnoc(vs, i, sys, Listed);
    var kept := Filter(vs[..i], sys, Listed);
    if Listed(sys, vs[i]) {
      assert (kept + [vs[i]])[..|kept|] == kept;
    } else {
      assert kept + [] == kept;
    }
  }

  /** A bare dict in the list raises KeyError at `pair[0]`, unless an earlier element failed. */
  lemma WriteListDictFails(results: seq<Elem>, item: string, head: string, sys: seq<string>, d: seq<(string, string)>)
    requires WriteListText(results, item, head, sys).Ok?
    ensures WriteListText(results + [Raw(Props(d))], item, head, sys) == Fail(KeyError)
  {
    assert (results + [Raw(Props(d))])[..|results|] == results;
  }

  method WriteList(results: seq<Elem>, item: string, head: string, sys: seq<string>) returns (r: Result<string>)
    ensures r == WriteListText(results, item, head, sys)
  {
    var message := head;
    for i := 0 to |results|
      invariant WriteListText(results[..i], item, head, sys) == Ok(message)
    {
      assert results[..i + 1][..i] == results[..i];
      var pair0 := First(results[i]);
      if pair0.Fail? {
        FailurePersists(results, item, head, sys, i + 1);
        return Fail(pair0.error);
      }
      var element := Show(pair0.value);
      if Lower(element) !in sys {
        message := message + Line(item, pair0.value);
      }
    }
    assert results[..|results|] == results;
    r := Ok(message);
  }

  lemma {:induction false} FailurePersists(results: seq<Elem>, item: string, head: string, sys: seq<string>, k: nat)
    requires k <= |results| && WriteListText(results[..k], item, head, sys).Fail?
    ensures WriteListText(results, item, head, sys) == WriteListText(results[..k], item, head, sys)
    decreases |results|
  {
    if k < |results| {
      var init := results[..|results| - 1];
      assert init[..k] == results[..k];
      FailurePersists(init, item, head, sys, k);
    } else {
      assert results[..k] == results;
    }
  }

  // ---------------------------------------------------------------------------
  // write_list_of_dict

  /** A bare property dict whose JSON text, lowercased, is not a system label. */
  predicate DumpListed(sys: seq<string>, e: Elem)
  {
    e.Raw? && e.value.Props? && Lower(JsonDump(e.value.entries)) !in sys
  }

  /** The line write_list_of_dict adds for a dict: a newline and its JSON text; nothing for anything else. */
  function DumpLine(e: Elem): string
  {
    if e.Raw? && e.value.Props? then "\n" + JsonDump(e.value.entries) else ""
  }

  function DumpLines(es: seq<Elem>): string
  {
    if |es| == 0 then "" else DumpLines(es[..|es| - 1]) + DumpLine(es[|es| - 1])
  }

  /** Embedded pairs are tuples, not dicts: write_list_of_dict skips every one of them. */
  lemma PairsNeverDumped(pairs: seq<Pair>, sys: seq<string>)
    ensures Filter(Embed(pairs), sys, DumpListed) == []
  {
    if |Filter(Embed(pairs), sys, DumpListed)| > 0 {
      var x := Filter(Embed(pairs), sys, DumpListed)[0];
      FilterMembers(Embed(pairs), sys, DumpListed, x);
    }
  }

  /**
   * write_list_of_dict: `head`, then the JSON text of every element that is a dict and
   * whose lowercase JSON text is not a system label, in input order; anything else is skipped.
   */
  method WriteListOfDict(results: seq<Elem>, head: string, sys: seq<string>) returns (message: string)
    ensures message == head + DumpLines(Filter(results, sys, DumpListed))
  {
    message := head;
    assert results[..0] == [] && head + "" == head;
    for i := 0 to |results|
      invariant message == head + DumpLines(Filter(results[..i], sys, DumpListed))
    {
      DumpStep(results, i, sys);
      ghost var done := DumpLines(Filter(results[..i], sys, DumpListed));
      var x := results[i];
      if !(x.Raw? && x.value.Props?) {
        assert done + "" == done;
        continue;  // not a dict
      }
      if DumpListed(sys, x) {  // `json.dumps(dictionary).lower() not in sys_labels`
        ConcatAssoc(head, done, DumpLine(x));
        message := message + DumpLine(x);
      } else {
        assert done + "" == done;
      }
    }
    assert results[..|results|] == results;
  }

  lemma DumpStep(results: seq<Elem>, i: nat, sys: seq<string>)
    requires i < |results|
    ensures DumpLines(Filter(results[..i + 1], sys, DumpListed))
         == DumpLines(Filter(results[..i], sys, DumpListed)) + (if DumpListed(sys, results[i]) then DumpLine(results[i]) else "")
  {
    FilterSnoc(results, i, sys, DumpListed);
    var kept := Filter(results[..i], sys, DumpListed);
    if DumpListed(sys, results[i]) {
      assert (kept + [results[i]])[..|kept|] == kept;
    } else {
      assert kept + [] == kept;
    }
  }

  // ---------------------------------------------------------------------------
  // The environment, the phase table and launch_auto_query.

  /** What the retriever reaches through its clients: the graph, the embedder and the similarity. */
  datatype Env = Env(
    graph: Graph,
    sys: seq<string>,
    chance: Chance,
    embed: Value -> Emb,
    sim: (Emb, Emb) -> real)

  /** A configuration tuple `(name, mode, *args)`. */
  datatype AqTuple = AqTuple(name: string, mode: string, args: seq<Param>)

  /** `self.phases` */
  const Phases: Dict<seq<string>> := [("init", ["dense-klim", "dense-thresh", "dense-both"]), ("filter", ["launch"])]

  /**
   * launch_auto_query: `[]` for an unknown phase, for a mode the phase does not list, and
   * for any exception inside the `try` (an unknown name, a failing executor); otherwise the
   * executor's result on the arguments from index 2 on.
   */
  function Launched(env: Env, aq: AqTuple, phase: string): seq<Value>
  {
    match Get(Phases, phase)
    case None => []
    case Some(modes) =>
      if aq.mode !in modes then []
      else
        match Get(Catalog, aq.name)
        case None => []
        case Some(entry) =>
          match Executed(env.graph, env.sys, env.chance, entry.exec, aq.args)
          case Fail(_) => []
          case Ok(vs) => vs
  }

  /** A non-empty launch result comes from a catalogued executor run in a phase that lists the mode. */
  lemma LaunchedSpec(env: Env, aq: AqTuple, phase: string)
    ensures Launched(env, aq, phase) != [] ==>
      phase in Keys(Phases) && aq.mode in Get(Phases, phase).value &&
      Get(Catalog, aq.name).Some? &&
      Executed(env.graph, env.sys, env.chance, Get(Catalog, aq.name).value.exec, aq.args) == Ok(Launched(env, aq, phase))
    ensures phase == "init" ==> (aq.mode != "dense-klim" && aq.mode != "dense-thresh" && aq.mode != "dense-both" ==> Launched(env, aq, phase) == [])
    ensures phase == "filter" ==> (aq.mode != "launch" ==> Launched(env, aq, phase) == [])
    ensures phase != "init" && phase != "filter" ==> Launched(env, aq, phase) == []
  {
  }

  // ---------------------------------------------------------------------------
  // init_full_schema

  function Names(aqs: seq<AqTuple>): (r: seq<string>)
    ensures |r| == |aqs| && forall i :: 0 <= i < |aqs| ==> r[i] == aqs[i].name
  {
    seq(|aqs|, i requires 0 <= i < |aqs| => aqs[i].name)
  }

  /** What init_full_schema stores for one tuple: the embedding pairs of its init-phase result. */
  function InitStore(env: Env): AqTuple -> seq<Pair>
  {
    aq => Paired(Launched(env, aq, "init"), env.embed)
  }

  /** The dict after storing `store(aq)` under the name of each tuple in turn, starting from `full`. */
  function StoreAll(full: Dict<seq<Pair>>, aqs: seq<AqTuple>, store: AqTuple -> seq<Pair>): Dict<seq<Pair>>
  {
    if |aqs| == 0 then full
    else
      var aq := aqs[|aqs| - 1];
      Put(StoreAll(full, aqs[..|aqs| - 1], store), aq.name, store(aq))
  }

  /** The full schema after init_full_schema ran over `aqs`, starting from `full`. */
  function InitFold(env: Env, full: Dict<seq<Pair>>, aqs: seq<AqTuple>): Dict<seq<Pair>>
  {
    StoreAll(full, aqs, InitStore(env))
  }

  /** Every required name becomes a key and no other key is added. */
  lemma {:induction false} StoreAllKeys(full: Dict<seq<Pair>>, aqs: seq<AqTuple>, store: AqTuple -> seq<Pair>)
    ensures forall n :: n in Keys(StoreAll(full, aqs, store)) <==> n in Keys(full) || n in Names(aqs)
  {
    if |aqs| > 0 {
      var n := |aqs| - 1;
      StoreAllKeys(full, aqs[..n], store);
      assert Names(aqs) == Names(aqs[..n]) + [aqs[n].name];
    }
  }

  /** The last tuple stores its result under its name. */
  lemma StoreAllLast(full: Dict<seq<Pair>>, aqs: seq<AqTuple>, store: AqTuple -> seq<Pair>)
    requires |aqs| > 0
    ensures Get(StoreAll(full, aqs, store), aqs[|aqs| - 1].name) == Some(store(aqs[|aqs| - 1]))
  {
    var last := aqs[|aqs| - 1];
    GetPut(StoreAll(full, aqs[..|aqs| - 1], store), last.name, store(last), last.name);
  }

  /** The last tuple leaves the other names alone. */
  lemma StoreAllOther(full: Dict<seq<Pair>>, aqs: seq<AqTuple>, store: AqTuple -> seq<Pair>, k: string)
    requires |aqs| > 0 && k != aqs[|aqs| - 1].name
    ensures Get(StoreAll(full, aqs, store), k) == Get(StoreAll(full, aqs[..|aqs| - 1], store), k)
  {
    var last := aqs[|aqs| - 1];
    GetPut(StoreAll(full, aqs[..|aqs| - 1], store), last.name, store(last), k);
  }

  /** A name holds what was stored for its last tuple. */
  lemma {:induction false} StoreAllValue(full: Dict<seq<Pair>>, aqs: seq<AqTuple>, store: AqTuple -> seq<Pair>, i: nat)
    requires i < |aqs| && forall j :: i < j < |aqs| ==> aqs[j].name != aqs[i].name
    ensures Get(StoreAll(full, aqs, store), aqs[i].name) == Some(store(aqs[i]))
  {
    var n := |aqs| - 1;
    if i == n {
      StoreAllLast(full, aqs, store);
    } else {
      var init := aqs[..n];
      LastOfPrefix(aqs, n, i);
      StoreAllValue(full, init, store, i);
      StoreAllOther(full, aqs, store, aqs[i].name);
    }
  }

  /** A tuple that is the last with its name in `aqs` is still the last in a prefix holding it. */
  lemma LastOfPrefix(aqs: seq<AqTuple>, n: nat, i: nat)
    requires i < n <= |aqs| && forall j :: i < j < |aqs| ==> aqs[j].name != aqs[i].name
    ensures aqs[..n][i] == aqs[i]
    ensures forall j :: i < j < |aqs[..n]| ==> aqs[..n][j].name != aqs[..n][i].name
  {
  }

  /**
   * init_full_schema gives every required name a key and no other, and a name holds the
   * embedding pairs of the init-phase result of its last tuple.
   */
  lemma InitFoldSpec(env: Env, full: Dict<seq<Pair>>, aqs: seq<AqTuple>, i: nat)
    requires i < |aqs| && forall j :: i < j < |aqs| ==> aqs[j].name != aqs[i].name
    ensures forall n :: n in Keys(InitFold(env, full, aqs)) <==> n in Keys(full) || n in Names(aqs)
    ensures Get(InitFold(env, full, aqs), aqs[i].name) == Some(Paired(Launched(env, aqs[i], "init"), env.embed))
  {
    StoreAllKeys(full, aqs, InitStore(env));
    StoreAllValue(full, aqs, InitStore(env), i);
  }

  // ---------------------------------------------------------------------------
  // dense_filtering and filter_schema

  /** The similarity of the question's embedding to a pair's embedding. */
  function SimTo(env: Env, question: string): Pair -> real
  {
    (p: Pair) => env.sim(env.embed(Str(question)), p.emb)
  }

  /**
   * `full_schema[name]` on a defaultdict: an absent name is inserted with `[]` at the end
   * of the dict, and `[]` is read.
   */
  function Touch(full: Dict<seq<Pair>>, name: string): (Dict<seq<Pair>>, seq<Pair>)
  {
    match Get(full, name)
    case Some(v) => (full, v)
    case None => (full + [(name, [])], [])
  }

  /** The state of filter_schema between entries; `crashed` holds the exception that ends it. */
  datatype FilterState = FilterState(full: Dict<seq<Pair>>, filtered: Dict<seq<Elem>>, crashed: Option<PyError>)

  /** The retriever's own settings used while filtering. */
  datatype Limits = Limits(kLim: int, threshold: real)

  /** What a non-launch entry stores, given the full schema entry `v`: the dispatch on the mode. */
  function Kept(env: Env, lims: Limits, question: string, mode: string, v: seq<Pair>): seq<Elem>
  {
    var score := SimTo(env, question);
    if mode == "dense-klim" then Embed(Top(v, score, lims.kLim, 0.0))
    else if mode == "dense-thresh" then Embed(Top(v, score, 0, lims.threshold))
    else if mode == "dense-both" then Embed(Top(v, score, lims.kLim, lims.threshold))
    else Embed(v)
  }

  /**
   * What filter_schema consults besides the dicts: the filter-phase launch and the
   * dispatch on the mode for the other entries.
   */
  datatype Filterer = Filterer(launch: AqTuple -> seq<Value>, keep: (string, seq<Pair>) -> seq<Elem>)

  /** The retriever's launch_auto_query in the filter phase and its dense filtering of `question`. */
  function Filtering(env: Env, lims: Limits, question: string): Filterer
  {
    Filterer(aq => Launched(env, aq, "filter"), (mode, v) => Kept(env, lims, question, mode, v))
  }

  /** What one entry of the loop of filter_schema stores, given the partial dict built so far. */
  function FilterStep(f: Filterer, st: FilterState, aq: AqTuple): FilterState
  {
    if st.crashed.Some? then st
    else if aq.mode == "launch" then
      if |aq.args| == 0 then FilterState(st.full, st.filtered, Some(IndexError))  // `auto_query[2] = ...`
      else
        var call := AqTuple(aq.name, aq.mode, [PSchema(st.filtered)] + aq.args[1..]);
        FilterState(st.full, Put(st.filtered, aq.name, RawAll(f.launch(call))), None)
    else
      var (full', v) := Touch(st.full, aq.name);
      FilterState(full', Put(st.filtered, aq.name, f.keep(aq.mode, v)), None)
  }

  /** An entry that does not raise stores a value under its name and touches no other key. */
  lemma FilterStepKeys(f: Filterer, st: FilterState, aq: AqTuple)
    requires st.crashed.None?
    ensures var st' := FilterStep(f, st, aq);
      st'.crashed.None? ==> Keys(st'.filtered) == Keys(Put(st.filtered, aq.name, []))
  {
  }

  function FilterFold(f: Filterer, full: Dict<seq<Pair>>, aqs: seq<AqTuple>): FilterState
  {
    if |aqs| == 0 then FilterState(full, [], None)
    else FilterStep(f, FilterFold(f, full, aqs[..|aqs| - 1]), aqs[|aqs| - 1])
  }

  lemma FilterFoldSnoc(f: Filterer, full: Dict<seq<Pair>>, aqs: seq<AqTuple>, i: nat)
    requires i < |aqs|
    ensures FilterFold(f, full, aqs[..i + 1])
         == FilterStep(f, FilterFold(f, full, aqs[..i]), aqs[i])
  {
    assert aqs[..i + 1][..i] == aqs[..i];
  }

  /** Once an entry raised, later entries change nothing. */
  lemma {:induction false} FilterFoldCrashStays(f: Filterer, full: Dict<seq<Pair>>, aqs: seq<AqTuple>, k: nat)
    requires k <= |aqs| && FilterFold(f, full, aqs[..k]).crashed.Some?
    ensures FilterFold(f, full, aqs) == FilterFold(f, full, aqs[..k])
    decreases |aqs|
  {
    if k < |aqs| {
      var init := aqs[..|aqs| - 1];
      assert init[..k] == aqs[..k];
      FilterFoldCrashStays(f, full, init, k);
    } else {
      assert aqs[..k] == aqs;
    }
  }

  /** Every launch entry has a tuple long enough to carry the partial schema in slot 2. */
  predicate LaunchesHaveSlot(aqs: seq<AqTuple>)
  {
    forall i :: 0 <= i < |aqs| ==> aqs[i].mode == "launch" ==> |aqs[i].args| > 0
  }

  /** A launch entry without arguments is exactly what makes filter_schema raise, and it raises IndexError. */
  lemma {:induction false} FilterFoldCrash(f: Filterer, full: Dict<seq<Pair>>, aqs: seq<AqTuple>)
    ensures var st := FilterFold(f, full, aqs);
      (st.crashed.Some? <==> !LaunchesHaveSlot(aqs)) && (st.crashed.Some? ==> st.crashed == Some(IndexError))
  {
    if |aqs| > 0 {
      var n := |aqs| - 1;
      var init := aqs[..n];
      FilterFoldCrash(f, full, init);
      LaunchesHaveSlotSnoc(aqs);
      var prev := FilterFold(f, full, init);
      assert FilterFold(f, full, aqs) == FilterStep(f, prev, aqs[n]);
    }
  }

  lemma LaunchesHaveSlotSnoc(aqs: seq<AqTuple>)
    requires |aqs| > 0
    ensures var n := |aqs| - 1;
      LaunchesHaveSlot(aqs) <==> LaunchesHaveSlot(aqs[..n]) && (aqs[n].mode == "launch" ==> |aqs[n].args| > 0)
  {
    var n := |aqs| - 1;
    assert forall i :: 0 <= i < n ==> aqs[..n][i] == aqs[i];
  }

  /**
   * Without a crash the filtered dict has exactly the required names as keys, in tuple
   * order when the names are distinct.
   */
  lemma {:induction false} FilterFoldKeys(f: Filterer, full: Dict<seq<Pair>>, aqs: seq<AqTuple>)
    ensures var st := FilterFold(f, full, aqs);
      st.crashed.None? ==> forall n :: n in Keys(st.filtered) <==> n in Names(aqs)
    ensures var st := FilterFold(f, full, aqs);
      st.crashed.None? && NoDup(Names(aqs)) ==> Keys(st.filtered) == Names(aqs)
  {
    if |aqs| > 0 {
      var n := |aqs| - 1;
      var init := aqs[..n];
      FilterFoldKeys(f, full, init);
      var prev := FilterFold(f, full, init);
      if prev.crashed.None? {
        FilterStepKeys(f, prev, aqs[n]);
      }
      assert Names(aqs) == Names(init) + [aqs[n].name];
      if NoDup(Names(aqs)) {
        assert NoDup(Names(init));
        assert aqs[n].name !in Names(init);
      }
    }
  }

  /**
   * A launch entry at position `i` receives, in slot 2, the partial dict: its keys are the
   * names of the entries before `i` and nothing else, and its result is stored under the
   * entry's name.
   */
  lemma LaunchSeesEarlier(f: Filterer, full: Dict<seq<Pair>>, aqs: seq<AqTuple>, i: nat)
    requires i < |aqs| && aqs[i].mode == "launch" && |aqs[i].args| > 0
    requires FilterFold(f, full, aqs[..i]).crashed.None?
    ensures var partial := FilterFold(f, full, aqs[..i]).filtered;
      (forall n :: n in Keys(partial) <==> n in Names(aqs[..i])) &&
      FilterFold(f, full, aqs[..i + 1]).filtered ==
        Put(partial, aqs[i].name,
          RawAll(f.launch(AqTuple(aqs[i].name, "launch", [PSchema(partial)] + aqs[i].args[1..]))))
  {
    FilterFoldKeys(f, full, aqs[..i]);
    FilterFoldSnoc(f, full, aqs, i);
  }

  /** A non-launch entry that runs stores, under its name, what the mode dispatch keeps of its full schema entry. */
  lemma FilterStepStored(f: Filterer, st: FilterState, aq: AqTuple)
    requires st.crashed.None? && aq.mode != "launch"
    ensures var st' := FilterStep(f, st, aq);
      st'.crashed.None? && Get(st'.filtered, aq.name) == Some(f.keep(aq.mode, Touch(st.full, aq.name).1))
  {
    var v := Touch(st.full, aq.name).1;
    GetPut(st.filtered, aq.name, f.keep(aq.mode, v), aq.name);
  }

  /**
   * The dispatch on the mode. `dense-klim` keeps the best `k_lim` items but also drops
   * every item of similarity 0 or less; `dense-thresh` keeps every item above the
   * threshold and nothing else; `dense-both` applies both limits; any other mode passes
   * the full schema entry through. The capped modes keep a prefix of the ranking of
   * exactly min(`k_lim`, the run above the limit) items.
   */
  lemma KeptSpec(env: Env, lims: Limits, question: string, mode: string, v: seq<Pair>)
    ensures var stored := Kept(env, lims, question, mode, v);
      var score := SimTo(env, question);
      var ranked := Ranked(v, score);
      var floor := if mode == "dense-klim" then 0.0 else lims.threshold;
      var n := AboveRun(ranked, floor);
      (mode == "dense-klim" || mode == "dense-both") ==>
        stored == Embed(Unscored(ranked)[..|stored|]) &&
        |stored| == (if 1 <= lims.kLim < n then lims.kLim else n) &&
        (|stored| < lims.kLim ==> forall j :: |stored| <= j < |ranked| ==> ranked[j].score <= floor)
    ensures var stored := Kept(env, lims, question, mode, v);
      var score := SimTo(env, question);
      (mode == "dense-klim" ==>
        (forall e :: e in stored ==> e.Embedded? && e.pair in v && score(e.pair) > 0.0) &&
        (lims.kLim >= 1 ==> |stored| <= lims.kLim)) &&
      (mode == "dense-thresh" ==>
        (forall e :: e in stored ==> e.Embedded? && e.pair in v && score(e.pair) > lims.threshold) &&
        (forall p :: p in v && score(p) > lims.threshold ==> Embedded(p) in stored)) &&
      (mode == "dense-both" ==>
        (forall e :: e in stored ==> e.Embedded? && e.pair in v && score(e.pair) > lims.threshold) &&
        (lims.kLim >= 1 ==> |stored| <= lims.kLim)) &&
      (mode != "dense-klim" && mode != "dense-thresh" && mode != "dense-both" ==> stored == Embed(v))
  {
    var score := SimTo(env, question);
    if mode == "dense-klim" {
      TopSpec(v, score, lims.kLim, 0.0);
    } else if mode == "dense-thresh" {
      TopSpec(v, score, 0, lims.threshold);
      ThresholdComplete(v, score, lims.threshold);
    } else if mode == "dense-both" {
      TopSpec(v, score, lims.kLim, lims.threshold);
    }
  }

  /** Without a cap, every item above the threshold survives dense filtering. */
  lemma ThresholdComplete(v: seq<Pair>, score: Pair -> real, thresh: real)
    ensures forall p :: p in v && score(p) > thresh ==> Embedded(p) in Embed(Top(v, score, 0, thresh))
  {
    var r := Top(v, score, 0, thresh);
    TopComplete(v, score, thresh);
    forall p | p in v && score(p) > thresh ensures Embedded(p) in Embed(r) {
      var j :| 0 <= j < |r| && r[j] == p;
      assert Embed(r)[j] == Embedded(p);
    }
  }

  /** One entry of filter_schema either leaves the full schema alone or appends one absent name with `[]`. */
  lemma FilterStepFull(f: Filterer, st: FilterState, aq: AqTuple)
    ensures var full' := FilterStep(f, st, aq).full;
      full' == st.full || (Get(st.full, aq.name).None? && full' == st.full + [(aq.name, [])])
  {
  }

  /** filter_schema only adds keys to the full schema (through defaultdict reads), each with `[]`. */
  lemma {:induction false} FilterFoldFull(f: Filterer, full: Dict<seq<Pair>>, aqs: seq<AqTuple>)
    ensures var st := FilterFold(f, full, aqs);
      (forall n :: Get(full, n).Some? ==> Get(st.full, n) == Get(full, n)) &&
      (forall n :: Get(full, n).None? && Get(st.full, n).Some? ==> Get(st.full, n) == Some([])) &&
      |full| <= |st.full| && st.full[..|full|] == full
  {
    if |aqs| > 0 {
      var n := |aqs| - 1;
      FilterFoldFull(f, full, aqs[..n]);
      var prev := FilterFold(f, full, aqs[..n]);
      FilterStepFull(f, prev, aqs[n]);
      var next := FilterStep(f, prev, aqs[n]);
      if next.full != prev.full {
        forall k ensures Get(next.full, k) == if k == aqs[n].name then Some([]) else Get(prev.full, k) {
          GetAppend(prev.full, aqs[n].name, [], k);
        }
        assert next.full[..|prev.full|] == prev.full;
        assert next.full[..|full|] == prev.full[..|full|];
      }
    }
  }

  lemma {:induction false} GetAppend<V>(d: Dict<V>, k: string, v: V, k2: string)
    requires Get(d, k).None?
    ensures Get(d + [(k, v)], k2) == if k2 == k then Some(v) else Get(d, k2)
  {
    if |d| > 0 {
      assert (d + [(k, v)])[1..] == d[1..] + [(k, v)];
      GetAppend(d[1..], k, v, k2);
    }
  }

  // ---------------------------------------------------------------------------
  // transcribe_schema

  const DefaultIntro: string := "\nHere's the database schema:"

  /** The heading of a catalog entry, or the name when the entry has none. */
  function Heading(entry: CatalogEntry, name: string): string
  {
    match entry.heading case Some(h) => h case None => name
  }

  /** One section of the transcript: a blank line, the heading, then the rendered results. */
  function Section(name: string, response: seq<Elem>, sys: seq<string>): Result<string>
  {
    match Get(Catalog, name)
    case None => Fail(KeyError)
    case Some(entry) =>
      match entry.results
      case ListFormat =>
        (match WriteListText(response, "", "", sys)
         case Fail(e) => Fail(e)
         case Ok(text) => Ok("\n\n" + Heading(entry, name) + text))
      case ListOfDictFormat =>
        Ok("\n\n" + Heading(entry, name) + DumpLines(Filter(response, sys, DumpListed)))
  }

  function Transcript(chosen: Dict<seq<Elem>>, intro: Option<string>, sys: seq<string>): Result<string>
  {
    if |chosen| == 0 then Ok(match intro case None => DefaultIntro case Some(s) => s)
    else
      match Transcript(chosen[..|chosen| - 1], intro, sys)
      case Fail(e) => Fail(e)
      case Ok(text) =>
        match Section(chosen[|chosen| - 1].0, chosen[|chosen| - 1].1, sys)
        case Fail(e) => Fail(e)
        case Ok(section) => Ok(text + section)
  }

  /**
   * A transcript that succeeds starts with the intro (or the default one) and covers only
   * catalogued names; it fails exactly when one of its sections does, so a key missing
   * from the catalog makes it fail.
   */
  lemma {:induction false} TranscriptSpec(chosen: Dict<seq<Elem>>, intro: Option<string>, sys: seq<string>)
    ensures var t := Transcript(chosen, intro, sys);
      var start := match intro case None => DefaultIntro case Some(s) => s;
      t.Ok? ==> |start| <= |t.value| && t.value[..|start|] == start
    ensures Transcript(chosen, intro, sys).Ok? ==> forall n :: n in Keys(chosen) ==> n in Keys(Catalog)
    ensures Transcript(chosen, intro, sys).Fail? <==> exists i :: 0 <= i < |chosen| && SectionFails(chosen, sys, i)
  {
    TranscriptStart(chosen, intro, sys);
    TranscriptFails(chosen, intro, sys);
  }

  lemma {:induction false} TranscriptStart(chosen: Dict<seq<Elem>>, intro: Option<string>, sys: seq<string>)
    ensures var t := Transcript(chosen, intro, sys);
      var start := match intro case None => DefaultIntro case Some(s) => s;
      t.Ok? ==> |start| <= |t.value| && t.value[..|start|] == start
    ensures Transcript(chosen, intro, sys).Ok? ==> forall n :: n in Keys(chosen) ==> n in Keys(Catalog)
  {
    if |chosen| > 0 {
      var n := |chosen| - 1;
      TranscriptStart(chosen[..n], intro, sys);
      assert Keys(chosen) == Keys(chosen[..n]) + [chosen[n].0];
      var start := match intro case None => DefaultIntro case Some(s) => s;
      var t := Transcript(chosen, intro, sys);
      if t.Ok? {
        var prefix := Transcript(chosen[..n], intro, sys).value;
        assert t.value == prefix + Section(chosen[n].0, chosen[n].1, sys).value;
        assert t.value[..|start|] == prefix[..|start|];
      }
    }
  }

  /** Whether the section of the `i`th chosen key fails. */
  predicate SectionFails(chosen: Dict<seq<Elem>>, sys: seq<string>, i: int)
    requires 0 <= i < |chosen|
  {
    Section(chosen[i].0, chosen[i].1, sys).Fail?
  }

  /** The transcript of a non-empty schema fails iff that of its prefix or its last section does. */
  lemma TranscriptFailStep(chosen: Dict<seq<Elem>>, intro: Option<string>, sys: seq<string>)
    requires |chosen| > 0
    ensures Transcript(chosen, intro, sys).Fail? <==>
      Transcript(chosen[..|chosen| - 1], intro, sys).Fail? || SectionFails(chosen, sys, |chosen| - 1)
  {
  }

  lemma TranscriptFails(chosen: Dict<seq<Elem>>, intro: Option<string>, sys: seq<string>)
    ensures Transcript(chosen, intro, sys).Fail? <==> exists i :: 0 <= i < |chosen| && SectionFails(chosen, sys, i)
  {
    if Transcript(chosen, intro, sys).Fail? {
      var i := FailingSection(chosen, intro, sys);
    }
    forall i | 0 <= i < |chosen| && SectionFails(chosen, sys, i)
      ensures Transcript(chosen, intro, sys).Fail?
    {
      SectionFailsTranscript(chosen, intro, sys, i);
    }
  }

  /** A failing transcript has a failing section. */
  lemma {:induction false} FailingSection(chosen: Dict<seq<Elem>>, intro: Option<string>, sys: seq<string>) returns (i: int)
    requires Transcript(chosen, intro, sys).Fail?
    ensures 0 <= i < |chosen| && SectionFails(chosen, sys, i)
  {
    var n := |chosen| - 1;
    TranscriptFailStep(chosen, intro, sys);
    if SectionFails(chosen, sys, n) {
      i := n;
    } else {
      i := FailingSection(chosen[..n], intro, sys);
      assert chosen[..n][i] == chosen[i];
    }
  }

  /** A failing section fails the transcript. */
  lemma {:induction false} SectionFailsTranscript(chosen: Dict<seq<Elem>>, intro: Option<string>, sys: seq<string>, i: int)
    requires 0 <= i < |chosen| && SectionFails(chosen, sys, i)
    ensures Transcript(chosen, intro, sys).Fail?
    decreases |chosen|
  {
    var n := |chosen| - 1;
    var prefixFails: bool;
    if i < n {
      assert chosen[..n][i] == chosen[i];
      SectionFailsTranscript(chosen[..n], intro, sys, i);
      prefixFails := true;
    } else {
      prefixFails := false;
    }
    assert prefixFails ==> Transcript(chosen[..n], intro, sys).Fail?;
    assert !prefixFails ==> SectionFails(chosen, sys, n);
    TranscriptFailStep(chosen, intro, sys);
  }

  /** Each section starts with a blank line and the entry's heading. */
  lemma SectionSpec(name: string, response: seq<Elem>, sys: seq<string>)
    ensures Section(name, response, sys).Ok? ==>
      var h := "\n\n" + Heading(Get(Catalog, name).value, name);
      |h| <= |Section(name, response, sys).value| && Section(name, response, sys).value[..|h|] == h
    ensures Get(Catalog, name).None? ==> Section(name, response, sys) == Fail(KeyError)
  {
  }

  /** The full schema, seen as a dict of schema lists. */
  function AsSchema(full: Dict<seq<Pair>>): (r: Dict<seq<Elem>>)
    ensures Keys(r) == Keys(full)
    ensures forall i :: 0 <= i < |full| ==> r[i] == (full[i].0, Embed(full[i].1))
  {
    seq(|full|, i requires 0 <= i < |full| => (full[i].0, Embed(full[i].1)))
  }

  // ---------------------------------------------------------------------------
  // The retriever object.

  class DataRetriever {
    const env: Env
    const requiredAQs: seq<AqTuple>
    const kLim: int
    const threshold: real
    var fullSchema: Dict<seq<Pair>>
    var filteredSchema: Option<Dict<seq<Elem>>>

    constructor (env: Env, requiredAQs: seq<AqTuple>, kLim: int := 10, threshold: real := 0.65)
      ensures this.env == env && this.requiredAQs == requiredAQs
      ensures this.kLim == kLim && this.threshold == threshold
      ensures fullSchema == [] && filteredSchema == None
    {
      this.env := env;
      this.requiredAQs := requiredAQs;
      this.kLim := kLim;
      this.threshold := threshold;
      fullSchema := [];
      filteredSchema := None;
    }

    function Lims(): Limits { Limits(kLim, threshold) }

    method LaunchAutoQuery(aq: AqTuple, phase: string) returns (r: seq<Value>)
      ensures r == Launched(env, aq, phase)
    {
      var modes := Get(Phases, phase);
      if modes.None? {
        return [];  // phase not recognized
      }
      if aq.mode !in modes.value {
        return [];
      }
      var entry := Get(Catalog, aq.name);
      if entry.None? {
        return [];  // KeyError, caught
      }
      var result := Execute(env.graph, env.sys, env.chance, entry.value.exec, aq.args);
      r := if result.Ok? then result.value else [];
    }

    method InitFullSchema()
      modifies this
      ensures fullSchema == InitFold(env, old(fullSchema), requiredAQs)
      ensures filteredSchema == old(filteredSchema)
    {
      for i := 0 to |requiredAQs|
        invariant fullSchema == InitFold(env, old(fullSchema), requiredAQs[..i])
        invariant filteredSchema == old(filteredSchema)
      {
        assert requiredAQs[..i + 1][..i] == requiredAQs[..i];
        var aq := requiredAQs[i];
        var contents := LaunchAutoQuery(aq, "init");
        var pairs := GetListEmbeddings(contents, env.embed);
        fullSchema := Put(fullSchema, aq.name, pairs);
      }
      assert requiredAQs[..|requiredAQs|] == requiredAQs;
    }

    method ResetFilter()
      modifies this
      ensures filteredSchema == Some(AsSchema(fullSchema))
      ensures fullSchema == old(fullSchema)
    {
      filteredSchema := Some(AsSchema(fullSchema));
    }

    method DenseFiltering(results: seq<Pair>, question: string, kLim: int, thresh: real) returns (outList: seq<Pair>)
      ensures outList == Top(results, SimTo(env, question), kLim, thresh)
    {
      var questionEmb := env.embed(Str(question));
      var score := SimTo(env, question);
      var resList: seq<Scored<Pair>> := [];
      for i := 0 to |results|
        invariant resList == ScoredBy(results[..i], score)
      {
        var resSim := env.sim(questionEmb, results[i].emb);
        resList := resList + [Scored(results[i], resSim)];
      }
      assert results[..|results|] == results;
      resList := Ranking.SortDesc(resList, ScoreOf);
      outList := ScanRanked(resList, kLim, thresh);
    }

    /** `full_schema[name]` on the defaultdict. */
    method ReadFull(name: string) returns (v: seq<Pair>)
      modifies this
      ensures (fullSchema, v) == Touch(old(fullSchema), name)
      ensures filteredSchema == old(filteredSchema)
    {
      var found := Get(fullSchema, name);
      if found.Some? {
        v := found.value;
      } else {
        fullSchema := fullSchema + [(name, [])];
        v := [];
      }
    }

    /** The `if`/`elif` chain of filter_schema for an entry that is not a launch. */
    method Dispatch(mode: string, v: seq<Pair>, question: string) returns (kept: seq<Elem>)
      ensures kept == Kept(env, Lims(), question, mode, v)
    {
      if mode == "dense-klim" {
        var out := DenseFiltering(v, question, kLim, 0.0);
        kept := Embed(out);
      } else if mode == "dense-thresh" {
        var out := DenseFiltering(v, question, 0, threshold);
        kept := Embed(out);
      } else if mode == "dense-both" {
        var out := DenseFiltering(v, question, kLim, threshold);
        kept := Embed(out);
      } else {
        kept := Embed(v);
      }
    }

    /**
     * filter_schema: builds a fresh dict entry by entry and assigns it only at the end; an
     * exception leaves `filteredSchema` as it was (the defaultdict reads made so far stay).
     */
    method FilterSchema(question: string) returns (err: Option<PyError>)
      modifies this
      ensures var st := FilterFold(Filtering(env, Lims(), question), old(fullSchema), requiredAQs);
        fullSchema == st.full && err == st.crashed &&
        filteredSchema == if st.crashed.None? then Some(st.filtered) else old(filteredSchema)
    {
      ghost var f := Filtering(env, Lims(), question);
      var filtered: Dict<seq<Elem>> := [];
      for i := 0 to |requiredAQs|
        invariant FilterFold(f, old(fullSchema), requiredAQs[..i]) == FilterState(fullSchema, filtered, None)
        invariant filteredSchema == old(filteredSchema)
      {
        FilterFoldSnoc(f, old(fullSchema), requiredAQs, i);
        var aq := requiredAQs[i];
        if aq.mode == "launch" {
          if |aq.args| == 0 {
            FilterFoldCrashStays(f, old(fullSchema), requiredAQs, i + 1);
            return Some(IndexError);
          }
          var call := AqTuple(aq.name, aq.mode, [PSchema(filtered)] + aq.args[1..]);
          var launched := LaunchAutoQuery(call, "filter");
          assert f.launch(call) == launched;
          filtered := Put(filtered, aq.name, RawAll(launched));
        } else {
          var v := ReadFull(aq.name);
          var kept := Dispatch(aq.mode, v, question);
          assert f.keep(aq.mode, v) == kept;
          filtered := Put(filtered, aq.name, kept);
        }
      }
      assert requiredAQs[..|requiredAQs|] == requiredAQs;
      filteredSchema := Some(filtered);
      err := None;
    }

    /** transcribe_schema: `None.keys()` raises AttributeError when no filtered schema exists yet. */
    method TranscribeSchema(intro: Option<string>, filtered: bool) returns (r: Result<string>)
      ensures filtered && filteredSchema.None? ==> r == Fail(AttributeError)
      ensures filtered && filteredSchema.Some? ==> r == Transcript(filteredSchema.value, intro, env.sys)
      ensures !filtered ==> r == Transcript(AsSchema(fullSchema), intro, env.sys)
    {
      var chosen: Dict<seq<Elem>>;
      if filtered {
        if filteredSchema.None? {
          return Fail(AttributeError);
        }
        chosen := filteredSchema.value;
      } else {
        chosen := AsSchema(fullSchema);
      }
      r := WriteTranscript(chosen, intro, env.sys);
    }
  }

  /**
   * The scan of dense_filtering over the ranked list: stop at the first item at or below
   * the threshold, and right after the `k_lim`-th kept item.
   */
  method ScanRanked<T>(resList: seq<Scored<T>>, kLim: int, thresh: real) returns (outList: seq<T>)
    ensures outList == Unscored(Selected(resList, kLim, thresh))
  {
    ghost var n := AboveRun(resList, thresh);
    outList := [];
    var i := 0;
    while i < |resList|
      invariant i <= n
      invariant outList == Unscored(resList[..i])
      invariant kLim >= 1 ==> i < kLim
    {
      if resList[i].score <= thresh {
        assert Selected(resList, kLim, thresh) == resList[..i];
        return;
      }
      outList := outList + [resList[i].item];
      i := i + 1;
      assert Unscored(resList[..i]) == Unscored(resList[..i - 1]) + [resList[i - 1].item];
      if |outList| == kLim {
        assert Selected(resList, kLim, thresh) == resList[..i];
        return;
      }
    }
    assert resList[..i] == resList;
  }

  /** The loop of transcribe_schema over the chosen schema. */
  method WriteTranscript(chosen: Dict<seq<Elem>>, intro: Option<string>, sys: seq<string>) returns (r: Result<string>)
    ensures r == Transcript(chosen, intro, sys)
  {
    var schema := match intro case None => DefaultIntro case Some(s) => s;
    assert chosen[..0] == [];
    for i := 0 to |chosen|
      invariant Transcript(chosen[..i], intro, sys) == Ok(schema)
    {
      TranscriptSnoc(chosen, i, intro, sys);
      var name := chosen[i].0;
      var entry := Get(Catalog, name);
      if entry.None? {
        TranscriptFailurePersists(chosen, intro, sys, i + 1);
        return Fail(KeyError);
      }
      var heading := "\n\n" + Heading(entry.value, name);
      if entry.value.results == ListFormat {
        var text := WriteList(chosen[i].1, "", "", sys);
        if text.Fail? {
          TranscriptFailurePersists(chosen, intro, sys, i + 1);
          return Fail(text.error);
        }
        schema := schema + (heading + text.value);
      } else {
        var text := WriteListOfDict(chosen[i].1, "", sys);
        ghost var lines := DumpLines(Filter(chosen[i].1, sys, DumpListed));
        assert "" + lines == lines;
        schema := schema + (heading + text);
      }
    }
    assert chosen[..|chosen|] == chosen;
    r := Ok(schema);
  }

  lemma TranscriptSnoc(chosen: Dict<seq<Elem>>, i: nat, intro: Option<string>, sys: seq<string>)
    requires i < |chosen| && Transcript(chosen[..i], intro, sys).Ok?
    ensures var sec := Section(chosen[i].0, chosen[i].1, sys);
      Transcript(chosen[..i + 1], intro, sys) ==
        if sec.Fail? then Fail(sec.error) else Ok(Transcript(chosen[..i], intro, sys).value + sec.value)
  {
    assert chosen[..i + 1][..i] == chosen[..i];
  }

  lemma {:induction false} TranscriptFailurePersists(chosen: Dict<seq<Elem>>, intro: Option<string>, sys: seq<string>, k: nat)
    requires k <= |chosen| && Transcript(chosen[..k], intro, sys).Fail?
    ensures Transcript(chosen, intro, sys) == Transcript(chosen[..k], intro, sys)
    decreases |chosen|
  {
    if k < |chosen| {
      var init := chosen[..|chosen| - 1];
      assert init[..k] == chosen[..k];
      TranscriptFailurePersists(init, intro, sys, k);
    } else {
      assert chosen[..k] == chosen;
    }
  }

  // ---------------------------------------------------------------------------
  // The two shipped configurations.

  /** `aq_tuple` of the reference configuration. */
  const ReferenceConfig: seq<AqTuple> := [
    AqTuple("NAMES", "init", []),
    AqTuple("LABELS", "init", []),
    AqTuple("OBJECT PROPERTIES", "filter", [PNone, PInt(3)]),
    AqTuple("RELATIONSHIPS VISUAL", "init", [PInt(0)])
  ]

  /** Storing under a new key appends the entry. */
  lemma {:induction false} PutNew<V>(d: Dict<V>, k: string, v: V)
    requires k !in Keys(d)
    ensures Put(d, k, v) == d + [(k, v)]
  {
    if |d| > 0 {
      assert Keys(d)[0] == d[0].0;
      assert Keys(d[1..]) == Keys(d)[1..];
      PutNew(d[1..], k, v);
      PutPast(d, k, v);
      assert d + [(k, v)] == [d[0]] + (d[1..] + [(k, v)]);
    }
  }

  /** Storing under a key the first entry does not hold goes past that entry. */
  lemma PutPast<V>(d: Dict<V>, k: string, v: V)
    requires |d| > 0 && d[0].0 != k
    ensures Put(d, k, v) == [d[0]] + Put(d[1..], k, v)
  {
  }

  /** A mode the init phase does not list: the entry is skipped at init time. */
  predicate SkippedAtInit(aq: AqTuple)
  {
    aq.mode != "dense-klim" && aq.mode != "dense-thresh" && aq.mode != "dense-both"
  }

  /** The dict that holds every name with an empty list, in order. */
  function Blank(names: seq<string>): (r: Dict<seq<Pair>>)
    ensures Keys(r) == names
    ensures forall i :: 0 <= i < |r| ==> r[i].1 == []
  {
    seq(|names|, i requires 0 <= i < |names| => (names[i], []))
  }

  /** Storing nothing under distinct names gives every name, in order, with an empty list. */
  lemma {:induction false} StoreAllBlank(aqs: seq<AqTuple>, store: AqTuple -> seq<Pair>)
    requires forall i :: 0 <= i < |aqs| ==> store(aqs[i]) == []
    requires NoDup(Names(aqs))
    ensures StoreAll([], aqs, store) == Blank(Names(aqs))
  {
    if |aqs| > 0 {
      var n := |aqs| - 1;
      var init := aqs[..n];
      var names := Names(aqs);
      var prevNames := Names(init);
      assert prevNames == names[..n];
      assert NoDup(prevNames);
      StoreAllBlank(init, store);
      var prev := Blank(prevNames);
      var k := aqs[n].name;
      assert k !in Keys(prev) by {
        assert k == names[n];
        assert forall j :: 0 <= j < n ==> prevNames[j] == names[j];
      }
      PutNew(prev, k, []);
      BlankSnoc(names);
    }
  }

  /**
   * When no tuple has a mode the init phase lists and the names are distinct, the full
   * schema holds every required name, in order, with an empty list.
   */
  lemma InitFoldBlank(env: Env, aqs: seq<AqTuple>)
    requires forall i :: 0 <= i < |aqs| ==> SkippedAtInit(aqs[i])
    requires NoDup(Names(aqs))
    ensures InitFold(env, [], aqs) == Blank(Names(aqs))
  {
    forall i | 0 <= i < |aqs| ensures InitStore(env)(aqs[i]) == [] {
      SkippedStoresNothing(env, aqs[i]);
    }
    StoreAllBlank(aqs, InitStore(env));
  }

  /** A tuple whose mode the init phase does not list stores nothing. */
  lemma SkippedStoresNothing(env: Env, aq: AqTuple)
    requires SkippedAtInit(aq)
    ensures InitStore(env)(aq) == []
  {
    LaunchedSpec(env, aq, "init");
  }

  lemma BlankSnoc(names: seq<string>)
    requires |names| > 0
    ensures Blank(names) == Blank(names[..|names| - 1]) + [(names[|names| - 1], [])]
  {
  }

  /** Under the reference configuration no mode is one the init phase lists, so every entry of the full schema is empty. */
  lemma ReferenceConfigFull(env: Env)
    ensures InitFold(env, [], ReferenceConfig) == Blank(["NAMES", "LABELS", "OBJECT PROPERTIES", "RELATIONSHIPS VISUAL"])
  {
    var rc := ReferenceConfig;
    assert Names(rc) == ["NAMES", "LABELS", "OBJECT PROPERTIES", "RELATIONSHIPS VISUAL"];
    assert forall i :: 0 <= i < |rc| ==> SkippedAtInit(rc[i]);
    InitFoldBlank(env, rc);
  }

  /** A catalogued entry with no results renders as its bare heading section. */
  lemma SectionOfNothing(name: string, sys: seq<string>)
    requires name in Keys(Catalog)
    ensures Section(name, [], sys).Ok?
  {
    assert WriteListText([], "", "", sys) == Ok("");
  }

  /** A schema whose names are all catalogued and whose lists are all empty transcribes without error. */
  lemma {:induction false} TranscriptOfNothing(chosen: Dict<seq<Elem>>, intro: Option<string>, sys: seq<string>)
    requires forall i :: 0 <= i < |chosen| ==> chosen[i].0 in Keys(Catalog) && chosen[i].1 == []
    ensures Transcript(chosen, intro, sys).Ok?
  {
    if |chosen| > 0 {
      var n := |chosen| - 1;
      TranscriptOfNothing(chosen[..n], intro, sys);
      SectionOfNothing(chosen[n].0, sys);
    }
  }

  /**
   * A schema whose first uncatalogued name comes after empty, catalogued entries fails
   * with KeyError, whatever follows it.
   */
  lemma TranscriptFirstMissing(chosen: Dict<seq<Elem>>, k: nat, intro: Option<string>, sys: seq<string>)
    requires k < |chosen| && chosen[k].0 !in Keys(Catalog)
    requires forall i :: 0 <= i < k ==> chosen[i].0 in Keys(Catalog) && chosen[i].1 == []
    ensures Transcript(chosen, intro, sys) == Fail(KeyError)
  {
    TranscriptOfNothing(chosen[..k], intro, sys);
    TranscriptSnoc(chosen, k, intro, sys);
    TranscriptFailurePersists(chosen, intro, sys, k + 1);
  }

  /** An all-empty schema fails with KeyError at its first uncatalogued name. */
  lemma BlankTranscript(names: seq<string>, k: nat, intro: Option<string>, sys: seq<string>)
    requires k < |names| && names[k] !in Keys(Catalog)
    requires forall i :: 0 <= i < k ==> names[i] in Keys(Catalog)
    ensures Transcript(AsSchema(Blank(names)), intro, sys) == Fail(KeyError)
  {
    var chosen := AsSchema(Blank(names));
    assert forall i :: 0 <= i < |names| ==> chosen[i] == (names[i], []);
    TranscriptFirstMissing(chosen, k, intro, sys);
  }

  /** Transcribing that full schema fails with KeyError: RELATIONSHIPS VISUAL is not in the catalog. */
  lemma ReferenceConfigTranscript(env: Env, intro: Option<string>)
    ensures Transcript(AsSchema(InitFold(env, [], ReferenceConfig)), intro, env.sys) == Fail(KeyError)
  {
    ReferenceConfigFull(env);
    CatalogKeys();
    var names := ["NAMES", "LABELS", "OBJECT PROPERTIES", "RELATIONSHIPS VISUAL"];
    assert forall i :: 0 <= i < 3 ==> names[i] in Keys(Catalog);
    BlankTranscript(names, 3, intro, env.sys);
  }

  /** `aq_tuple` of the later configuration, whose modes match the phase table. */
  const LaterConfig: seq<AqTuple> := [
    AqTuple("LABELS", "dense-thresh", []),
    AqTuple("NAMES", "dense-klim", []),
    AqTuple("OBJECT PROPERTIES", "launch", [PNone, PInt(3), PBool(true)]),
    AqTuple("RELATIONSHIPS NAMES", "dense-klim", [])
  ]

  /**
   * With every launch entry long enough and distinct names, filtering never raises, and
   * after the first `k` entries the partial dict holds exactly their names, in order.
   */
  lemma FilterFoldWellFormed(f: Filterer, full: Dict<seq<Pair>>, aqs: seq<AqTuple>, k: nat)
    requires LaunchesHaveSlot(aqs) && NoDup(Names(aqs)) && k <= |aqs|
    ensures var st := FilterFold(f, full, aqs[..k]);
      st.crashed.None? && Keys(st.filtered) == Names(aqs)[..k]
  {
    var pre := aqs[..k];
    assert Names(pre) == Names(aqs)[..k];
    assert LaunchesHaveSlot(pre) && NoDup(Names(pre));
    FilterFoldCrash(f, full, pre);
    FilterFoldKeys(f, full, pre);
  }

  /**
   * The later configuration meets the conditions of FilterFoldWellFormed: filtering under it
   * never raises, keeps its four names in order, and its OBJECT PROPERTIES launch (third
   * entry) sees a partial dict holding exactly LABELS and NAMES.
   */
  lemma LaterConfigShape()
    ensures LaunchesHaveSlot(LaterConfig) && NoDup(Names(LaterConfig))
    ensures Names(LaterConfig) == ["LABELS", "NAMES", "OBJECT PROPERTIES", "RELATIONSHIPS NAMES"]
    ensures LaterConfig[2].mode == "launch" && |LaterConfig[2].args| > 0
  {
  }
}
