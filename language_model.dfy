/**
 * The chat side of the language-model wrappers: the message history built from few-shot
 * examples, the messages sent for one exchange, and the clean-up of a model's reply.
 * Three variants: the official one, version 5 (model and embedder fall back to the first
 * available) and version 8.7 (the system prompt is sent first and the history never grows).
 */
module LanguageModels {
  import opened Wrappers
  import opened Text
  import opened Values

  datatype Role = System | User | Assistant

  datatype Message = Message(role: Role, content: string)

  /** A few-shot example as the prompt files hold it: a dict with `user_query` and `cypher_query`. */
  type Example = Dict<string>

  const DefaultSysPrompt: string := "You are a helpful assistant."

  /** An example with both keys the history needs. */
  predicate Complete(ex: Example)
  {
    "user_query" in Keys(ex) && "cypher_query" in Keys(ex)
  }

  /** The user message and the assistant message of one example; a missing key raises KeyError. */
  function ExamplePair(ex: Example): Result<seq<Message>>
  {
    match Get(ex, "user_query")
    case None => Fail(KeyError)
    case Some(q) =>
      match Get(ex, "cypher_query")
      case None => Fail(KeyError)
      case Some(c) => Ok([Message(User, q), Message(Assistant, c)])
  }

  /** `start` followed by the messages of the examples, in order. */
  function WithExamples(start: seq<Message>, examples: seq<Example>): Result<seq<Message>>
  {
    if |examples| == 0 then Ok(start)
    else
      match WithExamples(start, examples[..|examples| - 1])
      case Fail(e) => Fail(e)
      case Ok(h) =>
        match ExamplePair(examples[|examples| - 1])
        case Fail(e) => Fail(e)
        case Ok(pair) => Ok(h + pair)
  }

  /** The history is built exactly when every example has both keys; otherwise the failure is a KeyError. */
  lemma {:induction false} WithExamplesOk(start: seq<Message>, examples: seq<Example>)
    ensures WithExamples(start, examples).Ok? <==> forall i :: 0 <= i < |examples| ==> Complete(examples[i])
    ensures WithExamples(start, examples).Fail? ==> WithExamples(start, examples).error == KeyError
  {
    if |examples| > 0 {
      var init := examples[..|examples| - 1];
      WithExamplesOk(start, init);
      if WithExamples(start, init).Fail? {
        var i :| 0 <= i < |init| && !Complete(init[i]);
        assert examples[i] == init[i];
      }
    }
  }

  /** A built history keeps `start` and adds one user/assistant pair per example, in order. */
  lemma {:induction false} WithExamplesShape(start: seq<Message>, examples: seq<Example>)
    requires forall i :: 0 <= i < |examples| ==> Complete(examples[i])
    ensures WithExamples(start, examples).Ok?
    ensures var h := WithExamples(start, examples).value;
      |h| == |start| + 2 * |examples| && h[..|start|] == start &&
      forall i :: 0 <= i < |examples| ==>
        Get(examples[i], "user_query").Some? && Get(examples[i], "cypher_query").Some? &&
        h[|start| + 2 * i] == Message(User, Get(examples[i], "user_query").value) &&
        h[|start| + 2 * i + 1] == Message(Assistant, Get(examples[i], "cypher_query").value)
  {
    WithExamplesOk(start, examples);
    if |examples| > 0 {
      var init := examples[..|examples| - 1];
      var last := examples[|examples| - 1];
      WithExamplesShape(start, init);
      var h := WithExamples(start, init).value;
      var h' := WithExamples(start, examples).value;
      assert h' == h + ExamplePair(last).value;
      forall i | 0 <= i < |examples|
        ensures h'[|start| + 2 * i] == Message(User, Get(examples[i], "user_query").value)
        ensures h'[|start| + 2 * i + 1] == Message(Assistant, Get(examples[i], "cypher_query").value)
      {
        if i < |init| {
          assert examples[i] == init[i];
        }
      }
      assert h'[..|start|] == h[..|start|];
    }
  }

  /** One more example extends the history by its pair. */
  lemma WithExamplesStep(start: seq<Message>, xs: seq<Example>, i: nat, h: seq<Message>, pair: seq<Message>)
    requires i < |xs| && WithExamples(start, xs[..i]) == Ok(h) && ExamplePair(xs[i]) == Ok(pair)
    ensures WithExamples(start, xs[..i + 1]) == Ok(h + pair)
  {
    assert xs[..i + 1][..i] == xs[..i];
  }

  /** Once the history fails on a prefix of the examples, it fails on all of them. */
  lemma {:induction false} WithExamplesStuck(start: seq<Message>, examples: seq<Example>, k: nat)
    requires k <= |examples| && WithExamples(start, examples[..k]).Fail?
    ensures WithExamples(start, examples) == WithExamples(start, examples[..k])
    decreases |examples|
  {
    if k < |examples| {
      assert examples[..|examples| - 1][..k] == examples[..k];
      WithExamplesStuck(start, examples[..|examples| - 1], k);
    } else {
      assert examples[..k] == examples;
    }
  }

  /** The loop shared by init_history and init_examples: two messages appended per example. */
  method AppendExamples(start: seq<Message>, examples: Option<seq<Example>>) returns (r: Result<seq<Message>>)
    ensures r == if examples.None? then Ok(start) else WithExamples(start, examples.value)
  {
    if examples.None? {
      return Ok(start);
    }
    var xs := examples.value;
    var history := start;
    for i := 0 to |xs|
      invariant WithExamples(start, xs[..i]) == Ok(history)
    {
      assert xs[..i + 1][..i] == xs[..i];
      var user := Get(xs[i], "user_query");
      if user.None? {
        WithExamplesStuck(start, xs, i + 1);
        return Fail(KeyError);
      }
      ghost var before := history;
      history := history + [Message(User, user.value)];
      var cypher := Get(xs[i], "cypher_query");
      if cypher.None? {
        WithExamplesStuck(start, xs, i + 1);
        return Fail(KeyError);
      }
      WithExamplesStep(start, xs, i, before, [Message(User, user.value), Message(Assistant, cypher.value)]);
      history := history + [Message(Assistant, cypher.value)];
      assert history == before + [Message(User, user.value), Message(Assistant, cypher.value)];
    }
    assert xs[..|xs|] == xs;
    r := Ok(history);
  }

  /** The examples a constructor was given, `None` meaning none. */
  function ExampleList(examples: Option<seq<Example>>): seq<Example>
  {
    if examples.None? then [] else examples.value
  }

  /** init_history: the system message, then one user/assistant pair per example, for 1 + 2n messages. */
  lemma InitialHistorySpec(sysPrompt: string, examples: Option<seq<Example>>)
    ensures var h := WithExamples([Message(System, sysPrompt)], ExampleList(examples));
      (h.Ok? <==> forall i :: 0 <= i < |ExampleList(examples)| ==> Complete(ExampleList(examples)[i])) &&
      (h.Ok? ==> |h.value| == 1 + 2 * |ExampleList(examples)| && h.value[0] == Message(System, sysPrompt))
  {
    WithExamplesOk([Message(System, sysPrompt)], ExampleList(examples));
    if forall i :: 0 <= i < |ExampleList(examples)| ==> Complete(ExampleList(examples)[i]) {
      WithExamplesShape([Message(System, sysPrompt)], ExampleList(examples));
    }
  }

  // ---------------------------------------------------------------------------
  // complete_response of the official version and of version 5

  const ThinkModels: seq<string> := ["qwen3:8b", "phi4-mini-reasoning"]

  /** For the two reasoning models, the text after the first `</think>` that follows `<think>`. */
  function CompleteResponse(model: Option<string>, response: string): Result<string>
  {
    if model.Some? && model.value in ThinkModels then
      match SplitOnce(response, "<think>")
      case Fail(e) => Fail(e)
      case Ok((_, think)) =>
        match SplitOnce(think, "</think>")
        case Fail(e) => Fail(e)
        case Ok((_, final)) => Ok(final)
    else Ok(response)
  }

  /**
   * Any other model gets its reply back unchanged. For a reasoning model the reply must hold
   * `<think>` and, after it, `</think>` (else ValueError), and what comes back is the text
   * after them: the reply is `a + "<think>" + b + "</think>" + result` at the first of each.
   */
  lemma CompleteResponseSpec(model: Option<string>, response: string)
    ensures !(model.Some? && model.value in ThinkModels) ==> CompleteResponse(model, response) == Ok(response)
    ensures model.Some? && model.value in ThinkModels ==>
      (CompleteResponse(model, response).Ok? <==>
        Contains(response, "<think>") && Contains(SplitOnce(response, "<think>").value.1, "</think>"))
    ensures CompleteResponse(model, response).Fail? ==> CompleteResponse(model, response).error == ValueError
    ensures model.Some? && model.value in ThinkModels && CompleteResponse(model, response).Ok? ==>
      exists a, b :: response == a + "<think>" + b + "</think>" + CompleteResponse(model, response).value &&
        !Contains(a, "<think>") && !Contains(b, "</think>")
  {
    if model.Some? && model.value in ThinkModels && CompleteResponse(model, response).Ok? {
      var (a, think) := SplitOnce(response, "<think>").value;
      var (b, final) := SplitOnce(think, "</think>").value;
      assert response == a + "<think>" + b + "</think>" + final;
    }
  }

  /** A reasoning model's reply whose preamble and reasoning hold no `<` comes back as the text after `</think>`. */
  lemma CompleteResponseRoundTrip(model: Option<string>, a: string, b: string, c: string)
    requires model.Some? && model.value in ThinkModels
    requires '<' !in a && '<' !in b
    ensures CompleteResponse(model, a + "<think>" + b + "</think>" + c) == Ok(c)
  {
    assert "<think>"[0] == '<' && "</think>"[0] == '<';
    SplitOnceAt(a, "<think>", b + "</think>" + c);
    assert a + "<think>" + b + "</think>" + c == a + "<think>" + (b + "</think>" + c);
    SplitOnceAt(b, "</think>", c);
  }

  // ---------------------------------------------------------------------------
  // complete_response of version 8.7

  function CompleteResponseV8(response: string): Result<string>
  {
    if Contains(response, "</think>") then
      Ok(Strip(SplitOnce(response, "</think>").value.1))
    else if Contains(response, "```cypher") then
      match SplitOnce(SplitOnce(response, "```cypher").value.1, "```")
      case Fail(e) => Fail(e)
      case Ok((final, _)) => Ok(Strip(final))
    else Ok(Strip(response))
  }

  /** No branch returns leading or trailing whitespace. */
  lemma CompleteResponseV8Stripped(response: string)
    ensures var r := CompleteResponseV8(response);
      r.Ok? ==> |r.value| == 0 || (!IsSpace(r.value[0]) && !IsSpace(r.value[|r.value| - 1]))
  {
  }

  /**
   * The only failure is a ```` ```cypher ```` fence without a closing ```` ``` ```` in a reply
   * without `</think>`, a ValueError of the second split.
   */
  lemma CompleteResponseV8Fails(response: string)
    ensures CompleteResponseV8(response).Fail? <==>
      !Contains(response, "</think>") && Contains(response, "```cypher") &&
      !Contains(SplitOnce(response, "```cypher").value.1, "```")
    ensures CompleteResponseV8(response).Fail? ==> CompleteResponseV8(response).error == ValueError
  {
  }

  /** A text without `<` cannot contain `</think>`. */
  lemma NoThinkTag(s: string)
    requires '<' !in s
    ensures !Contains(s, "</think>")
  {
    assert "</think>"[0] == '<';
    forall i | 0 <= i ensures !OccursAt(s, "</think>", i) {
      if i + 8 <= |s| {
        assert s[i] == s[i..i + 8][0];
        assert s[i] in s;
      }
    }
  }

  /** After `</think>` the stripped rest is the answer, whatever fences it holds. */
  lemma CompleteResponseV8Think(a: string, b: string)
    requires '<' !in a
    ensures CompleteResponseV8(a + "</think>" + b) == Ok(Strip(b))
  {
    assert "</think>"[0] == '<';
    SplitOnceAt(a, "</think>", b);
  }

  /** Without `</think>`, the stripped body of the first Cypher fence is the answer. */
  lemma CompleteResponseV8Fence(a: string, q: string, c: string)
    requires '<' !in a && '<' !in q && '<' !in c
    requires '`' !in a && '`' !in q
    ensures CompleteResponseV8(a + "```cypher" + q + "```" + c) == Ok(Strip(q))
  {
    var s := a + "```cypher" + q + "```" + c;
    assert '<' !in s by {
      assert s == a + "```cypher" + q + "```" + c;
      assert '<' !in "```cypher" && '<' !in "```";
    }
    NoThinkTag(s);
    assert "```cypher"[0] == '`' && "```"[0] == '`';
    assert s == a + "```cypher" + (q + "```" + c);
    SplitOnceAt(a, "```cypher", q + "```" + c);
    SplitOnceAt(q, "```", c);
  }

  // ---------------------------------------------------------------------------
  // The official LanguageModel

  class LanguageModel {
    var modelName: Option<string>
    var sysPrompt: string
    var chatHistory: seq<Message>
    var updHistory: bool

    constructor (modelName: Option<string>, sysPrompt: string, updHistory: bool)
      ensures this.modelName == modelName && this.sysPrompt == sysPrompt
      ensures this.chatHistory == [] && this.updHistory == updHistory
    {
      this.modelName := modelName;
      this.sysPrompt := sysPrompt;
      this.chatHistory := [];
      this.updHistory := updHistory;
    }

    /** `__init__`: the default system prompt when none is given, and the history from the examples. */
    static method New(modelName: Option<string>, sysPrompt: Option<string>, examples: Option<seq<Example>>,
                      historyUpdFlag: bool := false) returns (r: Result<LanguageModel>)
      ensures var prompt := if sysPrompt.None? then DefaultSysPrompt else sysPrompt.value;
        var h := WithExamples([Message(System, prompt)], ExampleList(examples));
        (h.Fail? ==> r == Fail(h.error)) &&
        (h.Ok? ==> r.Ok? && fresh(r.value) && r.value.modelName == modelName && r.value.sysPrompt == prompt &&
                   r.value.chatHistory == h.value && r.value.updHistory == historyUpdFlag)
    {
      var prompt := if sysPrompt.None? then DefaultSysPrompt else sysPrompt.value;
      var m := new LanguageModel(modelName, prompt, historyUpdFlag);
      var h := m.InitHistory(examples);
      if h.Fail? {
        return Fail(h.error);
      }
      m.chatHistory := h.value;
      r := Ok(m);
    }

    /** init_history: the system message with the current system prompt, then the examples. */
    method InitHistory(examples: Option<seq<Example>>) returns (r: Result<seq<Message>>)
      ensures r == WithExamples([Message(System, sysPrompt)], ExampleList(examples))
    {
      r := AppendExamples([Message(System, sysPrompt)], examples);
    }

    /**
     * The message handling of launch_chat: a given prompt replaces the system prompt, the
     * history is sent followed by the system prompt and the question, and with the update
     * flag set what was sent becomes the history.
     */
    method LaunchChat(query: string, promptUpd: Option<string>) returns (messages: seq<Message>)
      modifies this
      ensures sysPrompt == if promptUpd.Some? then promptUpd.value else old(sysPrompt)
      ensures messages == old(chatHistory) + [Message(System, sysPrompt), Message(User, query)]
      ensures chatHistory == if updHistory then messages else old(chatHistory)
      ensures updHistory == old(updHistory) && modelName == old(modelName)
    {
      if promptUpd.Some? {
        sysPrompt := promptUpd.value;
      }
      messages := chatHistory + [Message(System, sysPrompt), Message(User, query)];
      if updHistory {
        chatHistory := messages;
      }
    }
  }

  /** With the update flag set, every exchange adds two messages to the history; without it, none. */
  lemma HistoryGrowth(before: seq<Message>, sysPrompt: string, query: string, upd: bool)
    ensures var messages := before + [Message(System, sysPrompt), Message(User, query)];
      var after := if upd then messages else before;
      |after| == |before| + (if upd then 2 else 0) && before <= after
  {
  }

  // ---------------------------------------------------------------------------
  // Version 5: models and embedders fall back to the first available one.

  /** The requested name when installed, else the first installed one; no alternatives at all is an IndexError. */
  function Fallback(name: Option<string>, avail: seq<string>): Result<string>
  {
    if name.Some? && name.value in avail then Ok(name.value)
    else if |avail| == 0 then Fail(IndexError)
    else Ok(avail[0])
  }

  /** The chosen name is always one of the available ones, and it is the requested one exactly when that is available. */
  lemma FallbackSpec(name: Option<string>, avail: seq<string>)
    ensures Fallback(name, avail).Ok? <==> |avail| > 0
    ensures Fallback(name, avail).Ok? ==> Fallback(name, avail).value in avail
    ensures name.Some? && name.value in avail ==> Fallback(name, avail) == Ok(name.value)
    ensures !(name.Some? && name.value in avail) && |avail| > 0 ==> Fallback(name, avail) == Ok(avail[0])
  {
  }

  class LanguageModelV5 {
    var model: string
    var embedder: string
    var sysPrompt: string
    var chatHistory: seq<Message>
    var updHistory: bool

    constructor (model: string, embedder: string, sysPrompt: string, chatHistory: seq<Message>, updHistory: bool)
      ensures this.model == model && this.embedder == embedder && this.sysPrompt == sysPrompt
      ensures this.chatHistory == chatHistory && this.updHistory == updHistory
    {
      this.model := model;
      this.embedder := embedder;
      this.sysPrompt := sysPrompt;
      this.chatHistory := chatHistory;
      this.updHistory := updHistory;
    }

    /**
     * `__init__`: the model falls back to `models[0]`, the history is built from the
     * examples, then the embedder falls back to `embedders[0]`, in that order.
     */
    static method New(models: seq<string>, embedders: seq<string>, modelName: Option<string>, sysPrompt: Option<string>,
                      examples: Option<seq<Example>>, historyUpdFlag: bool := true,
                      embedderName: Option<string> := None) returns (r: Result<LanguageModelV5>)
      ensures var prompt := if sysPrompt.None? then DefaultSysPrompt else sysPrompt.value;
        var h := WithExamples([Message(System, prompt)], ExampleList(examples));
        var m := Fallback(modelName, models);
        var e := Fallback(embedderName, embedders);
        (m.Fail? ==> r == Fail(m.error)) &&
        (m.Ok? && h.Fail? ==> r == Fail(h.error)) &&
        (m.Ok? && h.Ok? && e.Fail? ==> r == Fail(e.error)) &&
        (m.Ok? && h.Ok? && e.Ok? ==>
          r.Ok? && fresh(r.value) && r.value.model == m.value && r.value.embedder == e.value &&
          r.value.sysPrompt == prompt && r.value.chatHistory == h.value && r.value.updHistory == historyUpdFlag)
    {
      var prompt := if sysPrompt.None? then DefaultSysPrompt else sysPrompt.value;
      var model := Fallback(modelName, models);
      if model.Fail? {
        return Fail(model.error);
      }
      var history := AppendExamples([Message(System, prompt)], examples);
      if history.Fail? {
        return Fail(history.error);
      }
      var embedder := Fallback(embedderName, embedders);
      if embedder.Fail? {
        return Fail(embedder.error);
      }
      var lm := new LanguageModelV5(model.value, embedder.value, prompt, history.value, historyUpdFlag);
      r := Ok(lm);
    }

    /** launch_chat of version 5: the same message handling as the official one. */
    method LaunchChat(query: string, promptUpd: Option<string>) returns (messages: seq<Message>)
      modifies this
      ensures sysPrompt == if promptUpd.Some? then promptUpd.value else old(sysPrompt)
      ensures messages == old(chatHistory) + [Message(System, sysPrompt), Message(User, query)]
      ensures chatHistory == if updHistory then messages else old(chatHistory)
      ensures updHistory == old(updHistory) && model == old(model) && embedder == old(embedder)
    {
      if promptUpd.Some? {
        sysPrompt := promptUpd.value;
      }
      messages := chatHistory + [Message(System, sysPrompt), Message(User, query)];
      if updHistory {
        chatHistory := messages;
      }
    }

    /** complete_response of version 5, on the model the constructor settled on. */
    function Complete(response: string): Result<string>
      reads this
    {
      CompleteResponse(Some(model), response)
    }
  }

  /** The example messages alone alternate user, assistant, user, ... and number two per example. */
  lemma AlternatingRoles(ex: seq<Example>)
    requires forall i :: 0 <= i < |ex| ==> Complete(ex[i])
    ensures WithExamples([], ex).Ok?
    ensures var h := WithExamples([], ex).value;
      |h| == 2 * |ex| && forall i :: 0 <= i < |h| ==> h[i].role == if i % 2 == 0 then User else Assistant
  {
    WithExamplesShape([], ex);
    var h := WithExamples([], ex).value;
    forall i | 0 <= i < |h| ensures h[i].role == if i % 2 == 0 then User else Assistant {
      var k := i / 2;
      var e := ex[k];
      if i % 2 == 0 {
        assert i == 2 * k;
        assert h[2 * k].role == User;
      } else {
        assert i == 2 * k + 1;
        assert h[2 * k + 1].role == Assistant;
      }
    }
  }

  // ---------------------------------------------------------------------------
  // Version 8.7: the history holds only the examples and never changes.

  class LanguageModelV8 {
    var modelName: Option<string>
    var sysPrompt: string
    var chatHistory: seq<Message>

    constructor (modelName: Option<string>, sysPrompt: string, chatHistory: seq<Message>)
      ensures this.modelName == modelName && this.sysPrompt == sysPrompt && this.chatHistory == chatHistory
    {
      this.modelName := modelName;
      this.sysPrompt := sysPrompt;
      this.chatHistory := chatHistory;
    }

    /** `__init__`: the default system prompt when none is given, and the example messages as history. */
    static method New(modelName: Option<string>, sysPrompt: Option<string>, examples: Option<seq<Example>>)
      returns (r: Result<LanguageModelV8>)
      ensures var prompt := if sysPrompt.None? then DefaultSysPrompt else sysPrompt.value;
        var h := WithExamples([], ExampleList(examples));
        (h.Fail? ==> r == Fail(h.error)) &&
        (h.Ok? ==> r.Ok? && fresh(r.value) && r.value.modelName == modelName && r.value.sysPrompt == prompt &&
                   r.value.chatHistory == h.value)
    {
      var prompt := if sysPrompt.None? then DefaultSysPrompt else sysPrompt.value;
      var h := InitExamples(examples);
      if h.Fail? {
        return Fail(h.error);
      }
      var lm := new LanguageModelV8(modelName, prompt, h.value);
      r := Ok(lm);
    }

    /** init_examples: exactly two messages per example, user then assistant, and no system message. */
    static method InitExamples(examples: Option<seq<Example>>) returns (r: Result<seq<Message>>)
      ensures r == WithExamples([], ExampleList(examples))
      ensures r.Ok? ==> (|r.value| == 2 * |ExampleList(examples)| &&
        forall i :: 0 <= i < |r.value| ==> r.value[i].role == if i % 2 == 0 then User else Assistant)
    {
      r := AppendExamples([], examples);
      if r.Ok? {
        WithExamplesOk([], ExampleList(examples));
        AlternatingRoles(ExampleList(examples));
      }
    }

    /** launch_chat of version 8.7: the system prompt, the history and the question; the history stays as it is. */
    method LaunchChat(query: string, promptUpd: Option<string>) returns (messages: seq<Message>)
      modifies this
      ensures sysPrompt == if promptUpd.Some? then promptUpd.value else old(sysPrompt)
      ensures messages == [Message(System, sysPrompt)] + chatHistory + [Message(User, query)]
      ensures chatHistory == old(chatHistory) && modelName == old(modelName)
    {
      if promptUpd.Some? {
        sysPrompt := promptUpd.value;
      }
      messages := [Message(System, sysPrompt)] + chatHistory + [Message(User, query)];
    }
  }
}
