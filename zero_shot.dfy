/**
 * The zero-shot Cypher generator: a bounded buffer of few-shot examples, the clean-up
 * that extracts a query from a model reply, the prompt built from a detailed schema, and
 * the retry loop that feeds the last error back to the model.
 */
module ZeroShot {
  import opened Wrappers
  import opened Text
  import opened Values

  /** A few-shot example: `{"user": question, "query": cypher}`. */
  datatype Shot = Shot(user: string, query: string)

  /** How many examples the buffer keeps. */
  const MaxShots := 5

  /** `xs[-5:]` when there are more than five, else `xs`. */
  function LastShots(xs: seq<Shot>): (r: seq<Shot>)
  {
    if |xs| > MaxShots then xs[|xs| - MaxShots..] else xs
  }

  /** Trimming keeps the five most recent examples, or all of them when there are fewer, in insertion order. */
  lemma LastShotsSpec(xs: seq<Shot>)
    ensures |LastShots(xs)| == if |xs| < MaxShots then |xs| else MaxShots
    ensures LastShots(xs) == xs[|xs| - |LastShots(xs)|..]
  {
  }

  /** Trimming after every addition keeps the same examples as trimming once at the end. */
  lemma LastShotsTrim(xs: seq<Shot>, x: Shot)
    ensures LastShots(LastShots(xs) + [x]) == LastShots(xs + [x])
  {
    if |xs| > MaxShots {
      assert LastShots(LastShots(xs) + [x]) == xs[|xs| - MaxShots + 1..] + [x];
    }
  }

  // ---------------------------------------------------------------------------
  // _extract_cypher_query

  /** `\s*` from `i`: the first index at or after `i` that is not whitespace. */
  function WsEnd(s: string, i: nat): (r: nat)
    requires i <= |s|
    ensures i <= r <= |s|
    ensures forall j :: i <= j < r ==> IsSpace(s[j])
    ensures r == |s| || !IsSpace(s[r])
    decreases |s| - i
  {
    if i < |s| && IsSpace(s[i]) then WsEnd(s, i + 1) else i
  }

  /** `\s*` followed by a closing fence matches at `k`. */
  predicate ClosesAt(s: string, k: nat)
    requires k <= |s|
  {
    OccursAt(s, "```", WsEnd(s, k))
  }

  /** The lazy group `(.*?)` from `b`: the first end after which a closing fence can follow. */
  function CloseFrom(s: string, b: nat): (r: Option<nat>)
    requires b <= |s|
    ensures r.Some? ==> b <= r.value <= |s| && ClosesAt(s, r.value) && forall k :: b <= k < r.value ==> !ClosesAt(s, k)
    ensures r.None? ==> forall k :: b <= k <= |s| ==> !ClosesAt(s, k)
    decreases |s| - b
  {
    if ClosesAt(s, b) then Some(b) else if b == |s| then None else CloseFrom(s, b + 1)
  }

  /** The end of the optional `cypher` tag, matched in any case, starting from `q`. */
  function TagEnd(s: string, q: nat): (r: nat)
    requires q <= |s|
    ensures r <= |s|
  {
    if q + 6 <= |s| && Lower(s[q..q + 6]) == "cypher" then q + 6 else q
  }

  /**
   * The body of a fence opened at `p` (three backticks, an optional `cypher` tag in any case, then
   * whitespace), up to the shortest closing fence, with whitespace trimmed; if one opens there.
   * The optional tag never needs to be given back: it holds no backtick, so a closing fence
   * after it exists exactly when one exists without it.
   */
  function MatchAt(s: string, p: nat): Option<string>
    requires OccursAt(s, "```", p)
  {
    var b := WsEnd(s, TagEnd(s, p + 3));
    match CloseFrom(s, b)
    case None => None
    case Some(k) => Some(s[b..k])
  }

  /** The body of the leftmost fence match at or after `p`, as the first regex match gives it. */
  function FirstMatch(s: string, p: nat): Option<string>
    decreases |s| - p
  {
    if p + 3 > |s| then None
    else if OccursAt(s, "```", p) && MatchAt(s, p).Some? then MatchAt(s, p)
    else FirstMatch(s, p + 1)
  }

  /** A kept line of the reply: non-empty and not a `#` or `//` comment. */
  predicate IsQueryLine(line: string)
  {
    |line| > 0 && !("#" <= line) && !("//" <= line)
  }

  /** What one line of the reply contributes: its stripped form when that is a query line. */
  function KeptLine(line: string): seq<string>
  {
    var l := Strip(line);
    if IsQueryLine(l) then [l] else []
  }

  /** The stripped query lines, in order. */
  function QueryLines(lines: seq<string>): seq<string>
  {
    FlatMap(KeptLine, lines)
  }

  /** The query up to and including its first `;`, when it holds one. */
  function CutAtSemicolon(query: string): string
  {
    if ';' in query then SplitChar(query, ';')[0] + ";" else query
  }

  /** The fenced block's content when there is one, else the reply itself. */
  function Unfenced(response: string): string
  {
    if Contains(response, "```") && FirstMatch(response, 0).Some? then Strip(FirstMatch(response, 0).value) else response
  }

  function Extract(llmResponse: string): string
  {
    var response := Unfenced(Strip(llmResponse));
    CutAtSemicolon(Strip(Join(" ", QueryLines(SplitChar(response, '\n')))))
  }

  /** _extract_cypher_query: unfence, keep the query lines, join them with spaces, cut after the first `;`. */
  method ExtractCypherQuery(llmResponse: string) returns (query: string)
    ensures query == Extract(llmResponse)
  {
    var response := Unfenced(Strip(llmResponse));
    var lines := SplitChar(response, '\n');
    var queryLines: seq<string> := [];
    for i := 0 to |lines|
      invariant queryLines == QueryLines(lines[..i])
    {
      FlatMapStep(KeptLine, lines, i);
      var line := Strip(lines[i]);
      if |line| > 0 && !("#" <= line) && !("//" <= line) {
        queryLines := queryLines + [line];
      }
    }
    assert lines[..|lines|] == lines;
    query := Strip(Join(" ", queryLines));
    if ';' in query {
      query := SplitChar(query, ';')[0] + ";";
    }
  }

  /** A query line with no whitespace at either end. */
  predicate Clean(line: string)
  {
    IsQueryLine(line) && !IsSpace(line[0]) && !IsSpace(line[|line| - 1])
  }

  /** `x` is the stripped form of line `i` of the reply and is a query line. */
  predicate KeptAt(lines: seq<string>, i: nat, x: string)
  {
    i < |lines| && x == Strip(lines[i]) && IsQueryLine(x)
  }

  /** What a line contributes is its stripped form, which has no surrounding whitespace. */
  lemma KeptLineClean(line: string, x: string)
    requires x in KeptLine(line)
    ensures x == Strip(line) && Clean(x)
  {
  }

  /** Every kept line is the stripped form of some line of the reply, and so has no surrounding whitespace. */
  lemma QueryLinesFrom(lines: seq<string>, x: string)
    requires x in QueryLines(lines)
    ensures exists i :: KeptAt(lines, i, x)
    ensures Clean(x)
  {
    FlatMapFrom(KeptLine, lines, x);
    var i :| 0 <= i < |lines| && x in KeptLine(lines[i]);
    KeptLineClean(lines[i], x);
    assert KeptAt(lines, i, x);
  }

  /** Every line of the reply whose stripped form is a query line is kept. */
  lemma QueryLinesKeep(lines: seq<string>, i: nat)
    requires i < |lines| && IsQueryLine(Strip(lines[i]))
    ensures Strip(lines[i]) in QueryLines(lines)
  {
    FlatMapHas(KeptLine, lines, i, Strip(lines[i]));
  }

  /**
   * With a `;`, the query ends right after its first `;`, which is then its only one, and
   * what precedes it starts the original; without one the query is unchanged.
   */
  lemma CutAtSemicolonSpec(query: string)
    ensures var r := CutAtSemicolon(query);
      ';' in query ==> |r| > 0 && r[|r| - 1] == ';' && ';' !in r[..|r| - 1] && r <= query
    ensures ';' !in query ==> CutAtSemicolon(query) == query
  {
    if ';' in query {
      SplitCharFirst(query, ';');
      var r := CutAtSemicolon(query);
      assert r[..|r| - 1] == SplitChar(query, ';')[0];
    }
  }

  // ---------------------------------------------------------------------------
  // The fenced block of a typical reply

  /** No closing fence can start inside a stretch without backticks. */
  lemma NoFenceAt(s: string, r: nat)
    requires r < |s| && s[r] != '`'
    ensures !OccursAt(s, "```", r)
  {
  }

  /** The leftmost match skips a prefix in which no fence starts. */
  lemma {:induction false} FirstMatchSkip(s: string, i: nat, p: nat)
    requires i <= p && p + 3 <= |s|
    requires forall j :: i <= j < p ==> !OccursAt(s, "```", j)
    ensures FirstMatch(s, i) == FirstMatch(s, p)
    decreases p - i
  {
    if i < p {
      FirstMatchSkip(s, i + 1, p);
    }
  }

  /** `\s*` from `i` ends at `j` when only whitespace lies between them and none follows. */
  lemma {:induction false} WsEndRun(s: string, i: nat, j: nat)
    requires i <= j <= |s|
    requires forall k :: i <= k < j ==> IsSpace(s[k])
    requires j == |s| || !IsSpace(s[j])
    ensures WsEnd(s, i) == j
    decreases j - i
  {
    if i < j {
      WsEndRun(s, i + 1, j);
    }
  }

  /**
   * The pattern matched at an opening fence at `p` whose optional tag ends at `t` captures
   * the text from `b` to `e`, when only whitespace lies from `t` to `b` and from `e` to a
   * closing fence at `f`, and the captured text holds no backtick and has no surrounding
   * whitespace.
   */
  lemma MatchAtBody(s: string, p: nat, t: nat, b: nat, e: nat, f: nat)
    requires p + 3 <= t <= b < e <= f && f + 3 <= |s|
    requires OccursAt(s, "```", p) && TagEnd(s, p + 3) == t
    requires forall k :: t <= k < b ==> IsSpace(s[k])
    requires !IsSpace(s[b]) && !IsSpace(s[e - 1])
    requires forall k :: b <= k < e ==> s[k] != '`'
    requires forall k :: e <= k < f ==> IsSpace(s[k])
    requires OccursAt(s, "```", f)
    ensures MatchAt(s, p) == Some(s[b..e])
  {
    WsEndRun(s, t, b);
    assert s[f] == s[f..f + 3][0];
    WsEndRun(s, e, f);
    assert ClosesAt(s, e);
    forall k | b <= k < e
      ensures !ClosesAt(s, k)
    {
      var r := WsEnd(s, k);
      assert r <= e - 1;
      NoFenceAt(s, r);
    }
  }

  /** A single clean query line passes the line filter unchanged, cut after its first `;`. */
  lemma OneLine(q: string)
    requires '\n' !in q && Clean(q)
    ensures CutAtSemicolon(Strip(Join(" ", QueryLines(SplitChar(q, '\n'))))) == CutAtSemicolon(q)
  {
    SplitCharAbsent(q, '\n');
    StripStripped(q);
    assert KeptLine(q) == [q];
    FlatMapStep(KeptLine, [q], 0);
    assert [q][..1] == [q] && [q][..0] == [];
  }

  lemma OpeningPieces(t: string)
    requires t == "```cypher\n"
    ensures t[..3] == "```" && t[3..9] == "cypher" && t[9] == '\n'
    ensures Lower("cypher") == "cypher"
  {
  }

  lemma ClosingPieces(t: string)
    requires t == "\n```"
    ensures t[0] == '\n' && t[1..] == "```"
  {
  }

  /**
   * A fence tagged `cypher` at `p`, a newline, a query line, a newline and a closing fence
   * match with the query line as the group, when the query holds no backtick.
   */
  lemma FencedMatchAt(s: string, p: nat, q: string)
    requires '`' !in q && Clean(q)
    requires p + |q| + 14 <= |s|
    requires s[p..p + 10] == "```cypher\n"
    requires s[p + 10..p + 10 + |q|] == q
    requires s[p + 10 + |q|..p + 14 + |q|] == "\n```"
    ensures OccursAt(s, "```", p) && MatchAt(s, p) == Some(q)
  {
    var b := p + 10;
    var e := b + |q|;
    var open := s[p..b];
    OpeningPieces(open);
    assert s[p..p + 3] == open[..3];
    assert s[p + 3..p + 9] == open[3..9];
    assert s[p + 9] == open[9];
    var close := s[e..e + 4];
    ClosingPieces(close);
    assert s[e + 1..e + 4] == close[1..];
    assert s[e] == close[0];
    forall k | b <= k < e
      ensures s[k] != '`'
    {
      assert s[k] == q[k - b];
    }
    assert s[b] == q[0] && s[e - 1] == q[|q| - 1];
    MatchAtBody(s, p, p + 9, b, e, e + 1);
  }

  /**
   * In a reply `a`, a fence tagged `cypher`, a newline, a query line, a newline and a
   * closing fence, the first match is the query line, when `a` and the query hold no backtick.
   */
  lemma FencedMatch(a: string, q: string, c: string)
    requires '`' !in a && '`' !in q && Clean(q)
    ensures FirstMatch(a + "```cypher\n" + q + "\n```" + c, 0) == Some(q)
  {
    var s := a + "```cypher\n" + q + "\n```" + c;
    var p := |a|;
    assert s[p..p + 10] == "```cypher\n";
    assert s[p + 10..p + 10 + |q|] == q;
    assert s[p + 10 + |q|..p + 14 + |q|] == "\n```";
    forall j | 0 <= j < p
      ensures !OccursAt(s, "```", j)
    {
      assert s[j] == a[j];
      NoFenceAt(s, j);
    }
    FirstMatchSkip(s, 0, p);
    FencedMatchAt(s, p, q);
  }

  /**
   * A reply holding one Cypher fence around a one-line query gives that query, cut after
   * its first `;`, when the text around the fence has no backticks and no surrounding
   * whitespace.
   */
  lemma ExtractFenced(a: string, q: string, c: string)
    requires '`' !in a && '`' !in q && '\n' !in q && Clean(q)
    requires |a| == 0 || !IsSpace(a[0])
    requires |c| == 0 || !IsSpace(c[|c| - 1])
    ensures Extract(a + "```cypher\n" + q + "\n```" + c) == CutAtSemicolon(q)
  {
    var s := a + "```cypher\n" + q + "\n```" + c;
    FencedMatch(a, q, c);
    assert OccursAt(s, "```", |a|) by {
      assert s[|a|..|a| + 3] == "```";
    }
    assert Contains(s, "```");
    assert s[0] == if |a| == 0 then '`' else a[0];
    assert s[|s| - 1] == if |c| == 0 then '`' else c[|c| - 1];
    StripStripped(s);
    StripStripped(q);
    assert Unfenced(s) == q;
    OneLine(q);
  }

  /**
   * A reply without any fence is its own query text: a single query line without `;`
   * comes back as it is.
   */
  lemma ExtractPlain(q: string)
    requires '`' !in q && '\n' !in q && ';' !in q && Clean(q)
    ensures Extract(q) == q
  {
    StripStripped(q);
    if Contains(q, "```") {
      var i := Find(q, "```").value;
      NoFenceAt(q, i);
    }
    OneLine(q);
  }

  // ---------------------------------------------------------------------------
  // _build_enhanced_cypher_prompt

  /** One entry of `relationships_structure`: the label lists of both endpoints and the type. */
  datatype Rel = Rel(from: seq<string>, relationship: string, to: seq<string>)

  /** The detailed schema dictionary; a key that is missing is `None`. */
  datatype DetailedSchema = DetailedSchema(
    nodeLabels: Option<seq<string>>,
    relationshipTypes: Option<seq<string>>,
    properties: Option<seq<string>>,
    structure: Option<seq<Rel>>,
    propsPerLabel: Option<Dict<seq<string>>>)

  /** How many relationship patterns, and how many properties per label, the prompt shows. */
  const MaxPatterns := 10
  const MaxLabelProps := 5

  /** `schema.get(key, [])` */
  function OrEmpty(xs: Option<seq<string>>): seq<string>
  {
    if xs.Some? then xs.value else []
  }

  /** A relationship pattern line; the endpoint label lists appear as Python lists. */
  function RelLine(rel: Rel): string
  {
    "\n- " + ListRepr(rel.from) + " -[:" + rel.relationship + "]-> " + ListRepr(rel.to)
  }

  /** A label with its first five properties. */
  function LabelLine(entry: (string, seq<string>)): string
  {
    "\n- " + entry.0 + ": " + Join(", ", TakeUpTo(entry.1, MaxLabelProps))
  }

  /** A few-shot example as the prompt shows it. */
  function ShotText(shot: Shot): string
  {
    "\nUser: " + shot.user + "\nQuery: " + shot.query + "\n"
  }

  function BaseInfo(schema: DetailedSchema): string
  {
    "Database Schema:\n- Node Labels: " + Join(", ", OrEmpty(schema.nodeLabels)) +
    "\n- Relationship Types: " + Join(", ", OrEmpty(schema.relationshipTypes)) +
    "\n- Properties: " + Join(", ", OrEmpty(schema.properties))
  }

  const PatternsHeading := "\n\nRelationship Patterns:"
  const LabelsHeading := "\n\nProperties per Label:"
  const ExamplesHeading := "\n\nExamples:"

  function PatternSection(structure: Option<seq<Rel>>): string
  {
    if structure.None? then "" else PatternsHeading + FlatMap(RelLine, TakeUpTo(structure.value, MaxPatterns))
  }

  function LabelSection(propsPerLabel: Option<Dict<seq<string>>>): string
  {
    if propsPerLabel.None? then "" else LabelsHeading + FlatMap(LabelLine, propsPerLabel.value)
  }

  function ExamplesSection(includeExamples: bool, shots: seq<Shot>): string
  {
    if includeExamples && |shots| > 0 then ExamplesHeading + FlatMap(ShotText, shots) else ""
  }

  const Intro := "You are an expert Cypher query generator. Generate ONLY valid Cypher queries.\n\n"
  const Closing := "\n\nGenerate the Cypher query for:"

  /** `schema_info`: the name lists, then the pattern and label sections when their keys exist. */
  function SchemaInfo(schema: DetailedSchema): string
  {
    BaseInfo(schema) + PatternSection(schema.structure) + LabelSection(schema.propsPerLabel)
  }

  /**
   * The system prompt sent to the model: the introduction, the schema summary, the fixed
   * rule and pattern text (`rules`), the examples and the closing request.
   */
  function EnhancedPrompt(schema: DetailedSchema, rules: string, includeExamples: bool, shots: seq<Shot>): string
  {
    Intro + SchemaInfo(schema) + "\n\n" + rules + ExamplesSection(includeExamples, shots) + Closing
  }

  /** The prompt always opens with the introduction and ends with the request for the query. */
  lemma EnhancedPromptFrame(schema: DetailedSchema, rules: string, includeExamples: bool, shots: seq<Shot>)
    ensures var p := EnhancedPrompt(schema, rules, includeExamples, shots);
      Intro <= p && |p| >= |Intro| + |Closing| && p[|p| - |Closing|..] == Closing
  {
  }

  /** Relationship patterns after the tenth never reach the prompt. */
  lemma PatternsCapped(schema: DetailedSchema, rules: string, includeExamples: bool, shots: seq<Shot>)
    requires schema.structure.Some? && |schema.structure.value| > MaxPatterns
    ensures EnhancedPrompt(schema, rules, includeExamples, shots) ==
      EnhancedPrompt(schema.(structure := Some(schema.structure.value[..MaxPatterns])), rules, includeExamples, shots)
  {
    var rels := schema.structure.value;
    assert TakeUpTo(rels[..MaxPatterns], MaxPatterns) == rels[..MaxPatterns];
  }

  /** `props[:5]` for every label. */
  function CapProps(propsPerLabel: Dict<seq<string>>): (r: Dict<seq<string>>)
    ensures |r| == |propsPerLabel|
    ensures forall i :: 0 <= i < |r| ==> r[i].0 == propsPerLabel[i].0 && |r[i].1| <= MaxLabelProps
  {
    seq(|propsPerLabel|, i requires 0 <= i < |propsPerLabel| =>
      (propsPerLabel[i].0, TakeUpTo(propsPerLabel[i].1, MaxLabelProps)))
  }

  /** Properties of a label after its fifth never reach the prompt. */
  lemma LabelPropsCapped(schema: DetailedSchema, rules: string, includeExamples: bool, shots: seq<Shot>)
    requires schema.propsPerLabel.Some?
    ensures EnhancedPrompt(schema, rules, includeExamples, shots) ==
      EnhancedPrompt(schema.(propsPerLabel := Some(CapProps(schema.propsPerLabel.value))), rules, includeExamples, shots)
  {
    var d := schema.propsPerLabel.value;
    var c := CapProps(d);
    forall i | 0 <= i < |d|
      ensures LabelLine(d[i]) == LabelLine(c[i])
    {
      var t := TakeUpTo(d[i].1, MaxLabelProps);
      assert TakeUpTo(t, MaxLabelProps) == t;
    }
    FlatMapSame(LabelLine, d, c);
  }

  /** The piece of one element is found inside the concatenation of all pieces. */
  lemma PieceShown<T>(f: T -> string, s: seq<T>, i: nat)
    requires i < |s|
    ensures InfixAt(f(s[i]), FlatMap(f, s), |FlatMap(f, s[..i])|)
  {
    FlatMapAt(f, s, i);
    assert InfixAt(f(s[i]), f(s[i]), 0);
    InfixWithin(f(s[i]), f(s[i]), 0, FlatMap(f, s[..i]), FlatMap(f, s[i + 1..]), FlatMap(f, s));
  }

  /** Each of the first ten relationship patterns appears in the prompt. */
  lemma PatternShown(schema: DetailedSchema, rules: string, includeExamples: bool, shots: seq<Shot>, i: nat)
    requires schema.structure.Some? && i < |schema.structure.value| && i < MaxPatterns
    ensures exists k :: InfixAt(RelLine(schema.structure.value[i]), EnhancedPrompt(schema, rules, includeExamples, shots), k)
  {
    var k := PatternInInfo(schema, i);
    InfoInPrompt(RelLine(schema.structure.value[i]), k, schema, rules, includeExamples, shots);
  }

  /** Where the pattern line of relationship `i` sits inside the schema summary. */
  lemma PatternInInfo(schema: DetailedSchema, i: nat) returns (k: int)
    requires schema.structure.Some? && i < |schema.structure.value| && i < MaxPatterns
    ensures InfixAt(RelLine(schema.structure.value[i]), SchemaInfo(schema), k)
  {
    var rels := TakeUpTo(schema.structure.value, MaxPatterns);
    assert rels[i] == schema.structure.value[i];
    var line := RelLine(rels[i]);
    PieceShown(RelLine, rels, i);
    var k1 := |FlatMap(RelLine, rels[..i])|;
    var flat := FlatMap(RelLine, rels);
    var section := PatternSection(schema.structure);
    InfixWithin(line, flat, k1, PatternsHeading, "", section);
    var k2 := |PatternsHeading| + k1;
    InfixWithin(line, section, k2, BaseInfo(schema), LabelSection(schema.propsPerLabel), SchemaInfo(schema));
    k := |BaseInfo(schema)| + k2;
  }

  /** Whatever the schema summary shows, the prompt shows too, right after the introduction. */
  lemma InfoInPrompt(x: string, k: int, schema: DetailedSchema, rules: string, includeExamples: bool, shots: seq<Shot>)
    requires InfixAt(x, SchemaInfo(schema), k)
    ensures InfixAt(x, EnhancedPrompt(schema, rules, includeExamples, shots), |Intro| + k)
  {
    var info := SchemaInfo(schema);
    var q := Intro + info;
    InfixWithin(x, info, k, Intro, "", q);
    var p := EnhancedPrompt(schema, rules, includeExamples, shots);
    assert q <= p;
    InfixPrefix(x, q, |Intro| + k, p);
  }

  /**
   * Without examples requested, or with none stored, the prompt does not depend on the
   * stored examples; otherwise every stored example appears in it.
   */
  lemma ExamplesOnlyWhenAsked(schema: DetailedSchema, rules: string, includeExamples: bool, shots: seq<Shot>)
    ensures !includeExamples || |shots| == 0 ==>
      EnhancedPrompt(schema, rules, includeExamples, shots) == EnhancedPrompt(schema, rules, false, [])
    ensures includeExamples && |shots| > 0 ==>
      forall i :: 0 <= i < |shots| ==> ExampleIn(schema, rules, shots, i)
  {
    if includeExamples && |shots| > 0 {
      forall i | 0 <= i < |shots|
        ensures ExampleIn(schema, rules, shots, i)
      {
        ExampleShown(schema, rules, shots, i);
      }
    }
  }

  /** Example `i` is found in the prompt built with examples. */
  ghost predicate ExampleIn(schema: DetailedSchema, rules: string, shots: seq<Shot>, i: nat)
    requires i < |shots|
  {
    exists k :: InfixAt(ShotText(shots[i]), EnhancedPrompt(schema, rules, true, shots), k)
  }

  lemma ExampleShown(schema: DetailedSchema, rules: string, shots: seq<Shot>, i: nat)
    requires i < |shots|
    ensures ExampleIn(schema, rules, shots, i)
  {
    var text := ShotText(shots[i]);
    PieceShown(ShotText, shots, i);
    var k := |FlatMap(ShotText, shots[..i])|;
    var flat := FlatMap(ShotText, shots);
    var section := ExamplesSection(true, shots);
    InfixWithin(text, flat, k, ExamplesHeading, "", section);
    var k2 := |ExamplesHeading| + k;
    var p := EnhancedPrompt(schema, rules, true, shots);
    InfixWithin(text, section, k2, Intro + SchemaInfo(schema) + "\n\n" + rules, Closing, p);
  }

  /** Appends the piece `f` gives for each element, in order. */
  method AppendEach<T>(acc: string, f: T -> string, xs: seq<T>) returns (r: string)
    ensures r == acc + FlatMap(f, xs)
  {
    r := acc;
    for i := 0 to |xs|
      invariant r == acc + FlatMap(f, xs[..i])
    {
      FlatMapStep(f, xs, i);
      r := r + f(xs[i]);
    }
    assert xs[..|xs|] == xs;
  }

  // ---------------------------------------------------------------------------
  // The retry loop of generate_cypher_query_with_retry

  /** What a call into the model or the database did: returned a value or raised an error. */
  datatype Outcome<T> = Returned(value: T) | Raised(message: string)

  /**
   * The outside world of the retry loop, by attempt number: the model's reply to a user
   * message under a system prompt, and the error, if any, raised by running a query.
   */
  datatype Env = Env(chat: (nat, string, string) -> Outcome<string>, execute: (nat, string) -> Option<string>)

  /** `str(e)` for the AttributeError raised by `None.get`, when the schema was never loaded. */
  const NoSchemaError := "'NoneType' object has no attribute 'get'"

  /** The user message, followed by the note about the previous error when there was one (a non-empty one). */
  function Context(userQuery: string, lastError: string): string
  {
    if lastError != "" then
      userQuery + "\n\nNote: Previous attempt failed with error: " + lastError + ". Please generate a corrected query."
    else userQuery
  }

  /** The note carries the previous error after the user's question; with no error the message is the question. */
  lemma ContextSpec(userQuery: string, lastError: string)
    ensures userQuery <= Context(userQuery, lastError)
    ensures lastError == "" ==> Context(userQuery, lastError) == userQuery
    ensures lastError != "" ==> InfixAt(lastError, Context(userQuery, lastError), |userQuery| + 44)
  {
    if lastError != "" {
      var c := Context(userQuery, lastError);
      var head := userQuery + "\n\nNote: Previous attempt failed with error: ";
      assert |head| == |userQuery| + 44;
      assert c == head + lastError + ". Please generate a corrected query.";
      assert c[|head|..|head| + |lastError|] == lastError;
    }
  }

  /** One pass through the `try` block: examples only from the second attempt on. */
  function Attempt(schema: Option<DetailedSchema>, rules: string, shots: seq<Shot>, userQuery: string,
                   env: Env, attempt: nat, lastError: string): Outcome<string>
  {
    if schema.None? then Raised(NoSchemaError)
    else
      var prompt := EnhancedPrompt(schema.value, rules, attempt > 0 && |shots| > 0, shots);
      match env.chat(attempt, Context(userQuery, lastError), prompt)
      case Raised(m) => Raised(m)
      case Returned(reply) =>
        var query := Extract(reply);
        match env.execute(attempt, query)
        case Some(m) => Raised(m)
        case None => Returned(query)
  }

  /** The attempts of one pipeline state and one question, as a function of the attempt number and the previous error. */
  function Runner(schema: Option<DetailedSchema>, rules: string, shots: seq<Shot>, userQuery: string, env: Env): (nat, string) -> Outcome<string>
  {
    (k: nat, e: string) => Attempt(schema, rules, shots, userQuery, env, k, e)
  }

  /** The loop from attempt `attempt` on, with `lastError` from the attempt before; `run` makes one attempt. */
  function RetryFrom(run: (nat, string) -> Outcome<string>, maxAttempts: int, attempt: nat, lastError: string): (string, bool)
    decreases maxAttempts - attempt
  {
    if attempt >= maxAttempts then ("", false)
    else
      match run(attempt, lastError)
      case Returned(query) => (query, true)
      case Raised(m) =>
        if attempt == maxAttempts - 1 then ("", false)
        else RetryFrom(run, maxAttempts, attempt + 1, m)
  }

  /**
   * A failed search returns the empty query; a successful one returns what one of the
   * attempts from `attempt` up to `maxAttempts - 1` returned.
   */
  lemma {:induction false} RetryOutcome(run: (nat, string) -> Outcome<string>, maxAttempts: int, attempt: nat, lastError: string)
    ensures var r := RetryFrom(run, maxAttempts, attempt, lastError);
      (!r.1 ==> r.0 == "") &&
      (r.1 ==> exists k: nat, e :: attempt <= k < maxAttempts && run(k, e) == Returned(r.0))
    decreases maxAttempts - attempt
  {
    if attempt < maxAttempts {
      var o := run(attempt, lastError);
      if o.Raised? && attempt != maxAttempts - 1 {
        RetryOutcome(run, maxAttempts, attempt + 1, o.message);
      }
    }
  }

  /** When every attempt raises, whatever the previous error, the loop gives up with `("", False)`. */
  lemma {:induction false} RetryAllFail(run: (nat, string) -> Outcome<string>, maxAttempts: int, attempt: nat, lastError: string)
    requires forall k: nat, e :: attempt <= k < maxAttempts ==> run(k, e).Raised?
    ensures RetryFrom(run, maxAttempts, attempt, lastError) == ("", false)
    decreases maxAttempts - attempt
  {
    if attempt < maxAttempts && attempt != maxAttempts - 1 {
      RetryAllFail(run, maxAttempts, attempt + 1, run(attempt, lastError).message);
    }
  }

  /** After a failed attempt that is not the last, the next attempt is told its error. */
  lemma RetryFeedsError(run: (nat, string) -> Outcome<string>, maxAttempts: int, attempt: nat, lastError: string, m: string)
    requires attempt + 1 < maxAttempts && run(attempt, lastError) == Raised(m)
    ensures RetryFrom(run, maxAttempts, attempt, lastError) == RetryFrom(run, maxAttempts, attempt + 1, m)
  {
  }

  /** A pipeline whose schema was never loaded fails every attempt. */
  lemma RetryWithoutSchema(rules: string, shots: seq<Shot>, userQuery: string, env: Env, maxAttempts: int)
    ensures RetryFrom(Runner(None, rules, shots, userQuery, env), maxAttempts, 0, "") == ("", false)
  {
    RetryAllFail(Runner(None, rules, shots, userQuery, env), maxAttempts, 0, "");
  }

  /**
   * The first attempt never shows the stored examples and carries no error note; a later
   * attempt shows them when there are any.
   */
  lemma AttemptPrompts(schema: DetailedSchema, rules: string, shots: seq<Shot>, userQuery: string,
                       env: Env, attempt: nat, lastError: string)
    ensures attempt == 0 ==>
      Attempt(Some(schema), rules, shots, userQuery, env, 0, "") == Attempt(Some(schema), rules, [], userQuery, env, 0, "")
    ensures attempt == 0 ==> Context(userQuery, "") == userQuery
    ensures attempt > 0 ==>
      Attempt(Some(schema), rules, shots, userQuery, env, attempt, lastError) ==
        match env.chat(attempt, Context(userQuery, lastError), EnhancedPrompt(schema, rules, true, shots))
        case Raised(m) => Raised(m)
        case Returned(reply) =>
          if env.execute(attempt, Extract(reply)).Some? then Raised(env.execute(attempt, Extract(reply)).value)
          else Returned(Extract(reply))
  {
    ExamplesOnlyWhenAsked(schema, rules, false, shots);
    ExamplesOnlyWhenAsked(schema, rules, false, []);
    if attempt > 0 {
      ExamplesOnlyWhenAsked(schema, rules, true, shots);
    }
  }

  // ---------------------------------------------------------------------------
  // RAGPipeline

  class RagPipeline {
    /** `few_shot_examples` */
    var fewShot: seq<Shot>
    /** `schema`, `None` until `initialize` has loaded it */
    var schema: Option<DetailedSchema>
    /** The fixed rule and pattern text of the prompt. */
    const rules: string

    constructor(rules: string)
      ensures fewShot == [] && schema == None && this.rules == rules
    {
      fewShot := [];
      schema := None;
      this.rules := rules;
    }

    /** Stores the schema that `initialize` reads from the database. */
    method Initialize(detailed: DetailedSchema)
      modifies this
      ensures schema == Some(detailed) && fewShot == old(fewShot)
    {
      schema := Some(detailed);
    }

    /** add_few_shot_example: append, then keep the last five. */
    method AddFewShotExample(userQuery: string, correctCypher: string)
      modifies this
      ensures fewShot == LastShots(old(fewShot) + [Shot(userQuery, correctCypher)])
      ensures |fewShot| <= MaxShots && fewShot[|fewShot| - 1] == Shot(userQuery, correctCypher)
      ensures schema == old(schema)
    {
      fewShot := fewShot + [Shot(userQuery, correctCypher)];
      if |fewShot| > MaxShots {
        fewShot := fewShot[|fewShot| - MaxShots..];
      }
    }

    /** The `schema_info` part of _build_enhanced_cypher_prompt. */
    method BuildSchemaInfo(schema: DetailedSchema) returns (info: string)
      ensures info == SchemaInfo(schema)
    {
      info := BaseInfo(schema);
      if schema.structure.Some? {
        info := AppendEach(info + PatternsHeading, RelLine, TakeUpTo(schema.structure.value, MaxPatterns));
      }
      ghost var withPatterns := info;
      assert withPatterns == BaseInfo(schema) + PatternSection(schema.structure);
      if schema.propsPerLabel.Some? {
        info := AppendEach(info + LabelsHeading, LabelLine, schema.propsPerLabel.value);
      }
    }

    /** _build_enhanced_cypher_prompt */
    method BuildEnhancedCypherPrompt(schema: DetailedSchema, includeExamples: bool) returns (prompt: string)
      ensures prompt == EnhancedPrompt(schema, rules, includeExamples, fewShot)
    {
      var info := BuildSchemaInfo(schema);
      prompt := Intro + info + "\n\n" + rules;
      ghost var head := prompt;
      if includeExamples && |fewShot| > 0 {
        prompt := AppendEach(prompt + ExamplesHeading, ShotText, fewShot);
        ConcatAssoc(head, ExamplesHeading, FlatMap(ShotText, fewShot));
      }
      prompt := prompt + Closing;
    }

    /** One pass through the `try` block of the retry loop. */
    method TryOnce(userQuery: string, env: Env, attempt: nat, lastError: string) returns (outcome: Outcome<string>)
      ensures outcome == Attempt(schema, rules, fewShot, userQuery, env, attempt, lastError)
    {
      if schema.None? {
        return Raised(NoSchemaError);
      }
      var useExamples := attempt > 0 && |fewShot| > 0;
      var prompt := BuildEnhancedCypherPrompt(schema.value, useExamples);
      var queryWithContext := Context(userQuery, lastError);
      var reply := env.chat(attempt, queryWithContext, prompt);
      if reply.Raised? {
        return Raised(reply.message);
      }
      var cypher := ExtractCypherQuery(reply.value);
      var error := env.execute(attempt, cypher);
      if error.Some? {
        return Raised(error.value);
      }
      return Returned(cypher);
    }

    /**
     * generate_cypher_query_with_retry: at most `maxAttempts` attempts, examples from the
     * second one on, each attempt told the previous error; the first query the database
     * runs is returned with `true`, and `("", false)` once the attempts are used up.
     */
    method GenerateCypherQueryWithRetry(userQuery: string, env: Env, maxAttempts: int) returns (query: string, ok: bool)
      ensures (query, ok) == RetryFrom(Runner(schema, rules, fewShot, userQuery, env), maxAttempts, 0, "")
    {
      var lastError := "";
      var attempt: nat := 0;
      while attempt < maxAttempts
        invariant RetryFrom(Runner(schema, rules, fewShot, userQuery, env), maxAttempts, 0, "") ==
          RetryFrom(Runner(schema, rules, fewShot, userQuery, env), maxAttempts, attempt, lastError)
        decreases maxAttempts - attempt
      {
        var outcome := TryOnce(userQuery, env, attempt, lastError);
        if outcome.Returned? {
          return outcome.value, true;
        }
        lastError := outcome.message;
        if attempt == maxAttempts - 1 {
          return "", false;
        }
        attempt := attempt + 1;
      }
      return "", false;
    }
  }
}
