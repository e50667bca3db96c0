/**
 * The prompt selectors of versions 1 and 3: a selector string picks, by the letters
 * it contains, which fixed schema parts and prompt parts are concatenated.
 */
module Initialization {
  import opened Wrappers
  import opened Text

  /** The fixed prompt and schema texts the selectors choose among. */
  datatype Prompts = Prompts(house: string, graph: string, example: string,
                             zero: string, instruction: string, examples: string,
                             answer0: string, answer1: string)

  /** Whether the upper-cased selector holds the letter `c`. */
  predicate Selected(selector: string, c: char)
  {
    c in Upper(selector)
  }

  /** A capital letter is selected by itself or by its lower-case form; any other character only by itself. */
  lemma SelectedAnyCase(selector: string, c: char)
    ensures IsUpperAscii(c) ==> (Selected(selector, c) <==> c in selector || LowerChar(c) in selector)
    ensures !IsUpperAscii(c) && !IsLowerAscii(c) ==> (Selected(selector, c) <==> c in selector)
  {
    var u := Upper(selector);
    if Selected(selector, c) {
      var i :| 0 <= i < |u| && u[i] == c;
      assert selector[i] in selector;
    }
    if c in selector {
      var i :| 0 <= i < |selector| && selector[i] == c;
      assert u[i] in u;
    }
    if IsUpperAscii(c) && LowerChar(c) in selector {
      var i :| 0 <= i < |selector| && selector[i] == LowerChar(c);
      assert u[i] in u;
    }
  }

  // ---------------------------------------------------------------------------
  // select_schema and select_prompt (the same code in both versions)

  function SelectSchema(p: Prompts, selector: string): string
  {
    (if Selected(selector, 'H') then p.house else "") +
    (if Selected(selector, 'G') then p.graph else "") +
    (if Selected(selector, 'E') then p.example else "")
  }

  /**
   * The schema is the house, graph and example parts, always in that order, each present
   * exactly when its letter occurs in either case; letter order and repetition do not matter,
   * and a selector without any of the three letters gives the empty schema.
   */
  lemma SelectSchemaSpec(p: Prompts, selector: string)
    ensures SelectSchema(p, selector) ==
      (if 'H' in selector || 'h' in selector then p.house else "") +
      (if 'G' in selector || 'g' in selector then p.graph else "") +
      (if 'E' in selector || 'e' in selector then p.example else "")
    ensures (forall c :: c in selector ==> c !in "HhGgEe") ==> SelectSchema(p, selector) == ""
  {
    SelectedAnyCase(selector, 'H');
    SelectedAnyCase(selector, 'G');
    SelectedAnyCase(selector, 'E');
  }

  /** Two selectors with the same letters, in any order, case or number, select the same schema. */
  lemma SelectSchemaLetters(p: Prompts, s: string, t: string)
    requires forall c :: c in s <==> c in t
    ensures SelectSchema(p, s) == SelectSchema(p, t)
    ensures SelectSchema(p, s) == SelectSchema(p, Lower(s)) == SelectSchema(p, Upper(s))
  {
    SelectSchemaSpec(p, s);
    SelectSchemaSpec(p, t);
    SelectSchemaSpec(p, Lower(s));
    SelectSchemaSpec(p, Upper(s));
    LetterAnyCase(s, 'H');
    LetterAnyCase(s, 'G');
    LetterAnyCase(s, 'E');
  }

  /** A letter occurs in either case in `s` exactly when it does in its lower- or upper-cased form. */
  lemma LetterAnyCase(s: string, c: char)
    requires IsUpperAscii(c)
    ensures (c in s || LowerChar(c) in s) <==> (c in Lower(s) || LowerChar(c) in Lower(s))
    ensures (c in s || LowerChar(c) in s) <==> (c in Upper(s) || LowerChar(c) in Upper(s))
  {
    var lc := LowerChar(c);
    if c in s || lc in s {
      var i :| 0 <= i < |s| && (s[i] == c || s[i] == lc);
      assert Lower(s)[i] in Lower(s) && Upper(s)[i] in Upper(s);
    }
    if c in Lower(s) || lc in Lower(s) {
      var i :| 0 <= i < |s| && (Lower(s)[i] == c || Lower(s)[i] == lc);
      assert s[i] in s;
    }
    if c in Upper(s) || lc in Upper(s) {
      var i :| 0 <= i < |s| && (Upper(s)[i] == c || Upper(s)[i] == lc);
      assert s[i] in s;
    }
  }

  function SelectPrompt(p: Prompts, selector: string, schema: string): string
  {
    p.zero + schema +
    (if Selected(selector, 'I') then p.instruction else "") +
    (if Selected(selector, 'E') then p.examples else "")
  }

  /**
   * The prompt always starts with the zero prompt and the schema, then the instructions
   * when `I` or `i` is selected and the examples when `E` or `e` is.
   */
  lemma SelectPromptSpec(p: Prompts, selector: string, schema: string)
    ensures SelectPrompt(p, selector, schema) ==
      p.zero + schema +
      (if 'I' in selector || 'i' in selector then p.instruction else "") +
      (if 'E' in selector || 'e' in selector then p.examples else "")
    ensures p.zero + schema <= SelectPrompt(p, selector, schema)
  {
    SelectedAnyCase(selector, 'I');
    SelectedAnyCase(selector, 'E');
  }

  // ---------------------------------------------------------------------------
  // Version 1

  /** select_answer of version 1: both branches give the simple answer prompt. */
  function SelectAnswerV1(p: Prompts, selector: string): string
  {
    if Selected(selector, 'S') then p.answer0 else p.answer0
  }

  lemma SelectAnswerV1Constant(p: Prompts, s: string, t: string)
    ensures SelectAnswerV1(p, s) == SelectAnswerV1(p, t) == p.answer0
  {
  }

  /** simple_init: the prompt over the selected schema and the selected answer prompt. */
  function SimpleInit(p: Prompts, schemaSel: string, promptSel: string, ansSel: string): (string, string)
  {
    (SelectPrompt(p, promptSel, SelectSchema(p, schemaSel)), SelectAnswerV1(p, ansSel))
  }

  /** simple_init's query prompt is the zero prompt, the selected schema parts and the selected prompt parts. */
  lemma SimpleInitSpec(p: Prompts, schemaSel: string, promptSel: string, ansSel: string)
    ensures SimpleInit(p, schemaSel, promptSel, ansSel).1 == p.answer0
    ensures SimpleInit(p, schemaSel, promptSel, ansSel).0 ==
      p.zero +
      ((if 'H' in schemaSel || 'h' in schemaSel then p.house else "") +
       (if 'G' in schemaSel || 'g' in schemaSel then p.graph else "") +
       (if 'E' in schemaSel || 'e' in schemaSel then p.example else "")) +
      (if 'I' in promptSel || 'i' in promptSel then p.instruction else "") +
      (if 'E' in promptSel || 'e' in promptSel then p.examples else "")
  {
    SelectSchemaSpec(p, schemaSel);
    SelectPromptSpec(p, promptSel, SelectSchema(p, schemaSel));
  }

  // ---------------------------------------------------------------------------
  // Version 3

  function SelectAnswerV3(p: Prompts, selector: string): string
  {
    if Selected(selector, '0') then p.answer0
    else if Selected(selector, '1') then p.answer1
    else p.answer0
  }

  /** `0` wins over `1`; only a selector with a `1` and no `0` picks the second answer prompt. */
  lemma SelectAnswerV3Spec(p: Prompts, selector: string)
    ensures SelectAnswerV3(p, selector) == if '1' in selector && '0' !in selector then p.answer1 else p.answer0
  {
    SelectedAnyCase(selector, '0');
    SelectedAnyCase(selector, '1');
  }

  /**
   * initialize: the selected schema followed by what the database adds to it, the prompt
   * over that schema, and the selected answer prompt followed by what the database adds to
   * it; `augmentSchema` and `augmentAnswer` stand for the two `augment_prompt` calls.
   */
  function Initialize(p: Prompts, selectors: Option<(string, string, string)>, augmentSchema: string -> string, augmentAnswer: string -> string): (string, string)
  {
    var sel := if selectors.None? then ("ghe", "ei", "s") else selectors.value;
    var schema := SelectSchema(p, sel.0);
    var answer := SelectAnswerV3(p, sel.2);
    (SelectPrompt(p, sel.1, schema + augmentSchema(schema)), answer + augmentAnswer(answer))
  }

  /**
   * Without selectors, initialize uses all three schema parts, both prompt parts and the
   * simple answer prompt.
   */
  lemma InitializeDefaults(p: Prompts, augmentSchema: string -> string, augmentAnswer: string -> string)
    ensures Initialize(p, None, augmentSchema, augmentAnswer) == Initialize(p, Some(("ghe", "ei", "s")), augmentSchema, augmentAnswer)
    ensures var schema := p.house + p.graph + p.example;
      Initialize(p, None, augmentSchema, augmentAnswer) ==
        (p.zero + (schema + augmentSchema(schema)) + p.instruction + p.examples, p.answer0 + augmentAnswer(p.answer0))
  {
    SelectSchemaSpec(p, "ghe");
    SelectPromptSpec(p, "ei", p.house + p.graph + p.example + augmentSchema(p.house + p.graph + p.example));
    SelectAnswerV3Spec(p, "s");
    assert "ghe"[0] == 'g' && "ghe"[1] == 'h' && "ghe"[2] == 'e';
    assert "ei"[0] == 'e' && "ei"[1] == 'i';
    assert '0' !in "s" && '1' !in "s";
  }
}
