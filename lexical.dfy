/**
 * Lexical filtering as versions 4 and 5 do it: the question is cleaned and cut into
 * words, and a result is kept when one of its `_`-separated parts, lower-cased, is one
 * of those words.
 */
module Lexical {
  import opened Wrappers
  import opened Text
  import opened Values
  import opened LegacyData

  /** The characters version 5 splits the question on, and rejoins with spaces, before cleaning. */
  predicate IsQuestionSep(c: char) { c == '_' || c == '\'' }

  /** The whitespace-separated words of the cleaned question (version 4). */
  function QuestionWordsV4(q: string): seq<string>
  {
    Words(CleanString(q))
  }

  /** The words of the cleaned question once underscores and apostrophes became spaces (version 5). */
  function QuestionWordsV5(q: string): seq<string>
  {
    Words(CleanString(Join(" ", SplitWhere(q, IsQuestionSep))))
  }

  /** Version 5 cleans the question with every `_` and apostrophe replaced by a space. */
  lemma QuestionWordsV5Spaced(q: string)
    ensures QuestionWordsV5(q) == Words(CleanString(Substitute(q, IsQuestionSep, ' ')))
  {
    JoinSplitWhere(q, IsQuestionSep, ' ');
  }

  /** A character that survives cleaning. */
  predicate Cleaned(c: char) { !IsUpperAscii(c) && !IsDigit(c) && !IsPunct(c) && !IsSpace(c) }

  /** Every word of a cleaned text is non-empty and holds no capital, digit, punctuation or space. */
  lemma CleanWords(s: string)
    ensures forall k :: 0 <= k < |Words(CleanString(s))| ==>
      |Words(CleanString(s))[k]| > 0 && forall i :: 0 <= i < |Words(CleanString(s))[k]| ==> Cleaned(Words(CleanString(s))[k][i])
  {
    var t := CleanString(s);
    CleanStringClean(s);
    var p := (c: char) => !IsUpperAscii(c) && !IsDigit(c) && !IsPunct(c);
    forall i | 0 <= i < |t| ensures p(t[i]) {
      assert t[i] in t;
    }
    WordsKeep(t, p);
    WordsAreWords(t);
  }

  /**
   * A `_`-part that is empty or holds a digit can never equal a question word, so the
   * `1` of `Lamp_1` never causes a match, in either version.
   */
  lemma DigitPartNeverMatches(s: string, part: string)
    requires |part| == 0 || exists i :: 0 <= i < |part| && IsDigit(part[i])
    ensures Lower(part) !in Words(CleanString(s))
  {
    CleanWords(s);
    if |part| > 0 {
      var i :| 0 <= i < |part| && IsDigit(part[i]);
      assert IsDigit(Lower(part)[i]);
    }
  }

  /** A result is kept exactly when a part without digits, lower-cased, is a question word. */
  lemma MatchesNeedsLetters(s: string, result: string)
    ensures Matches(Words(CleanString(s)), result) <==>
      exists k :: 0 <= k < |SplitChar(result, '_')| &&
        |SplitChar(result, '_')[k]| > 0 &&
        (forall i :: 0 <= i < |SplitChar(result, '_')[k]| ==> !IsDigit(SplitChar(result, '_')[k][i])) &&
        Lower(SplitChar(result, '_')[k]) in Words(CleanString(s))
  {
    var parts := SplitChar(result, '_');
    if Matches(Words(CleanString(s)), result) {
      var k :| 0 <= k < |parts| && Lower(parts[k]) in Words(CleanString(s));
      if |parts[k]| == 0 || exists i :: 0 <= i < |parts[k]| && IsDigit(parts[k][i]) {
        DigitPartNeverMatches(s, parts[k]);
      }
    }
  }

  // ---------------------------------------------------------------------------
  // Version 5 filters a stored response, whose elements must be strings.

  /** The elements as strings; `result.split('_')` raises AttributeError on the first that is not one. */
  function Texts(xs: seq<Item>): (r: Result<seq<string>>)
  {
    if |xs| == 0 then Ok([])
    else
      match Texts(xs[..|xs| - 1])
      case Fail(e) => Fail(e)
      case Ok(ss) => if xs[|xs| - 1].TextItem? then Ok(ss + [xs[|xs| - 1].s]) else Fail(AttributeError)
  }

  /** The strings come out exactly when every element is one, one for one. */
  lemma {:induction false} TextsSpec(xs: seq<Item>)
    ensures Texts(xs).Ok? <==> forall i :: 0 <= i < |xs| ==> xs[i].TextItem?
    ensures Texts(xs).Ok? ==> |Texts(xs).value| == |xs| && forall i :: 0 <= i < |xs| ==> Texts(xs).value[i] == xs[i].s
    ensures Texts(xs).Fail? ==> Texts(xs).error == AttributeError
  {
    if |xs| > 0 {
      var init := xs[..|xs| - 1];
      TextsSpec(init);
      if Texts(init).Fail? {
        var i :| 0 <= i < |init| && !init[i].TextItem?;
        assert !xs[i].TextItem?;
      }
    }
  }

  /** lexical_filtering of version 5 on a stored response. */
  function LexicalV5(results: Response, q: string): Result<seq<string>>
  {
    match Elements(results)
    case Fail(e) => Fail(e)
    case Ok(xs) =>
      match Texts(xs)
      case Fail(e) => Fail(e)
      case Ok(ss) => Ok(Filter(ss, QuestionWordsV5(q), Matches))
  }

  /**
   * Version 5 keeps, in their order, exactly the strings of the response one of whose
   * parts is a question word; it fails on a cursor and on any element that is not a string.
   */
  lemma LexicalV5Spec(results: Response, q: string)
    ensures LexicalV5(results, q).Ok? <==> !results.Cursor? && (results.Items? ==> forall i :: 0 <= i < |results.items| ==> results.items[i].TextItem?)
    ensures results.EmptyDict? ==> LexicalV5(results, q) == Ok([])
    ensures results.Items? && LexicalV5(results, q).Ok? ==>
      var ss := Texts(results.items).value;
      Subsequence(LexicalV5(results, q).value, ss) &&
      forall r :: r in LexicalV5(results, q).value <==> r in ss && Matches(QuestionWordsV5(q), r)
  {
    if results.Items? {
      TextsSpec(results.items);
      if Texts(results.items).Ok? {
        LexicalKeepSpec(Texts(results.items).value, QuestionWordsV5(q));
      }
    }
  }

  /** lexical_filtering of version 5: the loop, stopping at the first element that is not a string. */
  method LexicalFilteringV5(results: Response, question: string) returns (r: Result<seq<string>>)
    ensures r == LexicalV5(results, question)
  {
    var elems := Elements(results);
    if elems.Fail? {
      return Fail(elems.error);
    }
    var xs := elems.value;
    var words := Words(CleanString(Join(" ", SplitWhere(question, IsQuestionSep))));
    var seen: seq<string> := [];
    var filtered: seq<string> := [];
    for i := 0 to |xs|
      invariant Texts(xs[..i]) == Ok(seen)
      invariant filtered == Filter(seen, words, Matches)
    {
      assert xs[..i + 1][..i] == xs[..i];
      if !xs[i].TextItem? {
        Stuck(xs, i + 1);
        return Fail(AttributeError);
      }
      FilterAppend(seen, [xs[i].s], words, Matches);
      assert [xs[i].s][1..] == [];
      if Matches(words, xs[i].s) {
        filtered := filtered + [xs[i].s];
      }
      seen := seen + [xs[i].s];
    }
    assert xs[..|xs|] == xs;
    r := Ok(filtered);
  }

  /** Once a prefix fails, so does the whole list. */
  lemma {:induction false} Stuck(xs: seq<Item>, k: nat)
    requires k <= |xs| && Texts(xs[..k]).Fail?
    ensures Texts(xs) == Texts(xs[..k])
    decreases |xs|
  {
    if k < |xs| {
      assert xs[..|xs| - 1][..k] == xs[..k];
      Stuck(xs[..|xs| - 1], k);
    } else {
      assert xs[..k] == xs;
    }
  }

  // ---------------------------------------------------------------------------
  // Version 4 filters a list of strings.

  /**
   * Version 4 keeps, in their order, exactly the results one of whose digit-free,
   * non-empty parts, lower-cased, is a word of the cleaned question.
   */
  lemma LexicalV4Spec(results: seq<string>, q: string)
    ensures Subsequence(Filter(results, QuestionWordsV4(q), Matches), results)
    ensures forall r :: r in Filter(results, QuestionWordsV4(q), Matches) <==>
      r in results &&
      exists k :: 0 <= k < |SplitChar(r, '_')| &&
        |SplitChar(r, '_')[k]| > 0 &&
        (forall i :: 0 <= i < |SplitChar(r, '_')[k]| ==> !IsDigit(SplitChar(r, '_')[k][i])) &&
        Lower(SplitChar(r, '_')[k]) in QuestionWordsV4(q)
  {
    LexicalKeepSpec(results, QuestionWordsV4(q));
    forall r {
      MatchesNeedsLetters(q, r);
    }
  }

  /** lexical_filtering of version 4. */
  method LexicalFilteringV4(results: seq<string>, question: string) returns (filtered: seq<string>)
    ensures filtered == Filter(results, QuestionWordsV4(question), Matches)
  {
    var words := Words(CleanString(question));
    filtered := LexicalKeep(results, words);
  }
}
