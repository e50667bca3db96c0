/**
 * The selection rule of dense filtering: score every item against the question, sort by
 * descending score (stable), then scan from the best item, stopping at the first one whose
 * score does not exceed the threshold and after the `k_lim`-th kept item.
 */
module Dense {
  import opened Values
  import opened Ranking

  /** An item with its similarity to the question. */
  datatype Scored<T> = Scored(item: T, score: real)

  function ScoreOf<T>(t: Scored<T>): real { t.score }

  function ScoredBy<T>(items: seq<T>, score: T -> real): (r: seq<Scored<T>>)
    ensures |r| == |items|
    ensures forall i :: 0 <= i < |items| ==> r[i] == Scored(items[i], score(items[i]))
  {
    seq(|items|, i requires 0 <= i < |items| => Scored(items[i], score(items[i])))
  }

  /** The items of a scored list, with the scores dropped. */
  function Unscored<T>(s: seq<Scored<T>>): (r: seq<T>)
    ensures |r| == |s| && forall i :: 0 <= i < |s| ==> r[i] == s[i].item
  {
    seq(|s|, i requires 0 <= i < |s| => s[i].item)
  }

  /** The items with their scores, stably sorted by descending score. */
  function Ranked<T>(items: seq<T>, score: T -> real): seq<Scored<T>>
  {
    SortDesc(ScoredBy(items, score), ScoreOf)
  }

  /** Length of the leading run of items scoring strictly above `thresh`. */
  function AboveRun<T>(s: seq<Scored<T>>, thresh: real): (n: nat)
    ensures n <= |s|
    ensures forall i :: 0 <= i < n ==> s[i].score > thresh
    ensures n < |s| ==> s[n].score <= thresh
  {
    if |s| == 0 || s[0].score <= thresh then 0 else 1 + AboveRun(s[1..], thresh)
  }

  /** What the scan keeps: the run above the threshold, cut after `k_lim` items when `k_lim >= 1`. */
  function Selected<T>(ranked: seq<Scored<T>>, kLim: int, thresh: real): seq<Scored<T>>
  {
    TakeUpTo(ranked[..AboveRun(ranked, thresh)], kLim)
  }

  /** Dense filtering with a threshold, as a specification. */
  function Top<T>(items: seq<T>, score: T -> real, kLim: int, thresh: real): seq<T>
  {
    Unscored(Selected(Ranked(items, score), kLim, thresh))
  }

  /** The ranking is a stable, descending permutation of the scored items. */
  lemma RankedSpec<T>(items: seq<T>, score: T -> real)
    ensures Descending(Ranked(items, score), ScoreOf)
    ensures multiset(Ranked(items, score)) == multiset(ScoredBy(items, score))
    ensures forall t :: t in Ranked(items, score) ==> t.item in items && t.score == score(t.item)
    ensures forall v :: WithKey(Ranked(items, score), ScoreOf, v) == WithKey(ScoredBy(items, score), ScoreOf, v)
  {
    var s := ScoredBy(items, score);
    SortDescSorted(s, ScoreOf);
    forall t | t in Ranked(items, score) ensures t.item in items && t.score == score(t.item) {
      assert t in multiset(Ranked(items, score));
      assert t in s;
    }
    forall v ensures WithKey(Ranked(items, score), ScoreOf, v) == WithKey(s, ScoreOf, v) {
      SortDescStable(s, ScoreOf, v);
    }
  }

  /** The selection is a prefix of the ranking whose scores all exceed the threshold. */
  lemma SelectedPrefix<T>(ranked: seq<Scored<T>>, kLim: int, thresh: real)
    ensures var sel := Selected(ranked, kLim, thresh);
      |sel| <= AboveRun(ranked, thresh) && sel == ranked[..|sel|]
  {
  }

  /** Every kept item comes from the input and scores strictly above the threshold. */
  lemma TopAbove<T>(items: seq<T>, score: T -> real, kLim: int, thresh: real)
    ensures forall x :: x in Top(items, score, kLim, thresh) ==> x in items && score(x) > thresh
  {
    var ranked := Ranked(items, score);
    RankedSpec(items, score);
    var sel := Selected(ranked, kLim, thresh);
    SelectedPrefix(ranked, kLim, thresh);
    var r := Top(items, score, kLim, thresh);
    forall x | x in r ensures x in items && score(x) > thresh {
      var i :| 0 <= i < |r| && r[i] == x;
      assert sel[i] == ranked[i];
      assert ranked[i] in ranked;
    }
  }

  /** No item left out outranks a kept one. */
  lemma TopNoOutrank<T>(items: seq<T>, score: T -> real, kLim: int, thresh: real)
    ensures var ranked := Ranked(items, score);
      var r := Top(items, score, kLim, thresh);
      forall i, j :: 0 <= i < |r| <= j < |ranked| ==> ranked[j].score <= score(r[i])
  {
    var ranked := Ranked(items, score);
    RankedSpec(items, score);
    var sel := Selected(ranked, kLim, thresh);
    SelectedPrefix(ranked, kLim, thresh);
    var r := Top(items, score, kLim, thresh);
    forall i, j | 0 <= i < |r| <= j < |ranked| ensures ranked[j].score <= score(r[i]) {
      assert sel[i] == ranked[i];
      assert ranked[i] in ranked;
    }
  }

  /**
   * The result is a prefix of the ranked items; every kept item scores above the
   * threshold; no excluded item outranks a kept one; with `k_lim >= 1` exactly
   * min(`k_lim`, the run above the threshold) items are kept, and whenever the cap is
   * not reached every item left out scores at most the threshold.
   */
  lemma TopSpec<T>(items: seq<T>, score: T -> real, kLim: int, thresh: real)
    ensures var ranked := Ranked(items, score);
      var r := Top(items, score, kLim, thresh);
      |r| <= |ranked| && r == Unscored(ranked)[..|r|]
    ensures var r := Top(items, score, kLim, thresh);
      forall x :: x in r ==> x in items && score(x) > thresh
    ensures var ranked := Ranked(items, score);
      var r := Top(items, score, kLim, thresh);
      forall i, j :: 0 <= i < |r| <= j < |ranked| ==> ranked[j].score <= score(r[i])
    ensures kLim >= 1 ==> |Top(items, score, kLim, thresh)| <= kLim
    ensures var ranked := Ranked(items, score);
      kLim <= 0 ==> forall j :: |Top(items, score, kLim, thresh)| <= j < |ranked| ==> ranked[j].score <= thresh
    ensures var n := AboveRun(Ranked(items, score), thresh);
      |Top(items, score, kLim, thresh)| == if 1 <= kLim < n then kLim else n
    ensures var ranked := Ranked(items, score);
      var r := Top(items, score, kLim, thresh);
      (kLim <= 0 || |r| < kLim) ==> forall j :: |r| <= j < |ranked| ==> ranked[j].score <= thresh
  {
    var ranked := Ranked(items, score);
    RankedSpec(items, score);
    AfterRunBelow(ranked, thresh);
    SelectedPrefix(ranked, kLim, thresh);
    TopAbove(items, score, kLim, thresh);
    TopNoOutrank(items, score, kLim, thresh);
    if kLim <= 0 {
      TopUnlimited(items, score, kLim, thresh);
    }
  }

  /** Without a limit, every item left out of the selection scores at most the threshold. */
  lemma TopUnlimited<T>(items: seq<T>, score: T -> real, kLim: int, thresh: real)
    requires kLim <= 0
    ensures var ranked := Ranked(items, score);
      forall j :: |Top(items, score, kLim, thresh)| <= j < |ranked| ==> ranked[j].score <= thresh
  {
    var ranked := Ranked(items, score);
    SortDescSorted(ScoredBy(items, score), ScoreOf);
    assert |Top(items, score, kLim, thresh)| == AboveRun(ranked, thresh);
    AfterRunBelow(ranked, thresh);
  }

  /** In a descending ranking, everything after the leading run above the threshold scores at most the threshold. */
  lemma AfterRunBelow<T>(ranked: seq<Scored<T>>, thresh: real)
    requires Descending(ranked, ScoreOf)
    ensures forall j :: AboveRun(ranked, thresh) <= j < |ranked| ==> ranked[j].score <= thresh
  {
    var n := AboveRun(ranked, thresh);
    forall j | n <= j < |ranked| ensures ranked[j].score <= thresh {
      assert ScoreOf(ranked[n]) >= ScoreOf(ranked[j]);
    }
  }

  /** Every item appears in the ranking with its own score. */
  lemma RankedHas<T>(items: seq<T>, score: T -> real, i: int)
    requires 0 <= i < |items|
    ensures Scored(items[i], score(items[i])) in Ranked(items, score)
  {
    var s := ScoredBy(items, score);
    SortDescSorted(s, ScoreOf);
    assert s[i] in multiset(s);
  }

  /** In a descending ranking, the leading run above the threshold holds every item above it. */
  lemma AboveRunCovers<T>(ranked: seq<Scored<T>>, thresh: real, j: int)
    requires Descending(ranked, ScoreOf) && 0 <= j < |ranked| && ranked[j].score > thresh
    ensures j < AboveRun(ranked, thresh)
  {
  }

  /** Without a cap, every item scoring above the threshold is kept. */
  lemma TopComplete<T>(items: seq<T>, score: T -> real, thresh: real)
    ensures forall x :: x in items && score(x) > thresh ==> x in Top(items, score, 0, thresh)
  {
    var ranked := Ranked(items, score);
    var n := AboveRun(ranked, thresh);
    var r := Top(items, score, 0, thresh);
    assert r == Unscored(ranked[..n]);
    SortDescSorted(ScoredBy(items, score), ScoreOf);
    assert Descending(ranked, ScoreOf);
    forall x | x in items && score(x) > thresh ensures x in r {
      var i :| 0 <= i < |items| && items[i] == x;
      RankedHas(items, score, i);
      var j :| 0 <= j < |ranked| && ranked[j] == Scored(x, score(x));
      AboveRunCovers(ranked, thresh, j);
      assert r[j] == x;
    }
  }

  /** Top-k without a threshold: the first `k_lim` ranked items, or all of them when `k_lim <= 0`. */
  function TopK<T>(items: seq<T>, score: T -> real, kLim: int): seq<T>
  {
    Unscored(TakeUpTo(Ranked(items, score), kLim))
  }

  /**
   * Top-k keeps the best-ranked items: a prefix of the ranking, at most `k_lim` of them
   * when `k_lim >= 1`, all of them otherwise, and nothing left out outranks what is kept.
   */
  lemma TopKSpec<T>(items: seq<T>, score: T -> real, kLim: int)
    ensures var ranked := Ranked(items, score);
      var r := TopK(items, score, kLim);
      r == Unscored(ranked)[..|r|] && (kLim >= 1 ==> |r| == if kLim < |items| then kLim else |items|)
    ensures kLim <= 0 ==> |TopK(items, score, kLim)| == |items|
    ensures var ranked := Ranked(items, score);
      var r := TopK(items, score, kLim);
      forall i, j :: 0 <= i < |r| <= j < |ranked| ==> ranked[j].score <= score(r[i])
  {
    var ranked := Ranked(items, score);
    RankedSpec(items, score);
    var r := TopK(items, score, kLim);
    assert |ranked| == |items| by {
      assert |multiset(ranked)| == |multiset(ScoredBy(items, score))|;
    }
    forall i, j | 0 <= i < |r| <= j < |ranked| ensures ranked[j].score <= score(r[i]) {
      assert ranked[i] in ranked;
    }
  }
}
