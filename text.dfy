/**
 * Python `str` operations used by the modelled code, on `seq<char>`.
 * Case mapping covers ASCII letters only; whitespace is Python's
 * `str.isspace` restricted to ASCII.
 */
module Text {
  import opened Wrappers

  /** Concatenation regroups freely (stated once, so long proofs need not rediscover it). */
  lemma ConcatAssoc(a: string, b: string, c: string)
    ensures (a + b) + c == a + (b + c)
  {
  }

  predicate IsUpperAscii(c: char) { 'A' <= c <= 'Z' }
  predicate IsLowerAscii(c: char) { 'a' <= c <= 'z' }
  predicate IsDigit(c: char) { '0' <= c <= '9' }

  /** Python's `string.punctuation`. */
  const Punctuation: string := "!\"#$%&'()*+,-./:;<=>?@[\\]^_`{|}~"

  predicate IsPunct(c: char) { c in Punctuation }

  /** `str.isspace` on ASCII: space, \t \n \v \f \r and the separators \x1c-\x1f. */
  predicate IsSpace(c: char) { c == ' ' || (9 <= c as int <= 13) || (28 <= c as int <= 31) }

  function LowerChar(c: char): char { if IsUpperAscii(c) then (c as int + 32) as char else c }
  function UpperChar(c: char): char { if IsLowerAscii(c) then (c as int - 32) as char else c }

  /** `s.lower()` */
  function Lower(s: string): (r: string)
    ensures |r| == |s|
    ensures forall i :: 0 <= i < |s| ==> r[i] == LowerChar(s[i])
  {
    seq(|s|, i requires 0 <= i < |s| => LowerChar(s[i]))
  }

  /** `s.upper()` */
  function Upper(s: string): (r: string)
    ensures |r| == |s|
    ensures forall i :: 0 <= i < |s| ==> r[i] == UpperChar(s[i])
  {
    seq(|s|, i requires 0 <= i < |s| => UpperChar(s[i]))
  }

  /** The characters of `s` for which `bad` does not hold, in order. */
  function Drop(s: string, bad: char -> bool): (r: string)
    ensures forall c :: c in r ==> c in s && !bad(c)
  {
    if |s| == 0 then "" else (if bad(s[0]) then "" else [s[0]]) + Drop(s[1..], bad)
  }

  lemma {:induction false} DropNothing(s: string, bad: char -> bool)
    requires forall c :: c in s ==> !bad(c)
    ensures Drop(s, bad) == s
  {
    if |s| > 0 {
      DropNothing(s[1..], bad);
    }
  }

  lemma {:induction false} LowerOfLower(s: string)
    requires forall c :: c in s ==> !IsUpperAscii(c)
    ensures Lower(s) == s
  {
  }

  /**
   * clean_string: lower-case the text, delete every run of digits, then delete every
   * `string.punctuation` character (three identical copies of this function exist, see README).
   */
  function CleanString(s: string): (r: string)
  {
    Drop(Drop(Lower(s), IsDigit), IsPunct)
  }

  /** The cleaned text has no upper-case letter, digit or punctuation, and keeps every other character of the lowered input. */
  lemma CleanStringClean(s: string)
    ensures forall c :: c in CleanString(s) ==> !IsUpperAscii(c) && !IsDigit(c) && !IsPunct(c)
    ensures forall c :: c in Lower(s) && !IsDigit(c) && !IsPunct(c) ==> c in CleanString(s)
  {
    var low := Lower(s);
    forall c | c in CleanString(s) ensures !IsUpperAscii(c) {
      var i :| 0 <= i < |low| && low[i] == c;
    }
    forall c | c in low && !IsDigit(c) && !IsPunct(c) ensures c in CleanString(s) {
      DropKeeps(low, IsDigit, c);
      DropKeeps(Drop(low, IsDigit), IsPunct, c);
    }
  }

  lemma {:induction false} DropKeeps(s: string, bad: char -> bool, c: char)
    requires c in s && !bad(c)
    ensures c in Drop(s, bad)
  {
    if s[0] != c {
      DropKeeps(s[1..], bad, c);
    }
  }

  /** Cleaning is idempotent. */
  lemma CleanStringIdempotent(s: string)
    ensures CleanString(CleanString(s)) == CleanString(s)
  {
    var t := CleanString(s);
    CleanStringClean(s);
    LowerOfLower(t);
    DropNothing(t, IsDigit);
    DropNothing(t, IsPunct);
  }

  function StripLeft(s: string): (r: string)
    ensures |r| <= |s| && r == s[|s| - |r|..]
    ensures |r| == 0 || !IsSpace(r[0])
  {
    if |s| > 0 && IsSpace(s[0]) then StripLeft(s[1..]) else s
  }

  /** Only whitespace is removed on the left. */
  lemma {:induction false} StripLeftSpaces(s: string)
    ensures forall i :: 0 <= i < |s| - |StripLeft(s)| ==> IsSpace(s[i])
  {
    if |s| > 0 && IsSpace(s[0]) {
      StripLeftSpaces(s[1..]);
      forall i | 1 <= i < |s| - |StripLeft(s)| ensures IsSpace(s[i]) {
        assert s[i] == s[1..][i - 1];
      }
    }
  }

  function StripRight(s: string): (r: string)
    ensures |r| <= |s| && r == s[..|r|]
    ensures |r| == 0 || !IsSpace(r[|r| - 1])
  {
    if |s| > 0 && IsSpace(s[|s| - 1]) then StripRight(s[..|s| - 1]) else s
  }

  /** Only whitespace is removed on the right. */
  lemma {:induction false} StripRightSpaces(s: string)
    ensures forall i :: |StripRight(s)| <= i < |s| ==> IsSpace(s[i])
  {
    if |s| > 0 && IsSpace(s[|s| - 1]) {
      StripRightSpaces(s[..|s| - 1]);
      forall i | |StripRight(s)| <= i < |s| - 1 ensures IsSpace(s[i]) {
        assert s[i] == s[..|s| - 1][i];
      }
    }
  }

  /** `r` appears in `s` starting at index `i`. */
  predicate InfixAt(r: string, s: string, i: int)
  {
    0 <= i && i + |r| <= |s| && r == s[i..i + |r|]
  }

  /** `s.strip()`: a substring of `s` with no leading or trailing whitespace. */
  function Strip(s: string): (r: string)
    ensures |r| == 0 || (!IsSpace(r[0]) && !IsSpace(r[|r| - 1]))
    ensures exists i :: InfixAt(r, s, i)
  {
    var l := StripLeft(s);
    var r := StripRight(l);
    assert InfixAt(r, s, |s| - |l|);
    r
  }

  /** A text found inside `y` is found inside anything built around `y`. */
  lemma InfixWithin(x: string, y: string, k: int, a: string, b: string, s: string)
    requires InfixAt(x, y, k) && s == a + y + b
    ensures InfixAt(x, s, |a| + k)
  {
    assert s[|a| + k..|a| + k + |x|] == y[k..k + |x|];
  }

  /** A text found inside `y` is found inside anything that starts with `y`. */
  lemma InfixPrefix(x: string, y: string, k: int, s: string)
    requires InfixAt(x, y, k) && y <= s
    ensures InfixAt(x, s, k)
  {
    assert s[k..k + |x|] == y[k..k + |x|];
  }

  /** A text without leading or trailing whitespace is its own strip. */
  lemma StripStripped(s: string)
    requires |s| == 0 || (!IsSpace(s[0]) && !IsSpace(s[|s| - 1]))
    ensures Strip(s) == s
  {
  }

  /** `pat` occurs in `s` starting at index `i`. */
  predicate OccursAt(s: string, pat: string, i: int)
  {
    0 <= i && i + |pat| <= |s| && s[i..i + |pat|] == pat
  }

  /** `s.find(pat, i)` as an option: the first occurrence at or after `i`. */
  function FindFrom(s: string, pat: string, i: nat): (r: Option<nat>)
    decreases |s| - i
    ensures r.Some? ==> i <= r.value && OccursAt(s, pat, r.value)
    ensures r.Some? ==> forall j :: i <= j < r.value ==> !OccursAt(s, pat, j)
    ensures r.None? ==> forall j :: i <= j ==> !OccursAt(s, pat, j)
  {
    if i + |pat| > |s| then None
    else if s[i..i + |pat|] == pat then Some(i)
    else FindFrom(s, pat, i + 1)
  }

  function Find(s: string, pat: string): Option<nat> { FindFrom(s, pat, 0) }

  /** `pat in s` */
  predicate Contains(s: string, pat: string) { Find(s, pat).Some? }

  /** `s.split(sep, 1)` unpacked into two names: fails with ValueError when `sep` is absent. */
  function SplitOnce(s: string, sep: string): (r: Result<(string, string)>)
    requires |sep| > 0
    ensures r.Ok? <==> Contains(s, sep)
    ensures r.Ok? ==> r.value.0 + sep + r.value.1 == s && !Contains(r.value.0, sep)
  {
    match Find(s, sep)
    case None => Fail(ValueError)
    case Some(i) =>
      var before := s[..i];
      assert s == before + sep + s[i + |sep|..];
      NoEarlierOccurrence(s, sep, i);
      Ok((before, s[i + |sep|..]))
  }

  lemma NoEarlierOccurrence(s: string, sep: string, i: nat)
    requires |sep| > 0 && i + |sep| <= |s|
    requires forall j :: 0 <= j < i ==> !OccursAt(s, sep, j)
    ensures !Contains(s[..i], sep)
  {
    var p := s[..i];
    if Find(p, sep).Some? {
      var j := Find(p, sep).value;
      assert p[j..j + |sep|] == s[j..j + |sep|];
      assert j < i && OccursAt(s, sep, j);
    }
  }

  /** Splitting `a + sep + b` at its first `sep` gives back `a` and `b` when `a` holds no character that starts `sep`. */
  lemma SplitOnceAt(a: string, sep: string, b: string)
    requires |sep| > 0 && sep[0] !in a
    ensures SplitOnce(a + sep + b, sep) == Ok((a, b))
  {
    var s := a + sep + b;
    assert OccursAt(s, sep, |a|) by {
      assert s[|a|..|a| + |sep|] == sep;
    }
    forall j | 0 <= j < |a| ensures !OccursAt(s, sep, j) {
      assert s[j] == a[j];
    }
    var r := Find(s, sep);
    assert r == Some(|a|);
    assert s[..|a|] == a && s[|a| + |sep|..] == b;
  }

  /** `s.split(c)` with a one-character separator: at least one part, and no part contains `c`. */
  function SplitChar(s: string, c: char): (r: seq<string>)
    ensures |r| >= 1
    ensures forall k :: 0 <= k < |r| ==> c !in r[k]
  {
    if |s| == 0 then [""]
    else
      var rest := SplitChar(s[1..], c);
      if s[0] == c then [""] + rest else [[s[0]] + rest[0]] + rest[1..]
  }

  /** Without `c`, `s.split(c)` is `[s]`. */
  lemma {:induction false} SplitCharAbsent(s: string, c: char)
    requires c !in s
    ensures SplitChar(s, c) == [s]
  {
    if |s| > 0 {
      SplitCharAbsent(s[1..], c);
      assert s == [s[0]] + s[1..];
    }
  }

  /** With `c` present, the first part of `s.split(c)` followed by `c` starts `s`. */
  lemma {:induction false} SplitCharFirst(s: string, c: char)
    requires c in s
    ensures SplitChar(s, c)[0] + [c] <= s
  {
    if s[0] != c {
      assert c in s[1..] by {
        var i :| 0 <= i < |s| && s[i] == c;
        assert s[1..][i - 1] == c;
      }
      SplitCharFirst(s[1..], c);
    }
  }

  /** `s.split(c)` has two or more parts exactly when `c` occurs in `s`. */
  lemma {:induction false} SplitCharParts(s: string, c: char)
    ensures |SplitChar(s, c)| >= 2 <==> c in s
  {
    if |s| > 0 {
      SplitCharParts(s[1..], c);
      assert s == [s[0]] + s[1..];
    }
  }

  /** `re.split` on a one-character class: the pieces between separator characters. */
  function SplitWhere(s: string, sep: char -> bool): (r: seq<string>)
    ensures |r| >= 1
  {
    if |s| == 0 then [""]
    else
      var rest := SplitWhere(s[1..], sep);
      if sep(s[0]) then [""] + rest else [[s[0]] + rest[0]] + rest[1..]
  }

  /** `s` with every separator character replaced by `fill`. */
  function Substitute(s: string, sep: char -> bool, fill: char): (r: string)
    ensures |r| == |s|
    ensures forall i :: 0 <= i < |s| ==> r[i] == if sep(s[i]) then fill else s[i]
  {
    seq(|s|, i requires 0 <= i < |s| => if sep(s[i]) then fill else s[i])
  }

  /** Splitting on the separators and joining with `fill` replaces each separator by `fill`. */
  lemma {:induction false} JoinSplitWhere(s: string, sep: char -> bool, fill: char)
    ensures Join([fill], SplitWhere(s, sep)) == Substitute(s, sep, fill)
  {
    if |s| > 0 {
      JoinSplitWhere(s[1..], sep, fill);
      var rest := SplitWhere(s[1..], sep);
      var tail := Join([fill], rest);
      var t := Substitute(s, sep, fill);
      assert t == [t[0]] + Substitute(s[1..], sep, fill);
      JoinStep(s[0], rest, sep(s[0]), fill);
    }
  }

  /** One step of JoinSplitWhere: the first character joins the first piece, or starts a new one. */
  lemma JoinStep(c: char, rest: seq<string>, isSep: bool, fill: char)
    requires |rest| >= 1
    ensures var parts := if isSep then [""] + rest else [[c] + rest[0]] + rest[1..];
      Join([fill], parts) == [if isSep then fill else c] + Join([fill], rest)
  {
    if !isSep && |rest| > 1 {
      ConcatAssoc([c], rest[0], [fill] + Join([fill], rest[1..]));
      assert [c] + rest[0] + [fill] + Join([fill], rest[1..]) == [c] + (rest[0] + [fill] + Join([fill], rest[1..]));
    }
  }

  /** `sep.join(xs)` */
  function Join(sep: string, xs: seq<string>): string
  {
    if |xs| == 0 then "" else if |xs| == 1 then xs[0] else xs[0] + sep + Join(sep, xs[1..])
  }

  /** Splitting on `c` and joining with `c` gives back the text. */
  lemma {:induction false} JoinSplitChar(s: string, c: char)
    ensures Join([c], SplitChar(s, c)) == s
  {
    if |s| > 0 {
      JoinSplitChar(s[1..], c);
      var rest := SplitChar(s[1..], c);
      if s[0] != c {
        if |rest| > 1 {
          assert [s[0]] + rest[0] + [c] + Join([c], rest[1..]) == [s[0]] + (rest[0] + [c] + Join([c], rest[1..]));
        }
      }
    }
  }

  /** Length of the leading run of non-space characters. */
  function WordEnd(s: string): (n: nat)
    ensures n <= |s|
    ensures forall i :: 0 <= i < n ==> !IsSpace(s[i])
    ensures n == |s| || IsSpace(s[n])
  {
    if |s| == 0 || IsSpace(s[0]) then 0 else 1 + WordEnd(s[1..])
  }

  /** A word of `str.split()`: non-empty, with no whitespace in it. */
  predicate IsWord(w: string)
  {
    |w| > 0 && forall i :: 0 <= i < |w| ==> !IsSpace(w[i])
  }

  /** `s.split()`: the maximal runs of non-whitespace characters, in order. */
  function Words(s: string): seq<string>
    decreases |s|
  {
    if |s| == 0 then []
    else if IsSpace(s[0]) then Words(s[1..])
    else
      var n := WordEnd(s);
      [s[..n]] + Words(s[n..])
  }

  /** `str.split()` never yields an empty piece or one holding whitespace. */
  lemma {:induction false} WordsAreWords(s: string)
    ensures forall k :: 0 <= k < |Words(s)| ==> IsWord(Words(s)[k])
    decreases |s|
  {
    if |s| > 0 {
      if IsSpace(s[0]) {
        WordsAreWords(s[1..]);
      } else {
        var n := WordEnd(s);
        var rest := Words(s[n..]);
        WordsAreWords(s[n..]);
        assert IsWord(s[..n]);
        assert Words(s) == [s[..n]] + rest;
      }
    }
  }

  /** Every character of every word of `s.split()` is a character of `s` (stated for a property they all share). */
  lemma {:induction false} WordsKeep(s: string, p: char -> bool)
    requires forall i :: 0 <= i < |s| ==> p(s[i])
    ensures forall k :: 0 <= k < |Words(s)| ==> forall i :: 0 <= i < |Words(s)[k]| ==> p(Words(s)[k][i])
    decreases |s|
  {
    if |s| > 0 {
      if IsSpace(s[0]) {
        WordsKeep(s[1..], p);
      } else {
        var n := WordEnd(s);
        WordsKeep(s[n..], p);
        assert Words(s) == [s[..n]] + Words(s[n..]);
      }
    }
  }

  /** Python `s.replace(old, new)`: left-to-right, non-overlapping; an empty `old` puts `new` around every character. */
  function ReplaceAll(s: string, target: string, repl: string): string
    decreases |s|
  {
    if |target| == 0 then
      (if |s| == 0 then repl else repl + [s[0]] + ReplaceAll(s[1..], target, repl))
    else if |s| < |target| then s
    else if s[..|target|] == target then repl + ReplaceAll(s[|target|..], target, repl)
    else [s[0]] + ReplaceAll(s[1..], target, repl)
  }

  /** Replacing a text that does not occur leaves the string unchanged. */
  lemma {:induction false} ReplaceAbsent(s: string, target: string, repl: string)
    requires |target| > 0 && !Contains(s, target)
    ensures ReplaceAll(s, target, repl) == s
  {
    if |s| >= |target| {
      assert !OccursAt(s, target, 0);
      forall j | 0 <= j ensures !OccursAt(s[1..], target, j) {
        if OccursAt(s[1..], target, j) {
          assert s[1..][j..j + |target|] == s[j + 1..j + 1 + |target|];
          assert OccursAt(s, target, j + 1);
        }
      }
      ReplaceAbsent(s[1..], target, repl);
    }
  }

  /** Python `repr` of a list of strings, with single quotes and no escaping. */
  function ListRepr(xs: seq<string>): string
  {
    "[" + Join(", ", Quoted(xs)) + "]"
  }

  function Quoted(xs: seq<string>): (r: seq<string>)
    ensures |r| == |xs|
  {
    if |xs| == 0 then [] else ["'" + xs[0] + "'"] + Quoted(xs[1..])
  }
}
