/**
 * The words of a date or period phrase: whitespace tokenisation with case
 * folding, cardinal numbers (number words or digits) and unit names.
 */
module Phrases {
  import opened Wrappers
  import opened Numerals
  import opened Boundaries

  predicate IsSpace(c: char) {
    c == ' ' || c == '\t' || c == '\n' || c == '\r' || c == '\U{B}' || c == '\U{C}'
  }

  function LowerChar(c: char): (r: char)
    ensures !IsUpper(r)
    ensures IsSpace(r) <==> IsSpace(c)
  {
    if 'A' <= c <= 'Z' then (c as int + 32) as char else c
  }

  predicate IsUpper(c: char) {
    'A' <= c <= 'Z'
  }

  function Lower(s: string): (r: string)
    ensures |r| == |s|
    ensures forall i :: 0 <= i < |s| ==> r[i] == LowerChar(s[i])
  {
    seq(|s|, i requires 0 <= i < |s| => LowerChar(s[i]))
  }

  /** A token as the tokeniser produces it: non-empty, no whitespace, no upper-case letter. */
  predicate IsWord(w: string) {
    |w| > 0 && forall i :: 0 <= i < |w| ==> !IsSpace(w[i]) && !IsUpper(w[i])
  }

  /** The run of non-space characters at the head of s. */
  function WordPrefix(s: string): (n: nat)
    ensures n <= |s|
    ensures forall i :: 0 <= i < n ==> !IsSpace(s[i])
    ensures n < |s| ==> IsSpace(s[n])
  {
    if s == [] || IsSpace(s[0]) then 0 else 1 + WordPrefix(s[1..])
  }

  /** Splits on runs of whitespace and folds letters to lower case, folding ASCII letters only: a whitespace split of the ASCII-folded text. */
  function Tokenize(s: string): (ws: seq<string>)
    ensures forall k :: 0 <= k < |ws| ==> IsWord(ws[k])
    decreases |s|
  {
    if s == [] then []
    else if IsSpace(s[0]) then Tokenize(s[1..])
    else
      var n := WordPrefix(s);
      [Lower(s[..n])] + Tokenize(s[n..])
  }

  /** Words separated by single spaces. */
  function Join(ws: seq<string>): string {
    if ws == [] then ""
    else if |ws| == 1 then ws[0]
    else ws[0] + " " + Join(ws[1..])
  }

  lemma {:induction false} WordPrefixOfWord(w: string, rest: string)
    requires forall i :: 0 <= i < |w| ==> !IsSpace(w[i])
    requires rest == [] || IsSpace(rest[0])
    ensures WordPrefix(w + rest) == |w|
    decreases |w|
  {
    if w != [] {
      assert (w + rest)[1..] == w[1..] + rest;
      WordPrefixOfWord(w[1..], rest);
    }
  }

  lemma LowerOfWord(w: string)
    requires IsWord(w)
    ensures Lower(w) == w
  {
  }

  /** Tokenising words joined by single spaces gives the words back. */
  lemma {:induction false} TokenizeJoin(ws: seq<string>)
    requires forall k :: 0 <= k < |ws| ==> IsWord(ws[k])
    ensures Tokenize(Join(ws)) == ws
    decreases |ws|
  {
    if ws != [] {
      var w := ws[0];
      var rest := if |ws| == 1 then "" else " " + Join(ws[1..]);
      assert Join(ws) == w + rest;
      WordPrefixOfWord(w, rest);
      var s := w + rest;
      assert s[..|w|] == w;
      LowerOfWord(w);
      assert s[|w|..] == rest;
      if |ws| == 1 {
        assert ws == [w];
      } else {
        assert rest[1..] == Join(ws[1..]);
        TokenizeJoin(ws[1..]);
        assert ws == [w] + ws[1..];
      }
    }
  }

  /** A run of whitespace, possibly empty. */
  predicate Blank(g: string) {
    forall i :: 0 <= i < |g| ==> IsSpace(g[i])
  }

  /** A word as written in a phrase: non-empty, no whitespace, letters in either case. */
  predicate Unspaced(w: string) {
    |w| > 0 && forall i :: 0 <= i < |w| ==> !IsSpace(w[i])
  }

  /**
   * Words laid out with arbitrary whitespace: gaps[0] before the first word,
   * gaps[k] between word k - 1 and word k, and the last gap after the last word.
   */
  function Layout(ws: seq<string>, gaps: seq<string>): string
    requires |gaps| == |ws| + 1
    decreases |ws|
  {
    if ws == [] then gaps[0] else gaps[0] + ws[0] + Layout(ws[1..], gaps[1..])
  }

  function LowerWords(ws: seq<string>): seq<string>
    decreases |ws|
  {
    if ws == [] then [] else [Lower(ws[0])] + LowerWords(ws[1..])
  }

  lemma {:induction false} WordPrefixLower(s: string)
    ensures WordPrefix(Lower(s)) == WordPrefix(s)
    decreases |s|
  {
    if s != [] {
      assert Lower(s)[1..] == Lower(s[1..]);
      WordPrefixLower(s[1..]);
    }
  }

  /** Case does not matter: folding the text first changes no token. */
  lemma {:induction false} TokenizeLower(s: string)
    ensures Tokenize(Lower(s)) == Tokenize(s)
    decreases |s|
  {
    var l := Lower(s);
    if s != [] {
      if IsSpace(s[0]) {
        assert l[1..] == Lower(s[1..]);
        TokenizeLower(s[1..]);
      } else {
        var n := WordPrefix(s);
        WordPrefixLower(s);
        assert l[..n] == Lower(s[..n]);
        assert Lower(Lower(s[..n])) == Lower(s[..n]);
        assert l[n..] == Lower(s[n..]);
        TokenizeLower(s[n..]);
      }
    }
  }

  /** Leading whitespace is dropped. */
  lemma {:induction false} TokenizeBlank(g: string, s: string)
    requires Blank(g)
    ensures Tokenize(g + s) == Tokenize(s)
    decreases |g|
  {
    if g == [] {
      assert g + s == s;
    } else {
      assert (g + s)[0] == g[0];
      assert (g + s)[1..] == g[1..] + s;
      TokenizeBlank(g[1..], s);
    }
  }

  /**
   * Runs of whitespace of any length separate words, whitespace before the
   * first word and after the last is ignored, and every word comes out
   * folded to lower case.
   */
  lemma {:induction false} TokenizeLayout(ws: seq<string>, gaps: seq<string>)
    requires |gaps| == |ws| + 1
    requires forall k :: 0 <= k < |gaps| ==> Blank(gaps[k])
    requires forall k :: 0 < k < |ws| ==> |gaps[k]| > 0
    requires forall k :: 0 <= k < |ws| ==> Unspaced(ws[k])
    ensures Tokenize(Layout(ws, gaps)) == LowerWords(ws)
    decreases |ws|
  {
    if ws == [] {
      assert gaps[0] + "" == gaps[0];
      TokenizeBlank(gaps[0], "");
    } else {
      var w := ws[0];
      var rest := Layout(ws[1..], gaps[1..]);
      assert Layout(ws, gaps) == gaps[0] + (w + rest);
      TokenizeBlank(gaps[0], w + rest);
      if |ws| == 1 {
        assert rest == gaps[1];
      } else {
        assert rest == gaps[1] + (ws[1] + Layout(ws[2..], gaps[2..]));
        assert rest[0] == gaps[1][0];
      }
      WordPrefixOfWord(w, rest);
      var t := w + rest;
      assert t[..|w|] == w;
      assert t[|w|..] == rest;
      assert !IsSpace(t[0]);
      TokenizeLayout(ws[1..], gaps[1..]);
    }
  }

  /** A number word this library knows. */
  function NumberWord(t: string): Option<nat> {
    if t == "one" then Some(1)
    else if t == "two" then Some(2)
    else if t == "three" then Some(3)
    else if t == "four" then Some(4)
    else if t == "five" then Some(5)
    else if t == "six" then Some(6)
    else if t == "seven" then Some(7)
    else if t == "eight" then Some(8)
    else if t == "nine" then Some(9)
    else if t == "ten" then Some(10)
    else None
  }

  /** A cardinal: a number word or a non-empty run of decimal digits. */
  function Cardinal(t: string): (r: Option<nat>)
    ensures |t| > 0 && AllDigits(t) ==> r == Some(DigitsValue(t))
  {
    if |t| > 0 && AllDigits(t) then Some(DigitsValue(t)) else NumberWord(t)
  }

  /** Every zero-padded numeral reads back as its number. */
  lemma CardinalOfDigits(n: nat, w: nat)
    requires 0 < w && n < Pow10(w)
    ensures Cardinal(Pad(n, w)) == Some(n)
  {
    DigitsValuePad(n, w);
  }

  /** A unit name, singular or plural. */
  function UnitWord(t: string): Option<Unit> {
    if t == "day" || t == "days" then Some(Day)
    else if t == "week" || t == "weeks" then Some(Week)
    else if t == "month" || t == "months" then Some(Month)
    else if t == "quarter" || t == "quarters" then Some(Quarter)
    else if t == "year" || t == "years" then Some(Year)
    else None
  }
}
