/** What the lexer promises about the tokens it produces and about its
    lookahead slot. */
module LexingProperties {
  import opened Common
  import opened CharStream
  import opened Lexing

  predicate NoSpace(s: string) {
    forall i :: 0 <= i < |s| ==> s[i] != ' '
  }

  /** A needle that starts with a space cannot start inside a word. */
  lemma {:induction false} SkipWord(n: string, w: string, rest: string)
    requires |n| > 0 && n[0] == ' ' && NoSpace(w)
    ensures Occurs(n, w + rest) <==> Occurs(n, rest)
    decreases |w|
  {
    var h := w + rest;
    if w == [] {
      assert h == rest;
    } else {
      assert h[1..] == w[1..] + rest;
      if |n| <= |h| {
        assert h[..|n|][0] == w[0] != n[0];
        assert h[..|n|] != n;
      }
      assert Occurs(n, h) == (|n| <= |h| && Occurs(n, w[1..] + rest));
      SkipWord(n, w[1..], rest);
      assert Occurs(n, rest) ==> |n| <= |rest|;
    }
  }

  /** The space-framed substring test on a framed list is list membership. */
  lemma {:induction false} OccursFramed(id: string, ws: seq<string>)
    requires |id| > 0 && NoSpace(id)
    requires forall k :: 0 <= k < |ws| ==> NoSpace(ws[k])
    ensures Occurs(" " + id + " ", Framed(ws)) <==> id in ws
  {
    var n := " " + id + " ";
    var h := Framed(ws);
    if ws == [] {
      assert !Occurs(n, h);
    } else {
      var w, rest := ws[0], Framed(ws[1..]);
      assert h == " " + w + rest;
      assert h[1..] == w + rest;
      OccursFramed(id, ws[1..]);
      SkipWord(n, w, rest);
      assert Occurs(n, h) <==> (|n| <= |h| && (h[..|n|] == n || Occurs(n, rest)));
      if id == w {
        assert h[..|n|] == n;
      }
      PrefixIsWord(id, w, rest);
    }
  }

  /** A space-framed word matches at the start of a framed list only if it is
      the list's first word. */
  lemma PrefixIsWord(id: string, w: string, rest: string)
    requires NoSpace(id) && NoSpace(w) && |rest| > 0 && rest[0] == ' '
    ensures var n, h := " " + id + " ", " " + w + rest;
      |n| <= |h| && h[..|n|] == n ==> id == w
  {
    var n, h := " " + id + " ", " " + w + rest;
    if |n| <= |h| && h[..|n|] == n {
      assert forall i :: 0 <= i < |id| ==> h[1 + i] == id[i];
      assert forall i :: 0 <= i < |w| ==> h[1 + i] == w[i];
      assert h[1 + |id|] == ' ' && h[1 + |w|] == ' ';
      assert |id| == |w|;
    }
  }

  /** The source's `kwords.indexOf(" " + id + " ") >= 0` test on a word lexeme
      is exactly membership in the keyword set. */
  lemma KeywordTestIsMembership(id: string)
    requires |id| > 0 && forall i :: 0 <= i < |id| ==> IsWordChar(id[i])
    ensures IsKeyword(id) <==> id in Keywords
  {
    FramedKeywords();
    assert NoSpace(id) by {
      forall i | 0 <= i < |id| ensures id[i] != ' ' { assert IsWordChar(id[i]); }
    }
    OccursFramed(id, KeywordWords);
  }

  lemma FramedKeywords()
    ensures forall k :: 0 <= k < |KeywordWords| ==> NoSpace(KeywordWords[k])
    ensures forall w :: w in KeywordWords <==> w in Keywords
  {
  }

  /** Every token is read by `ScanToken` at the first character that is neither
      blank nor inside a comment. */
  lemma TokenStart(code: string, pos: nat) returns (p: nat)
    requires !Scan(code, pos).End?
    ensures pos <= p < |code| && code[p] != '~' && Scan(code, pos) == ScanToken(code, p)
    decreases Remaining(code, pos)
  {
    p := TakeWhile(code, pos, Blank, false);
    if code[p] == '~' {
      p := TokenStart(code, TakeWhile(code, p, NotNewline, false) + 1);
    }
  }

  /** `read_while` with a stateless predicate stops at the first character it
      rejects: every character taken is accepted and the next one is not. */
  lemma {:induction false} TakeWhileStops(code: string, pos: nat, cls: CharClass, hasDot: bool)
    requires cls != NumberChar
    ensures var r := TakeWhile(code, pos, cls, hasDot);
      (forall i :: pos <= i < r ==> Accept(cls, hasDot, code[i]).0) &&
      (r < |code| ==> !Accept(cls, hasDot, code[r]).0)
    decreases Remaining(code, pos)
  {
    if pos < |code| && Accept(cls, hasDot, code[pos]).0 {
      TakeWhileStops(code, pos + 1, cls, hasDot);
    }
  }

  /** A number lexeme is digits with at most one dot, and it is maximal: the
      character after it is neither a digit nor a dot it could still take. */
  lemma {:induction false} NumberRun(code: string, pos: nat, hasDot: bool)
    ensures var r := TakeWhile(code, pos, NumberChar, hasDot);
      (forall i :: pos <= i < r ==> IsDigit(code[i]) || code[i] == '.') &&
      (r > pos ==> multiset(code[pos..r])['.'] <= (if hasDot then 0 else 1)) &&
      (r < |code| ==> !IsDigit(code[r]) && (code[r] == '.' ==> hasDot || multiset(code[pos..r])['.'] == 1))
    decreases Remaining(code, pos)
  {
    var r := TakeWhile(code, pos, NumberChar, hasDot);
    if pos < |code| && Accept(NumberChar, hasDot, code[pos]).0 {
      var dot := Accept(NumberChar, hasDot, code[pos]).1;
      assert r == TakeWhile(code, pos + 1, NumberChar, dot);
      NumberRun(code, pos + 1, dot);
      assert code[pos..r] == [code[pos]] + code[pos + 1..r];
      assert multiset(code[pos..r])['.'] == (if code[pos] == '.' then 1 else 0) + multiset(code[pos + 1..r])['.'];
    }
  }

  /** Which rule fires is decided by the first character. */
  lemma TokenKinds(code: string, p: nat)
    requires p < |code|
    ensures var r := ScanToken(code, p);
      (r.Tok? && r.token.StrTok? <==> code[p] == '"') &&
      (r.Tok? && r.token.NumTok? <==> IsDigit(code[p])) &&
      (r.Tok? && (r.token.KwTok? || r.token.LetTok?) <==> IsLetter(code[p])) &&
      (r.Tok? && r.token.PuncTok? <==> IsPuncChar(code[p])) &&
      (r.Tok? && r.token.OpTok? <==> IsOpChar(code[p])) &&
      (r.Bad? <==> code[p] != '"' && !IsDigit(code[p]) && !IsLetter(code[p]) && !IsPuncChar(code[p]) && !IsOpChar(code[p]))
  {
  }

  /** A word token is a maximal run of word characters that starts with a
      letter; it is a keyword exactly when it is one of the nine keywords. */
  lemma WordTokens(code: string, pos: nat)
    requires Scan(code, pos).Tok?
    requires Scan(code, pos).token.KwTok? || Scan(code, pos).token.LetTok?
    ensures var Tok(t, s, e) := Scan(code, pos);
      var w := if t.KwTok? then t.word else t.name;
      w == code[s..e] && IsLetter(w[0]) &&
      (forall i :: 0 <= i < |w| ==> IsWordChar(w[i])) &&
      (e < |code| ==> !IsWordChar(code[e])) &&
      (t.KwTok? <==> w in Keywords)
  {
    var p, e := WordShape(code, pos);
    TakeWhileStops(code, p, WordChar, false);
    KeywordTestIsMembership(code[p..e]);
  }

  /** A word token is read by the word rule at a letter. */
  lemma WordShape(code: string, pos: nat) returns (p: nat, e: nat)
    requires Scan(code, pos).Tok?
    requires Scan(code, pos).token.KwTok? || Scan(code, pos).token.LetTok?
    ensures p < |code| && IsLetter(code[p]) && e == TakeWhile(code, p, WordChar, false) && p <= e <= |code|
    ensures var w := code[p..e];
      Scan(code, pos) == Tok(if IsKeyword(w) then KwTok(w) else LetTok(w), p, e)
  {
    p := TokenStart(code, pos);
    e := TakeWhile(code, p, WordChar, false);
  }

  /** An operator token is a maximal run of operator characters. */
  lemma OperatorTokens(code: string, pos: nat)
    requires Scan(code, pos).Tok? && Scan(code, pos).token.OpTok?
    ensures var Tok(t, s, e) := Scan(code, pos);
      t.op == code[s..e] && |t.op| > 0 &&
      (forall i :: 0 <= i < |t.op| ==> IsOpChar(t.op[i])) &&
      (e < |code| ==> !IsOpChar(code[e]))
  {
    var p := TokenStart(code, pos);
    TakeWhileStops(code, p, OpChar, false);
  }

  /** A punctuation token is exactly one of `, ; ( ) [ ]`. */
  lemma PunctuationTokens(code: string, pos: nat)
    requires Scan(code, pos).Tok? && Scan(code, pos).token.PuncTok?
    ensures var Tok(t, s, e) := Scan(code, pos);
      e == s + 1 && code[s] == t.ch && t.ch in ",;()[]"
  {
    var p := TokenStart(code, pos);
  }

  /** A number token's lexeme starts with a digit, holds at most one dot, and
      its value is that of the decimal it spells. */
  lemma NumberTokens(code: string, pos: nat)
    requires Scan(code, pos).Tok? && Scan(code, pos).token.NumTok?
    ensures var Tok(t, s, e) := Scan(code, pos);
      var lexeme := code[s..e];
      IsDigit(lexeme[0]) && multiset(lexeme)['.'] <= 1 &&
      (forall i :: 0 <= i < |lexeme| ==> IsDigit(lexeme[i]) || lexeme[i] == '.') &&
      t.value == NumberValue(lexeme)
  {
    var p, e := NumberShape(code, pos);
    NumberRun(code, p, false);
  }

  /** A number token is read by the number rule at a digit. */
  lemma NumberShape(code: string, pos: nat) returns (p: nat, e: nat)
    requires Scan(code, pos).Tok? && Scan(code, pos).token.NumTok?
    ensures p < e <= |code| && IsDigit(code[p]) && e == TakeWhile(code, p, NumberChar, false)
    ensures Scan(code, pos) == Tok(NumTok(NumberValue(code[p..e])), p, e)
  {
    p := TokenStart(code, pos);
    e := TakeWhile(code, p, NumberChar, false);
  }

  /** Reading digits `w` then `f` is reading `w`, shifted by `|f|` places,
      plus `f`. */
  lemma {:induction false} DigitsConcat(w: string, f: string)
    decreases |f|
    ensures DigitsValue(w + f) == DigitsValue(w) * Pow10(|f|) + DigitsValue(f)
  {
    if f == [] {
      assert w + f == w;
    } else {
      var g := f[..|f| - 1];
      var c := f[|f| - 1];
      var d := if IsDigit(c) then (c - '0') as nat else 0;
      assert (w + f)[..|w + f| - 1] == w + g;
      assert (w + f)[|w + f| - 1] == c;
      assert DigitsValue(w + f) == DigitsValue(w + g) * 10 + d;
      assert DigitsValue(f) == DigitsValue(g) * 10 + d;
      assert Pow10(|f|) == 10 * Pow10(|g|);
      DigitsConcat(w, g);
      ShiftDigit(DigitsValue(w), Pow10(|g|), DigitsValue(g), d);
    }
  }

  lemma ShiftDigit(a: nat, q: nat, b: nat, d: nat)
    ensures (a * q + b) * 10 + d == a * (10 * q) + (b * 10 + d)
  {
  }

  /** A lexeme without a dot is read as its digits. */
  lemma NoDotValue(w: string)
    requires forall i :: 0 <= i < |w| ==> w[i] != '.'
    ensures NumberValue(w) == DigitsValue(w) as real
  {
    var k := DotIndex(w);
    assert k == |w|;
    assert w[..k] == w;
  }

  /** `parseFloat` of a lexeme with a dot, scaled by ten to the number of
      digits after the dot, is the whole number its digits spell once the
      dot is removed. */
  lemma DecimalValue(x: string, w: string, f: string)
    requires DotIndex(x) == |w| < |x| && w == x[..|w|] && f == x[|w| + 1..]
    ensures NumberValue(x) == DigitsValue(w + f) as real / Pow10(|f|) as real
  {
    FractionSplit(x, |w|);
    DigitsConcat(w, f);
    Unscale(NumberValue(x), DigitsValue(w), DigitsValue(f), Pow10(|f|), DigitsValue(w + f));
  }

  /** The value of a lexeme whose first dot is at `k`. */
  lemma FractionSplit(x: string, k: nat)
    requires k < |x| && DotIndex(x) == k
    ensures NumberValue(x) == DigitsValue(x[..k]) as real + DigitsValue(x[k + 1..]) as real / Pow10(|x| - k - 1) as real
  {
  }

  lemma Unscale(v: real, a: nat, b: nat, p: nat, n: nat)
    requires p > 0 && v == a as real + b as real / p as real && n == a * p + b
    ensures v == n as real / p as real
  {
    var P := p as real;
    assert (a * p) as real == a as real * P;
    assert n as real / P == a as real * P / P + b as real / P;
  }

  lemma NumberValueExamples()
    ensures NumberValue("12.5") == 12.5 && NumberValue("7") == 7.0 && NumberValue("3.") == 3.0
  {
    DecimalValue("12.5", "12", "5");
    assert "12" + "5" == "125";
    NoDotValue("7");
    DecimalValue("3.", "3", "");
    assert "3" + "" == "3";
  }

  /** Any character that no rule admits is a lexical error at its position. */
  lemma UnknownCharacter(code: string, pos: nat)
    requires pos < |code| && !IsBlank(code[pos]) && code[pos] != '~' && code[pos] != '"'
    requires !IsDigit(code[pos]) && !IsLetter(code[pos]) && !IsPuncChar(code[pos]) && !IsOpChar(code[pos])
    ensures Scan(code, pos) == Bad(LexicalError(code[pos], Track(code, pos)))
  {
    assert TakeWhile(code, pos, Blank, false) == pos;
  }

  /** Writing a string literal: a backslash before every quote and backslash. */
  function Escape(v: string): (r: string)
    ensures |r| >= |v|
  {
    if v == [] then "" else EscapeChar(v[0]) + Escape(v[1..])
  }

  function EscapeChar(c: char): string {
    if c == '"' || c == '\\' then ['\\', c] else [c]
  }

  /** The code spells `e` from position `pos` on. */
  predicate SpellsAt(code: string, pos: nat, e: string) {
    pos + |e| <= |code| && forall i :: 0 <= i < |e| ==> code[pos + i] == e[i]
  }

  /** Code that spells `(a + b) + c` spells `a` and then `b + c`. */
  lemma SpellsSplit(code: string, pos: nat, a: string, b: string, c: string)
    requires SpellsAt(code, pos, (a + b) + c)
    ensures SpellsAt(code, pos, a) && SpellsAt(code, pos + |a|, b + c)
  {
    forall i | 0 <= i < |a|
      ensures code[pos + i] == a[i]
    {
      assert ((a + b) + c)[i] == a[i];
    }
    forall i | 0 <= i < |b + c|
      ensures code[pos + |a| + i] == (b + c)[i]
    {
      assert ((a + b) + c)[|a| + i] == (b + c)[i];
    }
  }

  /** The string loop reads one escaped character back as that character. */
  lemma ScanEscapedChar(code: string, pos: nat, c: char, acc: string)
    requires SpellsAt(code, pos, EscapeChar(c))
    ensures ScanString(code, pos, false, acc) == ScanString(code, pos + |EscapeChar(c)|, false, acc + [c])
  {
    var h := EscapeChar(c);
    assert code[pos + 0] == h[0];
    if |h| == 2 {
      assert code[pos + 1] == h[1] == c;
      assert ScanString(code, pos, false, acc) == ScanString(code, pos + 1, true, acc);
    }
  }

  /** The string loop reads an escaped text, up to the closing quote, back
      to the text, and stops just after the quote. */
  lemma ScanEscaped(code: string, pos: nat, v: string, acc: string)
    requires SpellsAt(code, pos, Escape(v) + "\"")
    ensures ScanString(code, pos, false, acc) == (acc + v, pos + |Escape(v)| + 1)
  {
    var e := Escape(v);
    ScanEscapes(code, pos, v, "\"", acc);
    assert code[pos + |e|] == (e + "\"")[|e|] == '"';
  }

  /** A string token's value excludes both quotes, and a backslash makes the
      next character literal: the escaped literal of any text reads back as
      that text. */
  lemma StringRoundTrip(v: string, rest: string)
    ensures var code := "\"" + Escape(v) + "\"" + rest;
      Scan(code, 0) == Tok(StrTok(v), 0, |Escape(v)| + 2)
  {
    var code := "\"" + Escape(v) + "\"" + rest;
    var e := Escape(v) + "\"";
    assert code == "\"" + e + rest;
    assert SpellsAt(code, 1, e) by {
      forall i | 0 <= i < |e|
        ensures code[1 + i] == e[i]
      {
        assert ("\"" + e + rest)[1 + i] == e[i];
      }
    }
    ScanEscaped(code, 1, v, "");
    assert "" + v == v;
    assert code[0] == '"';
    assert TakeWhile(code, 0, Blank, false) == 0;
    assert Scan(code, 0) == ScanToken(code, 0);
  }

  /** The end of input ends an unterminated string without an error: text
      without quotes or backslashes is taken whole up to the end. */
  lemma {:induction false} UnterminatedString(code: string, pos: nat, acc: string)
    requires pos <= |code|
    requires forall i :: pos <= i < |code| ==> code[i] != '"' && code[i] != '\\'
    ensures ScanString(code, pos, false, acc) == (acc + code[pos..], |code|)
    decreases |code| - pos
  {
    if pos < |code| {
      assert ScanString(code, pos, false, acc) == ScanString(code, pos + 1, false, acc + [code[pos]]);
      UnterminatedString(code, pos + 1, acc + [code[pos]]);
      assert acc + [code[pos]] + code[pos + 1..] == acc + code[pos..];
    } else {
      assert acc + code[pos..] == acc;
    }
  }

  /** After the last escape, the end of input, or a lone backslash just
      before it, ends the string. */
  lemma EscapesEnd(code: string, pos: nat, end: string, acc: string)
    requires end == "" || end == "\\"
    requires SpellsAt(code, pos, end) && pos + |end| == |code|
    ensures ScanString(code, pos, false, acc) == (acc, |code|)
  {
    if end != "" {
      assert code[pos + 0] == end[0] == '\\';
      assert ScanString(code, pos, false, acc) == ScanString(code, pos + 1, true, acc);
    }
  }

  /** The string loop reads any escaped text back to its value, whatever
      follows it, and goes on just after it. */
  lemma {:induction false} ScanEscapes(code: string, pos: nat, v: string, end: string, acc: string)
    requires SpellsAt(code, pos, Escape(v) + end)
    ensures ScanString(code, pos, false, acc) == ScanString(code, pos + |Escape(v)|, false, acc + v)
    decreases |v|
  {
    if v == [] {
      assert acc + v == acc;
    } else {
      var h, tail := EscapeChar(v[0]), Escape(v[1..]);
      EscapeUnfold(v);
      SpellsSplit(code, pos, h, tail, end);
      ScanEscapedChar(code, pos, v[0], acc);
      ScanEscapes(code, pos + |h|, v[1..], end, acc + [v[0]]);
      MoveHead(acc, v);
    }
  }

  lemma MoveHead(acc: string, v: string)
    requires v != []
    ensures acc + [v[0]] + v[1..] == acc + v
  {
    assert [v[0]] + v[1..] == v;
  }

  /** The end of input ends an unterminated string that holds escapes: the
      escaped text of any `v` that runs to the end of the input, possibly
      followed by one last backslash, reads back as `v`. */
  lemma UnterminatedEscaped(code: string, pos: nat, v: string, end: string, acc: string)
    requires end == "" || end == "\\"
    requires SpellsAt(code, pos, Escape(v) + end) && pos + |Escape(v)| + |end| == |code|
    ensures ScanString(code, pos, false, acc) == (acc + v, |code|)
  {
    var e := Escape(v);
    ScanEscapes(code, pos, v, end, acc);
    forall i | 0 <= i < |end|
      ensures code[pos + |e| + i] == end[i]
    {
      assert (e + end)[|e| + i] == end[i];
    }
    EscapesEnd(code, pos + |e|, end, acc + v);
  }

  /** Escaping a non-empty text is escaping its first character, then the rest. */
  lemma EscapeUnfold(v: string)
    requires v != []
    ensures Escape(v) == EscapeChar(v[0]) + Escape(v[1..])
    ensures |Escape(v)| == |EscapeChar(v[0])| + |Escape(v[1..])|
  {
  }

  /** An unterminated string literal, escaped or not and possibly ending in a
      lone backslash, lexes without an error to its text, and the token runs
      to the end of the input. */
  lemma UnterminatedToken(v: string, end: string)
    requires end == "" || end == "\\"
    ensures var code := "\"" + Escape(v) + end;
      Scan(code, 0) == Tok(StrTok(v), 0, |code|)
  {
    var code := "\"" + Escape(v) + end;
    var e := Escape(v) + end;
    assert code == "\"" + e;
    assert SpellsAt(code, 1, e) by {
      forall i | 0 <= i < |e|
        ensures code[1 + i] == e[i]
      {
        assert ("\"" + e)[1 + i] == e[i];
      }
    }
    UnterminatedEscaped(code, 1, v, end, "");
    assert "" + v == v;
    assert code[0] == '"';
    assert TakeWhile(code, 0, Blank, false) == 0;
    assert Scan(code, 0) == ScanToken(code, 0);
  }

  /** A `~` comment is skipped up to and including its newline: lexing resumes
      just after the first newline (or past the end when there is none). */
  lemma CommentSkipped(code: string, pos: nat, q: nat)
    requires pos <= q <= |code| && pos < |code| && code[pos] == '~'
    requires q < |code| ==> code[q] == '\n'
    requires forall i :: pos <= i < q ==> code[i] != '\n'
    ensures Scan(code, pos) == Scan(code, q + 1)
  {
    assert TakeWhile(code, pos, Blank, false) == pos;
    NotNewlineRun(code, pos, q);
  }

  lemma {:induction false} NotNewlineRun(code: string, pos: nat, q: nat)
    requires pos <= q <= |code|
    requires q < |code| ==> code[q] == '\n'
    requires forall i :: pos <= i < q ==> code[i] != '\n'
    ensures TakeWhile(code, pos, NotNewline, false) == q
    decreases q - pos
  {
    if pos < q {
      NotNewlineRun(code, pos + 1, q);
    }
  }

  /** Once the input is exhausted, reading again still yields the end, leaving
      the cursor where it is. */
  lemma EndIsStable(code: string, pos: nat)
    requires Scan(code, pos).End?
    ensures Scan(code, Scan(code, pos).at) == End(Scan(code, pos).at)
  {
  }

  /** `peek()` is idempotent: peeking again gives the same token and state. */
  lemma PeekIdempotent(code: string, s: LexState)
    requires PeekToken(code, s).Ok?
    ensures var (t, s1) := PeekToken(code, s).value;
      PeekToken(code, s1) == Ok((t, s1))
  {
    if s.curr.None? && Scan(code, s.pos).End? {
      EndIsStable(code, s.pos);
    }
  }

  /** `next()` after `peek()` returns the buffered token and empties the slot,
      and agrees with a `next()` without the `peek()`. */
  lemma NextAfterPeek(code: string, s: LexState)
    requires PeekToken(code, s).Ok?
    ensures var (t, s1) := PeekToken(code, s).value;
      t.Some? ==> NextToken(code, s1) == Ok((t, LexState(s1.pos, None))) && NextToken(code, s) == NextToken(code, s1)
  {
  }
}
