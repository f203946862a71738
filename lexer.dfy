/** The lexer (`Lexer`, `read_next`, `read_while`): the specification of one
    token as a function of the text and the cursor position, and the
    token stream with its one-token lookahead slot `curr`. */
module Lexing {
  import opened Common
  import opened CharStream

  /** Tokens: `num`, `str`, `kw`, `let` (identifier), `punc` and `op`. */
  datatype Token =
    | NumTok(value: real)
    | StrTok(text: string)
    | KwTok(word: string)
    | LetTok(name: string)
    | PuncTok(ch: char)
    | OpTok(op: string)

  predicate IsBlank(c: char) { c == ' ' || c == '\t' || c == '\n' || c == '\r' }
  predicate IsDigit(c: char) { '0' <= c <= '9' }

  /** `/[a-zλ_]/i`: ASCII letters of either case, lambda (and its capital,
      which the case-insensitive class also admits) and the underscore. */
  predicate IsLetter(c: char) {
    ('a' <= c <= 'z') || ('A' <= c <= 'Z') || c == 'λ' || c == 'Λ' || c == '_'
  }

  predicate IsWordChar(c: char) { IsLetter(c) || c == '-' || IsDigit(c) }
  predicate IsPuncChar(c: char) { c in ",;()[]" }
  predicate IsOpChar(c: char) { c in "+-*/%=&|<>!" }

  const KeywordWords: seq<string> := ["if", "then", "else", "fun", "true", "false", "loop", "stuff", "unstuff"]

  /** A list of words written with one space before each and one at the end. */
  function Framed(ws: seq<string>): (h: string)
    ensures |h| > 0 && h[0] == ' '
  {
    if ws == [] then " " else " " + ws[0] + Framed(ws[1..])
  }

  /** The source's keyword string, `" if then else fun true false loop stuff unstuff "`. */
  const KeywordList: string := Framed(KeywordWords)

  const Keywords: set<string> := {"if", "then", "else", "fun", "true", "false", "loop", "stuff", "unstuff"}

  /** `needle` occurs somewhere in `hay` (what `indexOf(...) >= 0` tests). */
  predicate Occurs(needle: string, hay: string)
    decreases |hay|
  {
    |needle| <= |hay| && (hay[..|needle|] == needle || Occurs(needle, hay[1..]))
  }

  /** The source's keyword test: the word, framed by spaces, occurs in the list. */
  predicate IsKeyword(id: string) {
    Occurs(" " + id + " ", KeywordList)
  }

  /** The predicates `read_while` is called with. `NumberChar` is the one with
      state: the flag recording whether a dot was already taken. */
  datatype CharClass = Blank | NotNewline | NumberChar | WordChar | OpChar

  /** One decision of a `read_while` predicate: whether to take `c`, and the
      new value of the dot flag. */
  function Accept(cls: CharClass, hasDot: bool, c: char): (bool, bool) {
    match cls
    case Blank => (IsBlank(c), hasDot)
    case NotNewline => (c != '\n', hasDot)
    case NumberChar =>
      if c == '.' then (if hasDot then (false, true) else (true, true))
      else (IsDigit(c), hasDot)
    case WordChar => (IsWordChar(c), hasDot)
    case OpChar => (IsOpChar(c), hasDot)
  }

  /** Where `read_while` stops when it starts at `pos`. */
  function TakeWhile(code: string, pos: nat, cls: CharClass, hasDot: bool): (r: nat)
    decreases Remaining(code, pos)
    ensures pos <= r
    ensures r == pos || r <= |code|
  {
    if pos >= |code| then pos
    else
      var (take, dot) := Accept(cls, hasDot, code[pos]);
      if take then TakeWhile(code, pos + 1, cls, dot) else pos
  }

  /** The characters from `a` to `b`, empty when `a..b` is not inside the text. */
  function Between(code: string, a: nat, b: nat): string {
    if a <= b <= |code| then code[a..b] else ""
  }

  /** The body of a string literal, from just after the opening quote: the text
      gathered and the position after the closing quote (or the end). */
  function ScanString(code: string, pos: nat, escaped: bool, acc: string): (r: (string, nat))
    decreases Remaining(code, pos)
    ensures pos <= r.1 && (r.1 == pos || r.1 <= |code|)
  {
    if pos >= |code| then (acc, pos)
    else
      var ch := code[pos];
      if escaped then ScanString(code, pos + 1, false, acc + [ch])
      else if ch == '\\' then ScanString(code, pos + 1, true, acc)
      else if ch == '"' then (acc, pos + 1)
      else ScanString(code, pos + 1, false, acc + [ch])
  }

  /** The value of a run of decimal digits. */
  function DigitsValue(s: string): nat {
    if s == [] then 0
    else DigitsValue(s[..|s| - 1]) * 10 + (if IsDigit(s[|s| - 1]) then (s[|s| - 1] - '0') as nat else 0)
  }

  function Pow10(n: nat): (r: nat)
    ensures r > 0
  {
    if n == 0 then 1 else 10 * Pow10(n - 1)
  }

  /** The index of the first dot, or the length when there is none. */
  function DotIndex(s: string): (k: nat)
    ensures k <= |s|
    ensures k < |s| ==> s[k] == '.'
    ensures forall i :: 0 <= i < k ==> s[i] != '.'
  {
    if s == [] then 0 else if s[0] == '.' then 0 else 1 + DotIndex(s[1..])
  }

  /** `parseFloat` of a lexeme of digits with at most one dot, exactly. */
  function NumberValue(lexeme: string): real {
    var k := DotIndex(lexeme);
    var whole := DigitsValue(lexeme[..k]) as real;
    if k == |lexeme| then whole
    else whole + DigitsValue(lexeme[k + 1..]) as real / Pow10(|lexeme| - k - 1) as real
  }

  /** The outcome of `read_next` from cursor position `pos`: the end of input
      (with the cursor left at `at`), a token that starts at `start` and
      leaves the cursor at `end`, or a lexical error. */
  datatype Scanned =
    | End(at: nat)
    | Tok(token: Token, start: nat, end: nat)
    | Bad(error: Error)

  /** `read_next`: skip blanks and `~` comments, then read one token. */
  function Scan(code: string, pos: nat): (r: Scanned)
    decreases Remaining(code, pos)
    ensures r.End? ==> pos <= r.at && |code| <= r.at
    ensures r.Tok? ==> pos <= r.start < r.end <= |code|
    ensures r.Tok? ==> Remaining(code, r.end) < Remaining(code, pos)
    ensures r.Bad? ==> r.error.LexicalError?
  {
    var p := TakeWhile(code, pos, Blank, false);
    if p >= |code| then End(p)
    else if code[p] == '~' then
      var q := TakeWhile(code, p, NotNewline, false);
      Scan(code, q + 1)
    else ScanToken(code, p)
  }

  /** The token rules of `read_next`, in priority order, at a character that is
      neither blank nor the start of a comment. */
  function ScanToken(code: string, p: nat): (r: Scanned)
    requires p < |code|
    ensures r.Tok? ==> r.start == p < r.end <= |code|
    ensures r.Bad? ==> r.error.LexicalError?
  {
    var ch := code[p];
    if ch == '"' then
      var (text, e) := ScanString(code, p + 1, false, "");
      Tok(StrTok(text), p, e)
    else if IsDigit(ch) then
      var e := TakeWhile(code, p, NumberChar, false);
      Tok(NumTok(NumberValue(code[p..e])), p, e)
    else if IsLetter(ch) then
      var e := TakeWhile(code, p, WordChar, false);
      var id := code[p..e];
      Tok(if IsKeyword(id) then KwTok(id) else LetTok(id), p, e)
    else if IsPuncChar(ch) then
      Tok(PuncTok(ch), p, p + 1)
    else if IsOpChar(ch) then
      var e := TakeWhile(code, p, OpChar, false);
      Tok(OpTok(code[p..e]), p, e)
    else
      Bad(LexicalError(ch, Track(code, p)))
  }

  /** The lexer's state: the cursor position and the lookahead slot `curr`. */
  datatype LexState = LexState(pos: nat, curr: Option<Token>)

  /** A measure that every consumed token decreases and that a lookahead never
      increases. */
  function Measure(code: string, s: LexState): nat {
    2 * Remaining(code, s.pos) + (if s.curr.Some? then 1 else 0)
  }

  /** `peek()`: the buffered token, or the next one read into the buffer. */
  function PeekToken(code: string, s: LexState): (r: Result<(Option<Token>, LexState)>)
    ensures r.Ok? ==> Measure(code, r.value.1) <= Measure(code, s)
    ensures r.Ok? ==> r.value.1.curr == r.value.0
    ensures s.curr.Some? ==> r == Ok((s.curr, s))
  {
    if s.curr.Some? then Ok((s.curr, s))
    else
      match Scan(code, s.pos)
      case End(at) => Ok((None, LexState(at, None)))
      case Tok(t, _, e) => Ok((Some(t), LexState(e, Some(t))))
      case Bad(err) => Err(err)
  }

  /** `next()`: the buffered token (emptying the buffer), or a freshly read one. */
  function NextToken(code: string, s: LexState): (r: Result<(Option<Token>, LexState)>)
    ensures r.Ok? ==> r.value.1.curr == None
    ensures r.Ok? ==> Measure(code, r.value.1) <= Measure(code, s)
    ensures r.Ok? && r.value.0.Some? ==> Measure(code, r.value.1) < Measure(code, s)
    ensures s.curr.Some? ==> r == Ok((s.curr, LexState(s.pos, None)))
  {
    if s.curr.Some? then Ok((s.curr, LexState(s.pos, None)))
    else
      match Scan(code, s.pos)
      case End(at) => Ok((None, LexState(at, None)))
      case Tok(t, _, e) => Ok((Some(t), LexState(e, None)))
      case Bad(err) => Err(err)
  }

  /** The token stream the parser reads: the cursor and the lookahead slot. */
  class TokenStream {
    const input: Stream
    var curr: Option<Token>

    ghost predicate Valid()
      reads this, input
    {
      input.Valid()
    }

    ghost function State(): LexState
      reads this, input
    {
      LexState(input.pos, curr)
    }

    constructor (input: Stream)
      requires input.Valid()
      ensures Valid() && this.input == input && curr == None
    {
      this.input := input;
      curr := None;
    }

    /** `read_while`: consume characters while the predicate accepts them. */
    method ReadWhile(cls: CharClass) returns (str: string)
      requires Valid()
      modifies input
      ensures Valid()
      ensures input.pos == TakeWhile(input.code, old(input.pos), cls, false)
      ensures str == Between(input.code, old(input.pos), input.pos)
    {
      ghost var p0 := input.pos;
      str := "";
      var hasDot := false;
      while true
        invariant input.Valid()
        invariant p0 <= input.pos && (input.pos == p0 || input.pos <= |input.code|)
        invariant TakeWhile(input.code, input.pos, cls, hasDot) == TakeWhile(input.code, p0, cls, false)
        invariant str == Between(input.code, p0, input.pos)
        decreases Remaining(input.code, input.pos)
      {
        var eof := input.Eof();
        if eof { break; }
        var c := input.Peek();
        var (take, dot) := Accept(cls, hasDot, c.value);
        if !take { break; }
        hasDot := dot;
        var ch := input.Next();
        str := str + [ch.value];
      }
    }

    /** The string-literal loop: from just after the opening quote, gather
        characters until an unescaped quote or the end of input. */
    method ReadString() returns (str: string)
      requires Valid()
      modifies input
      ensures Valid()
      ensures (str, input.pos) == ScanString(input.code, old(input.pos), false, "")
    {
      ghost var p0 := input.pos;
      var escaped := false;
      str := "";
      while true
        invariant input.Valid()
        invariant ScanString(input.code, input.pos, escaped, str) == ScanString(input.code, p0, false, "")
        decreases Remaining(input.code, input.pos)
      {
        var eof := input.Eof();
        if eof { break; }
        var c := input.Next();
        var ch := c.value;
        if escaped {
          str := str + [ch];
          escaped := false;
        } else if ch == '\\' {
          escaped := true;
        } else if ch == '"' {
          break;
        } else {
          str := str + [ch];
        }
      }
    }

    /** `read_next`: the next token from the cursor, as `Scan` specifies. */
    method ReadNext() returns (r: Scanned)
      requires Valid()
      modifies input
      ensures Valid()
      ensures r == Scan(input.code, old(input.pos))
      ensures r.End? ==> input.pos == r.at
      ensures r.Tok? ==> input.pos == r.end
      decreases Remaining(input.code, input.pos)
    {
      ghost var p0 := input.pos;
      var _ := ReadWhile(Blank);
      var eof := input.Eof();
      if eof { return End(input.pos); }
      var p := input.pos;
      var c := input.Peek();
      var ch := c.value;
      if ch == '~' {
        var _ := ReadWhile(NotNewline);
        var _ := input.Next();
        r := ReadNext();
        return;
      }
      if ch == '"' {
        var _ := input.Next();
        var text := ReadString();
        return Tok(StrTok(text), p, input.pos);
      }
      if IsDigit(ch) {
        var number := ReadWhile(NumberChar);
        return Tok(NumTok(NumberValue(number)), p, input.pos);
      }
      if IsLetter(ch) {
        var id := ReadWhile(WordChar);
        return Tok(if IsKeyword(id) then KwTok(id) else LetTok(id), p, input.pos);
      }
      if IsPuncChar(ch) {
        var _ := input.Next();
        return Tok(PuncTok(ch), p, input.pos);
      }
      if IsOpChar(ch) {
        var op := ReadWhile(OpChar);
        return Tok(OpTok(op), p, input.pos);
      }
      return Bad(LexicalError(ch, input.Where()));
    }

    /** `next()`: hand out the buffered token and empty the slot, or read one. */
    method Next() returns (r: Result<Option<Token>>)
      requires Valid()
      modifies this, input
      ensures Valid()
      ensures var spec := NextToken(input.code, old(State()));
        spec.Ok? == r.Ok? &&
        (r.Ok? ==> r.value == spec.value.0 && State() == spec.value.1) &&
        (r.Err? ==> r.error == spec.error)
    {
      var token := curr;
      curr := None;
      if token.Some? { return Ok(token); }
      var s := ReadNext();
      match s
      case End(_) => return Ok(None);
      case Tok(t, _, _) => return Ok(Some(t));
      case Bad(e) => return Err(e);
    }

    /** `peek()`: the buffered token, reading one into the slot when empty. */
    method Peek() returns (r: Result<Option<Token>>)
      requires Valid()
      modifies this, input
      ensures Valid()
      ensures var spec := PeekToken(input.code, old(State()));
        spec.Ok? == r.Ok? &&
        (r.Ok? ==> r.value == spec.value.0 && State() == spec.value.1) &&
        (r.Err? ==> r.error == spec.error)
    {
      if curr.Some? { return Ok(curr); }
      var s := ReadNext();
      match s
      case End(_) => return Ok(None);
      case Tok(t, _, _) => curr := Some(t); return Ok(curr);
      case Bad(e) => return Err(e);
    }

    /** `eof()`: no token is left (reading one into the slot if it is empty). */
    method Eof() returns (r: Result<bool>)
      requires Valid()
      modifies this, input
      ensures Valid()
      ensures var spec := PeekToken(input.code, old(State()));
        spec.Ok? == r.Ok? &&
        (r.Ok? ==> r.value == spec.value.0.None? && State() == spec.value.1) &&
        (r.Err? ==> r.error == spec.error)
    {
      var t :- Peek();
      return Ok(t.None?);
    }
  }
}
