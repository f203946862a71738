/** The character cursor (`IStream`): reads the source text one character at a
    time and keeps the line and column that diagnostics report. */
module CharStream {
  import opened Common

  /** `code.charAt(pos)`: the character at `pos`, or nothing (the empty string)
      once `pos` is past the end. */
  function CharAt(code: string, pos: nat): (r: Option<char>)
    ensures r.Some? <==> pos < |code|
    ensures r.Some? ==> r.value == code[pos]
  {
    if pos < |code| then Some(code[pos]) else None
  }

  /** How one call of `next()` moves the reported position. */
  function Advance(p: Position, ch: Option<char>): Position {
    if ch == Some('\n') then Position(p.line + 1, 0) else Position(p.line, p.col + 1)
  }

  /** The position reported after `pos` calls of `next()` from the start. */
  function Track(code: string, pos: nat): Position
    decreases pos
  {
    if pos == 0 then Position(1, 0) else Advance(Track(code, pos - 1), CharAt(code, pos - 1))
  }

  /** The characters that `pos` calls of `next()` have consumed. */
  function Consumed(code: string, pos: nat): (s: string)
    ensures |s| <= pos && |s| <= |code| && s == code[..|s|]
    ensures pos <= |code| ==> |s| == pos
  {
    if pos <= |code| then code[..pos] else code
  }

  /** How much input is left from `pos`: the measure that lexing decreases. */
  function Remaining(code: string, pos: nat): (n: nat)
    ensures n == 0 <==> CharAt(code, pos) == None
  {
    if pos < |code| then |code| - pos else 0
  }

  /** The line is one more than the number of newlines consumed, and the column
      counts the calls of `next()` since the last newline (all of them when
      there was none). */
  lemma {:induction false} TrackCountsLines(code: string, pos: nat)
    ensures Track(code, pos).line == 1 + multiset(Consumed(code, pos))['\n']
    ensures Track(code, pos).col <= pos
    ensures forall i :: pos - Track(code, pos).col <= i < pos ==> CharAt(code, i) != Some('\n')
    ensures Track(code, pos).col < pos ==> CharAt(code, pos - Track(code, pos).col - 1) == Some('\n')
  {
    if pos > 0 {
      TrackCountsLines(code, pos - 1);
      var c, c' := Consumed(code, pos - 1), Consumed(code, pos);
      if pos <= |code| {
        assert c' == c + [code[pos - 1]];
      } else {
        assert c' == c;
      }
    }
  }

  class Stream {
    const code: string
    var pos: nat
    var line: nat
    var col: nat

    /** The reported line and column are those of the consumed prefix. */
    ghost predicate Valid()
      reads this
    {
      Position(line, col) == Track(code, pos)
    }

    constructor (code: string)
      ensures Valid() && this.code == code && pos == 0
      ensures line == 1 && col == 0
    {
      this.code := code;
      pos, line, col := 0, 1, 0;
    }

    /** `next()`: returns the current character (nothing past the end) and
        advances; a newline starts a new line, anything else moves one column. */
    method Next() returns (ch: Option<char>)
      requires Valid()
      modifies this`pos, this`line, this`col
      ensures Valid()
      ensures ch == CharAt(code, old(pos)) && pos == old(pos) + 1
      ensures ch == Some('\n') ==> line == old(line) + 1 && col == 0
      ensures ch != Some('\n') ==> line == old(line) && col == old(col) + 1
    {
      ch := if pos < |code| then Some(code[pos]) else None;
      pos := pos + 1;
      if ch == Some('\n') {
        line, col := line + 1, 0;
      } else {
        col := col + 1;
      }
    }

    /** `peek()`: the current character, without consuming it. */
    method Peek() returns (ch: Option<char>)
      ensures ch == CharAt(code, pos)
      ensures ch.Some? ==> ch.value == code[pos]
    {
      ch := if pos < |code| then Some(code[pos]) else None;
    }

    /** `eof()`: true once every character has been consumed. */
    method Eof() returns (b: bool)
      ensures b <==> pos >= |code|
    {
      b := !(pos < |code|);
    }

    /** The position `printErr` appends to a diagnostic. */
    function Where(): (p: Position)
      reads this
      requires Valid()
      ensures p == Track(code, pos)
    {
      Position(line, col)
    }
  }
}
