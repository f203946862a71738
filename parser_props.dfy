/** Properties of the parser: precedence climbing and the bracket lists of
    `delimit`, stated over the tokens the lexer reads from the source text. */
module ParsingProperties {
  import opened Common
  import opened CharStream
  import opened Lexing
  import opened LexingProperties
  import opened Parsing

  /** Reading from cursor position `p` yields token `t` and leaves the cursor at `q`. */
  predicate Reads(code: string, p: nat, t: Token, q: nat) {
    Scan(code, p).Tok? && Scan(code, p).token == t && Scan(code, p).end == q
  }

  /** The lexer state after a `peek()` at cursor position `p` that found a
      token or the end of the input. */
  function Lookahead(code: string, p: nat): (s: LexState)
    requires !Scan(code, p).Bad?
    ensures PeekToken(code, LexState(p, None)) == Ok((s.curr, s))
  {
    match Scan(code, p)
    case End(at) => LexState(at, None)
    case Tok(t, _, e) => LexState(e, Some(t))
  }

  /** The tokens `parse_Part` returns as nodes of their own. */
  predicate IsOperand(t: Token) { t.NumTok? || t.StrTok? || t.LetTok? }

  function Leaf(t: Token): (n: Node)
    requires IsOperand(t)
    ensures OpsFromTable(n)
  {
    match t
    case NumTok(v) => NumLit(v)
    case StrTok(x) => StrLit(x)
    case LetTok(x) => Var(x)
  }

  lemma TablePositive(op: string)
    requires op in PrecedenceTable
    ensures PrecedenceTable[op] >= 1
  {
  }

  /** An operand token not followed by `(` is a whole part. */
  lemma OperandPart(code: string, p: nat, t: Token, q: nat)
    requires Reads(code, p, t, q) && IsOperand(t)
    requires !Scan(code, q).Bad?
    requires Scan(code, q).Tok? ==> Scan(code, q).token != PuncTok('(')
    ensures ParsePart(code, LexState(p, None)) == Ok(Parsed(Leaf(t), Lookahead(code, q)))
  {
    var s0 := LexState(p, None);
    var s1 := LexState(q, Some(t));
    assert PeekToken(code, s0) == Ok((Some(t), s1));
    assert Operand(code, s1) == Ok(Parsed(Leaf(t), LexState(q, None)));
    assert LiteralForms(code, s1) == Ok(Parsed(Leaf(t), LexState(q, None)));
    assert KeywordForms(code, s1) == Ok(Parsed(Leaf(t), LexState(q, None)));
    assert PartBody(code, s0) == Ok(Parsed(Leaf(t), LexState(q, None)));
  }

  // ---- the keyword forms of `parse_Part` ----

  /** A part that starts with a keyword goes to the keyword cases. */
  lemma KeywordStart(code: string, p: nat, kw: string, q: nat)
    requires Reads(code, p, KwTok(kw), q)
    ensures PartBody(code, LexState(p, None)) == KeywordForms(code, LexState(q, Some(KwTok(kw))))
  {
    var s1 := LexState(q, Some(KwTok(kw)));
    assert PeekToken(code, LexState(p, None)) == Ok((Some(KwTok(kw)), s1));
    assert IsPunc(code, LexState(p, None), '(') == Ok((false, s1));
    assert IsPunc(code, s1, '[') == Ok((false, s1));
  }

  /** `if c t else e` builds `If(c, t, Some(e))` from the three expressions
      parsed after `if`, after `c` and after `else`. */
  lemma IfElseForm(code: string, p: nat, q: nat, c: Node, s1: LexState, t: Node, s2: LexState, e: Node, s3: LexState)
    requires Reads(code, p, KwTok("if"), q)
    requires ExprParse(code, LexState(q, None)) == Ok(Parsed(c, s1))
    requires ExprParse(code, s1) == Ok(Parsed(t, s2))
    requires s2.curr == Some(KwTok("else"))
    requires ExprParse(code, LexState(s2.pos, None)) == Ok(Parsed(e, s3))
    ensures PartBody(code, LexState(p, None)) == Ok(Parsed(If(c, t, Some(e)), s3))
  {
    var k := LexState(q, Some(KwTok("if")));
    KeywordStart(code, p, "if", q);
    assert KeywordForms(code, k) == IfParse(code, k);
    assert SkipKw(code, k, "if") == Ok(LexState(q, None));
  }

  /** `if c t` not followed by `else` builds `If(c, t, None)` and leaves the
      following token in the slot. */
  lemma IfForm(code: string, p: nat, q: nat, c: Node, s1: LexState, t: Node, s2: LexState)
    requires Reads(code, p, KwTok("if"), q)
    requires ExprParse(code, LexState(q, None)) == Ok(Parsed(c, s1))
    requires ExprParse(code, s1) == Ok(Parsed(t, s2))
    requires PeekToken(code, s2).Ok? && PeekToken(code, s2).value.0 != Some(KwTok("else"))
    ensures PartBody(code, LexState(p, None)) == Ok(Parsed(If(c, t, None), PeekToken(code, s2).value.1))
  {
    var k := LexState(q, Some(KwTok("if")));
    KeywordStart(code, p, "if", q);
    assert KeywordForms(code, k) == IfParse(code, k);
    assert SkipKw(code, k, "if") == Ok(LexState(q, None));
  }

  /** A keyword no case of `parse_Part` starts with, such as `then` or
      `else`, is an unexpected token where an expression should begin. */
  lemma StrayKeyword(code: string, s: LexState, w: string)
    requires s.curr == Some(KwTok(w)) && w !in {"if", "loop", "stuff", "unstuff", "true", "false", "fun"}
    ensures ExprParse(code, s).Err?
    ensures PeekToken(code, LexState(s.pos, None)).Ok? ==>
      ExprParse(code, s) == Err(SyntaxError(UnexpectedToken, Track(code, PeekToken(code, LexState(s.pos, None)).value.1.pos)))
  {
    assert IsPunc(code, s, '(') == Ok((false, s));
    assert IsPunc(code, s, '[') == Ok((false, s));
    assert KeywordForms(code, s) == LiteralForms(code, s);
    assert LiteralForms(code, s) == Operand(code, s);
    assert PartBody(code, s) == Operand(code, s);
    assert NextToken(code, s) == Ok((Some(KwTok(w)), LexState(s.pos, None)));
    assert Operand(code, s).Err?;
  }

  /** `loop c b` builds `Loop(c, b)` from the two expressions after `loop`. */
  lemma LoopForm(code: string, p: nat, q: nat, c: Node, s1: LexState, b: Node, s2: LexState)
    requires Reads(code, p, KwTok("loop"), q)
    requires ExprParse(code, LexState(q, None)) == Ok(Parsed(c, s1))
    requires ExprParse(code, s1) == Ok(Parsed(b, s2))
    ensures PartBody(code, LexState(p, None)) == Ok(Parsed(Loop(c, b), s2))
  {
    var k := LexState(q, Some(KwTok("loop")));
    KeywordStart(code, p, "loop", q);
    assert KeywordForms(code, k) == LoopParse(code, k);
    assert SkipKw(code, k, "loop") == Ok(LexState(q, None));
  }

  /** `stuff b v` builds `Stuff(b, v)` from the two expressions after `stuff`. */
  lemma StuffForm(code: string, p: nat, q: nat, b: Node, s1: LexState, v: Node, s2: LexState)
    requires Reads(code, p, KwTok("stuff"), q)
    requires ExprParse(code, LexState(q, None)) == Ok(Parsed(b, s1))
    requires ExprParse(code, s1) == Ok(Parsed(v, s2))
    ensures PartBody(code, LexState(p, None)) == Ok(Parsed(Stuff(b, v), s2))
  {
    var k := LexState(q, Some(KwTok("stuff")));
    KeywordStart(code, p, "stuff", q);
    assert IsKw(code, k, "if") == Ok((false, k));
    assert IsKw(code, k, "loop") == Ok((false, k));
    assert KeywordForms(code, k) == StuffParse(code, k);
    assert SkipKw(code, k, "stuff") == Ok(LexState(q, None));
  }

  /** `unstuff b` builds `Unstuff(b)` from the expression after `unstuff`. */
  lemma UnstuffForm(code: string, p: nat, q: nat, b: Node, s1: LexState)
    requires Reads(code, p, KwTok("unstuff"), q)
    requires ExprParse(code, LexState(q, None)) == Ok(Parsed(b, s1))
    ensures PartBody(code, LexState(p, None)) == Ok(Parsed(Unstuff(b), s1))
  {
    var k := LexState(q, Some(KwTok("unstuff")));
    KeywordStart(code, p, "unstuff", q);
    assert IsKw(code, k, "if") == Ok((false, k));
    assert IsKw(code, k, "loop") == Ok((false, k));
    assert IsKw(code, k, "stuff") == Ok((false, k));
    assert KeywordForms(code, k) == UnstuffParse(code, k);
    assert SkipKw(code, k, "unstuff") == Ok(LexState(q, None));
  }

  /** The keywords `true` and `false` are the boolean literals they name. */
  lemma BoolForm(code: string, p: nat, w: string, q: nat)
    requires w == "true" || w == "false"
    requires Reads(code, p, KwTok(w), q)
    ensures PartBody(code, LexState(p, None)) == Ok(Parsed(BoolLit(w == "true"), LexState(q, None)))
  {
    var k := LexState(q, Some(KwTok(w)));
    KeywordStart(code, p, w, q);
    assert IsKw(code, k, "if") == Ok((false, k));
    assert IsKw(code, k, "loop") == Ok((false, k));
    assert IsKw(code, k, "stuff") == Ok((false, k));
    assert IsKw(code, k, "unstuff") == Ok((false, k));
    assert KeywordForms(code, k) == LiteralForms(code, k);
    assert LiteralForms(code, k) == BoolParse(code, k);
  }

  /** `fun [names] body` builds `Fun` of the parameter names and the body
      parsed after the list. */
  lemma FunForm(code: string, p: nat, q: nat, ps: seq<Node>, s1: LexState, b: Node, s2: LexState)
    requires Reads(code, p, KwTok("fun"), q)
    requires Delimit(code, NameItem, '[', ']', ',', LexState(q, None)) == Ok(Parsed(ps, s1))
    requires ExprParse(code, s1) == Ok(Parsed(b, s2))
    ensures PartBody(code, LexState(p, None)) == Ok(Parsed(Fun(Names(ps), b), s2))
    ensures forall i :: 0 <= i < |ps| ==> ps[i].Var? && Names(ps)[i] == ps[i].name
  {
    KeywordStart(code, p, "fun", q);
    FunStart(code, q);
    ParamsAreNames(code, LexState(q, None));
  }

  /** After the keyword `fun`, the keyword cases go to `funParse`. */
  lemma FunStart(code: string, q: nat)
    ensures KeywordForms(code, LexState(q, Some(KwTok("fun")))) == FunParse(code, LexState(q, None))
  {
    var k := LexState(q, Some(KwTok("fun")));
    assert LiteralForms(code, k) == FunParse(code, LexState(q, None));
    assert KeywordForms(code, k) == LiteralForms(code, k);
  }

  /** The items of a parameter list are all names. */
  lemma ParamsAreNames(code: string, s: LexState)
    ensures Delimit(code, NameItem, '[', ']', ',', s).Ok? ==>
      forall i :: 0 <= i < |Delimit(code, NameItem, '[', ']', ',', s).value.value| ==>
        Delimit(code, NameItem, '[', ']', ',', s).value.value[i].Var?
  {
    var s1 := SkipPunc(code, s, '[');
    if s1.Ok? {
      NameItemsAreVars(code, ']', ',', true, [], s1.value);
    }
  }

  lemma {:induction false} NameItemsAreVars(code: string, stop: char, sep: char, first: bool, acc: seq<Node>, s: LexState)
    requires AllOpsFromTable(acc) && forall i :: 0 <= i < |acc| ==> acc[i].Var?
    decreases Measure(code, s)
    ensures DelimitLoop(code, NameItem, stop, sep, first, acc, s).Ok? ==>
      forall i :: 0 <= i < |DelimitLoop(code, NameItem, stop, sep, first, acc, s).value.value| ==>
        DelimitLoop(code, NameItem, stop, sep, first, acc, s).value.value[i].Var?
  {
    DelimitUnfold(code, NameItem, stop, sep, first, acc, s);
    var st := DelimitStep(code, NameItem, stop, sep, first, s);
    if st.Item? {
      StepItemIsName(code, stop, sep, first, s);
      NameItemsAreVars(code, stop, sep, false, acc + [st.item], st.rest);
    }
  }

  /** An item of a parameter list is what `argsParse` returned: a name. */
  lemma StepItemIsName(code: string, stop: char, sep: char, first: bool, s: LexState)
    ensures DelimitStep(code, NameItem, stop, sep, first, s).Item? ==> DelimitStep(code, NameItem, stop, sep, first, s).item.Var?
  {
    match PeekToken(code, s)
    case Err(_) =>
    case Ok((t, s1)) =>
      if t.Some? {
        var pp := IsPunc(code, s1, stop).value;
        if !pp.0 {
          match (if first then Ok(pp.1) else SkipPunc(code, pp.1, sep))
          case Err(_) =>
          case Ok(s2) => RestItemIsName(code, stop, s2);
        }
      }
  }

  lemma RestItemIsName(code: string, stop: char, s: LexState)
    ensures DelimitRest(code, NameItem, stop, s).Item? ==> DelimitRest(code, NameItem, stop, s).item.Var?
  {
    match IsPunc(code, s, stop)
    case Err(_) =>
    case Ok((stopHere, s3)) =>
      assert ParseItem(code, NameItem, s3) == ArgName(code, s3);
  }

  /** `[a, b]` as a parameter list gives the two names in order. */
  lemma TwoParams(code: string, p0: nat, p1: nat, a: string, p2: nat, p3: nat, b: string, p4: nat, p5: nat)
    requires Reads(code, p0, PuncTok('['), p1) && Reads(code, p1, LetTok(a), p2)
    requires Reads(code, p2, PuncTok(','), p3) && Reads(code, p3, LetTok(b), p4)
    requires Reads(code, p4, PuncTok(']'), p5)
    ensures Delimit(code, NameItem, '[', ']', ',', LexState(p0, None)) == Ok(Parsed([Var(a), Var(b)], LexState(p5, None)))
    ensures Names([Var(a), Var(b)]) == [a, b]
  {
    var s1 := LexState(p1, None);
    var e := LexState(p5, Some(PuncTok(']')));
    assert SkipPunc(code, LexState(p0, None), '[') == Ok(s1);
    TwoNames(code, p1, a, p2, p3, b, p4, p5);
    assert SkipPunc(code, e, ']') == Ok(LexState(p5, None));
    assert Names([Var(b)]) == [b];
  }

  /** The loop of `[a, b]` pushes `a`, then `b`, and stops at `]`. */
  lemma TwoNames(code: string, p1: nat, a: string, p2: nat, p3: nat, b: string, p4: nat, p5: nat)
    requires Reads(code, p1, LetTok(a), p2)
    requires Reads(code, p2, PuncTok(','), p3) && Reads(code, p3, LetTok(b), p4)
    requires Reads(code, p4, PuncTok(']'), p5)
    ensures DelimitLoop(code, NameItem, ']', ',', true, [], LexState(p1, None)) ==
      Ok(Parsed([Var(a), Var(b)], LexState(p5, Some(PuncTok(']')))))
  {
    FirstName(code, p1, a, p2);
    DelimitUnfold(code, NameItem, ']', ',', true, [], LexState(p1, None));
    NextName(code, p2, p3, b, p4);
    DelimitUnfold(code, NameItem, ']', ',', false, [Var(a)], LexState(p2, None));
    assert [] + [Var(a)] == [Var(a)];
    assert [Var(a)] + [Var(b)] == [Var(a), Var(b)];
    ListStop(code, p4, p5);
    DelimitUnfold(code, NameItem, ']', ',', false, [Var(a), Var(b)], LexState(p4, None));
  }

  /** The first pass of a parameter list reads a name without a separator. */
  lemma FirstName(code: string, p1: nat, a: string, p2: nat)
    requires Reads(code, p1, LetTok(a), p2)
    ensures DelimitStep(code, NameItem, ']', ',', true, LexState(p1, None)) == Item(Var(a), LexState(p2, None))
  {
    var a1 := LexState(p2, Some(LetTok(a)));
    assert PeekToken(code, LexState(p1, None)) == Ok((Some(LetTok(a)), a1));
    assert ArgName(code, a1) == Ok(Parsed(Var(a), LexState(p2, None)));
    assert DelimitRest(code, NameItem, ']', a1) == Item(Var(a), LexState(p2, None));
  }

  /** A later pass reads the separator and then a name. */
  lemma NextName(code: string, p2: nat, p3: nat, b: string, p4: nat)
    requires Reads(code, p2, PuncTok(','), p3) && Reads(code, p3, LetTok(b), p4)
    ensures DelimitStep(code, NameItem, ']', ',', false, LexState(p2, None)) == Item(Var(b), LexState(p4, None))
  {
    var c := LexState(p3, Some(PuncTok(',')));
    assert PeekToken(code, LexState(p2, None)) == Ok((Some(PuncTok(',')), c));
    assert SkipPunc(code, c, ',') == Ok(LexState(p3, None));
    FirstName(code, p3, b, p4);
    var b1 := LexState(p4, Some(LetTok(b)));
    assert PeekToken(code, LexState(p3, None)) == Ok((Some(LetTok(b)), b1));
    assert DelimitRest(code, NameItem, ']', LexState(p3, None)) == DelimitRest(code, NameItem, ']', b1);
  }

  /** The stop punctuation ends the loop and stays in the slot. */
  lemma ListStop(code: string, p4: nat, p5: nat)
    requires Reads(code, p4, PuncTok(']'), p5)
    ensures DelimitStep(code, NameItem, ']', ',', false, LexState(p4, None)) == Done(LexState(p5, Some(PuncTok(']'))))
  {
    assert PeekToken(code, LexState(p4, None)) == Ok((Some(PuncTok(']')), LexState(p5, Some(PuncTok(']')))));
  }

  /** At the end of the input `parseBinary` returns its left operand. */
  lemma BinaryAtEnd(code: string, left: Node, rPrec: nat, at: nat)
    requires OpsFromTable(left)
    requires Scan(code, at) == End(at)
    ensures ParseBinary(code, left, rPrec, LexState(at, None)) == Ok(Parsed(left, LexState(at, None)))
  {
    assert PeekOp(code, LexState(at, None)) == Ok((None, LexState(at, None)));
  }

  /** Precedence climbing on `x o1 y o2 z`: the second operator binds tighter
      exactly when its precedence is higher, so equal precedences, `=`
      included, group to the left. */
  lemma Precedence(code: string, p0: nat, x: Token, p1: nat, o1: string, p2: nat,
                   y: Token, p3: nat, o2: string, p4: nat, z: Token, p5: nat)
    requires Reads(code, p0, x, p1) && IsOperand(x)
    requires Reads(code, p1, OpTok(o1), p2) && o1 in PrecedenceTable
    requires Reads(code, p2, y, p3) && IsOperand(y)
    requires Reads(code, p3, OpTok(o2), p4) && o2 in PrecedenceTable
    requires Reads(code, p4, z, p5) && IsOperand(z)
    requires Scan(code, p5).End?
    ensures ExprParse(code, LexState(p0, None)) == Ok(Parsed(
      if PrecedenceTable[o2] > PrecedenceTable[o1]
      then MakeOp(o1, Leaf(x), MakeOp(o2, Leaf(y), Leaf(z)))
      else MakeOp(o2, MakeOp(o1, Leaf(x), Leaf(y)), Leaf(z)),
      LexState(Scan(code, p5).at, None)))
  {
    var at := Scan(code, p5).at;
    var e := LexState(at, None);
    var top := if PrecedenceTable[o2] > PrecedenceTable[o1]
      then MakeOp(o1, Leaf(x), MakeOp(o2, Leaf(y), Leaf(z)))
      else MakeOp(o2, MakeOp(o1, Leaf(x), Leaf(y)), Leaf(z));
    OperandPart(code, p0, x, p1);
    if PrecedenceTable[o2] > PrecedenceTable[o1] {
      ClimbTighter(code, x, o1, p2, y, p3, o2, p4, z, p5);
    } else {
      ClimbLeft(code, x, o1, p2, y, p3, o2, p4, z, p5);
    }
    assert ParseBinary(code, Leaf(x), 0, LexState(p2, Some(OpTok(o1)))) == Ok(Parsed(top, e));
    assert CallPostfix(code, top, e) == Ok(Parsed(top, e));
  }

  /** With operator `op` in the slot and binding tighter than `rPrec`,
      `parseBinary` climbs over it. */
  lemma ClimbsOver(code: string, left: Node, op: string, rPrec: nat, p: nat)
    requires OpsFromTable(left) && op in PrecedenceTable && PrecedenceTable[op] > rPrec
    ensures ParseBinary(code, left, rPrec, LexState(p, Some(OpTok(op)))) ==
      Climb(code, left, op, rPrec, LexState(p, Some(OpTok(op))))
  {
    assert PeekOp(code, LexState(p, Some(OpTok(op)))) == Ok((Some(op), LexState(p, Some(OpTok(op)))));
  }

  /** With operator `op` in the slot and binding no tighter than `rPrec`,
      `parseBinary` stops before it. */
  lemma StopsBefore(code: string, left: Node, op: string, rPrec: nat, p: nat)
    requires OpsFromTable(left) && op in PrecedenceTable && PrecedenceTable[op] <= rPrec
    ensures ParseBinary(code, left, rPrec, LexState(p, Some(OpTok(op)))) ==
      Ok(Parsed(left, LexState(p, Some(OpTok(op)))))
  {
    assert PeekOp(code, LexState(p, Some(OpTok(op)))) == Ok((Some(op), LexState(p, Some(OpTok(op)))));
  }

  /** The right operand of `op` starts with the operand token after it. */
  lemma OperandAfter(code: string, op: string, p: nat, y: Token, q: nat)
    requires op in PrecedenceTable && Reads(code, p, y, q) && IsOperand(y)
    requires !Scan(code, q).Bad?
    requires Scan(code, q).Tok? ==> Scan(code, q).token != PuncTok('(')
    ensures RightOperand(code, op, LexState(p, Some(OpTok(op)))) ==
      ParseBinary(code, Leaf(y), PrecedenceTable[op], Lookahead(code, q))
  {
    assert NextToken(code, LexState(p, Some(OpTok(op)))) == Ok((Some(OpTok(op)), LexState(p, None)));
    OperandPart(code, p, y, q);
  }

  /** The last operand `z` of an expression, as the right operand of `op`. */
  lemma LastOperand(code: string, op: string, p4: nat, z: Token, p5: nat)
    requires op in PrecedenceTable && Reads(code, p4, z, p5) && IsOperand(z)
    requires Scan(code, p5).End?
    ensures RightOperand(code, op, LexState(p4, Some(OpTok(op)))) ==
      Ok(Parsed(Leaf(z), LexState(Scan(code, p5).at, None)))
  {
    var at := Scan(code, p5).at;
    EndIsStable(code, p5);
    OperandAfter(code, op, p4, z, p5);
    BinaryAtEnd(code, Leaf(z), PrecedenceTable[op], at);
  }

  /** The climb of `Precedence` once `x` is read, when `o2` binds tighter. */
  lemma ClimbTighter(code: string, x: Token, o1: string, p2: nat,
                     y: Token, p3: nat, o2: string, p4: nat, z: Token, p5: nat)
    requires IsOperand(x) && o1 in PrecedenceTable
    requires Reads(code, p2, y, p3) && IsOperand(y)
    requires Reads(code, p3, OpTok(o2), p4) && o2 in PrecedenceTable
    requires Reads(code, p4, z, p5) && IsOperand(z)
    requires Scan(code, p5).End?
    requires PrecedenceTable[o2] > PrecedenceTable[o1]
    ensures ParseBinary(code, Leaf(x), 0, LexState(p2, Some(OpTok(o1)))) ==
      Ok(Parsed(MakeOp(o1, Leaf(x), MakeOp(o2, Leaf(y), Leaf(z))), LexState(Scan(code, p5).at, None)))
  {
    var at := Scan(code, p5).at;
    var e := LexState(at, None);
    var P1 := PrecedenceTable[o1];
    var right := MakeOp(o2, Leaf(y), Leaf(z));
    TablePositive(o1);
    assert Lookahead(code, p3) == LexState(p4, Some(OpTok(o2)));
    OperandAfter(code, o1, p2, y, p3);
    ClimbsOver(code, Leaf(y), o2, P1, p4);
    LastOperand(code, o2, p4, z, p5);
    BinaryAtEnd(code, right, P1, at);
    assert RightOperand(code, o1, LexState(p2, Some(OpTok(o1)))) == Ok(Parsed(right, e));
    ClimbsOver(code, Leaf(x), o1, 0, p2);
    BinaryAtEnd(code, MakeOp(o1, Leaf(x), right), 0, at);
  }

  /** The climb of `Precedence` once `x` is read, when `o2` binds no tighter. */
  lemma ClimbLeft(code: string, x: Token, o1: string, p2: nat,
                  y: Token, p3: nat, o2: string, p4: nat, z: Token, p5: nat)
    requires IsOperand(x) && o1 in PrecedenceTable
    requires Reads(code, p2, y, p3) && IsOperand(y)
    requires Reads(code, p3, OpTok(o2), p4) && o2 in PrecedenceTable
    requires Reads(code, p4, z, p5) && IsOperand(z)
    requires Scan(code, p5).End?
    requires PrecedenceTable[o2] <= PrecedenceTable[o1]
    ensures ParseBinary(code, Leaf(x), 0, LexState(p2, Some(OpTok(o1)))) ==
      Ok(Parsed(MakeOp(o2, MakeOp(o1, Leaf(x), Leaf(y)), Leaf(z)), LexState(Scan(code, p5).at, None)))
  {
    var at := Scan(code, p5).at;
    var e := LexState(at, None);
    var b2 := LexState(p4, Some(OpTok(o2)));
    var P1 := PrecedenceTable[o1];
    var left := MakeOp(o1, Leaf(x), Leaf(y));
    TablePositive(o2);
    assert Lookahead(code, p3) == b2;
    OperandAfter(code, o1, p2, y, p3);
    StopsBefore(code, Leaf(y), o2, P1, p4);
    assert RightOperand(code, o1, LexState(p2, Some(OpTok(o1)))) == Ok(Parsed(Leaf(y), b2));
    ClimbsOver(code, Leaf(x), o1, 0, p2);
    assert ParseBinary(code, Leaf(x), 0, LexState(p2, Some(OpTok(o1)))) == ParseBinary(code, left, 0, b2);
    ClimbsOver(code, left, o2, 0, p4);
    LastOperand(code, o2, p4, z, p5);
    BinaryAtEnd(code, MakeOp(o2, left, Leaf(z)), 0, at);
  }

  /** `a = b = c` is `(a = b) = c`. */
  lemma AssignGroupsLeft(code: string, p0: nat, a: Token, p1: nat, p2: nat,
                         b: Token, p3: nat, p4: nat, c: Token, p5: nat)
    requires Reads(code, p0, a, p1) && IsOperand(a)
    requires Reads(code, p1, OpTok("="), p2)
    requires Reads(code, p2, b, p3) && IsOperand(b)
    requires Reads(code, p3, OpTok("="), p4)
    requires Reads(code, p4, c, p5) && IsOperand(c)
    requires Scan(code, p5).End?
    ensures ExprParse(code, LexState(p0, None)) ==
      Ok(Parsed(Assign(Assign(Leaf(a), Leaf(b)), Leaf(c)), LexState(Scan(code, p5).at, None)))
  {
    Precedence(code, p0, a, p1, "=", p2, b, p3, "=", p4, c, p5);
  }

  /** An operator missing from the table ends the expression: it stays in
      the lookahead slot and nothing after it is read. */
  lemma UnknownOperatorStops(code: string, p0: nat, x: Token, p1: nat, op: string, p2: nat)
    requires Reads(code, p0, x, p1) && IsOperand(x)
    requires Reads(code, p1, OpTok(op), p2) && op !in PrecedenceTable
    ensures ExprParse(code, LexState(p0, None)) == Ok(Parsed(Leaf(x), LexState(p2, Some(OpTok(op)))))
  {
    var b := LexState(p2, Some(OpTok(op)));
    OperandPart(code, p0, x, p1);
    assert ParseBinary(code, Leaf(x), 0, b) == Ok(Parsed(Leaf(x), b));
    assert CallPostfix(code, Leaf(x), b) == Ok(Parsed(Leaf(x), b));
  }

  // ---- delimit ----

  /** The result of a `delimit` loop with `acc` in front of its items. */
  function Prefixed(acc: seq<Node>, r: Result<Parsed<seq<Node>>>): (r': Result<Parsed<seq<Node>>>)
    ensures r'.Ok? <==> r.Ok?
    ensures r.Ok? ==> r'.value.value == acc + r.value.value && r'.value.rest == r.value.rest
    ensures r.Err? ==> r' == r
  {
    if r.Ok? then Ok(Parsed(acc + r.value.value, r.value.rest)) else r
  }

  lemma PrefixedTwice(a: seq<Node>, b: seq<Node>, r: Result<Parsed<seq<Node>>>)
    ensures Prefixed(a + b, r) == Prefixed(a, Prefixed(b, r))
  {
    if r.Ok? {
      assert (a + b) + r.value.value == a + (b + r.value.value);
    }
  }

  /** One pass of the loop: it stops with the items so far, fails, or pushes
      the item it parsed and goes round again. */
  lemma DelimitUnfold(code: string, kind: ItemKind, stop: char, sep: char, first: bool, acc: seq<Node>, s: LexState)
    requires AllOpsFromTable(acc)
    ensures DelimitStep(code, kind, stop, sep, first, s).Done? ==>
      DelimitLoop(code, kind, stop, sep, first, acc, s) == Ok(Parsed(acc, DelimitStep(code, kind, stop, sep, first, s).rest))
    ensures DelimitStep(code, kind, stop, sep, first, s).Fail? ==>
      DelimitLoop(code, kind, stop, sep, first, acc, s) == Err(DelimitStep(code, kind, stop, sep, first, s).error)
    ensures DelimitStep(code, kind, stop, sep, first, s).Item? ==>
      DelimitLoop(code, kind, stop, sep, first, acc, s) ==
      DelimitLoop(code, kind, stop, sep, false, acc + [DelimitStep(code, kind, stop, sep, first, s).item],
                  DelimitStep(code, kind, stop, sep, first, s).rest)
  {
  }

  /** Items are collected in source order: the items pushed so far come
      first, followed by those the rest of the loop parses. */
  lemma {:induction false} DelimitKeepsOrder(code: string, kind: ItemKind, stop: char, sep: char,
                                             first: bool, acc: seq<Node>, s: LexState)
    requires AllOpsFromTable(acc)
    decreases Measure(code, s)
    ensures DelimitLoop(code, kind, stop, sep, first, acc, s) ==
      Prefixed(acc, DelimitLoop(code, kind, stop, sep, first, [], s))
  {
    DelimitUnfold(code, kind, stop, sep, first, acc, s);
    DelimitUnfold(code, kind, stop, sep, first, [], s);
    var st := DelimitStep(code, kind, stop, sep, first, s);
    if st.Done? {
      assert acc + [] == acc;
    } else if st.Item? {
      var x, rest := st.item, st.rest;
      assert [] + [x] == [x];
      DelimitKeepsOrder(code, kind, stop, sep, false, acc + [x], rest);
      DelimitKeepsOrder(code, kind, stop, sep, false, [x], rest);
      PrefixedTwice(acc, [x], DelimitLoop(code, kind, stop, sep, false, [], rest));
    }
  }

  /** The empty list `start stop`. */
  lemma DelimitEmpty(code: string, kind: ItemKind, start: char, stop: char, sep: char, p: nat, q: nat, r: nat)
    requires Reads(code, p, PuncTok(start), q) && Reads(code, q, PuncTok(stop), r)
    ensures Delimit(code, kind, start, stop, sep, LexState(p, None)) == Ok(Parsed([], LexState(r, None)))
  {
    var s1 := LexState(q, None);
    assert SkipPunc(code, LexState(p, None), start) == Ok(s1);
    assert DelimitLoop(code, kind, stop, sep, true, [], s1) == Ok(Parsed([], LexState(r, Some(PuncTok(stop)))));
  }

  /** A separator directly before the stop punctuation ends the list: the
      trailing separator is accepted. */
  lemma DelimitTrailing(code: string, kind: ItemKind, stop: char, sep: char, acc: seq<Node>, s: LexState, r: nat)
    requires AllOpsFromTable(acc) && sep != stop
    requires s.curr == Some(PuncTok(sep)) && Reads(code, s.pos, PuncTok(stop), r)
    ensures DelimitLoop(code, kind, stop, sep, false, acc, s) == Ok(Parsed(acc, LexState(r, Some(PuncTok(stop)))))
  {
    assert SkipPunc(code, s, sep) == Ok(LexState(s.pos, None));
    assert DelimitRest(code, kind, stop, LexState(s.pos, None)) == Done(LexState(r, Some(PuncTok(stop))));
  }

  /** After an item, anything but the separator or the stop punctuation is
      an error reported at the cursor. */
  lemma DelimitNeedsSeparator(code: string, kind: ItemKind, stop: char, sep: char, acc: seq<Node>, s: LexState, t: Token)
    requires AllOpsFromTable(acc)
    requires s.curr == Some(t) && t != PuncTok(stop) && t != PuncTok(sep)
    ensures DelimitLoop(code, kind, stop, sep, false, acc, s) ==
      Err(SyntaxError(ExpectingPunctuation(sep), Track(code, s.pos)))
  {
    assert SkipPunc(code, s, sep) == Err(SyntaxError(ExpectingPunctuation(sep), Track(code, s.pos)));
  }

  /** A list that does not begin with the start punctuation is an error. */
  lemma DelimitMissingStart(code: string, kind: ItemKind, start: char, stop: char, sep: char, p: nat)
    requires !Scan(code, p).Bad?
    requires Lookahead(code, p).curr != Some(PuncTok(start))
    ensures Delimit(code, kind, start, stop, sep, LexState(p, None)) ==
      Err(SyntaxError(ExpectingPunctuation(start), Track(code, Lookahead(code, p).pos)))
  {
  }

  /** The `delimit` loop is left either at the stop punctuation, which
      stays in the slot, or at the end of the input. */
  lemma {:induction false} LoopEnds(code: string, kind: ItemKind, stop: char, sep: char, first: bool, acc: seq<Node>, s: LexState)
    requires AllOpsFromTable(acc)
    decreases Measure(code, s)
    ensures var l := DelimitLoop(code, kind, stop, sep, first, acc, s);
      l.Ok? ==> (l.value.rest.curr == Some(PuncTok(stop)) ||
        (l.value.rest.curr == None && Scan(code, l.value.rest.pos) == End(l.value.rest.pos)))
  {
    DelimitUnfold(code, kind, stop, sep, first, acc, s);
    var st := DelimitStep(code, kind, stop, sep, first, s);
    if st.Done? {
      StepEnds(code, kind, stop, sep, first, s);
    } else if st.Item? {
      LoopEnds(code, kind, stop, sep, false, acc + [st.item], st.rest);
    }
  }

  lemma StepEnds(code: string, kind: ItemKind, stop: char, sep: char, first: bool, s: LexState)
    ensures var st := DelimitStep(code, kind, stop, sep, first, s);
      st.Done? ==> (st.rest.curr == Some(PuncTok(stop)) ||
        (st.rest.curr == None && Scan(code, st.rest.pos) == End(st.rest.pos)))
  {
    if s.curr.None? && Scan(code, s.pos).End? {
      EndIsStable(code, s.pos);
    }
  }

  /** A list whose items run into the end of the input is missing its stop
      punctuation, as in `[a, b` or `[a,`; a loop left at the stop
      punctuation closes the list. */
  lemma DelimitMissingStop(code: string, kind: ItemKind, start: char, stop: char, sep: char, s: LexState)
    requires SkipPunc(code, s, start).Ok?
    ensures var l := DelimitLoop(code, kind, stop, sep, true, [], SkipPunc(code, s, start).value);
      l.Ok? && l.value.rest.curr == None ==>
        Delimit(code, kind, start, stop, sep, s) == Err(SyntaxError(ExpectingPunctuation(stop), Track(code, l.value.rest.pos)))
    ensures var l := DelimitLoop(code, kind, stop, sep, true, [], SkipPunc(code, s, start).value);
      l.Ok? && l.value.rest.curr.Some? ==>
        Delimit(code, kind, start, stop, sep, s) == Ok(Parsed(l.value.value, LexState(l.value.rest.pos, None)))
  {
    LoopEnds(code, kind, stop, sep, true, [], SkipPunc(code, s, start).value);
  }

  /** `[a, b` at the end of the input: both names are read, and the list
      fails for its missing `]`. */
  lemma ParamsCutOff(code: string, p0: nat, p1: nat, a: string, p2: nat, p3: nat, b: string, p4: nat)
    requires Reads(code, p0, PuncTok('['), p1) && Reads(code, p1, LetTok(a), p2)
    requires Reads(code, p2, PuncTok(','), p3) && Reads(code, p3, LetTok(b), p4)
    requires Scan(code, p4).End?
    ensures Delimit(code, NameItem, '[', ']', ',', LexState(p0, None)) ==
      Err(SyntaxError(ExpectingPunctuation(']'), Track(code, Scan(code, p4).at)))
  {
    var s1 := LexState(p1, None);
    var e := LexState(Scan(code, p4).at, None);
    assert SkipPunc(code, LexState(p0, None), '[') == Ok(s1);
    FirstName(code, p1, a, p2);
    DelimitUnfold(code, NameItem, ']', ',', true, [], s1);
    NextName(code, p2, p3, b, p4);
    DelimitUnfold(code, NameItem, ']', ',', false, [Var(a)], LexState(p2, None));
    assert DelimitStep(code, NameItem, ']', ',', false, LexState(p4, None)) == Done(e);
    DelimitUnfold(code, NameItem, ']', ',', false, [Var(a), Var(b)], LexState(p4, None));
    assert [] + [Var(a)] == [Var(a)];
    assert [Var(a)] + [Var(b)] == [Var(a), Var(b)];
    assert DelimitLoop(code, NameItem, ']', ',', true, [], s1) == Ok(Parsed([Var(a), Var(b)], e));
    DelimitMissingStop(code, NameItem, '[', ']', ',', LexState(p0, None));
  }

  /** `fun [a, b] body` builds `Fun([a, b], body)`. */
  lemma FunTwoParams(code: string, p: nat, p0: nat, p1: nat, a: string, p2: nat, p3: nat, b: string, p4: nat, p5: nat,
                     body: Node, s2: LexState)
    requires Reads(code, p, KwTok("fun"), p0)
    requires Reads(code, p0, PuncTok('['), p1) && Reads(code, p1, LetTok(a), p2)
    requires Reads(code, p2, PuncTok(','), p3) && Reads(code, p3, LetTok(b), p4)
    requires Reads(code, p4, PuncTok(']'), p5)
    requires ExprParse(code, LexState(p5, None)) == Ok(Parsed(body, s2))
    ensures PartBody(code, LexState(p, None)) == Ok(Parsed(Fun([a, b], body), s2))
  {
    TwoParams(code, p0, p1, a, p2, p3, b, p4, p5);
    FunForm(code, p, p0, [Var(a), Var(b)], LexState(p5, None), body, s2);
  }
}
