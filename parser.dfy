/** The parser (`AST`): recursive descent with precedence climbing, specified
    as functions of the lexer state it reads from. Each function returns the
    node it built and the lexer state it leaves behind, so the order in which
    tokens are looked at, and therefore which error surfaces first, is the
    source's. */
module Parsing {
  import opened Common
  import opened CharStream
  import opened Lexing

  /** AST nodes. `NumLit`, `StrLit` and `Var` are the `num`, `str` and `let`
      tokens themselves; `Assign` is the node built for `=`. */
  datatype Node =
    | NumLit(value: real)
    | StrLit(text: string)
    | BoolLit(b: bool)
    | Var(name: string)
    | Assign(left: Node, right: Node)
    | Binary(op: string, left: Node, right: Node)
    | Call(callee: Node, args: seq<Node>)
    | Fun(params: seq<string>, body: Node)
    | If(cond: Node, thn: Node, els: Option<Node>)
    | Loop(cond: Node, body: Node)
    | Stuff(base: Node, stuff: Node)
    | Unstuff(base: Node)
    | Block(items: seq<Node>)

  /** A parse result and the lexer state after it. */
  datatype Parsed<T> = Parsed(value: T, rest: LexState)

  /** `PRECEDENCE`: binding strength of each binary operator. */
  const PrecedenceTable: map<string, nat> := map[
    "=" := 1, "||" := 2, "&&" := 3,
    "<" := 7, ">" := 7, "<=" := 7, ">=" := 7, "==" := 7, "!=" := 7,
    "+" := 10, "-" := 10, "*" := 20, "/" := 20, "%" := 20]

  /** The node built for operator `op`: an assignment exactly for `=`. */
  function MakeOp(op: string, left: Node, right: Node): Node {
    if op == "=" then Assign(left, right) else Binary(op, left, right)
  }

  /** Every operator node the parser builds: a `Binary` node carries an
      operator of the table other than `=`, which always yields `Assign`. */
  predicate OpsFromTable(n: Node)
    decreases n
  {
    match n
    case Binary(op, l, r) => op in PrecedenceTable && op != "=" && OpsFromTable(l) && OpsFromTable(r)
    case Assign(l, r) => OpsFromTable(l) && OpsFromTable(r)
    case Call(f, args) => OpsFromTable(f) && forall i :: 0 <= i < |args| ==> OpsFromTable(args[i])
    case Fun(_, body) => OpsFromTable(body)
    case If(c, t, e) => OpsFromTable(c) && OpsFromTable(t) && (e.Some? ==> OpsFromTable(e.value))
    case Loop(c, b) => OpsFromTable(c) && OpsFromTable(b)
    case Stuff(b, st) => OpsFromTable(b) && OpsFromTable(st)
    case Unstuff(b) => OpsFromTable(b)
    case Block(items) => forall i :: 0 <= i < |items| ==> OpsFromTable(items[i])
    case _ => true
  }

  predicate AllOpsFromTable(ns: seq<Node>) {
    forall i :: 0 <= i < |ns| ==> OpsFromTable(ns[i])
  }

  /** The two parsers `delimit` is called with. */
  datatype ItemKind = ExprItem | NameItem

  /** The parameter names of a `fun`, from the `Var` items `argsParse` returns. */
  function Names(items: seq<Node>): (names: seq<string>)
    ensures |names| == |items|
    ensures forall i :: 0 <= i < |items| && items[i].Var? ==> names[i] == items[i].name
  {
    if items == [] then []
    else [if items[0].Var? then items[0].name else ""] + Names(items[1..])
  }

  // ---- token tests (`isPunctuation`, `isKeyword`, `isOperand`) ----

  /** `isPunctuation(ch)`: whether the next token is punctuation `ch`. */
  function IsPunc(code: string, s: LexState, ch: char): (r: Result<(bool, LexState)>)
    ensures r.Ok? ==> Measure(code, r.value.1) <= Measure(code, s)
    ensures r.Ok? ==> (r.value.0 <==> r.value.1.curr == Some(PuncTok(ch)))
    ensures s.curr.Some? ==> r.Ok? && r.value.1 == s
  {
    var p :- PeekToken(code, s);
    Ok((p.0 == Some(PuncTok(ch)), p.1))
  }

  /** `isKeyword(kw)`: whether the next token is keyword `kw`. */
  function IsKw(code: string, s: LexState, kw: string): (r: Result<(bool, LexState)>)
    ensures r.Ok? ==> Measure(code, r.value.1) <= Measure(code, s)
    ensures r.Ok? ==> (r.value.0 <==> r.value.1.curr == Some(KwTok(kw)))
    ensures s.curr.Some? ==> r.Ok? && r.value.1 == s
  {
    var p :- PeekToken(code, s);
    Ok((p.0 == Some(KwTok(kw)), p.1))
  }

  /** `isOperand()`: the next token's operator, if it is an operator token. */
  function PeekOp(code: string, s: LexState): (r: Result<(Option<string>, LexState)>)
    ensures r.Ok? ==> Measure(code, r.value.1) <= Measure(code, s)
    ensures r.Ok? && r.value.0.Some? ==> r.value.1.curr == Some(OpTok(r.value.0.value))
    ensures r.Ok? ==> (r.value.0.Some? <==> r.value.1.curr.Some? && r.value.1.curr.value.OpTok?)
    ensures s.curr.Some? ==> r.Ok? && r.value.1 == s
  {
    var p :- PeekToken(code, s);
    Ok((if p.0.Some? && p.0.value.OpTok? then Some(p.0.value.op) else None, p.1))
  }

  /** `skipPunctuation(ch)`: consume punctuation `ch` or fail. */
  function SkipPunc(code: string, s: LexState, ch: char): (r: Result<LexState>)
    ensures r.Ok? ==> Measure(code, r.value) < Measure(code, s)
  {
    var p :- IsPunc(code, s, ch);
    if p.0 then
      Ok(NextToken(code, p.1).value.1)
    else Err(SyntaxError(ExpectingPunctuation(ch), Track(code, p.1.pos)))
  }

  /** `skipKeyword(kw)`: consume keyword `kw` or fail. */
  function SkipKw(code: string, s: LexState, kw: string): (r: Result<LexState>)
    ensures r.Ok? ==> Measure(code, r.value) < Measure(code, s)
  {
    var p :- IsKw(code, s, kw);
    if p.0 then
      Ok(NextToken(code, p.1).value.1)
    else Err(SyntaxError(ExpectingKeyword(kw), Track(code, p.1.pos)))
  }

  // ---- the recursive-descent parser ----

  /** `parseBinary(left, rPrec)`: while the next token is an operator that
      binds tighter than `rPrec`, consume it, parse its right operand at the
      operator's own precedence, and combine. */
  function ParseBinary(code: string, left: Node, rPrec: nat, s: LexState): (r: Result<Parsed<Node>>)
    requires OpsFromTable(left)
    decreases Measure(code, s), 2
    ensures r.Ok? ==> Measure(code, r.value.rest) <= Measure(code, s)
    ensures r.Ok? ==> OpsFromTable(r.value.value)
  {
    var o :- PeekOp(code, s);
    var (op, s1) := o;
    if op.Some? && op.value in PrecedenceTable && PrecedenceTable[op.value] > rPrec then
      Climb(code, left, op.value, rPrec, s1)
    else Ok(Parsed(left, s1))
  }

  /** The climbing step of `parseBinary`, with operator `op` in the
      lookahead slot: its right operand, then the operators after the
      combined node. */
  function Climb(code: string, left: Node, op: string, rPrec: nat, s: LexState): (r: Result<Parsed<Node>>)
    requires OpsFromTable(left) && op in PrecedenceTable && s.curr == Some(OpTok(op))
    decreases Measure(code, s), 1
    ensures r.Ok? ==> Measure(code, r.value.rest) < Measure(code, s)
    ensures r.Ok? ==> OpsFromTable(r.value.value)
  {
    var right :- RightOperand(code, op, s);
    ParseBinary(code, MakeOp(op, left, right.value), rPrec, right.rest)
  }

  /** The right operand of `op`: consume the operator, then a part and the
      operators after it that bind tighter than `op`. */
  function RightOperand(code: string, op: string, s: LexState): (r: Result<Parsed<Node>>)
    requires op in PrecedenceTable && s.curr == Some(OpTok(op))
    decreases Measure(code, s), 0
    ensures r.Ok? ==> Measure(code, r.value.rest) < Measure(code, s)
    ensures r.Ok? ==> OpsFromTable(r.value.value)
  {
    var part :- ParsePart(code, NextToken(code, s).value.1);
    ParseBinary(code, part.value, PrecedenceTable[op], part.rest)
  }

  /** `proccessCall`: one call postfix, when the next token is `(`. */
  function CallPostfix(code: string, node: Node, s: LexState): (r: Result<Parsed<Node>>)
    requires OpsFromTable(node)
    decreases Measure(code, s), 2
    ensures r.Ok? ==> Measure(code, r.value.rest) <= Measure(code, s)
    ensures r.Ok? ==> OpsFromTable(r.value.value)
    ensures r.Ok? ==> r.value.value == node || (r.value.value.Call? && r.value.value.callee == node)
  {
    var p :- IsPunc(code, s, '(');
    if p.0 then
      var args :- Delimit(code, ExprItem, '(', ')', ',', p.1);
      Ok(Parsed(Call(node, args.value), args.rest))
    else Ok(Parsed(node, p.1))
  }

  /** `exprParse`: a part, the binary operators after it, then one call postfix. */
  function ExprParse(code: string, s: LexState): (r: Result<Parsed<Node>>)
    decreases Measure(code, s), 8
    ensures r.Ok? ==> Measure(code, r.value.rest) < Measure(code, s)
    ensures r.Ok? ==> OpsFromTable(r.value.value)
  {
    var part :- ParsePart(code, s);
    var bin :- ParseBinary(code, part.value, 0, part.rest);
    CallPostfix(code, bin.value, bin.rest)
  }

  /** `parse_Part`: a primary expression followed by one call postfix. */
  function ParsePart(code: string, s: LexState): (r: Result<Parsed<Node>>)
    decreases Measure(code, s), 7
    ensures r.Ok? ==> Measure(code, r.value.rest) < Measure(code, s)
    ensures r.Ok? ==> OpsFromTable(r.value.value)
  {
    var b :- PartBody(code, s);
    CallPostfix(code, b.value, b.rest)
  }

  /** The primary expressions of `parse_Part`, tried in the source's order. */
  function PartBody(code: string, s: LexState): (r: Result<Parsed<Node>>)
    decreases Measure(code, s), 6
    ensures r.Ok? ==> Measure(code, r.value.rest) < Measure(code, s)
    ensures r.Ok? ==> OpsFromTable(r.value.value)
  {
    var lp :- IsPunc(code, s, '(');
    if lp.0 then
      var e :- ExprParse(code, NextToken(code, lp.1).value.1);
      var s3 :- SkipPunc(code, e.rest, ')');
      Ok(Parsed(e.value, s3))
    else
    var lb :- IsPunc(code, lp.1, '[');
    if lb.0 then BlockParse(code, lb.1)
    else KeywordForms(code, lb.1)
  }

  /** `parse_Part`, continued: the forms introduced by a keyword. */
  function KeywordForms(code: string, s: LexState): (r: Result<Parsed<Node>>)
    decreases Measure(code, s), 5
    ensures r.Ok? ==> Measure(code, r.value.rest) < Measure(code, s)
    ensures r.Ok? ==> OpsFromTable(r.value.value)
  {
    var kIf :- IsKw(code, s, "if");
    if kIf.0 then IfParse(code, kIf.1)
    else
    var kLoop :- IsKw(code, kIf.1, "loop");
    if kLoop.0 then LoopParse(code, kLoop.1)
    else
    var kStuff :- IsKw(code, kLoop.1, "stuff");
    if kStuff.0 then StuffParse(code, kStuff.1)
    else
    var kUnstuff :- IsKw(code, kStuff.1, "unstuff");
    if kUnstuff.0 then UnstuffParse(code, kUnstuff.1)
    else LiteralForms(code, kUnstuff.1)
  }

  /** `parse_Part`, continued: booleans, functions, then a plain token. */
  function LiteralForms(code: string, s: LexState): (r: Result<Parsed<Node>>)
    decreases Measure(code, s), 4
    ensures r.Ok? ==> Measure(code, r.value.rest) < Measure(code, s)
    ensures r.Ok? ==> OpsFromTable(r.value.value)
  {
    var kTrue :- IsKw(code, s, "true");
    var kFalse :- IsKw(code, kTrue.1, "false");
    if kTrue.0 || kFalse.0 then BoolParse(code, kFalse.1)
    else
    var kFun :- IsKw(code, kFalse.1, "fun");
    if kFun.0 then FunParse(code, NextToken(code, kFun.1).value.1)
    else Operand(code, kFun.1)
  }

  /** The last case of `parse_Part`: a `let`, `num` or `str` token stands for
      itself; any other token is unexpected. */
  function Operand(code: string, s: LexState): (r: Result<Parsed<Node>>)
    ensures r.Ok? ==> Measure(code, r.value.rest) < Measure(code, s)
    ensures r.Ok? ==> r.value.value.Var? || r.value.value.NumLit? || r.value.value.StrLit?
  {
    var n :- NextToken(code, s);
    match n.0
    case None => Err(HostTypeError)
    case Some(LetTok(x)) => Ok(Parsed(Var(x), n.1))
    case Some(NumTok(v)) => Ok(Parsed(NumLit(v), n.1))
    case Some(StrTok(t)) => Ok(Parsed(StrLit(t), n.1))
    case Some(_) =>
      var after :- PeekToken(code, n.1);
      Err(SyntaxError(UnexpectedToken, Track(code, after.1.pos)))
  }

  /** `blockParse`: a bracketed, comma-separated list of expressions. */
  function BlockParse(code: string, s: LexState): (r: Result<Parsed<Node>>)
    decreases Measure(code, s), 3
    ensures r.Ok? ==> Measure(code, r.value.rest) < Measure(code, s)
    ensures r.Ok? ==> OpsFromTable(r.value.value)
  {
    var items :- Delimit(code, ExprItem, '[', ']', ',', s);
    Ok(Parsed(Block(items.value), items.rest))
  }

  /** `ifParse`: `if cond then-expr [else else-expr]`. */
  function IfParse(code: string, s: LexState): (r: Result<Parsed<Node>>)
    decreases Measure(code, s), 3
    ensures r.Ok? ==> Measure(code, r.value.rest) < Measure(code, s)
    ensures r.Ok? ==> OpsFromTable(r.value.value)
  {
    var s1 :- SkipKw(code, s, "if");
    var cond :- ExprParse(code, s1);
    var thn :- ExprParse(code, cond.rest);
    var e :- IsKw(code, thn.rest, "else");
    if e.0 then
      var els :- ExprParse(code, NextToken(code, e.1).value.1);
      Ok(Parsed(If(cond.value, thn.value, Some(els.value)), els.rest))
    else Ok(Parsed(If(cond.value, thn.value, None), e.1))
  }

  /** `loopParse`: `loop cond-expr body-expr`. */
  function LoopParse(code: string, s: LexState): (r: Result<Parsed<Node>>)
    decreases Measure(code, s), 3
    ensures r.Ok? ==> Measure(code, r.value.rest) < Measure(code, s)
    ensures r.Ok? ==> OpsFromTable(r.value.value)
  {
    var s1 :- SkipKw(code, s, "loop");
    var cond :- ExprParse(code, s1);
    var body :- ExprParse(code, cond.rest);
    Ok(Parsed(Loop(cond.value, body.value), body.rest))
  }

  /** `stuffParse`: `stuff base-expr value-expr`. */
  function StuffParse(code: string, s: LexState): (r: Result<Parsed<Node>>)
    decreases Measure(code, s), 3
    ensures r.Ok? ==> Measure(code, r.value.rest) < Measure(code, s)
    ensures r.Ok? ==> OpsFromTable(r.value.value)
  {
    var s1 :- SkipKw(code, s, "stuff");
    var base :- ExprParse(code, s1);
    var st :- ExprParse(code, base.rest);
    Ok(Parsed(Stuff(base.value, st.value), st.rest))
  }

  /** `unstuffParse`: `unstuff base-expr`. */
  function UnstuffParse(code: string, s: LexState): (r: Result<Parsed<Node>>)
    decreases Measure(code, s), 3
    ensures r.Ok? ==> Measure(code, r.value.rest) < Measure(code, s)
    ensures r.Ok? ==> OpsFromTable(r.value.value)
  {
    var s1 :- SkipKw(code, s, "unstuff");
    var base :- ExprParse(code, s1);
    Ok(Parsed(Unstuff(base.value), base.rest))
  }

  /** `boolParse`: the keyword `true` or `false`. */
  function BoolParse(code: string, s: LexState): (r: Result<Parsed<Node>>)
    decreases Measure(code, s), 3
    ensures r.Ok? ==> Measure(code, r.value.rest) < Measure(code, s)
    ensures r.Ok? ==> r.value.value.BoolLit?
    ensures r.Ok? ==> NextToken(code, s).Ok? && r.value.value == BoolLit(NextToken(code, s).value.0 == Some(KwTok("true")))
    ensures s.curr.Some? ==> r.Ok? && r.value.rest == LexState(s.pos, None)
    ensures r.Ok? ==> OpsFromTable(r.value.value)
  {
    var n :- NextToken(code, s);
    match n.0
    case None => Err(HostTypeError)
    case Some(t) => Ok(Parsed(BoolLit(t == KwTok("true")), n.1))
  }

  /** `funParse` (after `fun`): a bracketed parameter list, then the body. */
  function FunParse(code: string, s: LexState): (r: Result<Parsed<Node>>)
    decreases Measure(code, s), 3
    ensures r.Ok? ==> Measure(code, r.value.rest) < Measure(code, s)
    ensures r.Ok? ==> OpsFromTable(r.value.value)
  {
    var params :- Delimit(code, NameItem, '[', ']', ',', s);
    var body :- ExprParse(code, params.rest);
    Ok(Parsed(Fun(Names(params.value), body.value), body.rest))
  }

  /** `argsParse`: one parameter name. */
  function ArgName(code: string, s: LexState): (r: Result<Parsed<Node>>)
    ensures r.Ok? ==> Measure(code, r.value.rest) < Measure(code, s)
    ensures r.Ok? ==> r.value.value.Var?
    ensures r.Ok? ==> OpsFromTable(r.value.value)
  {
    var n :- NextToken(code, s);
    match n.0
    case None => Err(HostTypeError)
    case Some(LetTok(x)) => Ok(Parsed(Var(x), n.1))
    case Some(_) => Err(SyntaxError(ExpectingArgumentName, Track(code, n.1.pos)))
  }

  /** The item parser `delimit` was given. */
  function ParseItem(code: string, kind: ItemKind, s: LexState): (r: Result<Parsed<Node>>)
    decreases Measure(code, s), 9
    ensures r.Ok? ==> Measure(code, r.value.rest) < Measure(code, s)
    ensures r.Ok? ==> OpsFromTable(r.value.value)
  {
    match kind
    case ExprItem => ExprParse(code, s)
    case NameItem => ArgName(code, s)
  }

  /** `delimit(start, stop, separator, parser)`. */
  function Delimit(code: string, kind: ItemKind, start: char, stop: char, sep: char, s: LexState): (r: Result<Parsed<seq<Node>>>)
    decreases Measure(code, s), 1
    ensures r.Ok? ==> Measure(code, r.value.rest) < Measure(code, s)
    ensures r.Ok? ==> AllOpsFromTable(r.value.value)
  {
    var s1 :- SkipPunc(code, s, start);
    var items :- DelimitLoop(code, kind, stop, sep, true, [], s1);
    var s2 :- SkipPunc(code, items.rest, stop);
    Ok(Parsed(items.value, s2))
  }

  /** What one pass of `delimit`'s loop does: leave the loop (at the end of
      the input or at the stop punctuation), fail, or parse one more item. */
  datatype Step = Done(rest: LexState) | Fail(error: Error) | Item(item: Node, rest: LexState)

  /** The body of `delimit`'s `while` loop; `first` is still set before the
      first item. */
  function DelimitStep(code: string, kind: ItemKind, stop: char, sep: char, first: bool, s: LexState): (r: Step)
    decreases Measure(code, s), 11
    ensures r.Done? ==> Measure(code, r.rest) <= Measure(code, s)
    ensures r.Item? ==> Measure(code, r.rest) < Measure(code, s) && OpsFromTable(r.item)
  {
    match PeekToken(code, s)
    case Err(err) => Fail(err)
    case Ok((t, s1)) =>
      if t.None? then Done(s1)
      else
        var p := IsPunc(code, s1, stop).value;
        if p.0 then Done(p.1)
        else
          match (if first then Ok(p.1) else SkipPunc(code, p.1, sep))
          case Err(err) => Fail(err)
          case Ok(s2) => DelimitRest(code, kind, stop, s2)
  }

  /** The rest of the loop body, once the separator (if any) is consumed: a
      stop punctuation leaves the loop, anything else is parsed as an item. */
  function DelimitRest(code: string, kind: ItemKind, stop: char, s: LexState): (r: Step)
    decreases Measure(code, s), 10
    ensures r.Done? ==> Measure(code, r.rest) <= Measure(code, s)
    ensures r.Item? ==> Measure(code, r.rest) < Measure(code, s) && OpsFromTable(r.item)
  {
    match IsPunc(code, s, stop)
    case Err(err) => Fail(err)
    case Ok((stopHere, s3)) =>
      if stopHere then Done(s3)
      else
        match ParseItem(code, kind, s3)
        case Err(err) => Fail(err)
        case Ok(Parsed(x, s4)) => Item(x, s4)
  }

  /** The `while` loop of `delimit`: `acc` holds the items pushed so far. */
  function DelimitLoop(code: string, kind: ItemKind, stop: char, sep: char, first: bool, acc: seq<Node>, s: LexState): (r: Result<Parsed<seq<Node>>>)
    requires AllOpsFromTable(acc)
    decreases Measure(code, s), 12
    ensures r.Ok? ==> Measure(code, r.value.rest) <= Measure(code, s)
    ensures r.Ok? ==> AllOpsFromTable(r.value.value)
  {
    match DelimitStep(code, kind, stop, sep, first, s)
    case Done(s1) => Ok(Parsed(acc, s1))
    case Fail(err) => Err(err)
    case Item(x, s1) => DelimitLoop(code, kind, stop, sep, false, acc + [x], s1)
  }

  /** The loop of `proccess`: parse expressions until no token is left. */
  function ProgramLoop(code: string, s: LexState, acc: seq<Node>): (r: Result<Node>)
    decreases Measure(code, s)
    requires AllOpsFromTable(acc)
    ensures r.Ok? ==> r.value.Block? && |r.value.items| >= |acc| && r.value.items[..|acc|] == acc
    ensures r.Ok? ==> OpsFromTable(r.value)
  {
    var e :- PeekToken(code, s);
    if e.0.None? then Ok(Block(acc))
    else
      var x :- ExprParse(code, e.1);
      var acc' := acc + [x.value];
      assert AllOpsFromTable(acc') by {
        assert forall i :: 0 <= i < |acc| ==> acc'[i] == acc[i];
      }
      var r := ProgramLoop(code, x.rest, acc');
      assert r.Ok? ==> r.value.items[..|acc|] == acc by {
        if r.Ok? {
          assert r.value.items[..|acc|] == r.value.items[..|acc'|][..|acc|];
        }
      }
      r
  }

  /** `proccess`: the whole program as one top-level block. */
  function Parse(code: string): (r: Result<Node>)
    ensures r.Ok? ==> r.value.Block? && OpsFromTable(r.value)
  {
    ProgramLoop(code, LexState(0, None), [])
  }
}
