/** The parser as the source runs it: recursive procedures that pull tokens
    from a shared, mutable token stream. Every method computes what the
    function of the same name in `Parsing` specifies, and leaves the token
    stream in the state that function returns. */
module ParsingImpl {
  import opened Common
  import opened CharStream
  import opened Lexing
  import opened Parsing
  import opened ParsingProperties

  /** A method's result and the stream state it leaves are those of `spec`
      (the state only matters when it succeeds: a failure aborts the run). */
  ghost predicate Mirrors<T>(r: Result<T>, spec: Result<Parsed<T>>, after: LexState) {
    r == (if spec.Ok? then Ok(spec.value.value) else Err(spec.error)) &&
    (spec.Ok? ==> after == spec.value.rest)
  }

  ghost predicate MirrorsTest<T>(r: Result<T>, spec: Result<(T, LexState)>, after: LexState) {
    r == (if spec.Ok? then Ok(spec.value.0) else Err(spec.error)) &&
    (spec.Ok? ==> after == spec.value.1)
  }

  ghost predicate MirrorsSkip(r: Result<()>, spec: Result<LexState>, after: LexState) {
    r == (if spec.Ok? then Ok(()) else Err(spec.error)) &&
    (spec.Ok? ==> after == spec.value)
  }

  ghost predicate MirrorsStep(r: Result<Option<Node>>, spec: Step, after: LexState) {
    match spec
    case Done(rest) => r == Ok(None) && after == rest
    case Fail(e) => r == Err(e)
    case Item(x, rest) => r == Ok(Some(x)) && after == rest
  }

  class Parser {
    const lex: TokenStream

    ghost predicate Valid()
      reads this, lex, lex.input
    {
      lex.Valid()
    }

    ghost function Code(): string
      reads this, lex
    {
      lex.input.code
    }

    constructor (lex: TokenStream)
      requires lex.Valid()
      ensures Valid() && this.lex == lex
    {
      this.lex := lex;
    }

    // ---- token tests ----

    method IsPunctuation(ch: char) returns (r: Result<bool>)
      requires Valid()
      modifies lex, lex.input
      ensures Valid()
      ensures MirrorsTest(r, IsPunc(Code(), old(lex.State()), ch), lex.State())
    {
      var t :- lex.Peek();
      return Ok(t == Some(PuncTok(ch)));
    }

    method IsKeyword(kw: string) returns (r: Result<bool>)
      requires Valid()
      modifies lex, lex.input
      ensures Valid()
      ensures MirrorsTest(r, IsKw(Code(), old(lex.State()), kw), lex.State())
    {
      var t :- lex.Peek();
      return Ok(t == Some(KwTok(kw)));
    }

    method IsOperand() returns (r: Result<Option<string>>)
      requires Valid()
      modifies lex, lex.input
      ensures Valid()
      ensures MirrorsTest(r, PeekOp(Code(), old(lex.State())), lex.State())
    {
      var t :- lex.Peek();
      return Ok(if t.Some? && t.value.OpTok? then Some(t.value.op) else None);
    }

    method SkipPunctuation(ch: char) returns (r: Result<()>)
      requires Valid()
      modifies lex, lex.input
      ensures Valid()
      ensures MirrorsSkip(r, SkipPunc(Code(), old(lex.State()), ch), lex.State())
    {
      var p :- IsPunctuation(ch);
      if p {
        var _ := lex.Next();
        return Ok(());
      }
      return Err(SyntaxError(ExpectingPunctuation(ch), lex.input.Where()));
    }

    method SkipKeyword(kw: string) returns (r: Result<()>)
      requires Valid()
      modifies lex, lex.input
      ensures Valid()
      ensures MirrorsSkip(r, SkipKw(Code(), old(lex.State()), kw), lex.State())
    {
      var p :- IsKeyword(kw);
      if p {
        var _ := lex.Next();
        return Ok(());
      }
      return Err(SyntaxError(ExpectingKeyword(kw), lex.input.Where()));
    }

    // ---- the recursive-descent parser ----

    method ParseBinary(left: Node, rPrec: nat) returns (r: Result<Node>)
      requires Valid() && OpsFromTable(left)
      modifies lex, lex.input
      decreases Measure(Code(), lex.State()), 2
      ensures Valid()
      ensures Mirrors(r, Parsing.ParseBinary(Code(), left, rPrec, old(lex.State())), lex.State())
    {
      var op :- IsOperand();
      if op.Some? && op.value in PrecedenceTable && PrecedenceTable[op.value] > rPrec {
        r := Climb(left, op.value, rPrec);
      } else {
        r := Ok(left);
      }
    }

    /** The climbing step, with the operator in the lookahead slot. */
    method Climb(left: Node, op: string, rPrec: nat) returns (r: Result<Node>)
      requires Valid() && OpsFromTable(left) && op in PrecedenceTable && lex.curr == Some(OpTok(op))
      modifies lex, lex.input
      decreases Measure(Code(), lex.State()), 1
      ensures Valid()
      ensures Mirrors(r, Parsing.Climb(Code(), left, op, rPrec, old(lex.State())), lex.State())
    {
      var right :- RightOperand(op);
      r := ParseBinary(MakeOp(op, left, right), rPrec);
    }

    /** Consuming the operator and parsing its right operand. */
    method RightOperand(op: string) returns (r: Result<Node>)
      requires Valid() && op in PrecedenceTable && lex.curr == Some(OpTok(op))
      modifies lex, lex.input
      decreases Measure(Code(), lex.State()), 0
      ensures Valid()
      ensures Mirrors(r, Parsing.RightOperand(Code(), op, old(lex.State())), lex.State())
    {
      var _ := lex.Next();
      var part :- ParsePart();
      r := ParseBinary(part, PrecedenceTable[op]);
    }

    /** `proccessCall`. */
    method CallPostfix(node: Node) returns (r: Result<Node>)
      requires Valid() && OpsFromTable(node)
      modifies lex, lex.input
      decreases Measure(Code(), lex.State()), 2
      ensures Valid()
      ensures Mirrors(r, Parsing.CallPostfix(Code(), node, old(lex.State())), lex.State())
    {
      var p :- IsPunctuation('(');
      if p {
        var args :- Delimit(ExprItem, '(', ')', ',');
        return Ok(Call(node, args));
      }
      return Ok(node);
    }

    method ExprParse() returns (r: Result<Node>)
      requires Valid()
      modifies lex, lex.input
      decreases Measure(Code(), lex.State()), 8
      ensures Valid()
      ensures Mirrors(r, Parsing.ExprParse(Code(), old(lex.State())), lex.State())
    {
      var part :- ParsePart();
      var bin :- ParseBinary(part, 0);
      r := CallPostfix(bin);
    }

    method ParsePart() returns (r: Result<Node>)
      requires Valid()
      modifies lex, lex.input
      decreases Measure(Code(), lex.State()), 7
      ensures Valid()
      ensures Mirrors(r, Parsing.ParsePart(Code(), old(lex.State())), lex.State())
    {
      var b :- PartBody();
      r := CallPostfix(b);
    }

    method PartBody() returns (r: Result<Node>)
      requires Valid()
      modifies lex, lex.input
      decreases Measure(Code(), lex.State()), 6
      ensures Valid()
      ensures Mirrors(r, Parsing.PartBody(Code(), old(lex.State())), lex.State())
    {
      var lp :- IsPunctuation('(');
      if lp {
        var _ := lex.Next();
        var e :- ExprParse();
        var _ :- SkipPunctuation(')');
        return Ok(e);
      }
      var lb :- IsPunctuation('[');
      if lb {
        r := BlockParse();
      } else {
        r := KeywordForms();
      }
    }

    method KeywordForms() returns (r: Result<Node>)
      requires Valid()
      modifies lex, lex.input
      decreases Measure(Code(), lex.State()), 5
      ensures Valid()
      ensures Mirrors(r, Parsing.KeywordForms(Code(), old(lex.State())), lex.State())
    {
      var kIf :- IsKeyword("if");
      if kIf { r := IfParse(); return; }
      var kLoop :- IsKeyword("loop");
      if kLoop { r := LoopParse(); return; }
      var kStuff :- IsKeyword("stuff");
      if kStuff { r := StuffParse(); return; }
      var kUnstuff :- IsKeyword("unstuff");
      if kUnstuff { r := UnstuffParse(); return; }
      r := LiteralForms();
    }

    method LiteralForms() returns (r: Result<Node>)
      requires Valid()
      modifies lex, lex.input
      decreases Measure(Code(), lex.State()), 4
      ensures Valid()
      ensures Mirrors(r, Parsing.LiteralForms(Code(), old(lex.State())), lex.State())
    {
      var kTrue :- IsKeyword("true");
      var kFalse :- IsKeyword("false");
      if kTrue || kFalse { r := BoolParse(); return; }
      var kFun :- IsKeyword("fun");
      if kFun {
        var _ := lex.Next();
        r := FunParse();
        return;
      }
      r := Operand();
    }

    method Operand() returns (r: Result<Node>)
      requires Valid()
      modifies lex, lex.input
      ensures Valid()
      ensures Mirrors(r, Parsing.Operand(Code(), old(lex.State())), lex.State())
    {
      var n :- lex.Next();
      match n
      case None => return Err(HostTypeError);
      case Some(LetTok(x)) => return Ok(Var(x));
      case Some(NumTok(v)) => return Ok(NumLit(v));
      case Some(StrTok(t)) => return Ok(StrLit(t));
      case Some(_) =>
        var _ :- lex.Peek();
        return Err(SyntaxError(UnexpectedToken, lex.input.Where()));
    }

    method BlockParse() returns (r: Result<Node>)
      requires Valid()
      modifies lex, lex.input
      decreases Measure(Code(), lex.State()), 3
      ensures Valid()
      ensures Mirrors(r, Parsing.BlockParse(Code(), old(lex.State())), lex.State())
    {
      var items :- Delimit(ExprItem, '[', ']', ',');
      return Ok(Block(items));
    }

    method IfParse() returns (r: Result<Node>)
      requires Valid()
      modifies lex, lex.input
      decreases Measure(Code(), lex.State()), 3
      ensures Valid()
      ensures Mirrors(r, Parsing.IfParse(Code(), old(lex.State())), lex.State())
    {
      var _ :- SkipKeyword("if");
      var cond :- ExprParse();
      var thn :- ExprParse();
      var e :- IsKeyword("else");
      if e {
        var _ := lex.Next();
        var els :- ExprParse();
        return Ok(If(cond, thn, Some(els)));
      }
      return Ok(If(cond, thn, None));
    }

    method LoopParse() returns (r: Result<Node>)
      requires Valid()
      modifies lex, lex.input
      decreases Measure(Code(), lex.State()), 3
      ensures Valid()
      ensures Mirrors(r, Parsing.LoopParse(Code(), old(lex.State())), lex.State())
    {
      var _ :- SkipKeyword("loop");
      var cond :- ExprParse();
      var body :- ExprParse();
      return Ok(Loop(cond, body));
    }

    method StuffParse() returns (r: Result<Node>)
      requires Valid()
      modifies lex, lex.input
      decreases Measure(Code(), lex.State()), 3
      ensures Valid()
      ensures Mirrors(r, Parsing.StuffParse(Code(), old(lex.State())), lex.State())
    {
      var _ :- SkipKeyword("stuff");
      var base :- ExprParse();
      var st :- ExprParse();
      return Ok(Stuff(base, st));
    }

    method UnstuffParse() returns (r: Result<Node>)
      requires Valid()
      modifies lex, lex.input
      decreases Measure(Code(), lex.State()), 3
      ensures Valid()
      ensures Mirrors(r, Parsing.UnstuffParse(Code(), old(lex.State())), lex.State())
    {
      var _ :- SkipKeyword("unstuff");
      var base :- ExprParse();
      return Ok(Unstuff(base));
    }

    method BoolParse() returns (r: Result<Node>)
      requires Valid()
      modifies lex, lex.input
      ensures Valid()
      ensures Mirrors(r, Parsing.BoolParse(Code(), old(lex.State())), lex.State())
    {
      var n :- lex.Next();
      match n
      case None => return Err(HostTypeError);
      case Some(t) => return Ok(BoolLit(t == KwTok("true")));
    }

    method FunParse() returns (r: Result<Node>)
      requires Valid()
      modifies lex, lex.input
      decreases Measure(Code(), lex.State()), 3
      ensures Valid()
      ensures Mirrors(r, Parsing.FunParse(Code(), old(lex.State())), lex.State())
    {
      var params :- Delimit(NameItem, '[', ']', ',');
      var body :- ExprParse();
      return Ok(Fun(Names(params), body));
    }

    /** `argsParse`. */
    method ArgsParse() returns (r: Result<Node>)
      requires Valid()
      modifies lex, lex.input
      ensures Valid()
      ensures Mirrors(r, ArgName(Code(), old(lex.State())), lex.State())
    {
      var n :- lex.Next();
      match n
      case None => return Err(HostTypeError);
      case Some(LetTok(x)) => return Ok(Var(x));
      case Some(_) => return Err(SyntaxError(ExpectingArgumentName, lex.input.Where()));
    }

    method ParseItem(kind: ItemKind) returns (r: Result<Node>)
      requires Valid()
      modifies lex, lex.input
      decreases Measure(Code(), lex.State()), 9
      ensures Valid()
      ensures Mirrors(r, Parsing.ParseItem(Code(), kind, old(lex.State())), lex.State())
    {
      match kind
      case ExprItem => r := ExprParse();
      case NameItem => r := ArgsParse();
    }

    /** The end of `delimit`'s loop body: `None` when the stop punctuation
        follows, otherwise the item parsed. */
    method DelimitRest(kind: ItemKind, stop: char) returns (r: Result<Option<Node>>)
      requires Valid()
      modifies lex, lex.input
      decreases Measure(Code(), lex.State()), 10
      ensures Valid()
      ensures MirrorsStep(r, Parsing.DelimitRest(Code(), kind, stop, old(lex.State())), lex.State())
    {
      var q :- IsPunctuation(stop);
      if q { return Ok(None); }
      var item :- ParseItem(kind);
      return Ok(Some(item));
    }

    /** One pass of `delimit`'s `while` loop: `None` when the loop is left,
        otherwise the item to push. */
    method DelimitPass(kind: ItemKind, stop: char, sep: char, first: bool) returns (r: Result<Option<Node>>)
      requires Valid()
      modifies lex, lex.input
      decreases Measure(Code(), lex.State()), 11
      ensures Valid()
      ensures MirrorsStep(r, DelimitStep(Code(), kind, stop, sep, first, old(lex.State())), lex.State())
    {
      var eof :- lex.Eof();
      if eof { return Ok(None); }
      var p := IsPunctuation(stop);
      if p.value { return Ok(None); }
      if !first {
        var _ :- SkipPunctuation(sep);
      }
      r := DelimitRest(kind, stop);
    }

    /** `delimit`: the start punctuation, the items, the stop punctuation. */
    method Delimit(kind: ItemKind, start: char, stop: char, sep: char) returns (r: Result<seq<Node>>)
      requires Valid()
      modifies lex, lex.input
      decreases Measure(Code(), lex.State()), 1
      ensures Valid()
      ensures Mirrors(r, Parsing.Delimit(Code(), kind, start, stop, sep, old(lex.State())), lex.State())
    {
      var _ :- SkipPunctuation(start);
      var items :- DelimitItems(kind, stop, sep);
      var _ :- SkipPunctuation(stop);
      return Ok(items);
    }

    /** `delimit`'s `while` loop: the items are pushed onto `items`. */
    method DelimitItems(kind: ItemKind, stop: char, sep: char) returns (r: Result<seq<Node>>)
      requires Valid()
      modifies lex, lex.input
      decreases Measure(Code(), lex.State()), 12
      ensures Valid()
      ensures Mirrors(r, DelimitLoop(Code(), kind, stop, sep, true, [], old(lex.State())), lex.State())
    {
      ghost var s1 := lex.State();
      var items: seq<Node> := [];
      var first := true;
      while true
        invariant Valid() && AllOpsFromTable(items)
        invariant Measure(Code(), lex.State()) <= Measure(Code(), s1)
        invariant DelimitLoop(Code(), kind, stop, sep, first, items, lex.State()) ==
                  DelimitLoop(Code(), kind, stop, sep, true, [], s1)
        decreases Measure(Code(), lex.State())
      {
        DelimitUnfold(Code(), kind, stop, sep, first, items, lex.State());
        var item :- DelimitPass(kind, stop, sep, first);
        if item.None? { break; }
        assert AllOpsFromTable(items + [item.value]) by {
          assert forall k :: 0 <= k < |items| ==> (items + [item.value])[k] == items[k];
        }
        first := false;
        items := items + [item.value];
      }
      return Ok(items);
    }

    /** `proccess`: expressions are pushed onto `prog` until no token is left. */
    method Process() returns (r: Result<Node>)
      requires Valid()
      modifies lex, lex.input
      ensures Valid()
      ensures r == ProgramLoop(Code(), old(lex.State()), [])
    {
      ghost var s0 := lex.State();
      var prog: seq<Node> := [];
      while true
        invariant Valid() && AllOpsFromTable(prog)
        invariant ProgramLoop(Code(), lex.State(), prog) == ProgramLoop(Code(), s0, [])
        decreases Measure(Code(), lex.State())
      {
        var eof :- lex.Eof();
        if eof { break; }
        var e :- ExprParse();
        prog := prog + [e];
      }
      return Ok(Block(prog));
    }
  }

  /** Parsing a program text with the stateful parser gives the tree the
      parser specification gives. */
  method ParseProgram(code: string) returns (r: Result<Node>)
    ensures r == Parse(code)
  {
    var input := new Stream(code);
    var lex := new TokenStream(input);
    var parser := new Parser(lex);
    r := parser.Process();
  }
}
