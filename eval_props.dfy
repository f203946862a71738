/** What `evaluate` promises about truthiness, loops, blocks, calls,
    assignment and stuffing. */
module EvaluationProperties {
  import opened Common
  import opened Parsing
  import opened Values
  import opened Environment
  import opened Operators
  import opened Builtins
  import opened Evaluation
  import EnvironmentProperties

  /** `0` and `""` are true to `if`; a `false` condition with no `else`
      yields `false` and leaves the state alone. */
  lemma OnlyFalseIsFalsy(thn: Node, els: Option<Node>, m: Machine, scope: nat, fuel: nat)
    requires ValidStore(m.store) && scope < |m.store|
    ensures Eval(If(NumLit(0.0), thn, els), m, scope, fuel + 2) == Eval(thn, m, scope, fuel + 1)
    ensures Eval(If(StrLit(""), thn, els), m, scope, fuel + 2) == Eval(thn, m, scope, fuel + 1)
    ensures Eval(If(BoolLit(false), thn, None), m, scope, fuel + 2) == Ok(Outcome(Bool(false), m))
  {
  }

  /** A loop that ends normally always yields `false`, however many rounds
      it ran and whichever form it has. */
  lemma {:induction false} LoopYieldsFalse(e: Node, m: Machine, scope: nat, fuel: nat)
    requires e.Loop? && ValidStore(m.store) && scope < |m.store|
    decreases fuel, 0
    ensures Eval(e, m, scope, fuel).Ok? ==> Eval(e, m, scope, fuel).value.value == Bool(false)
  {
    if fuel > 0 && e.cond.Block? {
      var f := fuel - 1;
      var items := e.cond.items;
      if |items| == 1 {
        var c := Eval(e.cond, m, scope, f);
        if c.Ok? && Truthy(c.value.value) {
          var b := Eval(e.body, c.value.m, scope, f);
          if b.Ok? {
            LoopYieldsFalse(e, b.value.m, scope, f);
          }
        }
      } else if |items| == 3 {
        var (st1, sc) := LoopScope(m.store, scope);
        var m1 := Machine(st1, m.serial);
        var target := InitTarget(items[0]);
        if target.Ok? {
          if target.value.Some? && Exists(st1, sc, target.value.value) {
            ForYieldsFalse(e, items[1], items[2], e.body, m1, sc, f);
          } else {
            var i := Eval(items[0], m1, sc, f);
            if i.Ok? {
              ForYieldsFalse(e, items[1], items[2], e.body, i.value.m, sc, f);
            }
          }
        }
      }
    }
  }

  lemma {:induction false} ForYieldsFalse(e: Node, cond: Node, update: Node, body: Node, m: Machine, scope: nat, fuel: nat)
    requires e.Loop? && ValidStore(m.store) && scope < |m.store|
    decreases fuel, 2
    ensures ForIteration(e, cond, update, body, m, scope, fuel).Ok? ==>
      ForIteration(e, cond, update, body, m, scope, fuel).value.value == Bool(false)
  {
    var c := Eval(cond, m, scope, fuel);
    if c.Ok? && Truthy(c.value.value) {
      RoundYieldsFalse(e, update, body, c.value.m, scope, fuel);
    }
  }

  lemma {:induction false} RoundYieldsFalse(e: Node, update: Node, body: Node, m: Machine, scope: nat, fuel: nat)
    requires e.Loop? && ValidStore(m.store) && scope < |m.store|
    decreases fuel, 1
    ensures ForRound(e, update, body, m, scope, fuel).Ok? ==>
      ForRound(e, update, body, m, scope, fuel).value.value == Bool(false)
  {
    var b := Eval(body, m, scope, fuel);
    if b.Ok? {
      var u := Eval(update, b.value.m, scope, fuel);
      if u.Ok? {
        LoopYieldsFalse(e, u.value.m, scope, fuel);
      }
    }
  }

  /** A while loop whose condition is `false` never runs its body. */
  lemma WhileFalseSkipsBody(body: Node, m: Machine, scope: nat, fuel: nat)
    requires ValidStore(m.store) && scope < |m.store|
    ensures Eval(Loop(Block([BoolLit(false)]), body), m, scope, fuel + 3) == Ok(Outcome(Bool(false), m))
  {
    EvalListSnoc([], BoolLit(false), m, scope, fuel + 1);
    assert [] + [BoolLit(false)] == [BoolLit(false)];
    assert Eval(Block([BoolLit(false)]), m, scope, fuel + 2) == Ok(Outcome(Bool(false), m));
  }

  /** A loop condition must be a block of one or three expressions. */
  lemma LoopConditionShape(cond: Node, body: Node, m: Machine, scope: nat, fuel: nat)
    requires ValidStore(m.store) && scope < |m.store|
    ensures !cond.Block? ==> Eval(Loop(cond, body), m, scope, fuel + 1) == Err(HostTypeError)
    ensures cond.Block? && |cond.items| != 1 && |cond.items| != 3 ==>
      Eval(Loop(cond, body), m, scope, fuel + 1) == Err(LoopArity(|cond.items|))
  {
  }

  /** A for loop runs in the current scope exactly when that scope has one
      own key, and runs its initialiser exactly when the target it assigns
      is not already an own binding of the scope it runs in. */
  lemma ForLoopStart(init: Node, cond: Node, update: Node, body: Node, m: Machine, scope: nat, fuel: nat)
    requires ValidStore(m.store) && scope < |m.store|
    requires InitTarget(init).Ok?
    ensures var loop := Loop(Block([init, cond, update]), body);
      var (st1, sc) := LoopScope(m.store, scope);
      var target := InitTarget(init).value;
      (sc == scope <==> OwnKeyCount(m.store, scope) == 1) &&
      (target.Some? && Exists(st1, sc, target.value) ==>
        Eval(loop, m, scope, fuel + 1) == ForIteration(loop, cond, update, body, Machine(st1, m.serial), sc, fuel)) &&
      (!(target.Some? && Exists(st1, sc, target.value)) ==>
        Eval(loop, m, scope, fuel + 1) ==
          var i :- Eval(init, Machine(st1, m.serial), sc, fuel);
          ForIteration(loop, cond, update, body, i.m, sc, fuel))
  {
  }

  /** Each later round of a for loop re-enters it in the scope it runs in.
      When that scope's one own key is the initialiser's target, the round
      goes straight to the condition: the initialiser runs only once. */
  lemma ForReentrySkipsInit(x: string, rhs: Node, cond: Node, update: Node, body: Node, m: Machine, scope: nat, fuel: nat)
    requires ValidStore(m.store) && scope < |m.store|
    requires m.store[scope].vars.Keys == {x}
    ensures var loop := Loop(Block([Assign(Var(x), rhs), cond, update]), body);
      Eval(loop, m, scope, fuel + 1) == ForIteration(loop, cond, update, body, m, scope, fuel)
  {
    assert OwnKeyCount(m.store, scope) == 1 by {
      assert |m.store[scope].vars.Keys| == 1;
    }
  }

  /** `EvalList` on a list with one more item at the end: the earlier items
      first, then the last one in the state they leave. */
  lemma {:induction false} EvalListSnoc(xs: seq<Node>, x: Node, m: Machine, scope: nat, fuel: nat)
    requires ValidStore(m.store) && scope < |m.store|
    decreases |xs|
    ensures EvalList(xs + [x], m, scope, fuel) ==
      match EvalList(xs, m, scope, fuel)
      case Err(err) => Err(err)
      case Ok(vs) =>
        match Eval(x, vs.m, scope, fuel)
        case Err(err) => Err(err)
        case Ok(o) => Ok(Outcomes(vs.values + [o.value], o.m))
  {
    if xs == [] {
      assert xs + [x] == [x];
      assert ([x])[1..] == [];
      var o := Eval(x, m, scope, fuel);
      if o.Ok? {
        assert EvalList([], o.value.m, scope, fuel) == Ok(Outcomes([], o.value.m));
        assert [] + [o.value.value] == [o.value.value] == [o.value.value] + [];
      }
    } else {
      assert (xs + [x])[0] == xs[0];
      assert (xs + [x])[1..] == xs[1..] + [x];
      var o := Eval(xs[0], m, scope, fuel);
      if o.Ok? {
        EvalListSnoc(xs[1..], x, o.value.m, scope, fuel);
        var rest := EvalList(xs[1..], o.value.m, scope, fuel);
        if rest.Ok? {
          var last := Eval(x, rest.value.m, scope, fuel);
          if last.Ok? {
            assert [o.value.value] + (rest.value.values + [last.value.value]) ==
              ([o.value.value] + rest.value.values) + [last.value.value];
          }
        }
      }
    }
  }

  /** A block yields the value of its last expression, evaluated after all
      the others; an empty block yields `false`. */
  lemma BlockYieldsLast(xs: seq<Node>, x: Node, m: Machine, scope: nat, fuel: nat)
    requires ValidStore(m.store) && scope < |m.store|
    requires EvalList(xs, m, scope, fuel).Ok?
    ensures Eval(Block(xs + [x]), m, scope, fuel + 1) == Eval(x, EvalList(xs, m, scope, fuel).value.m, scope, fuel)
    ensures Eval(Block([]), m, scope, fuel + 1) == Ok(Outcome(Bool(false), m))
  {
    EvalListSnoc(xs, x, m, scope, fuel);
  }

  /** `&&` evaluates its right operand even when the left is `false`: the
      right operand's failure is the expression's failure, and its effects
      on the state are kept. */
  lemma AndEvaluatesBoth(l: Node, r: Node, m: Machine, scope: nat, fuel: nat)
    requires ValidStore(m.store) && scope < |m.store|
    requires Eval(l, m, scope, fuel).Ok? && Eval(l, m, scope, fuel).value.value == Bool(false)
    ensures var rv := Eval(r, Eval(l, m, scope, fuel).value.m, scope, fuel);
      Eval(Binary("&&", l, r), m, scope, fuel + 1) ==
        if rv.Ok? then Ok(Outcome(Bool(false), rv.value.m)) else Err(rv.error)
  {
  }

  /** `||` evaluates its right operand even when the left is truthy, and
      then yields the left value. */
  lemma OrEvaluatesBoth(l: Node, r: Node, m: Machine, scope: nat, fuel: nat)
    requires ValidStore(m.store) && scope < |m.store|
    requires Eval(l, m, scope, fuel).Ok? && Truthy(Eval(l, m, scope, fuel).value.value)
    ensures var lv := Eval(l, m, scope, fuel).value;
      var rv := Eval(r, lv.m, scope, fuel);
      Eval(Binary("||", l, r), m, scope, fuel + 1) ==
        if rv.Ok? then Ok(Outcome(lv.value, rv.value.m)) else Err(rv.error)
  {
  }

  /** Only a name can be assigned, and the check comes before the right
      side runs; a successful assignment yields the value and binds the
      name to it in the current scope. */
  lemma AssignBindsName(l: Node, rhs: Node, m: Machine, scope: nat, fuel: nat)
    requires ValidStore(m.store) && scope < |m.store|
    ensures !l.Var? ==> Eval(Assign(l, rhs), m, scope, fuel + 1) == Err(FailedAssignment)
    ensures l.Var? && Eval(Assign(l, rhs), m, scope, fuel + 1).Ok? ==>
      var o := Eval(Assign(l, rhs), m, scope, fuel + 1).value;
      Eval(rhs, m, scope, fuel).Ok? && o.value == Eval(rhs, m, scope, fuel).value.value &&
      Get(o.m.store, scope, l.name) == Ok(o.value)
  {
    if l.Var? && Eval(rhs, m, scope, fuel).Ok? {
      var r := Eval(rhs, m, scope, fuel).value;
      EnvironmentProperties.DefineThenGet(r.m.store, scope, l.name, r.value);
    }
  }

  /** `fun` binds parameter `i` to argument `i`, or to `false` when fewer
      arguments were passed; extra arguments are ignored; when a name
      repeats, its last position wins. */
  lemma {:induction false} ParameterBinding(names: seq<string>, args: seq<Value>, i: nat)
    requires i < |names| && names[i] !in names[i + 1..]
    decreases |names|
    ensures names[i] in BindParams(names, args)
    ensures BindParams(names, args)[names[i]] == Binding(if i < |args| then args[i] else Bool(false), None)
  {
    var k := |names| - 1;
    if i < k {
      assert names[..k][i + 1..] == names[i + 1..k];
      assert names[k] in names[i + 1..];
      ParameterBinding(names[..k], args, i);
    }
  }

  /** A call of a closure runs its body in a fresh scope whose parent is the
      scope the closure was created in, holding just the parameters. */
  lemma CallRunsInFreshChild(id: nat, params: seq<string>, body: Node, env: nat, args: seq<Value>, m: Machine, fuel: nat)
    requires ValidStore(m.store) && env < |m.store|
    requires forall i :: 0 <= i < |args| ==> ValueIn(args[i], |m.store|)
    ensures Apply(Closure(id, params, body, env), args, m, fuel).Ok? ==>
      Eval(body, Machine(m.store + [Frame(BindParams(params, args), Some(env))], m.serial), |m.store|, fuel).Ok? &&
      Apply(Closure(id, params, body, env), args, m, fuel) ==
        Eval(body, Machine(m.store + [Frame(BindParams(params, args), Some(env))], m.serial), |m.store|, fuel)
  {
    var (st1, sc) := Extend(m.store, env);
    assert st1[sc := Frame(BindParams(params, args), Some(env))] == m.store + [Frame(BindParams(params, args), Some(env))];
  }

  /** Calling the built-in `fact` on a natural number `n` yields `n!`. */
  lemma FactOfNatural(n: nat, m: Machine, fuel: nat)
    requires ValidStore(m.store)
    ensures Apply(NativeFn(Fact), [Num(n as real)], m, fuel) == Ok(Outcome(Num(Factorial(n) as real), m))
  {
    Builtins.FactOfNatural(n);
  }

  /** The base `[x]` of `stuff` and `unstuff` reads `x` and changes nothing. */
  lemma NameBlock(x: string, m: Machine, scope: nat, fuel: nat)
    requires ValidStore(m.store) && scope < |m.store|
    ensures Eval(Block([Var(x)]), m, scope, fuel + 2) ==
      if Get(m.store, scope, x).Ok? then Ok(Outcome(Get(m.store, scope, x).value, m))
      else Err(Get(m.store, scope, x).error)
  {
    EvalListSnoc([], Var(x), m, scope, fuel + 1);
    assert [] + [Var(x)] == [Var(x)];
  }

  /** After `stuff [x] v`, reading `unstuff [x]` in the same scope yields
      the stuffed value and changes nothing. */
  lemma UnstuffReadsStuff(x: string, v: Node, m: Machine, scope: nat, fuel: nat)
    requires ValidStore(m.store) && scope < |m.store|
    requires Eval(Stuff(Block([Var(x)]), v), m, scope, fuel + 3).Ok?
    ensures var o := Eval(Stuff(Block([Var(x)]), v), m, scope, fuel + 3).value;
      Eval(Unstuff(Block([Var(x)])), o.m, scope, fuel + 3) == Ok(Outcome(o.value, o.m))
  {
    var w := StuffName(x, v, m, scope, fuel);
    var m' := Machine(SetStuff(w.m.store, scope, x, w.value), w.m.serial);
    EnvironmentProperties.SetStuffKeepsPrimary(w.m.store, scope, x, w.value);
    NameBlock(x, m', scope, fuel);
  }

  /** `stuff [x] v` evaluates `v` after the base and stores its value as the
      stuff of `x`. */
  lemma StuffName(x: string, v: Node, m: Machine, scope: nat, fuel: nat) returns (w: Outcome)
    requires ValidStore(m.store) && scope < |m.store|
    requires Eval(Stuff(Block([Var(x)]), v), m, scope, fuel + 3).Ok?
    ensures scope < |w.m.store| && ValidStore(w.m.store) && ValueIn(w.value, |w.m.store|)
    ensures Eval(Stuff(Block([Var(x)]), v), m, scope, fuel + 3) ==
      Ok(Outcome(w.value, Machine(SetStuff(w.m.store, scope, x, w.value), w.m.serial)))
  {
    NameBlock(x, m, scope, fuel);
    var b := Eval(Block([Var(x)]), m, scope, fuel + 2).value;
    w := Eval(v, b.m, scope, fuel + 2).value;
  }
}
