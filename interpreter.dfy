/** The evaluator as the source runs it: `evaluate` walks the tree and
    updates the shared scope objects in place. Every method returns what the
    function it is named after in `Evaluation` specifies, and leaves the
    scopes and the closure count in the state that function returns. */
module Interpreting {
  import opened Common
  import opened Parsing
  import opened Values
  import opened Environment
  import opened ScopeObjects
  import opened Operators
  import opened Builtins
  import opened Evaluation
  import ParsingImpl

  /** A method's result and the state it leaves are those of `spec` (the
      state only matters when it succeeds: a failure aborts the run). */
  ghost predicate Agrees(r: Result<Value>, spec: Result<Outcome>, after: Machine) {
    r == (if spec.Ok? then Ok(spec.value.value) else Err(spec.error)) &&
    (spec.Ok? ==> after == spec.value.m)
  }

  ghost predicate AgreesList(r: Result<seq<Value>>, spec: Result<Outcomes>, after: Machine) {
    r == (if spec.Ok? then Ok(spec.value.values) else Err(spec.error)) &&
    (spec.Ok? ==> after == spec.value.m)
  }

  /** A list evaluation in progress: the values `done` so far in front of
      what the rest of the list gives. */
  function Resume(done: seq<Value>, rest: Result<Outcomes>): Result<Outcomes> {
    if rest.Ok? then Ok(Outcomes(done + rest.value.values, rest.value.m)) else Err(rest.error)
  }

  /** One more item of a list evaluation: on success its value joins the
      values so far, and on failure its error is the list's. */
  lemma ResumeStep(done: seq<Value>, items: seq<Node>, i: nat, m: Machine, scope: nat, fuel: nat)
    requires ValidStore(m.store) && scope < |m.store| && i < |items|
    ensures var o := Eval(items[i], m, scope, fuel);
      Resume(done, EvalList(items[i..], m, scope, fuel)) ==
        if o.Ok? then Resume(done + [o.value.value], EvalList(items[i + 1..], o.value.m, scope, fuel))
        else Err(o.error)
  {
    assert items[i..][0] == items[i];
    assert items[i..][1..] == items[i + 1..];
    var o := Eval(items[i], m, scope, fuel);
    if o.Ok? {
      var rest := EvalList(items[i + 1..], o.value.m, scope, fuel);
      if rest.Ok? {
        assert done + ([o.value.value] + rest.value.values) == (done + [o.value.value]) + rest.value.values;
      }
    }
  }

  class Interpreter {
    /** The scopes, created with the root holding the built-ins. */
    const scopes: Scopes
    /** How many closures `fun` has created. */
    var serial: nat

    ghost predicate Valid()
      reads this, scopes
    {
      scopes.Valid()
    }

    ghost function State(): Machine
      reads this, scopes
    {
      Machine(scopes.frames, serial)
    }

    constructor ()
      ensures Valid() && State() == Machine(RootStore(), 0) && fresh(scopes)
    {
      scopes := new Scopes();
      serial := 0;
    }

    /** `evaluate(exp, env)`, with `env` the scope `scope`. */
    method Evaluate(e: Node, scope: nat, fuel: nat) returns (r: Result<Value>)
      requires Valid() && scope < |scopes.frames|
      modifies this, scopes
      decreases fuel, 3
      ensures Valid()
      ensures Agrees(r, Eval(e, old(State()), scope, fuel), State())
    {
      if fuel == 0 {
        return Err(StackExhausted);
      }
      match e
      case NumLit(v) => r := Ok(Num(v));
      case StrLit(t) => r := Ok(Str(t));
      case BoolLit(b) => r := Ok(Bool(b));
      case Var(x) => r := Get(scopes.frames, scope, x);
      case Fun(params, body) =>
        r := Ok(Closure(serial, params, body, scope));
        serial := serial + 1;
      case Assign(_, _) => r := EvaluateAssign(e, scope, fuel);
      case Binary(_, _, _) => r := EvaluateBinary(e, scope, fuel);
      case Loop(_, _) => r := EvaluateLoop(e, scope, fuel);
      case If(_, _, _) => r := EvaluateIf(e, scope, fuel);
      case Stuff(_, _) => r := EvaluateStuff(e, scope, fuel);
      case Unstuff(_) => r := EvaluateUnstuff(e, scope, fuel);
      case Block(items) =>
        var vs :- EvaluateList(items, scope, fuel - 1);
        r := Ok(if |vs| == 0 then Bool(false) else vs[|vs| - 1]);
      case Call(_, _) => r := EvaluateCall(e, scope, fuel);
    }

    method EvaluateAssign(e: Node, scope: nat, fuel: nat) returns (r: Result<Value>)
      requires Valid() && scope < |scopes.frames| && fuel > 0 && e.Assign?
      modifies this, scopes
      decreases fuel, 2
      ensures Valid()
      ensures Agrees(r, Eval(e, old(State()), scope, fuel), State())
    {
      if !e.left.Var? {
        return Err(FailedAssignment);
      }
      var v :- Evaluate(e.right, scope, fuel - 1);
      scopes.Define(scope, e.left.name, v);
      r := Ok(v);
    }

    method EvaluateBinary(e: Node, scope: nat, fuel: nat) returns (r: Result<Value>)
      requires Valid() && scope < |scopes.frames| && fuel > 0 && e.Binary?
      modifies this, scopes
      decreases fuel, 2
      ensures Valid()
      ensures Agrees(r, Eval(e, old(State()), scope, fuel), State())
    {
      var a :- Evaluate(e.left, scope, fuel - 1);
      var b :- Evaluate(e.right, scope, fuel - 1);
      r := ApplyOp(e.op, a, b);
    }

    method EvaluateIf(e: Node, scope: nat, fuel: nat) returns (r: Result<Value>)
      requires Valid() && scope < |scopes.frames| && fuel > 0 && e.If?
      modifies this, scopes
      decreases fuel, 2
      ensures Valid()
      ensures Agrees(r, Eval(e, old(State()), scope, fuel), State())
    {
      var c :- Evaluate(e.cond, scope, fuel - 1);
      if Truthy(c) {
        r := Evaluate(e.thn, scope, fuel - 1);
      } else if e.els.Some? {
        r := Evaluate(e.els.value, scope, fuel - 1);
      } else {
        r := Ok(Bool(false));
      }
    }

    method EvaluateStuff(e: Node, scope: nat, fuel: nat) returns (r: Result<Value>)
      requires Valid() && scope < |scopes.frames| && fuel > 0 && e.Stuff?
      modifies this, scopes
      decreases fuel, 2
      ensures Valid()
      ensures Agrees(r, Eval(e, old(State()), scope, fuel), State())
    {
      var _ :- Evaluate(e.base, scope, fuel - 1);
      var key :- StuffKey(e.base);
      var v :- Evaluate(e.stuff, scope, fuel - 1);
      scopes.SetStuff(scope, key, v);
      r := Ok(v);
    }

    method EvaluateUnstuff(e: Node, scope: nat, fuel: nat) returns (r: Result<Value>)
      requires Valid() && scope < |scopes.frames| && fuel > 0 && e.Unstuff?
      modifies this, scopes
      decreases fuel, 2
      ensures Valid()
      ensures Agrees(r, Eval(e, old(State()), scope, fuel), State())
    {
      var _ :- Evaluate(e.base, scope, fuel - 1);
      var key :- StuffKey(e.base);
      r := GetStuff(scopes.frames, scope, key);
    }

    /** The `loop` case: a while loop re-enters itself after each round; a
        for loop first picks its scope and runs its initialiser. */
    method EvaluateLoop(e: Node, scope: nat, fuel: nat) returns (r: Result<Value>)
      requires Valid() && scope < |scopes.frames| && fuel > 0 && e.Loop?
      modifies this, scopes
      decreases fuel, 2
      ensures Valid()
      ensures Agrees(r, Eval(e, old(State()), scope, fuel), State())
    {
      if !e.cond.Block? {
        return Err(HostTypeError);
      }
      var items := e.cond.items;
      if |items| == 1 {
        var c :- Evaluate(e.cond, scope, fuel - 1);
        if Truthy(c) {
          var _ :- Evaluate(e.body, scope, fuel - 1);
          r := Evaluate(e, scope, fuel - 1);
        } else {
          r := Ok(Bool(false));
        }
      } else if |items| == 3 {
        var sc := scope;
        if OwnKeyCount(scopes.frames, scope) != 1 {
          sc := scopes.Extend(scope);
        }
        var target :- InitTarget(items[0]);
        if !(target.Some? && Exists(scopes.frames, sc, target.value)) {
          var _ :- Evaluate(items[0], sc, fuel - 1);
        }
        r := ForIteration(e, items[1], items[2], e.body, sc, fuel - 1);
      } else {
        r := Err(LoopArity(|items|));
      }
    }

    method ForIteration(loop: Node, cond: Node, update: Node, body: Node, scope: nat, fuel: nat) returns (r: Result<Value>)
      requires Valid() && scope < |scopes.frames|
      modifies this, scopes
      decreases fuel, 5
      ensures Valid()
      ensures Agrees(r, Evaluation.ForIteration(loop, cond, update, body, old(State()), scope, fuel), State())
    {
      ghost var m0 := State();
      var c := Evaluate(cond, scope, fuel);
      if c.Err? {
        return Err(c.error);
      }
      ghost var m1 := State();
      assert Eval(cond, m0, scope, fuel) == Ok(Outcome(c.value, m1));
      if Truthy(c.value) {
        r := ForRound(loop, update, body, scope, fuel);
        assert Evaluation.ForIteration(loop, cond, update, body, m0, scope, fuel) ==
          Evaluation.ForRound(loop, update, body, m1, scope, fuel);
      } else {
        r := Ok(Bool(false));
      }
    }

    method ForRound(loop: Node, update: Node, body: Node, scope: nat, fuel: nat) returns (r: Result<Value>)
      requires Valid() && scope < |scopes.frames|
      modifies this, scopes
      decreases fuel, 4
      ensures Valid()
      ensures Agrees(r, Evaluation.ForRound(loop, update, body, old(State()), scope, fuel), State())
    {
      ghost var m0 := State();
      var b := Evaluate(body, scope, fuel);
      if b.Err? {
        return Err(b.error);
      }
      ghost var m1 := State();
      assert Eval(body, m0, scope, fuel) == Ok(Outcome(b.value, m1));
      var u := Evaluate(update, scope, fuel);
      if u.Err? {
        return Err(u.error);
      }
      ghost var m2 := State();
      assert Eval(update, m1, scope, fuel) == Ok(Outcome(u.value, m2));
      r := Evaluate(loop, scope, fuel);
    }

    /** The `forEach` of a block and the `map` over call arguments. */
    method EvaluateList(items: seq<Node>, scope: nat, fuel: nat) returns (r: Result<seq<Value>>)
      requires Valid() && scope < |scopes.frames|
      modifies this, scopes
      decreases fuel, 4
      ensures Valid()
      ensures AgreesList(r, EvalList(items, old(State()), scope, fuel), State())
    {
      ghost var spec := EvalList(items, State(), scope, fuel);
      var done: seq<Value> := [];
      var i := 0;
      assert items[0..] == items;
      assert spec.Ok? ==> [] + spec.value.values == spec.value.values;
      while i < |items|
        invariant 0 <= i <= |items| && |done| == i
        invariant Valid() && scope < |scopes.frames|
        invariant spec == Resume(done, EvalList(items[i..], State(), scope, fuel))
      {
        ResumeStep(done, items, i, State(), scope, fuel);
        var v :- Evaluate(items[i], scope, fuel);
        done := done + [v];
        i := i + 1;
      }
      assert done + [] == done;
      r := Ok(done);
    }

    /** The `call` case: `func.apply(null, args)`. */
    method EvaluateCall(e: Node, scope: nat, fuel: nat) returns (r: Result<Value>)
      requires Valid() && scope < |scopes.frames| && fuel > 0 && e.Call?
      modifies this, scopes
      decreases fuel, 2
      ensures Valid()
      ensures Agrees(r, Eval(e, old(State()), scope, fuel), State())
    {
      var fn :- Evaluate(e.callee, scope, fuel - 1);
      if fn == Undefined {
        return Err(HostTypeError);
      }
      var args :- EvaluateList(e.args, scope, fuel - 1);
      r := Apply(fn, args, fuel - 1);
    }

    /** Calling a value: `create_fun`'s `fun`, or a built-in. */
    method Apply(fn: Value, args: seq<Value>, fuel: nat) returns (r: Result<Value>)
      requires Valid() && ValueIn(fn, |scopes.frames|)
      requires forall i :: 0 <= i < |args| ==> ValueIn(args[i], |scopes.frames|)
      modifies this, scopes
      decreases fuel, 5
      ensures Valid()
      ensures Agrees(r, Evaluation.Apply(fn, args, old(State()), fuel), State())
    {
      match fn
      case Closure(_, _, _, _) => r := ApplyClosure(fn, args, fuel);
      case NativeFn(Print) => r := Ok(Undefined);
      case NativeFn(Exp) => r := Err(NotModelled);
      case NativeFn(Fact) =>
        if |args| > 0 && args[0].Num? {
          var res := Builtins.Fact(args[0].n);
          r := Ok(Num(res));
        } else {
          r := FactCall(args);
        }
      case _ => r := Err(NotCallable);
    }

    /** `fun()` of `create_fun`: a fresh child of the closure's scope, the
        parameters defined in it one by one, then the body. */
    method ApplyClosure(fn: Value, args: seq<Value>, fuel: nat) returns (r: Result<Value>)
      requires Valid() && fn.Closure? && ValueIn(fn, |scopes.frames|)
      requires forall i :: 0 <= i < |args| ==> ValueIn(args[i], |scopes.frames|)
      modifies this, scopes
      decreases fuel, 4
      ensures Valid()
      ensures Agrees(r, Evaluation.Apply(fn, args, old(State()), fuel), State())
    {
      var params, body, env := fn.params, fn.body, fn.env;
      var child := scopes.Extend(env);
      ghost var base := scopes.frames;
      var i := 0;
      while i < |params|
        invariant 0 <= i <= |params|
        invariant Valid() && child == |base| - 1 && |scopes.frames| == |base|
        invariant scopes.frames == base[child := Frame(BindParams(params[..i], args), Some(env))]
        invariant serial == old(serial)
      {
        assert params[..i + 1][..i] == params[..i];
        scopes.Define(child, params[i], if i < |args| then args[i] else Bool(false));
        i := i + 1;
      }
      assert params[..|params|] == params;
      assert State() == Machine(base[child := Frame(BindParams(params, args), Some(env))], old(serial));
      r := Evaluate(body, child, fuel);
    }
  }

  /** Parsing a program and running it in a fresh interpreter gives what
      `Run` specifies. */
  method RunProgram(code: string, fuel: nat) returns (r: Result<Value>)
    ensures r == Run(code, fuel)
  {
    var ast :- ParsingImpl.ParseProgram(code);
    var interpreter := new Interpreter();
    r := interpreter.Evaluate(ast, 0, fuel);
  }
}
