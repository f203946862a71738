/** `evaluate` and `create_fun` as a function over the interpreter's state:
    the store of scopes and the count of closures created so far. `fuel`
    bounds the depth of nested `evaluate` calls; running out stands for the
    host's call-stack exhaustion, which a program that loops forever
    reaches because every loop iteration is a deeper recursive call. */
module Evaluation {
  import opened Common
  import opened Parsing
  import opened Values
  import opened Environment
  import opened Operators
  import opened Builtins

  datatype Machine = Machine(store: Store, serial: nat)

  /** A successful evaluation: its value and the state after it. */
  datatype Outcome = Outcome(value: Value, m: Machine)

  /** The values of a list of expressions, in order, and the state after. */
  datatype Outcomes = Outcomes(values: seq<Value>, m: Machine)

  /** A later state keeps the store valid and only adds frames and closures. */
  predicate Grows(m: Machine, m': Machine) {
    ValidStore(m'.store) && |m.store| <= |m'.store| && m.serial <= m'.serial
  }

  /** The property key `exp.base.block[0].value` of `stuff` and `unstuff`. A
      name or a string gives itself, a boolean its printed form; a number
      would be formatted by the host; any other node has no `value` and
      gives the key "undefined". A base that is not a non-empty block is a
      property read on undefined. */
  function StuffKey(base: Node): (r: Result<string>)
    ensures r.Ok? ==> base.Block? && |base.items| > 0
    ensures base.Block? && |base.items| > 0 && base.items[0].Var? ==> r == Ok(base.items[0].name)
  {
    if !base.Block? || |base.items| == 0 then Err(HostTypeError)
    else match base.items[0]
      case Var(x) => Ok(x)
      case StrLit(t) => Ok(t)
      case BoolLit(b) => Ok(if b then "true" else "false")
      case NumLit(_) => Err(NotModelled)
      case _ => Ok("undefined")
  }

  /** `exp.cond.block[0].left.value` of a for loop: the name the
      initialiser assigns, if it is one `exists` can find. Only assignments
      and binary nodes have a `left`. */
  function InitTarget(init: Node): (r: Result<Option<string>>)
    ensures r.Ok? <==> init.Assign? || init.Binary?
    ensures init.Assign? && init.left.Var? ==> r == Ok(Some(init.left.name))
  {
    match init
    case Assign(l, _) => Ok(KeyOf(l))
    case Binary(_, l, _) => Ok(KeyOf(l))
    case _ => Err(HostTypeError)
  }

  function KeyOf(n: Node): Option<string> {
    match n
    case Var(x) => Some(x)
    case StrLit(t) => Some(t)
    case _ => None
  }

  /** The scope a for loop runs in: the current one when it has exactly one
      own key, otherwise a fresh child of it. */
  function LoopScope(st: Store, scope: nat): (r: (Store, nat))
    requires ValidStore(st) && scope < |st|
    ensures ValidStore(r.0) && r.1 < |r.0| && |st| <= |r.0|
    ensures r == (st, scope) <==> OwnKeyCount(st, scope) == 1
    ensures OwnKeyCount(st, scope) != 1 ==> r == Extend(st, scope)
  {
    if OwnKeyCount(st, scope) != 1 then Extend(st, scope) else (st, scope)
  }

  /** The variables `fun(...)` defines in its fresh scope: `names[i]` is the
      `i`-th argument, or `false` when the call passed fewer; a later
      duplicate name overrides an earlier one. */
  function BindParams(names: seq<string>, args: seq<Value>): (r: map<string, Binding>)
    decreases |names|
    ensures r.Keys == set x | x in names
    ensures forall x :: x in r ==> r[x].stuff.None? && (r[x].primary == Bool(false) || r[x].primary in args)
  {
    if names == [] then map[]
    else
      var k := |names| - 1;
      BindParams(names[..k], args)[names[k] := Binding(if k < |args| then args[k] else Bool(false), None)]
  }

  /** The built-in `fact` applied to its first argument: the factorial of the
      whole part of a number, and 1 for a missing or non-numeric argument
      (the loop's `i <= a` is then false at once). A string would be
      compared after the host's numeric conversion. */
  function FactCall(args: seq<Value>): (r: Result<Value>)
    ensures r.Ok? ==> r.value.Num? && r.value.n >= 1.0
    ensures |args| > 0 && args[0].Num? ==> r == Ok(Num(Factorial(Iterations(args[0].n)) as real))
  {
    if |args| == 0 then Ok(Num(1.0))
    else match args[0]
      case Num(x) => Ok(Num(Factorial(Iterations(x)) as real))
      case Str(_) => Err(NotModelled)
      case _ => Ok(Num(1.0))
  }

  /** `evaluate(exp, env)`. */
  function Eval(e: Node, m: Machine, scope: nat, fuel: nat): (r: Result<Outcome>)
    requires ValidStore(m.store) && scope < |m.store|
    decreases fuel, 0
    ensures r.Ok? ==> Grows(m, r.value.m) && ValueIn(r.value.value, |r.value.m.store|)
  {
    if fuel == 0 then Err(StackExhausted)
    else
      var f := fuel - 1;
      match e
      case NumLit(v) => Ok(Outcome(Num(v), m))
      case StrLit(t) => Ok(Outcome(Str(t), m))
      case BoolLit(b) => Ok(Outcome(Bool(b), m))
      case Var(x) =>
        var v :- Get(m.store, scope, x);
        Ok(Outcome(v, m))
      case Assign(l, rhs) =>
        if !l.Var? then Err(FailedAssignment)
        else
          var o :- Eval(rhs, m, scope, f);
          Ok(Outcome(o.value, Machine(Define(o.m.store, scope, l.name, o.value), o.m.serial)))
      case Binary(op, l, rhs) =>
        var a :- Eval(l, m, scope, f);
        var b :- Eval(rhs, a.m, scope, f);
        var v :- ApplyOp(op, a.value, b.value);
        Ok(Outcome(v, b.m))
      case Fun(params, body) =>
        Ok(Outcome(Closure(m.serial, params, body, scope), Machine(m.store, m.serial + 1)))
      case Loop(cond, body) =>
        if !cond.Block? then Err(HostTypeError)
        else if |cond.items| == 1 then
          var c :- Eval(cond, m, scope, f);
          if Truthy(c.value) then
            var b :- Eval(body, c.m, scope, f);
            Eval(e, b.m, scope, f)
          else Ok(Outcome(Bool(false), c.m))
        else if |cond.items| == 3 then
          var (st1, sc) := LoopScope(m.store, scope);
          var m1 := Machine(st1, m.serial);
          var target :- InitTarget(cond.items[0]);
          if target.Some? && Exists(st1, sc, target.value) then
            ForIteration(e, cond.items[1], cond.items[2], body, m1, sc, f)
          else
            var i :- Eval(cond.items[0], m1, sc, f);
            ForIteration(e, cond.items[1], cond.items[2], body, i.m, sc, f)
        else Err(LoopArity(|cond.items|))
      case If(c, thn, els) =>
        var cv :- Eval(c, m, scope, f);
        if Truthy(cv.value) then Eval(thn, cv.m, scope, f)
        else if els.Some? then Eval(els.value, cv.m, scope, f)
        else Ok(Outcome(Bool(false), cv.m))
      case Stuff(base, stuff) =>
        var b :- Eval(base, m, scope, f);
        var key :- StuffKey(base);
        var v :- Eval(stuff, b.m, scope, f);
        Ok(Outcome(v.value, Machine(SetStuff(v.m.store, scope, key, v.value), v.m.serial)))
      case Unstuff(base) =>
        var b :- Eval(base, m, scope, f);
        var key :- StuffKey(base);
        var v :- GetStuff(b.m.store, scope, key);
        Ok(Outcome(v, b.m))
      case Block(items) =>
        var vs :- EvalList(items, m, scope, f);
        Ok(Outcome(if |vs.values| == 0 then Bool(false) else vs.values[|vs.values| - 1], vs.m))
      case Call(callee, args) =>
        var fv :- Eval(callee, m, scope, f);
        if fv.value == Undefined then Err(HostTypeError)
        else
          var av :- EvalList(args, fv.m, scope, f);
          Apply(fv.value, av.values, av.m, f)
  }

  /** A for loop once its initialiser has run: the condition, and then a
      round when it holds. */
  function ForIteration(loop: Node, cond: Node, update: Node, body: Node, m: Machine, scope: nat, fuel: nat): (r: Result<Outcome>)
    requires ValidStore(m.store) && scope < |m.store|
    decreases fuel, 2
    ensures r.Ok? ==> Grows(m, r.value.m) && ValueIn(r.value.value, |r.value.m.store|)
  {
    var c :- Eval(cond, m, scope, fuel);
    if Truthy(c.value) then ForRound(loop, update, body, c.m, scope, fuel)
    else Ok(Outcome(Bool(false), c.m))
  }

  /** One round of a for loop: the body, the update, then the loop again in
      the same scope. */
  function ForRound(loop: Node, update: Node, body: Node, m: Machine, scope: nat, fuel: nat): (r: Result<Outcome>)
    requires ValidStore(m.store) && scope < |m.store|
    decreases fuel, 1
    ensures r.Ok? ==> Grows(m, r.value.m) && ValueIn(r.value.value, |r.value.m.store|)
  {
    var b :- Eval(body, m, scope, fuel);
    var u :- Eval(update, b.m, scope, fuel);
    Eval(loop, u.m, scope, fuel)
  }

  /** The expressions of a block or an argument list, left to right. */
  function EvalList(items: seq<Node>, m: Machine, scope: nat, fuel: nat): (r: Result<Outcomes>)
    requires ValidStore(m.store) && scope < |m.store|
    decreases fuel, |items| + 1
    ensures r.Ok? ==> Grows(m, r.value.m) && |r.value.values| == |items|
    ensures r.Ok? ==> forall i :: 0 <= i < |items| ==> ValueIn(r.value.values[i], |r.value.m.store|)
  {
    if items == [] then Ok(Outcomes([], m))
    else
      var o :- Eval(items[0], m, scope, fuel);
      var rest :- EvalList(items[1..], o.m, scope, fuel);
      Ok(Outcomes([o.value] + rest.values, rest.m))
  }

  /** `func.apply(null, args)`. A closure made by `create_fun` runs its body
      in a fresh child of the scope it was created in, with its parameters
      bound; `print` writes its argument and yields undefined. */
  function Apply(fn: Value, args: seq<Value>, m: Machine, fuel: nat): (r: Result<Outcome>)
    requires ValidStore(m.store) && ValueIn(fn, |m.store|)
    requires forall i :: 0 <= i < |args| ==> ValueIn(args[i], |m.store|)
    decreases fuel, 1
    ensures r.Ok? ==> Grows(m, r.value.m) && ValueIn(r.value.value, |r.value.m.store|)
  {
    match fn
    case Closure(_, params, body, env) =>
      var (st1, sc) := Extend(m.store, env);
      var vars := BindParams(params, args);
      forall x | x in vars
        ensures BindingIn(vars[x], |st1|)
      {
        if vars[x].primary != Bool(false) {
          var i :| 0 <= i < |args| && args[i] == vars[x].primary;
          assert ValueIn(args[i], |m.store|);
        }
      }
      var st2 := st1[sc := Frame(vars, Some(env))];
      Eval(body, Machine(st2, m.serial), sc, fuel)
    case NativeFn(Print) => Ok(Outcome(Undefined, m))
    case NativeFn(Exp) => Err(NotModelled)
    case NativeFn(Fact) =>
      var v :- FactCall(args);
      Ok(Outcome(v, m))
    case _ => Err(NotCallable)
  }

  /** Parsing a program and evaluating it in the root scope. */
  function Run(code: string, fuel: nat): (r: Result<Value>)
  {
    var ast :- Parse(code);
    var o :- Eval(ast, Machine(RootStore(), 0), 0, fuel);
    Ok(o.value)
  }
}
