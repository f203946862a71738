/** `Env`: the scope operations over the store of frames. A scope's `args`
    object inherits from its parent's, so a read walks the chain while a
    write always lands in the scope itself. */
module Environment {
  import opened Common
  import opened Values

  /** The scopes on the chain from `scope` up to the root. */
  function Chain(st: Store, scope: nat): (c: set<nat>)
    requires ValidStore(st) && scope < |st|
    decreases scope
    ensures scope in c
    ensures forall j :: j in c ==> j <= scope
  {
    {scope} + (if st[scope].parent.Some? then Chain(st, st[scope].parent.value) else {})
  }

  /** `name in this.args` / `this.args[name]`: the binding of the nearest
      scope on the chain that has one. */
  function Lookup(st: Store, scope: nat, name: string): (r: Option<Binding>)
    requires ValidStore(st) && scope < |st|
    decreases scope
    ensures r.Some? ==> BindingIn(r.value, |st|)
  {
    if name in st[scope].vars then Some(st[scope].vars[name])
    else if st[scope].parent.Some? then Lookup(st, st[scope].parent.value, name)
    else None
  }

  /** `get(name)`. */
  function Get(st: Store, scope: nat, name: string): (r: Result<Value>)
    requires ValidStore(st) && scope < |st|
    ensures r.Ok? ==> ValueIn(r.value, |st|)
    ensures r.Err? ==> r.error == UndefinedVariable(name)
  {
    match Lookup(st, scope, name)
    case Some(b) => Ok(b.primary)
    case None => Err(UndefinedVariable(name))
  }

  /** `exists(name)`: whether `name` is one of the scope's own names. */
  predicate Exists(st: Store, scope: nat, name: string)
    requires scope < |st|
  {
    name in st[scope].vars
  }

  /** `Object.keys(env.args).length`. */
  function OwnKeyCount(st: Store, scope: nat): nat
    requires scope < |st|
  {
    |st[scope].vars|
  }

  /** `set(name, value)` and `def(name, value)`, which the source defines
      identically: an own binding of `name`, replacing any stuff. */
  function Define(st: Store, scope: nat, name: string, v: Value): (st': Store)
    requires ValidStore(st) && scope < |st| && ValueIn(v, |st|)
    ensures ValidStore(st') && |st'| == |st|
  {
    st[scope := Frame(st[scope].vars[name := Binding(v, None)], st[scope].parent)]
  }

  /** `setStuff(name, value)`: an own binding that keeps the value `name`
      has on the chain (undefined when it has none) and carries `value` as
      its stuff. */
  function SetStuff(st: Store, scope: nat, name: string, v: Value): (st': Store)
    requires ValidStore(st) && scope < |st| && ValueIn(v, |st|)
    ensures ValidStore(st') && |st'| == |st|
  {
    var primary := match Lookup(st, scope, name) case Some(b) => b.primary case None => Undefined;
    st[scope := Frame(st[scope].vars[name := Binding(primary, Some(v))], st[scope].parent)]
  }

  /** `getStuff(name)`: the stuff of the nearest binding, or undefined when
      it has none; reading a property of an undefined value is the host's
      own TypeError. */
  function GetStuff(st: Store, scope: nat, name: string): (r: Result<Value>)
    requires ValidStore(st) && scope < |st|
    ensures r.Ok? ==> ValueIn(r.value, |st|)
  {
    match Lookup(st, scope, name)
    case None => Err(UndefinedStuffedVariable(name))
    case Some(Binding(Undefined, None)) => Err(HostTypeError)
    case Some(Binding(_, stuff)) => Ok(if stuff.Some? then stuff.value else Undefined)
  }

  /** `extend()`: a new, empty scope whose parent is `scope`. */
  function Extend(st: Store, scope: nat): (r: (Store, nat))
    requires ValidStore(st) && scope < |st|
    ensures ValidStore(r.0) && |r.0| == |st| + 1 && r.0[..|st|] == st
    ensures r.1 == |st| && r.0[r.1] == Frame(map[], Some(scope))
  {
    (st + [Frame(map[], Some(scope))], |st|)
  }

  /** The interpreter's root scope, holding the built-ins. */
  function RootStore(): (st: Store)
    ensures ValidStore(st) && |st| == 1
  {
    [Frame(map["print" := Binding(NativeFn(Print), None),
                "exp" := Binding(NativeFn(Exp), None),
                "fact" := Binding(NativeFn(Fact), None)], None)]
  }
}

/** The scopes as mutable objects: `set`, `def`, `setStuff` and `extend`
    update the store in place. */
module ScopeObjects {
  import opened Common
  import opened Values
  import opened Environment

  class Scopes {
    var frames: Store

    ghost predicate Valid()
      reads this
    {
      ValidStore(frames)
    }

    /** `new Env()` for the root, with the built-ins defined. */
    constructor ()
      ensures Valid() && frames == RootStore()
    {
      frames := RootStore();
    }

    /** `set` / `def`. */
    method Define(scope: nat, name: string, v: Value)
      requires Valid() && scope < |frames| && ValueIn(v, |frames|)
      modifies this
      ensures Valid()
      ensures frames == Environment.Define(old(frames), scope, name, v)
    {
      var f := frames[scope];
      frames := frames[scope := Frame(f.vars[name := Binding(v, None)], f.parent)];
    }

    /** `setStuff`. */
    method SetStuff(scope: nat, name: string, v: Value)
      requires Valid() && scope < |frames| && ValueIn(v, |frames|)
      modifies this
      ensures Valid()
      ensures frames == Environment.SetStuff(old(frames), scope, name, v)
    {
      var primary := match Lookup(frames, scope, name) case Some(b) => b.primary case None => Undefined;
      var f := frames[scope];
      frames := frames[scope := Frame(f.vars[name := Binding(primary, Some(v))], f.parent)];
    }

    /** `extend`. */
    method Extend(scope: nat) returns (child: nat)
      requires Valid() && scope < |frames|
      modifies this
      ensures Valid()
      ensures (frames, child) == Environment.Extend(old(frames), scope)
    {
      child := |frames|;
      frames := frames + [Frame(map[], Some(scope))];
    }
  }
}
