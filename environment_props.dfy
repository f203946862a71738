/** Properties of the scope chain: what a read finds, and what a write
    leaves untouched. */
module EnvironmentProperties {
  import opened Common
  import opened Values
  import opened Environment

  /** A read finds a binding exactly when some scope on the chain binds the
      name, and what it finds is the own binding of the nearest such scope.
      A parent has a smaller index than its child, so the nearest scope is
      the one with the largest index. */
  lemma {:induction false} LookupOnChain(st: Store, scope: nat, name: string)
    requires ValidStore(st) && scope < |st|
    decreases scope
    ensures Lookup(st, scope, name).Some? <==> exists j :: j in Chain(st, scope) && name in st[j].vars
    ensures Lookup(st, scope, name).Some? ==>
      exists j :: j in Chain(st, scope) && name in st[j].vars && Lookup(st, scope, name).value == st[j].vars[name] &&
        forall k :: k in Chain(st, scope) && name in st[k].vars ==> k <= j
  {
    if name in st[scope].vars {
      assert scope in Chain(st, scope);
    } else if st[scope].parent.Some? {
      var p := st[scope].parent.value;
      LookupOnChain(st, p, name);
      assert Chain(st, scope) == {scope} + Chain(st, p);
    }
  }

  /** `get(n)` succeeds exactly when some scope on the chain binds `n`. */
  lemma GetSucceedsIffBound(st: Store, scope: nat, name: string)
    requires ValidStore(st) && scope < |st|
    ensures Get(st, scope, name).Ok? <==> exists j :: j in Chain(st, scope) && name in st[j].vars
  {
    LookupOnChain(st, scope, name);
  }

  /** A read from scope `j` depends only on frames `0..j`. */
  lemma {:induction false} LookupBelow(st: Store, st': Store, j: nat, name: string)
    requires ValidStore(st) && ValidStore(st') && j < |st| && j < |st'|
    requires forall i :: 0 <= i <= j ==> st[i] == st'[i]
    decreases j
    ensures Lookup(st, j, name) == Lookup(st', j, name)
  {
    if name !in st[j].vars && st[j].parent.Some? {
      LookupBelow(st, st', st[j].parent.value, name);
    }
  }

  /** After `set(n, v)` or `def(n, v)` in `scope`, `get(n)` there yields `v`,
      no other frame changes, and no ancestor's view of any name changes. */
  lemma DefineThenGet(st: Store, scope: nat, name: string, v: Value)
    requires ValidStore(st) && scope < |st| && ValueIn(v, |st|)
    ensures Get(Define(st, scope, name, v), scope, name) == Ok(v)
    ensures forall i :: 0 <= i < |st| && i != scope ==> Define(st, scope, name, v)[i] == st[i]
    ensures forall a, m :: a in Chain(st, scope) && a != scope ==>
      Lookup(Define(st, scope, name, v), a, m) == Lookup(st, a, m)
  {
    var st' := Define(st, scope, name, v);
    forall a, m | a in Chain(st, scope) && a != scope
      ensures Lookup(st', a, m) == Lookup(st, a, m)
    {
      LookupBelow(st, st', a, m);
    }
  }

  /** `setStuff` keeps the value the name had on the chain (undefined if it
      had none), attaches the stuff, and leaves ancestors untouched. */
  lemma SetStuffKeepsPrimary(st: Store, scope: nat, name: string, v: Value)
    requires ValidStore(st) && scope < |st| && ValueIn(v, |st|)
    ensures Get(SetStuff(st, scope, name, v), scope, name) ==
      Ok(if Lookup(st, scope, name).Some? then Lookup(st, scope, name).value.primary else Undefined)
    ensures GetStuff(SetStuff(st, scope, name, v), scope, name) == Ok(v)
    ensures forall a, m :: a in Chain(st, scope) && a != scope ==>
      Lookup(SetStuff(st, scope, name, v), a, m) == Lookup(st, a, m)
  {
    var st' := SetStuff(st, scope, name, v);
    forall a, m | a in Chain(st, scope) && a != scope
      ensures Lookup(st', a, m) == Lookup(st, a, m)
    {
      LookupBelow(st, st', a, m);
    }
  }

  /** `getStuff(n)` reports an undefined stuffed variable exactly when no
      scope on the chain binds `n`; its only other failure is reading the
      stuff of a variable whose value is undefined. */
  lemma GetStuffFailures(st: Store, scope: nat, name: string)
    requires ValidStore(st) && scope < |st|
    ensures GetStuff(st, scope, name) == Err(UndefinedStuffedVariable(name)) <==>
      !exists j :: j in Chain(st, scope) && name in st[j].vars
    ensures GetStuff(st, scope, name).Err? ==>
      GetStuff(st, scope, name) == Err(UndefinedStuffedVariable(name)) ||
      (GetStuff(st, scope, name) == Err(HostTypeError) && Lookup(st, scope, name) == Some(Binding(Undefined, None)))
  {
    LookupOnChain(st, scope, name);
  }

  /** `exists` looks at own names only: a name bound in the parent is
      visible to `get` from a fresh child scope, but does not exist there. */
  lemma ExistsIsOwnOnly(st: Store, scope: nat, name: string, v: Value)
    requires ValidStore(st) && scope < |st| && ValueIn(v, |st|)
    ensures var (st', child) := Extend(Define(st, scope, name, v), scope);
      !Exists(st', child, name) && Get(st', child, name) == Ok(v)
  {
    var st1 := Define(st, scope, name, v);
    var (st', child) := Extend(st1, scope);
    LookupBelow(st1, st', scope, name);
  }

  /** A name that exists in a scope is one `get` finds there. */
  lemma ExistsThenGet(st: Store, scope: nat, name: string)
    requires ValidStore(st) && scope < |st| && Exists(st, scope, name)
    ensures Get(st, scope, name) == Ok(st[scope].vars[name].primary)
  {
  }

  /** Extending the store changes no existing scope's view of any name. */
  lemma ExtendKeepsLookups(st: Store, scope: nat, j: nat, name: string)
    requires ValidStore(st) && scope < |st| && j < |st|
    ensures Lookup(Extend(st, scope).0, j, name) == Lookup(st, j, name)
  {
    LookupBelow(st, Extend(st, scope).0, j, name);
  }
}
