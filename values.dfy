/** Runtime values and the scopes (`Env`) that hold them. Scopes are frames of
    one store, addressed by index; a frame's parent always has a smaller
    index, so every scope chain ends at the root. */
module Values {
  import opened Common
  import opened Parsing

  /** The built-ins the root scope defines. */
  datatype Native = Print | Exp | Fact

  /** What an expression evaluates to. A closure records the frame it was
      created in, and a serial number that makes every `fun` evaluation a
      distinct function, as JavaScript function identity does. */
  datatype Value =
    | Num(n: real)
    | Str(s: string)
    | Bool(b: bool)
    | Undefined
    | Closure(id: nat, params: seq<string>, body: Node, env: nat)
    | NativeFn(native: Native)

  /** A variable: its value, and the `stuff` attached to it, if any. */
  datatype Binding = Binding(primary: Value, stuff: Option<Value>)

  /** One scope: its own variables (`args`' own properties) and its parent. */
  datatype Frame = Frame(vars: map<string, Binding>, parent: Option<nat>)

  type Store = seq<Frame>

  /** A value refers only to frames that exist. */
  predicate ValueIn(v: Value, size: nat) {
    v.Closure? ==> v.env < size
  }

  predicate BindingIn(b: Binding, size: nat) {
    ValueIn(b.primary, size) && (b.stuff.Some? ==> ValueIn(b.stuff.value, size))
  }

  /** The store invariant: parents precede their children (so the chains are
      acyclic) and every stored closure points at an existing frame. */
  predicate ValidStore(st: Store) {
    (forall i :: 0 <= i < |st| && st[i].parent.Some? ==> st[i].parent.value < i) &&
    (forall i, x :: 0 <= i < |st| && x in st[i].vars ==> BindingIn(st[i].vars[x], |st|))
  }
}
