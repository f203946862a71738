/** `apply_op`: the binary operators on runtime values. Numbers are exact
    reals; `/` is exact division and `%` is JavaScript's remainder, which
    truncates the quotient toward zero. */
module Operators {
  import opened Common
  import opened Values

  /** The only falsy value is the boolean `false`: `0`, `""` and `undefined`
      are all truthy. */
  predicate Truthy(v: Value) {
    v != Bool(false)
  }

  /** Rounding toward zero. */
  function Trunc(x: real): (t: int)
    ensures x >= 0.0 ==> 0 <= t && t as real <= x < t as real + 1.0
    ensures x <= 0.0 ==> t <= 0 && t as real - 1.0 < x <= t as real
  {
    if x >= 0.0 then x.Floor else -((-x).Floor)
  }

  /** JavaScript's `a % b` for `b != 0`: `a` minus the truncated quotient's
      multiple of `b`. */
  function JsRem(a: real, b: real): (r: real)
    requires b != 0.0
  {
    a - b * Trunc(a / b) as real
  }

  /** The operators that go through `num(a.valueOf())`. */
  predicate IsArithmetic(op: string) {
    op == "+" || op == "-" || op == "*" || op == "/" || op == "%"
  }

  /** The operators that go through `num(a)` and `num(b)`. */
  predicate IsComparison(op: string) {
    op == "<" || op == ">" || op == "<=" || op == ">="
  }

  /** The operators with a case in `apply_op`'s switch. */
  predicate IsHandled(op: string) {
    IsArithmetic(op) || IsComparison(op) || op == "&&" || op == "||" || op == "==" || op == "!="
  }

  function Arithmetic(op: string, x: real, y: real): real
    requires IsArithmetic(op) && ((op == "/" || op == "%") ==> y != 0.0)
  {
    if op == "+" then x + y
    else if op == "-" then x - y
    else if op == "*" then x * y
    else if op == "/" then x / y
    else JsRem(x, y)
  }

  function Comparison(op: string, x: real, y: real): bool
    requires IsComparison(op)
  {
    if op == "<" then x < y
    else if op == ">" then x > y
    else if op == "<=" then x <= y
    else x >= y
  }

  /** `apply_op(op, a, b)`. An arithmetic operator reads `a.valueOf()`
      first, which is the host's TypeError when `a` is undefined; then `a`
      and `b` must be numbers, and `/` and `%` refuse a zero divisor. */
  function ApplyOp(op: string, a: Value, b: Value): (r: Result<Value>)
    ensures r == Err(UnknownOperator(op)) <==> !IsHandled(op)
    ensures r.Ok? && (IsArithmetic(op) || IsComparison(op)) ==> a.Num? && b.Num?
    ensures r.Ok? ==> r.value == a || r.value == b || r.value.Num? || r.value.Bool?
  {
    if IsArithmetic(op) then
      if a == Undefined then Err(HostTypeError)
      else if !a.Num? || !b.Num? then Err(NumberExpected)
      else if (op == "/" || op == "%") && b.n == 0.0 then Err(DivisionByZero)
      else Ok(Num(Arithmetic(op, a.n, b.n)))
    else if IsComparison(op) then
      if !a.Num? || !b.Num? then Err(NumberExpected)
      else Ok(Bool(Comparison(op, a.n, b.n)))
    else if op == "&&" then Ok(if a == Bool(false) then Bool(false) else b)
    else if op == "||" then Ok(if a != Bool(false) then a else b)
    else if op == "==" then Ok(Bool(a == b))
    else if op == "!=" then Ok(Bool(a != b))
    else Err(UnknownOperator(op))
  }
}
