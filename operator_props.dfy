/** What `apply_op` promises: which operands each operator accepts, the
    value it yields, and that the remainder is JavaScript's. */
module OperatorProperties {
  import opened Common
  import opened Values
  import opened Parsing
  import opened Operators

  function Abs(x: real): real {
    if x < 0.0 then -x else x
  }

  /** `+ - * / % < > <= >=` refuse a non-number operand: the error is
      "number expected", or the host's TypeError when an arithmetic
      operator's left operand is undefined. */
  lemma NumbersOnly(op: string, a: Value, b: Value)
    requires IsArithmetic(op) || IsComparison(op)
    requires !a.Num? || !b.Num?
    ensures ApplyOp(op, a, b) == Err(NumberExpected) ||
      (ApplyOp(op, a, b) == Err(HostTypeError) && IsArithmetic(op) && a == Undefined)
  {
  }

  /** On two numbers they always succeed, except for a zero divisor. */
  lemma NumbersSucceed(op: string, x: real, y: real)
    requires IsArithmetic(op) || IsComparison(op)
    ensures ApplyOp(op, Num(x), Num(y)).Err? <==> (op == "/" || op == "%") && y == 0.0
  {
  }

  /** `/` and `%` refuse a zero right operand. */
  lemma ZeroDivisorFails(op: string, x: real)
    requires op == "/" || op == "%"
    ensures ApplyOp(op, Num(x), Num(0.0)) == Err(DivisionByZero)
  {
  }

  /** `a && b` is `false` when `a` is `false` and `b` otherwise, so it is
      truthy exactly when both are; on booleans it is conjunction. */
  lemma AndYields(a: Value, b: Value, x: bool, y: bool)
    ensures ApplyOp("&&", a, b) == Ok(if a == Bool(false) then Bool(false) else b)
    ensures Truthy(ApplyOp("&&", a, b).value) <==> Truthy(a) && Truthy(b)
    ensures ApplyOp("&&", Bool(x), Bool(y)) == Ok(Bool(x && y))
  {
  }

  /** `a || b` is `a` unless it is `false`, and `b` otherwise, so it is
      truthy exactly when either is; on booleans it is disjunction. */
  lemma OrYields(a: Value, b: Value, x: bool, y: bool)
    ensures ApplyOp("||", a, b) == Ok(if a != Bool(false) then a else b)
    ensures Truthy(ApplyOp("||", a, b).value) <==> Truthy(a) || Truthy(b)
    ensures ApplyOp("||", Bool(x), Bool(y)) == Ok(Bool(x || y))
  {
  }

  /** `==` and `!=` are `===` and `!==`: no conversion between types, so a
      number never equals a string, and two closures are equal only when
      they come from the same `fun` evaluation. */
  lemma StrictEquality(a: Value, b: Value, x: real, s: string)
    ensures ApplyOp("==", a, b) == Ok(Bool(a == b))
    ensures ApplyOp("!=", a, b) == Ok(Bool(a != b))
    ensures ApplyOp("==", Num(x), Str(s)) == Ok(Bool(false))
    ensures ApplyOp("==", Bool(false), Num(0.0)) == Ok(Bool(false))
    ensures a.Closure? && b.Closure? && a.id != b.id ==> ApplyOp("==", a, b) == Ok(Bool(false))
  {
  }

  /** Exactly the operators of the precedence table other than `=` (which
      the parser turns into an assignment) have a case; any other raises the
      unknown-operator error. */
  lemma HandledAreTableOperators(op: string)
    ensures IsHandled(op) <==> op in PrecedenceTable && op != "="
    ensures !IsHandled(op) ==> forall a, b :: ApplyOp(op, a, b) == Err(UnknownOperator(op))
  {
  }

  /** The remainder has the sign of the dividend and is smaller than the
      divisor in magnitude, the quotient being an integer. */
  lemma RemainderTruncates(a: real, b: real)
    requires b != 0.0
    ensures a >= 0.0 ==> 0.0 <= JsRem(a, b) < Abs(b)
    ensures a <= 0.0 ==> -Abs(b) < JsRem(a, b) <= 0.0
  {
    var q := a / b;
    var t := Trunc(q) as real;
    var d := q - t;
    Factored(a, b, t);
    QuotientSign(a, b);
    var p := b * d;
    ProductBounds(b, d, p);
    assert JsRem(a, b) == p;
  }

  /** `b * d` for a fraction `d` of either sign lies strictly within `b`. */
  lemma ProductBounds(b: real, d: real, p: real)
    requires b != 0.0 && -1.0 < d < 1.0 && p == b * d
    ensures b > 0.0 && d >= 0.0 ==> 0.0 <= p < b
    ensures b > 0.0 && d <= 0.0 ==> -b < p <= 0.0
    ensures b < 0.0 && d >= 0.0 ==> b < p <= 0.0
    ensures b < 0.0 && d <= 0.0 ==> 0.0 <= p < -b
  {
    if b > 0.0 && d >= 0.0 {
      Scaled(b, d);
    }
    if b > 0.0 && d <= 0.0 {
      NegativeFraction(b, d, p);
    }
    if b < 0.0 && d >= 0.0 {
      NegativeBase(b, d, p);
    }
    if b < 0.0 && d <= 0.0 {
      BothNegative(b, d, p);
    }
  }

  lemma NegativeFraction(b: real, d: real, p: real)
    requires b > 0.0 && -1.0 < d <= 0.0 && p == b * d
    ensures -b < p <= 0.0
  {
    var e := -d;
    Scaled(b, e);
    assert b * e == -(b * d);
    assert p == -(b * e);
  }

  lemma NegativeBase(b: real, d: real, p: real)
    requires b < 0.0 && 0.0 <= d < 1.0 && p == b * d
    ensures b < p <= 0.0
  {
    var c := -b;
    Scaled(c, d);
    assert c * d == -(b * d);
    assert p == -(c * d);
  }

  lemma BothNegative(b: real, d: real, p: real)
    requires b < 0.0 && -1.0 < d <= 0.0 && p == b * d
    ensures 0.0 <= p < -b
  {
    var c, e := -b, -d;
    Scaled(c, e);
    assert c * e == b * d;
    assert c * e < c;
    assert p == c * e;
    assert p < c;
  }

  lemma Factored(a: real, b: real, t: real)
    requires b != 0.0
    ensures a - b * t == b * (a / b - t)
  {
  }

  lemma QuotientSign(a: real, b: real)
    requires b != 0.0
    ensures (a >= 0.0 && b > 0.0) || (a <= 0.0 && b < 0.0) ==> a / b >= 0.0
    ensures (a <= 0.0 && b > 0.0) || (a >= 0.0 && b < 0.0) ==> a / b <= 0.0
  {
  }

  lemma Scaled(c: real, d: real)
    requires c > 0.0 && 0.0 <= d < 1.0
    ensures 0.0 <= c * d < c
  {
    assert c * d < c * 1.0;
  }

  /** Unlike the Euclidean remainder, `-7 % 2` is `-1`. */
  lemma NegativeRemainder()
    ensures ApplyOp("%", Num(-7.0), Num(2.0)) == Ok(Num(-1.0))
    ensures ApplyOp("%", Num(7.0), Num(-2.0)) == Ok(Num(1.0))
  {
    assert Trunc(-7.0 / 2.0) == -3;
    assert Trunc(7.0 / -2.0) == -3;
  }
}
