/**
 * Operator expressions as the C++ compiler sees them. The compiler infers an
 * expression's vector from the operators' result types alone (TypeOf), before any
 * magnitude exists, and refuses `+` and `-` between different vectors. At run time the
 * same expression computes a quantity (Eval), whose vector is the inferred one.
 */
module Expressions {
  import opened Dimension
  import opened Quantities

  datatype Option<T> = None | Some(value: T)

  /** The right-hand side of a catalog definition. */
  datatype Expr =
    | Ref(q: Quantity)               // a named unit or constant defined earlier
    | Sum(a: Expr, b: Expr)          // a + b
    | Diff(a: Expr, b: Expr)         // a - b
    | Prod(a: Expr, b: Expr)         // a * b, both quantities
    | Quot(a: Expr, b: Expr)         // a / b, both quantities
    | ScaleLeft(k: real, a: Expr)    // k * a
    | ScaleRight(a: Expr, k: real)   // a * k
    | ShrinkBy(a: Expr, k: real)     // a / k
    | Recip(k: real, a: Expr)        // k / a

  /** The vector the compiler infers, or None when the expression does not compile
      (an addition or subtraction of two different vectors). */
  function TypeOf(e: Expr): (r: Option<Dim>)
    ensures SumFree(e) ==> r.Some?
  {
    match e
    case Ref(q) => Some(q.dims)
    case Sum(a, b) =>
      if TypeOf(a).Some? && TypeOf(a) == TypeOf(b) then TypeOf(a) else None
    case Diff(a, b) =>
      if TypeOf(a).Some? && TypeOf(a) == TypeOf(b) then TypeOf(a) else None
    case Prod(a, b) =>
      if TypeOf(a).Some? && TypeOf(b).Some? then Some(Add(TypeOf(a).value, TypeOf(b).value)) else None
    case Quot(a, b) =>
      if TypeOf(a).Some? && TypeOf(b).Some? then Some(Sub(TypeOf(a).value, TypeOf(b).value)) else None
    case ScaleLeft(_, a) => TypeOf(a)
    case ScaleRight(a, _) => TypeOf(a)
    case ShrinkBy(a, _) => TypeOf(a)
    case Recip(_, a) => if TypeOf(a).Some? then Some(Neg(TypeOf(a).value)) else None
  }

  /** No `+` or `-` anywhere in the expression. */
  predicate SumFree(e: Expr)
  {
    match e
    case Ref(_) => true
    case Sum(_, _) => false
    case Diff(_, _) => false
    case Prod(a, b) => SumFree(a) && SumFree(b)
    case Quot(a, b) => SumFree(a) && SumFree(b)
    case ScaleLeft(_, a) => SumFree(a)
    case ScaleRight(a, _) => SumFree(a)
    case ShrinkBy(a, _) => SumFree(a)
    case Recip(_, a) => SumFree(a)
  }

  /** Some `+` or `-` in the expression joins two sides that do not compile to one vector. */
  predicate MixedSum(e: Expr)
  {
    match e
    case Ref(_) => false
    case Sum(a, b) => MixedSum(a) || MixedSum(b) || TypeOf(a) != TypeOf(b)
    case Diff(a, b) => MixedSum(a) || MixedSum(b) || TypeOf(a) != TypeOf(b)
    case Prod(a, b) => MixedSum(a) || MixedSum(b)
    case Quot(a, b) => MixedSum(a) || MixedSum(b)
    case ScaleLeft(_, a) => MixedSum(a)
    case ScaleRight(a, _) => MixedSum(a)
    case ShrinkBy(a, _) => MixedSum(a)
    case Recip(_, a) => MixedSum(a)
  }

  /** The only compile errors are additions and subtractions of different vectors:
      an expression is rejected exactly when one of its `+` or `-` mixes vectors. */
  lemma {:induction false} TypeErrorIffMixedSum(e: Expr)
    ensures TypeOf(e).None? <==> MixedSum(e)
  {
    match e
    case Ref(_) =>
    case Sum(a, b) =>
      TypeErrorIffMixedSum(a);
      TypeErrorIffMixedSum(b);
    case Diff(a, b) =>
      TypeErrorIffMixedSum(a);
      TypeErrorIffMixedSum(b);
    case Prod(a, b) =>
      TypeErrorIffMixedSum(a);
      TypeErrorIffMixedSum(b);
    case Quot(a, b) =>
      TypeErrorIffMixedSum(a);
      TypeErrorIffMixedSum(b);
    case ScaleLeft(_, a) =>
      TypeErrorIffMixedSum(a);
    case ScaleRight(a, _) =>
      TypeErrorIffMixedSum(a);
    case ShrinkBy(a, _) =>
      TypeErrorIffMixedSum(a);
    case Recip(_, a) =>
      TypeErrorIffMixedSum(a);
  }

  /** Run-time evaluation through the quantity operators, or None when a division
      meets a zero magnitude (where the library's doubles give an infinity or NaN).
      A well-typed expression evaluates to a quantity carrying exactly the inferred
      vector: the static check is sound, and every `+` and `-` it admits is between
      equal vectors. */
  function Eval(e: Expr): (r: Option<Quantity>)
    requires TypeOf(e).Some?
    ensures r.Some? ==> r.value.dims == TypeOf(e).value
  {
    match e
    case Ref(q) => Some(q)
    case Sum(a, b) =>
      var x, y := Eval(a), Eval(b);
      if x.Some? && y.Some? then Some(Plus(x.value, y.value)) else None
    case Diff(a, b) =>
      var x, y := Eval(a), Eval(b);
      if x.Some? && y.Some? then Some(Minus(x.value, y.value)) else None
    case Prod(a, b) =>
      var x, y := Eval(a), Eval(b);
      if x.Some? && y.Some? then Some(Times(x.value, y.value)) else None
    case Quot(a, b) =>
      var x, y := Eval(a), Eval(b);
      if x.Some? && y.Some? && y.value.mag != 0.0 then Some(Over(x.value, y.value)) else None
    case ScaleLeft(k, a) =>
      var x := Eval(a);
      if x.Some? then Some(ScalarTimes(k, x.value)) else None
    case ScaleRight(a, k) =>
      var x := Eval(a);
      if x.Some? then Some(Scale(x.value, k)) else None
    case ShrinkBy(a, k) =>
      var x := Eval(a);
      if x.Some? && k != 0.0 then Some(Shrink(x.value, k)) else None
    case Recip(k, a) =>
      var x := Eval(a);
      if x.Some? && x.value.mag != 0.0 then Some(Reciprocal(k, x.value)) else None
  }

  /** Somewhere in a well-typed expression a division meets a zero: a quotient whose
      divisor evaluates to magnitude 0, a reciprocal of a quantity of magnitude 0, or a
      division by the scalar 0. */
  predicate DividesByZero(e: Expr)
    requires TypeOf(e).Some?
  {
    match e
    case Ref(_) => false
    case Sum(a, b) => DividesByZero(a) || DividesByZero(b)
    case Diff(a, b) => DividesByZero(a) || DividesByZero(b)
    case Prod(a, b) => DividesByZero(a) || DividesByZero(b)
    case Quot(a, b) =>
      DividesByZero(a) || DividesByZero(b) || (Eval(b).Some? && Eval(b).value.mag == 0.0)
    case ScaleLeft(_, a) => DividesByZero(a)
    case ScaleRight(a, _) => DividesByZero(a)
    case ShrinkBy(a, k) => DividesByZero(a) || k == 0.0
    case Recip(_, a) => DividesByZero(a) || (Eval(a).Some? && Eval(a).value.mag == 0.0)
  }

  /** A well-typed expression always computes a quantity, except when one of its
      divisions meets a zero: evaluation fails exactly then. */
  lemma {:induction false} EvalFailsOnlyOnZeroDivisor(e: Expr)
    requires TypeOf(e).Some?
    ensures Eval(e).None? <==> DividesByZero(e)
  {
    match e
    case Ref(_) =>
    case Sum(a, b) =>
      EvalFailsOnlyOnZeroDivisor(a);
      EvalFailsOnlyOnZeroDivisor(b);
    case Diff(a, b) =>
      EvalFailsOnlyOnZeroDivisor(a);
      EvalFailsOnlyOnZeroDivisor(b);
    case Prod(a, b) =>
      EvalFailsOnlyOnZeroDivisor(a);
      EvalFailsOnlyOnZeroDivisor(b);
    case Quot(a, b) =>
      EvalFailsOnlyOnZeroDivisor(a);
      EvalFailsOnlyOnZeroDivisor(b);
    case ScaleLeft(_, a) =>
      EvalFailsOnlyOnZeroDivisor(a);
    case ScaleRight(a, _) =>
      EvalFailsOnlyOnZeroDivisor(a);
    case ShrinkBy(a, _) =>
      EvalFailsOnlyOnZeroDivisor(a);
    case Recip(_, a) =>
      EvalFailsOnlyOnZeroDivisor(a);
  }

  /** Adding or subtracting quantities compiles exactly when both sides have one vector. */
  lemma SumTypeChecksIffSameVector(a: Expr, b: Expr)
    ensures TypeOf(Sum(a, b)).Some? <==> TypeOf(a).Some? && TypeOf(a) == TypeOf(b)
    ensures TypeOf(Diff(a, b)).Some? <==> TypeOf(a).Some? && TypeOf(a) == TypeOf(b)
  {
  }

  /** Products, quotients and scalings of well-typed operands always compile. */
  lemma ProductsAlwaysTypeCheck(a: Expr, b: Expr, k: real)
    requires TypeOf(a).Some? && TypeOf(b).Some?
    ensures TypeOf(Prod(a, b)) == Some(Add(TypeOf(a).value, TypeOf(b).value))
    ensures TypeOf(Quot(a, b)) == Some(Sub(TypeOf(a).value, TypeOf(b).value))
    ensures TypeOf(Recip(k, a)) == Some(Neg(TypeOf(a).value))
    ensures TypeOf(ScaleLeft(k, a)) == TypeOf(ScaleRight(a, k)) == TypeOf(ShrinkBy(a, k)) == TypeOf(a)
  {
  }

  /** Built from magnitude-1 operands alone: references to units of magnitude 1,
      combined by products, quotients and reciprocals or scalings by 1. */
  predicate UnitOperands(e: Expr)
  {
    match e
    case Ref(q) => q.mag == 1.0
    case Sum(_, _) => false
    case Diff(_, _) => false
    case Prod(a, b) => UnitOperands(a) && UnitOperands(b)
    case Quot(a, b) => UnitOperands(a) && UnitOperands(b)
    case ScaleLeft(k, a) => k == 1.0 && UnitOperands(a)
    case ScaleRight(a, k) => k == 1.0 && UnitOperands(a)
    case ShrinkBy(a, k) => k == 1.0 && UnitOperands(a)
    case Recip(k, a) => k == 1.0 && UnitOperands(a)
  }

  /** A well-typed expression built from magnitude-1 operands never divides by zero
      and evaluates to magnitude 1: why every SI derived unit has magnitude 1. */
  lemma {:induction false} UnitOperandsGiveUnit(e: Expr)
    requires TypeOf(e).Some? && UnitOperands(e)
    ensures Eval(e).Some? && Eval(e).value.mag == 1.0
  {
    match e
    case Ref(_) =>
    case Sum(_, _) =>
    case Diff(_, _) =>
    case Prod(a, b) =>
      UnitOperandsGiveUnit(a);
      UnitOperandsGiveUnit(b);
    case Quot(a, b) =>
      UnitOperandsGiveUnit(a);
      UnitOperandsGiveUnit(b);
    case ScaleLeft(_, a) =>
      UnitOperandsGiveUnit(a);
    case ScaleRight(a, _) =>
      UnitOperandsGiveUnit(a);
    case ShrinkBy(a, _) =>
      UnitOperandsGiveUnit(a);
    case Recip(_, a) =>
      UnitOperandsGiveUnit(a);
  }
}
