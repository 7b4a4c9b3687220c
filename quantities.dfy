/**
 * Quantities: a magnitude tagged with a dimension vector, and the operator algebra
 * of `Units<a, ..., g>`. In C++ the vector is a template argument and a mismatch is
 * a type error; here it is a value and a mismatch is a violated precondition.
 * Magnitudes are exact reals; a division requires a nonzero divisor.
 */
module Quantities {
  import opened Dimension

  /** `Units<dims>` holding the magnitude `mag` (its `raw_value()`). */
  datatype Quantity = Q(dims: Dim, mag: real)

  /** `Units::value(u)`: the magnitude expressed as a multiple of a same-dimension unit. */
  function ValueIn(q: Quantity, u: Quantity): (r: real)
    requires q.dims == u.dims
    requires u.mag != 0.0
    ensures r * u.mag == q.mag
  {
    q.mag / u.mag
  }

  /** `Units + Units`: only between identical vectors. */
  function Plus(a: Quantity, b: Quantity): (r: Quantity)
    requires a.dims == b.dims
    ensures r.dims == a.dims == b.dims
    ensures r.mag - b.mag == a.mag
  {
    Q(a.dims, a.mag + b.mag)
  }

  /** `Units - Units`: only between identical vectors. */
  function Minus(a: Quantity, b: Quantity): (r: Quantity)
    requires a.dims == b.dims
    ensures r.dims == a.dims == b.dims
    ensures r.mag + b.mag == a.mag
  {
    Q(a.dims, a.mag - b.mag)
  }

  /** `Units * scalar`: the vector is kept. */
  function Scale(q: Quantity, k: real): (r: Quantity)
    ensures r.dims == q.dims
    ensures k != 0.0 ==> r.mag / k == q.mag
    ensures k == 0.0 ==> r.mag == 0.0
  {
    Q(q.dims, q.mag * k)
  }

  /** `Units / scalar`: the vector is kept. */
  function Shrink(q: Quantity, k: real): (r: Quantity)
    requires k != 0.0
    ensures r.dims == q.dims
    ensures r.mag * k == q.mag
  {
    Q(q.dims, q.mag / k)
  }

  /** `scalar * Units`: the same quantity as `Units * scalar`. */
  function ScalarTimes(k: real, q: Quantity): (r: Quantity)
    ensures r == Scale(q, k)
  {
    Q(q.dims, k * q.mag)
  }

  /** `Units * Units`: exponents add component-wise, magnitudes multiply. */
  function Times(a: Quantity, b: Quantity): (r: Quantity)
    ensures forall k :: 0 <= k < 7 ==> r.dims[k] == a.dims[k] + b.dims[k]
    ensures r.mag == a.mag * b.mag
  {
    Q(Add(a.dims, b.dims), a.mag * b.mag)
  }

  /** `Units / Units`: exponents subtract component-wise, magnitudes divide; a quotient
      of two quantities with the same vector is dimensionless. */
  function Over(a: Quantity, b: Quantity): (r: Quantity)
    requires b.mag != 0.0
    ensures Add(r.dims, b.dims) == a.dims
    ensures r.mag * b.mag == a.mag
    ensures a.dims == b.dims ==> r.dims == Zero
  {
    Q(Sub(a.dims, b.dims), a.mag / b.mag)
  }

  /** `scalar / Units`: every exponent is negated. */
  function Reciprocal(k: real, q: Quantity): (r: Quantity)
    requires q.mag != 0.0
    ensures Add(r.dims, q.dims) == Zero
    ensures r.mag * q.mag == k
  {
    Q(Neg(q.dims), k / q.mag)
  }

  /** A catalog declaration `const D name = q;`: it compiles only when the
      initialiser's vector is the declared one. */
  function Declare(declared: Dim, q: Quantity): (r: Quantity)
    requires q.dims == declared
    ensures r.dims == declared && r.mag == q.mag
  {
    q
  }

  // ---------------------------------------------------------------------------
  // Laws relating the operators to each other.

  lemma TimesCommutes(a: Quantity, b: Quantity)
    ensures Times(a, b) == Times(b, a)
  {
  }

  /** Division undoes multiplication, in vector and magnitude. */
  lemma OverUndoesTimes(a: Quantity, b: Quantity)
    requires b.mag != 0.0
    ensures Over(Times(a, b), b) == a
    ensures Times(Over(a, b), b) == a
  {
    SubUndoesAdd(a.dims, b.dims);
  }

  /** A nonzero quantity divided by itself is the dimensionless one. */
  lemma OverSelf(a: Quantity)
    requires a.mag != 0.0
    ensures Over(a, a) == Q(Zero, 1.0)
  {
  }

  /** `k / q` is the dimensionless `k` divided by `q`, and `1 / q` times `q` is one. */
  lemma ReciprocalIsDimensionlessOver(k: real, q: Quantity)
    requires q.mag != 0.0
    ensures Reciprocal(k, q) == Over(Q(Zero, k), q)
    ensures Times(Reciprocal(1.0, q), q) == Q(Zero, 1.0)
  {
  }

  /** For multiplication and division a dimensionless quantity behaves as a bare scalar. */
  lemma DimensionlessActsAsScalar(k: real, q: Quantity)
    ensures Times(Q(Zero, k), q) == ScalarTimes(k, q) == Scale(q, k)
    ensures k != 0.0 ==> Over(q, Q(Zero, k)) == Shrink(q, k)
  {
  }

  /** Subtraction undoes addition, and addition is commutative. */
  lemma PlusMinusCancel(a: Quantity, b: Quantity)
    requires a.dims == b.dims
    ensures Minus(Plus(a, b), b) == a
    ensures Plus(a, b) == Plus(b, a)
  {
  }

  /** Scaling a unit by k gives a quantity worth k of that unit. */
  lemma ValueOfScaledUnit(u: Quantity, k: real)
    requires u.mag != 0.0
    ensures ValueIn(Scale(u, k), u) == k
    ensures ValueIn(ScalarTimes(k, u), u) == k
  {
  }

  // ---------------------------------------------------------------------------

  /**
   * A `Units` object as a variable: its vector is fixed by its type, its magnitude is
   * the one field the compound assignments overwrite. Each compound assignment leaves
   * the object equal to the result of the matching binary operator.
   */
  class Units {
    const dims: Dim
    var value: real

    /** The value this object currently holds. */
    function Get(): Quantity
      reads this
    {
      Q(dims, value)
    }

    /** `value(units)`: a member without `const`, so it is available on a variable
        such as this object and not on a `const` catalog entry. It changes nothing and
        returns the magnitude as a multiple of a same-vector unit. */
    method Value(u: Quantity) returns (r: real)
      requires u.dims == dims
      requires u.mag != 0.0
      ensures r == ValueIn(Get(), u)
      ensures r * u.mag == value
    {
      r := value / u.mag;
    }

    /** `explicit Units(value)`. */
    constructor (dims: Dim, value: real)
      ensures Get() == Q(dims, value)
    {
      this.dims := dims;
      this.value := value;
    }

    /** `operator+=`: only with a quantity of the same vector. */
    method PlusAssign(rhs: Quantity)
      requires rhs.dims == dims
      modifies this
      ensures Get() == Plus(old(Get()), rhs)
      ensures value == old(value) + rhs.mag
    {
      value := value + rhs.mag;
    }

    /** `operator-=`: only with a quantity of the same vector. */
    method MinusAssign(rhs: Quantity)
      requires rhs.dims == dims
      modifies this
      ensures Get() == Minus(old(Get()), rhs)
      ensures value == old(value) - rhs.mag
    {
      value := value - rhs.mag;
    }

    /** `operator*=` by a scalar. */
    method TimesAssign(k: real)
      modifies this
      ensures Get() == Scale(old(Get()), k)
      ensures value == old(value) * k
    {
      value := value * k;
    }

    /** `operator/=` by a nonzero scalar. */
    method OverAssign(k: real)
      requires k != 0.0
      modifies this
      ensures Get() == Shrink(old(Get()), k)
      ensures value == old(value) / k
    {
      value := value / k;
    }
  }
}
