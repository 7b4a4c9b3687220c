/**
 * Decimal prefix helpers `Y_` ... `y_`. Each is generic over its argument's type, so it
 * applies to a raw number or to a quantity of any vector, and returns the same type.
 * Multiples compute `factor * x`; sub-multiples compute `x / factor`.
 */
module Prefixes {
  import opened Dimension
  import opened Quantities

  datatype Prefix =
    | Yotta | Zetta | Exa | Peta | Tera | Giga | Mega | Kilo | Hecto | Deca
    | Deci | Centi | Milli | Micro | Nano | Pico | Femto | Atto | Zepto | Yocto

  /** The ten helpers that scale up; the other ten scale down. */
  predicate IsMultiple(p: Prefix)
  {
    p.Yotta? || p.Zetta? || p.Exa? || p.Peta? || p.Tera? ||
    p.Giga? || p.Mega? || p.Kilo? || p.Hecto? || p.Deca?
  }

  /** The factor each helper uses, as the library writes it: `G_` and `n_` use 1e7. */
  function Factor(p: Prefix): (f: real)
    ensures f >= 10.0
  {
    match p
    case Yotta | Yocto => 1e24
    case Zetta | Zepto => 1e21
    case Exa | Atto => 1e18
    case Peta | Femto => 1e15
    case Tera | Pico => 1e12
    case Giga | Nano => 1e7
    case Mega | Micro => 1e6
    case Kilo | Milli => 1e3
    case Hecto | Centi => 100.0
    case Deca | Deci => 10.0
  }

  /** A prefix helper applied to a raw number: a multiple scales up by its factor,
      a sub-multiple scales down by it. */
  function Apply(p: Prefix, x: real): (r: real)
    ensures IsMultiple(p) ==> r / Factor(p) == x
    ensures !IsMultiple(p) ==> r * Factor(p) == x
  {
    if IsMultiple(p) then Factor(p) * x else x / Factor(p)
  }

  /** A prefix helper applied to a quantity: `factor * q` through the free scalar
      product, `q / factor` through the member scalar division. The vector is kept. */
  function ApplyTo(p: Prefix, q: Quantity): (r: Quantity)
    ensures r.dims == q.dims
    ensures r.mag == Apply(p, q.mag)
  {
    if IsMultiple(p) then ScalarTimes(Factor(p), q) else Shrink(q, Factor(p))
  }

  /** The helper that undoes p: kilo and milli, hecto and centi, deca and deci, and so on. */
  function Inverse(p: Prefix): (r: Prefix)
    ensures IsMultiple(r) != IsMultiple(p)
    ensures Factor(r) == Factor(p)
  {
    match p
    case Yotta => Yocto
    case Zetta => Zepto
    case Exa => Atto
    case Peta => Femto
    case Tera => Pico
    case Giga => Nano
    case Mega => Micro
    case Kilo => Milli
    case Hecto => Centi
    case Deca => Deci
    case Deci => Deca
    case Centi => Hecto
    case Milli => Kilo
    case Micro => Mega
    case Nano => Giga
    case Pico => Tera
    case Femto => Peta
    case Atto => Exa
    case Zepto => Zetta
    case Yocto => Yotta
  }

  /** Paired helpers cancel exactly over the reals, in either order: `m_(k_(x)) == x`,
      `c_(h_(x)) == x`, `d_(da_(x)) == x`, `u_(M_(x)) == x`, `n_(G_(x)) == x`,
      `p_(T_(x)) == x`, `f_(P_(x)) == x`, `a_(E_(x)) == x`, `z_(Z_(x)) == x`, `y_(Y_(x)) == x`. */
  lemma InverseCancels(p: Prefix, x: real)
    ensures Inverse(Inverse(p)) == p
    ensures Apply(Inverse(p), Apply(p, x)) == x
    ensures Apply(p, Apply(Inverse(p), x)) == x
  {
  }

  /** The same on quantities: applying a prefix and its inverse gives back the quantity,
      vector and magnitude. Kilo then milli on one metre is one metre. */
  lemma InverseCancelsOnQuantities(p: Prefix, q: Quantity)
    ensures ApplyTo(Inverse(p), ApplyTo(p, q)) == q
    ensures ApplyTo(Milli, ApplyTo(Kilo, Q(Length, 1.0))) == Q(Length, 1.0)
  {
    InverseCancels(p, q.mag);
    InverseCancels(Kilo, 1.0);
  }

  // ---------------------------------------------------------------------------
  // The SI prefixes (SI Brochure, 9th edition, Table 7) set giga at 10^9 and nano at
  // 10^-9; the library's `G_` and `n_` use 10^7. SiFactor is the corrected table.

  /** Ten to an integer power. */
  function TenTo(e: int): real
    decreases if e < 0 then -e else e
  {
    if e == 0 then 1.0
    else if e > 0 then 10.0 * TenTo(e - 1)
    else TenTo(e + 1) / 10.0
  }

  /** The power of ten each prefix stands for. */
  function SiExponent(p: Prefix): int
  {
    match p
    case Yotta => 24
    case Zetta => 21
    case Exa => 18
    case Peta => 15
    case Tera => 12
    case Giga => 9
    case Mega => 6
    case Kilo => 3
    case Hecto => 2
    case Deca => 1
    case Deci => -1
    case Centi => -2
    case Milli => -3
    case Micro => -6
    case Nano => -9
    case Pico => -12
    case Femto => -15
    case Atto => -18
    case Zepto => -21
    case Yocto => -24
  }

  /** The factor table with giga and nano corrected to 1e9. */
  function SiFactor(p: Prefix): real
  {
    if p.Giga? || p.Nano? then 1e9 else Factor(p)
  }

  /** A prefix helper using the corrected factor table. */
  function SiApply(p: Prefix, x: real): real
  {
    if IsMultiple(p) then SiFactor(p) * x else x / SiFactor(p)
  }

  lemma TenToPositive(e: int)
    ensures TenTo(e) > 0.0
    decreases if e < 0 then -e else e
  {
    if e > 0 {
      TenToPositive(e - 1);
    } else if e < 0 {
      TenToPositive(e + 1);
    }
  }

  /** Ten to a negative power is the reciprocal of ten to the positive power. */
  lemma {:induction false} TenToNegative(e: nat)
    ensures TenTo(-(e as int)) * TenTo(e) == 1.0
  {
    if e > 0 {
      TenToNegative(e - 1);
      TenToPositive(e - 1);
      TenToPositive(-(e as int) + 1);
      calc {
        TenTo(-(e as int)) * TenTo(e);
        (TenTo(-(e as int) + 1) / 10.0) * (10.0 * TenTo(e - 1));
        TenTo(-((e - 1) as int)) * TenTo(e - 1);
      }
    }
  }

  /** The corrected helpers scale by exactly ten to the prefix's SI exponent. */
  lemma SiApplyIsPowerOfTen(p: Prefix, x: real)
    ensures SiApply(p, x) == TenTo(SiExponent(p)) * x
  {
    var e := SiExponent(p);
    var abs: nat := if e < 0 then -e else e;
    SiFactorIsTenTo(p);
    TenToNegative(abs);
    TenToPositive(abs);
  }

  /** The corrected factor of each prefix is ten to the absolute value of its SI exponent. */
  lemma SiFactorIsTenTo(p: Prefix)
    ensures SiFactor(p) == TenTo(if SiExponent(p) < 0 then -SiExponent(p) else SiExponent(p))
    ensures IsMultiple(p) <==> SiExponent(p) > 0
  {
    assert TenTo(1) == 10.0;
    assert TenTo(2) == 100.0;
    assert TenTo(3) == 1e3;
    assert TenTo(6) == 1e6;
    assert TenTo(9) == 1e9;
    assert TenTo(12) == 1e12;
    assert TenTo(15) == 1e15;
    assert TenTo(18) == 1e18;
    assert TenTo(21) == 1e21;
    assert TenTo(24) == 1e24;
  }

  /** As written, giga and nano are a hundred times too weak: `G_(1.0)` is 1e7 where
      SI gives 1e9, and `n_(1.0)` is 1e-7 where SI gives 1e-9. Every other helper agrees
      with SI. */
  lemma GigaAndNanoAsWritten(p: Prefix, x: real)
    ensures Apply(Giga, 1.0) == 1e7 != SiApply(Giga, 1.0)
    ensures Apply(Nano, 1.0) == 1e-7 != SiApply(Nano, 1.0)
    ensures Apply(Giga, x) * 100.0 == SiApply(Giga, x)
    ensures !p.Giga? && !p.Nano? ==> Apply(p, x) == SiApply(p, x)
  {
  }
}
