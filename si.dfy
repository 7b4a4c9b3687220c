/**
 * The SI base units and the SI derived units with special names (SI Brochure, 9th
 * edition, Tables 2 and 4). Each entry is stated as the quantity it holds; the lemma
 * beside it evaluates the library's initialiser through the operators and shows that
 * the declaration compiles (the computed vector is the declared one) and yields
 * that quantity.
 */
module SI {
  import opened Dimension
  import opened Quantities
  import opened Expressions

  // Base units, constructed from the magnitude 1.
  const kg := Q(Mass, 1.0)
  const m := Q(Length, 1.0)
  const s := Q(Time, 1.0)
  const A := Q(ElectricCurrent, 1.0)
  const K := Q(ThermodynamicTemperature, 1.0)
  const cd := Q(LuminousIntensity, 1.0)
  const mol := Q(AmountOfSubstance, 1.0)

  /** The vector written out in the declaration of `s2`. */
  const SquaredTime: Dim := [0, 0, 2, 0, 0, 0, 0]

  // Derived units constructed directly.
  const s2 := Q(SquaredTime, 1.0)
  const rad := Q(Angle, 1.0)
  const sr := Q(SolidAngle, 1.0)

  // Derived units initialised by the operator algebra.
  const m2 := Q(Area, 1.0)
  const m3 := Q(Volume, 1.0)
  const Hz := Q(Frequency, 1.0)
  const Bq := Q(Radioactivity, 1.0)
  const N := Q(Force, 1.0)
  const Pa := Q(Pressure, 1.0)
  const J := Q(Energy, 1.0)
  const W := Q(Power, 1.0)
  const C := Q(ElectricCharge, 1.0)
  const V := Q(Voltage, 1.0)
  const F := Q(Capacitance, 1.0)
  const Ohm := Q(ElectricalResistance, 1.0)
  const S := Q(ElectricalConducatance, 1.0)
  const Wb := Q(MagneticFlux, 1.0)
  const T := Q(MagneticFluxDensity, 1.0)
  const H := Q(Inductance, 1.0)
  const lm := Q(LuminousFlux, 1.0)
  const lx := Q(Illuminance, 1.0)
  const Gy := Q(AbsorvedDose, 1.0)
  const Sv := Q(EquivalentDose, 1.0)
  const kat := Q(CatalyticActivity, 1.0)

  /** Each base unit has magnitude 1 and the base vector of its own exponent slot. */
  lemma BaseUnitsAreUnitVectors()
    ensures kg == Q(BaseVector(0), 1.0) && m == Q(BaseVector(1), 1.0)
    ensures s == Q(BaseVector(2), 1.0) && A == Q(BaseVector(3), 1.0)
    ensures K == Q(BaseVector(4), 1.0) && cd == Q(BaseVector(5), 1.0)
    ensures mol == Q(BaseVector(6), 1.0)
  {
    BaseDimensionsAreBaseVectors();
  }

  /** `s2` is declared with its vector written out; it is the square of the second. */
  lemma SquaredSecondIsSecondTimesSecond()
    ensures s2 == Times(s, s)
    ensures rad == sr == Q(Zero, 1.0)
  {
  }

  // One lemma per initialiser: `Declare(D, e) == u` states that `const D u = e;`
  // compiles and that u holds the value the expression computes.

  lemma SquareMetreDefinition()
    ensures Declare(Area, Times(m, m)) == m2
  {
  }

  lemma CubicMetreDefinition()
    ensures Declare(Volume, Times(m2, m)) == m3
  {
  }

  lemma HertzDefinition()
    ensures Declare(Frequency, Reciprocal(1.0, s)) == Hz
  {
  }

  lemma BecquerelDefinition()
    ensures Declare(Radioactivity, Reciprocal(1.0, s)) == Bq
  {
  }

  lemma NewtonDefinition()
    ensures Declare(Force, Over(Times(kg, m), s2)) == N
  {
  }

  lemma PascalDefinition()
    ensures Declare(Pressure, Over(N, m2)) == Pa
  {
  }

  lemma JouleDefinition()
    ensures Declare(Energy, Times(N, m)) == J
  {
  }

  lemma WattDefinition()
    ensures Declare(Power, Over(J, s)) == W
  {
  }

  lemma CoulombDefinition()
    ensures Declare(ElectricCharge, Times(A, s)) == C
  {
  }

  lemma VoltDefinition()
    ensures Declare(Voltage, Over(W, A)) == V
  {
  }

  lemma FaradDefinition()
    ensures Declare(Capacitance, Over(C, V)) == F
  {
  }

  lemma OhmDefinition()
    ensures Declare(ElectricalResistance, Over(V, A)) == Ohm
  {
  }

  lemma SiemensDefinition()
    ensures Declare(ElectricalConducatance, Reciprocal(1.0, Ohm)) == S
  {
  }

  lemma WeberDefinition()
    ensures Declare(MagneticFlux, Times(V, s)) == Wb
  {
  }

  lemma TeslaDefinition()
    ensures Declare(MagneticFluxDensity, Over(Wb, m2)) == T
  {
  }

  lemma HenryDefinition()
    ensures Declare(Inductance, Over(Wb, A)) == H
  {
  }

  lemma LumenDefinition()
    ensures Declare(LuminousFlux, Times(cd, sr)) == lm
  {
  }

  lemma LuxDefinition()
    ensures Declare(Illuminance, Over(lm, m2)) == lx
  {
  }

  lemma GrayDefinition()
    ensures Declare(AbsorvedDose, Over(J, kg)) == Gy
  {
  }

  lemma SievertDefinition()
    ensures Declare(EquivalentDose, Over(J, kg)) == Sv
  {
  }

  lemma KatalDefinition()
    ensures Declare(CatalyticActivity, Over(mol, s)) == kat
  {
  }

  /** Units defined by the same expression are the same quantity, and the siemens is the
      reciprocal of the ohm in vector and magnitude. */
  lemma SameDefinitionSameUnit()
    ensures Hz == Bq
    ensures Gy == Sv
    ensures S.dims == Neg(Ohm.dims) && S.mag * Ohm.mag == 1.0
    ensures Times(S, Ohm) == Q(Zero, 1.0)
  {
  }

  /** The vector the compiler infers for `kg * m / s2`. */
  const ForceType: Option<Dim> := Some(Force)

  /** `N = kg * m / s2` as the compiler sees it: built from magnitude-1 units only, it
      is inferred to have the Force vector and evaluates to the newton. */
  lemma NewtonAsExpression()
    ensures UnitOperands(Quot(Prod(Ref(kg), Ref(m)), Ref(s2)))
    ensures TypeOf(Quot(Prod(Ref(kg), Ref(m)), Ref(s2))) == ForceType
    ensures Eval(Quot(Prod(Ref(kg), Ref(m)), Ref(s2))) == Some(N)
  {
  }

  /** An angle per second is typed as the first angular rate, so the library's
      AngularVelocity cannot hold `rad / s`: that declaration would not compile. */
  lemma RadianPerSecondIsNotAngularVelocity()
    ensures Over(rad, s).dims == AngularRate(1)
    ensures Over(rad, s).dims != AngularVelocity
  {
    assert Over(rad, s).dims[1] != AngularVelocity[1];
  }
}
