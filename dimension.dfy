/**
 * Dimension vectors: the seven integer exponents that `Units<a, b, c, d, e, f, g>`
 * carries as template arguments, and the table of named dimension aliases.
 */
module Dimension {

  /** Exponents, in template-argument order: index 0 mass, 1 length, 2 time,
      3 electric current, 4 thermodynamic temperature, 5 luminous intensity,
      6 amount of substance. */
  type Dim = v: seq<int> | |v| == 7 witness [0, 0, 0, 0, 0, 0, 0]

  /** The dimensionless vector. */
  const Zero: Dim := [0, 0, 0, 0, 0, 0, 0]

  /** Exponents of a product: the result type of `Units * Units`. */
  function Add(a: Dim, b: Dim): (r: Dim)
    ensures forall k :: 0 <= k < 7 ==> r[k] == a[k] + b[k]
  {
    [a[0] + b[0], a[1] + b[1], a[2] + b[2], a[3] + b[3], a[4] + b[4], a[5] + b[5], a[6] + b[6]]
  }

  /** Exponents of a quotient: the result type of `Units / Units`. */
  function Sub(a: Dim, b: Dim): (r: Dim)
    ensures forall k :: 0 <= k < 7 ==> r[k] == a[k] - b[k]
  {
    [a[0] - b[0], a[1] - b[1], a[2] - b[2], a[3] - b[3], a[4] - b[4], a[5] - b[5], a[6] - b[6]]
  }

  /** Exponents of a reciprocal: the result type of `scalar / Units`. */
  function Neg(a: Dim): (r: Dim)
    ensures forall k :: 0 <= k < 7 ==> r[k] == -a[k]
  {
    [-a[0], -a[1], -a[2], -a[3], -a[4], -a[5], -a[6]]
  }

  /** Two vectors are the same type exactly when all seven exponents agree. */
  lemma SameTypeIffSameExponents(a: Dim, b: Dim)
    ensures a == b <==> forall k :: 0 <= k < 7 ==> a[k] == b[k]
  {
    if forall k :: 0 <= k < 7 ==> a[k] == b[k] {
      assert a == b;
    }
  }

  // ---------------------------------------------------------------------------
  // The exponent algebra is an abelian group; these are the laws the operators
  // on quantities inherit.

  lemma AddCommutes(a: Dim, b: Dim)
    ensures Add(a, b) == Add(b, a)
  {
  }

  lemma AddAssociates(a: Dim, b: Dim, c: Dim)
    ensures Add(Add(a, b), c) == Add(a, Add(b, c))
  {
  }

  /** Dividing a product by one of its factors gives back the other factor's vector,
      and dividing by the same vector gives the dimensionless one. */
  lemma SubUndoesAdd(a: Dim, b: Dim)
    ensures Sub(Add(a, b), b) == a
    ensures Add(Sub(a, b), b) == a
    ensures Sub(a, a) == Zero
    ensures Add(a, Zero) == a
  {
  }

  /** A reciprocal is a quotient of the dimensionless vector, and negating twice is the identity. */
  lemma NegIsSubFromZero(a: Dim)
    ensures Neg(a) == Sub(Zero, a)
    ensures Add(a, Neg(a)) == Zero
    ensures Neg(Neg(a)) == a
  {
  }

  // ---------------------------------------------------------------------------
  // Base dimensions.

  const Mass: Dim := [1, 0, 0, 0, 0, 0, 0]
  const Inertia: Dim := [1, 0, 0, 0, 0, 0, 0]
  const Length: Dim := [0, 1, 0, 0, 0, 0, 0]
  const Time: Dim := [0, 0, 1, 0, 0, 0, 0]
  const ElectricCurrent: Dim := [0, 0, 0, 1, 0, 0, 0]
  const ThermodynamicTemperature: Dim := [0, 0, 0, 0, 1, 0, 0]
  const LuminousIntensity: Dim := [0, 0, 0, 0, 0, 1, 0]
  const AmountOfSubstance: Dim := [0, 0, 0, 0, 0, 0, 1]

  /** The base vector with exponent 1 at position k and 0 elsewhere. */
  function BaseVector(k: nat): (r: Dim)
    requires k < 7
    ensures r[k] == 1
    ensures forall j :: 0 <= j < 7 && j != k ==> r[j] == 0
  {
    Zero[k := 1]
  }

  /** The seven base dimensions are the seven base vectors, in template-argument order. */
  lemma BaseDimensionsAreBaseVectors()
    ensures Mass == BaseVector(0) && Length == BaseVector(1) && Time == BaseVector(2)
    ensures ElectricCurrent == BaseVector(3) && ThermodynamicTemperature == BaseVector(4)
    ensures LuminousIntensity == BaseVector(5) && AmountOfSubstance == BaseVector(6)
  {
  }

  // Derived dimensions (the names are spelled as in the library).

  const Angle: Dim := [0, 0, 0, 0, 0, 0, 0]
  const SolidAngle: Dim := [0, 0, 0, 0, 0, 0, 0]
  const Frequency: Dim := [0, 0, -1, 0, 0, 0, 0]
  const Radioactivity: Dim := [0, 0, -1, 0, 0, 0, 0]
  const Force: Dim := [1, 1, -2, 0, 0, 0, 0]
  const Pressure: Dim := [1, -1, -2, 0, 0, 0, 0]
  const Energy: Dim := [1, 2, -2, 0, 0, 0, 0]
  const Power: Dim := [1, 2, -3, 0, 0, 0, 0]
  const ElectricCharge: Dim := [0, 0, 1, 1, 0, 0, 0]
  const Voltage: Dim := [1, 2, -3, -1, 0, 0, 0]
  const Capacitance: Dim := [-1, -2, 4, 2, 0, 0, 0]
  const ElectricalResistance: Dim := [1, 2, -3, -2, 0, 0, 0]
  const ElectricalConducatance: Dim := [-1, -2, 3, 2, 0, 0, 0]
  const MagneticFlux: Dim := [1, 2, -2, -1, 0, 0, 0]
  const MagneticFluxDensity: Dim := [1, 0, -2, -1, 0, 0, 0]
  const Inductance: Dim := [1, 2, -2, -2, 0, 0, 0]
  const LuminousFlux: Dim := [0, 0, 0, 0, 0, 1, 0]
  const Luminance: Dim := [0, -2, 0, 0, 0, 1, 0]
  const Illuminance: Dim := [0, -2, 0, 0, 0, 1, 0]
  const AbsorvedDose: Dim := [0, 2, -2, 0, 0, 0, 0]
  const EquivalentDose: Dim := [0, 2, -2, 0, 0, 0, 0]
  const CatalyticActivity: Dim := [0, 0, -1, 0, 0, 0, 1]

  // Coherent derived dimensions.

  const Area: Dim := [0, 2, 0, 0, 0, 0, 0]
  const Volume: Dim := [0, 3, 0, 0, 0, 0, 0]
  const Velocity: Dim := [0, 1, -1, 0, 0, 0, 0]
  const Acceleration: Dim := [0, 1, -2, 0, 0, 0, 0]
  const Jerk: Dim := [0, 1, -3, 0, 0, 0, 0]
  const Snap: Dim := [0, 1, -4, 0, 0, 0, 0]
  const Crackle: Dim := [0, 1, -5, 0, 0, 0, 0]
  const Pop: Dim := [0, 1, -6, 0, 0, 0, 0]

  // Rotational dimensions, with the exponents the library gives them.

  const RotationalInertia: Dim := [1, 1, 0, 0, 0, 0, 0]
  const Torque: Dim := [1, 2, -2, 0, 0, 0, 0]
  const RotationalForce: Dim := [1, 2, -2, 0, 0, 0, 0]
  const AngularVelocity: Dim := [0, -1, 0, 0, 0, 0, 0]
  const AngularAcceleration: Dim := [0, -2, 0, 0, 0, 0, 0]
  const AngularJerk: Dim := [0, -3, 0, 0, 0, 0, 0]
  const AngularSnap: Dim := [0, -4, 0, 0, 0, 0, 0]
  const AngularCrackle: Dim := [0, -5, 0, 0, 0, 0, 0]
  const AngularPop: Dim := [0, -6, 0, 0, 0, 0, 0]

  // Names that only the second alias block introduces.

  const WaveNumber: Dim := [0, -1, 0, 0, 0, 0, 0]
  const Density: Dim := [1, -3, 0, 0, 0, 0, 0]
  const SurfaceDensity: Dim := [1, -2, 0, 0, 0, 0, 0]
  const SpecificVolume: Dim := [-1, 3, 0, 0, 0, 0, 0]
  const CurrentDensity: Dim := [0, -2, 0, 1, 0, 0, 0]
  const MagneticFieldStrength: Dim := [0, -1, 0, 1, 0, 0, 0]
  const AmountOfSubstanceConcentration: Dim := [0, -3, 0, 0, 0, 0, 1]

  /** Names declared together in one typedef denote one vector, and the angles are dimensionless. */
  lemma SharedAliases()
    ensures Inertia == Mass
    ensures Angle == SolidAngle == Zero
    ensures Radioactivity == Frequency
    ensures Torque == RotationalForce == Energy
    ensures Illuminance == Luminance
    ensures EquivalentDose == AbsorvedDose
  {
  }

  /** A typedef may be repeated only with the type it already has. The second alias block
      repeats the first one; each vector written there is the one already bound to that name. */
  lemma RepeatedAliasBlockAgrees()
    ensures [0, 0, -1, 0, 0, 0, 0] == Frequency == Radioactivity
    ensures [1, 1, -2, 0, 0, 0, 0] == Force
    ensures [1, -1, -2, 0, 0, 0, 0] == Pressure
    ensures [1, 2, -2, 0, 0, 0, 0] == Energy
    ensures [1, 2, -3, 0, 0, 0, 0] == Power
    ensures [0, 0, 1, 1, 0, 0, 0] == ElectricCharge
    ensures [1, 2, -3, -1, 0, 0, 0] == Voltage
    ensures [-1, -2, 4, 2, 0, 0, 0] == Capacitance
    ensures [1, 2, -3, -2, 0, 0, 0] == ElectricalResistance
    ensures [-1, -2, 3, 2, 0, 0, 0] == ElectricalConducatance
    ensures [1, 2, -2, -1, 0, 0, 0] == MagneticFlux
    ensures [1, 0, -2, -1, 0, 0, 0] == MagneticFluxDensity
    ensures [1, 2, -2, -2, 0, 0, 0] == Inductance
    ensures [0, 0, 0, 0, 0, 1, 0] == LuminousFlux
    ensures [0, -2, 0, 0, 0, 1, 0] == Illuminance == Luminance
    ensures [0, 2, -2, 0, 0, 0, 0] == AbsorvedDose == EquivalentDose
    ensures [0, 0, -1, 0, 0, 0, 1] == CatalyticActivity
    ensures [0, 2, 0, 0, 0, 0, 0] == Area
    ensures [0, 3, 0, 0, 0, 0, 0] == Volume
    ensures [0, 1, -1, 0, 0, 0, 0] == Velocity
    ensures [0, 1, -2, 0, 0, 0, 0] == Acceleration
    ensures [0, 1, -3, 0, 0, 0, 0] == Jerk
    ensures [0, 1, -4, 0, 0, 0, 0] == Snap
    ensures [0, 1, -5, 0, 0, 0, 0] == Crackle
    ensures [0, 1, -6, 0, 0, 0, 0] == Pop
    ensures [1, 1, 0, 0, 0, 0, 0] == RotationalInertia
    ensures [1, 2, -2, 0, 0, 0, 0] == Torque == RotationalForce
  {
  }

  /** The derived aliases are the physical dimensions their names promise, written as
      products and quotients of the base dimensions. */
  lemma DerivedAliasesFromBase()
    ensures Force == Sub(Add(Mass, Length), Add(Time, Time))
    ensures Pressure == Sub(Force, Area) && Area == Add(Length, Length)
    ensures Energy == Add(Force, Length) && Power == Sub(Energy, Time)
    ensures ElectricCharge == Add(ElectricCurrent, Time)
    ensures Voltage == Sub(Power, ElectricCurrent)
    ensures Capacitance == Sub(ElectricCharge, Voltage)
    ensures ElectricalResistance == Sub(Voltage, ElectricCurrent)
    ensures ElectricalConducatance == Neg(ElectricalResistance)
    ensures MagneticFlux == Add(Voltage, Time)
    ensures MagneticFluxDensity == Sub(MagneticFlux, Area)
    ensures Inductance == Sub(MagneticFlux, ElectricCurrent)
    ensures Frequency == Neg(Time)
    ensures CatalyticActivity == Sub(AmountOfSubstance, Time)
  {
  }

  // ---------------------------------------------------------------------------
  // Rotational rates as intended: an angle is dimensionless, so its k-th rate of
  // change per unit time has time exponent -k and nothing else.

  /** Vector of an angle per time to the power k: for k > 0, the angle differentiated
      k times with respect to time. */
  function AngularRate(k: int): (r: Dim)
    ensures r[2] == -k
    ensures forall j :: 0 <= j < 7 && j != 2 ==> r[j] == 0
  {
    [0, 0, -k, 0, 0, 0, 0]
  }

  /** The rate of an angle is an angle, and each further rate divides by a time. */
  lemma AngularRateStep(k: int)
    ensures AngularRate(0) == Angle
    ensures AngularRate(k + 1) == Sub(AngularRate(k), Time)
  {
  }

  /** Moment of inertia, mass times squared distance. */
  const MomentOfInertia: Dim := [1, 2, 0, 0, 0, 0, 0]

  /** As written, the angular family has length exponents in place of time exponents:
      an angular velocity is typed as an inverse length, exactly like a wave number,
      and is not an angle per unit time. The rotational inertia is typed as mass times
      length, not mass times squared length. */
  lemma AngularFamilyAsWritten()
    ensures AngularVelocity == WaveNumber
    ensures AngularVelocity == Sub(Angle, Length) != AngularRate(1)
    ensures AngularAcceleration == Sub(Sub(Angle, Length), Length) != AngularRate(2)
    ensures AngularJerk != AngularRate(3) && AngularSnap != AngularRate(4)
    ensures AngularCrackle != AngularRate(5) && AngularPop != AngularRate(6)
    ensures RotationalInertia == Add(Mass, Length) != MomentOfInertia
  {
    assert AngularVelocity[1] != AngularRate(1)[1];
    assert AngularAcceleration[1] != AngularRate(2)[1];
    assert AngularJerk[1] != AngularRate(3)[1];
    assert AngularSnap[1] != AngularRate(4)[1];
    assert AngularCrackle[1] != AngularRate(5)[1];
    assert AngularPop[1] != AngularRate(6)[1];
    assert RotationalInertia[1] != MomentOfInertia[1];
  }

  /** The intended angular rates mirror the linear family: a linear rate is a length
      times the matching angular rate. */
  lemma AngularRatesMirrorLinearRates()
    ensures AngularRate(1) == Frequency
    ensures Velocity == Add(Length, AngularRate(1))
    ensures Acceleration == Add(Length, AngularRate(2))
    ensures Jerk == Add(Length, AngularRate(3))
    ensures Snap == Add(Length, AngularRate(4))
    ensures Crackle == Add(Length, AngularRate(5))
    ensures Pop == Add(Length, AngularRate(6))
  {
  }

  /** The intended moment of inertia is mass times squared length: it is what a torque
      divided by an angular acceleration leaves. */
  lemma MomentOfInertiaFromTorque()
    ensures MomentOfInertia == Add(Mass, Add(Length, Length))
    ensures Torque == Add(MomentOfInertia, AngularRate(2))
    ensures Sub(Torque, AngularRate(2)) == MomentOfInertia != RotationalInertia
  {
  }
}
