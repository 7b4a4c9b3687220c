/**
 * Physical constants and units accepted for use with the SI (SI Brochure, 9th edition,
 * Tables 1 and 8), each built from the SI units by scaling and the operator algebra.
 * As in the SI catalog, each entry is stated as the quantity it holds and a lemma
 * evaluates the library's initialiser and shows that it compiles against the declared
 * vector and yields that quantity.
 */
module Constants {
  import opened Dimension
  import opened Quantities
  import opened SI

  /** A strictly positive real. */
  type Positive = r: real | r > 0.0 witness 1.0

  /** The ratio of a circle's circumference to its diameter. Only its positivity is
      used; the decimal literal that approximates it is not part of this model. */
  const pi: Positive

  /** The mass of one dalton in kilograms. Only its positivity is used. */
  const DaltonInKilograms: Positive

  /** Vectors written out in the declarations of `h`, `NA` and `Kcd`. */
  const ActionVector: Dim := [1, 2, -1, 0, 0, 0, 0]
  const PerAmountVector: Dim := [0, 0, 0, 0, 0, 0, -1]
  const EfficacyVector: Dim := [-1, -2, 3, 0, 0, 1, 0]

  // Defining constants.
  const h := Q(ActionVector, 6.62607015e-34)
  const HyperfineTransitionFreqOfCs := Q(Frequency, 9192631770.0)
  const c := Q(Velocity, 299792458.0)
  const e := Q(ElectricCharge, 1.602176634e-19)
  const NA := Q(PerAmountVector, 6.02214076e23)
  const Kcd := Q(EfficacyVector, 683.0)

  // Accepted non-SI units.
  const min := Q(Time, 60.0)
  const hour := Q(Time, 3600.0)
  const day := Q(Time, 86400.0)
  const au := Q(Length, 149597870700.0)
  const ha := Q(Area, 1e4)
  const l := Q(Volume, 0.001)
  const t := Q(Mass, 1000.0)
  const Da := Q(Mass, DaltonInKilograms)
  const eV := Q(Energy, 1.602176634e-19)

  lemma PlanckConstantDefinition()
    ensures Declare(ActionVector, Times(ScalarTimes(6.62607015e-34, J), s)) == h
  {
  }

  lemma CaesiumFrequencyDefinition()
    ensures Declare(Frequency, ScalarTimes(9192631770.0, Hz)) == HyperfineTransitionFreqOfCs
  {
  }

  lemma SpeedOfLightDefinition()
    ensures Declare(Velocity, Over(ScalarTimes(299792458.0, m), s)) == c
  {
  }

  lemma ElementaryChargeDefinition()
    ensures Declare(ElectricCharge, ScalarTimes(1.602176634e-19, C)) == e
  {
  }

  lemma AvogadroConstantDefinition()
    ensures Declare(PerAmountVector, Reciprocal(6.02214076e23, mol)) == NA
  {
  }

  lemma LuminousEfficacyDefinition()
    ensures Declare(EfficacyVector, Over(ScalarTimes(683.0, lm), W)) == Kcd
  {
  }

  /** The Avogadro constant has exponent -1 in the amount-of-substance slot and 0 elsewhere. */
  lemma AvogadroVectorIsInverseAmount()
    ensures NA.dims[6] == -1
    ensures forall k :: 0 <= k < 6 ==> NA.dims[k] == 0
    ensures NA.dims == Neg(AmountOfSubstance)
  {
  }

  /** How the defining constants fix the SI units: a charge per caesium period is a
      current, and the Planck constant times a frequency is an energy. */
  lemma DefiningConstantsGiveCurrentAndEnergy()
    ensures Times(e, HyperfineTransitionFreqOfCs).dims == ElectricCurrent
    ensures Times(h, Hz).dims == Energy
  {
  }

  /** Light travels c metres in one second, and one mole holds NA entities. */
  lemma DefiningConstantsGiveMetreAndMole()
    ensures Times(c, s) == ScalarTimes(299792458.0, m)
    ensures Times(NA, mol) == Q(Zero, 6.02214076e23)
  {
  }

  /** A watt of the reference radiation gives 683 lumens. */
  lemma DefiningConstantsGiveLumen()
    ensures Times(Kcd, W) == ScalarTimes(683.0, lm)
  {
  }

  /** The electronvolt is the energy of one elementary charge across one volt. */
  lemma ElectronvoltIsElementaryChargeTimesVolt()
    ensures Times(e, V) == eV
  {
  }

  lemma MinuteDefinition()
    ensures Declare(Time, ScalarTimes(60.0, s)) == min
  {
  }

  lemma HourDefinition()
    ensures Declare(Time, ScalarTimes(60.0, min)) == hour
  {
  }

  lemma DayDefinition()
    ensures Declare(Time, ScalarTimes(24.0, hour)) == day
  {
  }

  /** In seconds: a minute is 60, an hour 3600 and a day 86400. */
  lemma TimeUnitsInSeconds()
    ensures ValueIn(min, s) == 60.0
    ensures ValueIn(hour, s) == 3600.0
    ensures ValueIn(day, s) == 86400.0
    ensures ValueIn(day, min) == 1440.0
  {
  }

  lemma AstronomicalUnitDefinition()
    ensures Declare(Length, ScalarTimes(149597870700.0, m)) == au
  {
  }

  lemma HectareDefinition()
    ensures Declare(Area, ScalarTimes(1e4, m2)) == ha
  {
  }

  lemma LitreDefinition()
    ensures Declare(Volume, Shrink(m3, 1000.0)) == l
  {
  }

  lemma TonneDefinition()
    ensures Declare(Mass, ScalarTimes(1000.0, kg)) == t
  {
  }

  lemma DaltonDefinition()
    ensures Declare(Mass, ScalarTimes(DaltonInKilograms, kg)) == Da
    ensures Da.mag > 0.0
  {
  }

  lemma ElectronvoltDefinition()
    ensures Declare(Energy, ScalarTimes(1.602176634e-19, J)) == eV
  {
  }

  /** Back in SI units: a hectare is 10^4 square metres, a thousand litres make a
      cubic metre, and a tonne is 1000 kilograms. */
  lemma AcceptedUnitsInSiUnits()
    ensures ValueIn(ha, m2) == 1e4
    ensures ScalarTimes(1000.0, l) == m3
    ensures ValueIn(t, kg) == 1000.0
  {
  }
}

/**
 * Plane angles accepted for use with the SI: the degree and its sixtieths, as defined
 * in the nested namespace `constants::angle`. The names `constants::degree`,
 * `constants::minute` and `constants::second` that the header declares are never
 * defined, so they are not modelled.
 */
module Angles {
  import opened Dimension
  import opened Quantities
  import opened SI
  import opened Constants

  const degree := Q(Angle, pi / 180.0)
  const minute := Q(Angle, pi / 10800.0)
  const second := Q(Angle, pi / 648000.0)

  lemma DegreeDefinition()
    ensures Declare(Angle, ScalarTimes(pi / 180.0, rad)) == degree
  {
  }

  lemma MinuteDefinition()
    ensures Declare(Angle, Shrink(degree, 60.0)) == minute
  {
  }

  lemma SecondDefinition()
    ensures Declare(Angle, Shrink(minute, 60.0)) == second
  {
  }

  /** All three are dimensionless and positive, 3600 seconds of arc make a degree, and
      180 degrees make pi radians. */
  lemma AngleUnitsAgree()
    ensures degree.dims == minute.dims == second.dims == Zero
    ensures second.mag > 0.0
    ensures ScalarTimes(3600.0, second) == degree
    ensures ScalarTimes(60.0, second) == minute
    ensures ScalarTimes(180.0, degree) == ScalarTimes(pi, rad)
  {
  }
}

/**
 * The part of the SI namespace defined beside the constants: millimetre, kilometre and
 * the square kilometre. The centimetre and the decimetre that the other areas and
 * volumes of that namespace are built from are declared but never defined, so for
 * those only the vectors are modelled, over any length.
 */
module SiCommonUnits {
  import opened Dimension
  import opened Quantities
  import opened SI
  import opened Constants

  const mm := Q(Length, 0.001)
  const km := Q(Length, 1000.0)
  const km2 := Q(Area, 1e6)

  lemma MillimetreDefinition()
    ensures Declare(Length, Shrink(m, 1000.0)) == mm
  {
  }

  lemma KilometreDefinition()
    ensures Declare(Length, ScalarTimes(1000.0, m)) == km
  {
  }

  lemma SquareKilometreDefinition()
    ensures Declare(Area, Times(km, km)) == km2
  {
  }

  /** A kilometre is a million millimetres, and a square kilometre is a million square
      metres or a hundred hectares. */
  lemma CommonUnitsAgree()
    ensures ValueIn(km, mm) == 1e6
    ensures ValueIn(km2, m2) == 1e6
    ensures ScalarTimes(100.0, ha) == km2
  {
  }

  /** `cm2 = cm * cm` and `dm2 = dm * dm` compile for any length: the square of a length
      is an area, of the squared magnitude. */
  lemma SquareOfLengthIsArea(len: Quantity)
    requires len.dims == Length
    ensures Declare(Area, Times(len, len)) == Q(Area, len.mag * len.mag)
  {
  }

  /** `cm3 = cm * cm * cm` and `dm3 = dm * dm * dm` (with `ml` and `liter` copies of them)
      compile for any length: the cube of a length is a volume, of the cubed magnitude. */
  lemma CubeOfLengthIsVolume(len: Quantity)
    requires len.dims == Length
    ensures Declare(Volume, Times(Times(len, len), len)) == Q(Volume, len.mag * len.mag * len.mag)
  {
  }
}

/**
 * The United States customary length chain, from the inch (25.4 mm) down to the
 * typographic point and up to the mile.
 */
module USCS {
  import opened Dimension
  import opened Quantities
  import opened SI
  import opened SiCommonUnits

  const inch := Q(Length, 0.0254)
  const foot := Q(Length, 0.3048)
  const yard := Q(Length, 0.9144)
  const mile := Q(Length, 1609.344)
  const pica := Q(Length, 0.0254 / 6.0)
  const point := Q(Length, 0.0254 / 72.0)

  lemma InchDefinition()
    ensures Declare(Length, ScalarTimes(25.4, mm)) == inch
  {
  }

  lemma FootDefinition()
    ensures Declare(Length, ScalarTimes(12.0, inch)) == foot
  {
  }

  lemma YardDefinition()
    ensures Declare(Length, ScalarTimes(3.0, foot)) == yard
  {
  }

  lemma MileDefinition()
    ensures Declare(Length, ScalarTimes(1760.0, yard)) == mile
  {
  }

  lemma PicaDefinition()
    ensures Declare(Length, Shrink(inch, 6.0)) == pica
  {
  }

  lemma PointDefinition()
    ensures Declare(Length, Shrink(pica, 12.0)) == point
  {
  }

  /** The chain in its own terms and in metres: an inch is 0.0254 m, a mile is
      5280 feet or 1609.344 m, and 72 points make an inch. */
  lemma LengthChainAgrees()
    ensures ValueIn(inch, m) == 0.0254
    ensures ValueIn(foot, inch) == 12.0
    ensures ValueIn(mile, foot) == 5280.0
    ensures ValueIn(mile, m) == 1609.344
    ensures Scale(point, 72.0) == inch
  {
  }
}
