# libPhysics dimension algebra in Dafny

libPhysics tags each `double` magnitude with seven integer exponents: mass,
length, time, electric current, thermodynamic temperature, luminous intensity
and amount of substance. The exponents are the template arguments of
`Units<a, b, c, d, e, f, g>`. Multiplying two quantities adds their exponents.
Dividing subtracts them. `scalar / q` negates them. Scaling by a number keeps
them. Addition, subtraction and conversion (`value`) are only defined between
identical vectors, so a dimensional mistake is a compile error.

Twenty decimal prefix helpers (`Y_` … `y_`) scale numbers and quantities. A
table of typedefs names the common vectors (Force, Pressure, …). Two catalogs
are built on top:

- the SI base and derived units (`kg` … `kat`);
- the defining constants, the accepted non-SI units, a few common SI lengths
  and the US customary length chain.

The model has these modules:

- `Dimension`: the exponent vector `Dim`, a sequence of seven integers, and the
  alias table.
- `Quantities`: a magnitude (an exact `real`) paired with a vector, and the
  operators. A type error in C++ becomes a violated precondition here, e.g.
  `requires a.dims == b.dims` for `+`. The class `Units` holds one mutable
  magnitude and models the four compound assignments.
- `Prefixes`: the prefix helpers, with the factors the library uses.
- `Expressions`: catalog right-hand sides as syntax trees.
  - `TypeOf` is the vector the compiler infers, or `None` when a `+` or `-`
    mixes vectors.
  - `Eval` is the run-time value. Its contract is that the value always
    carries the inferred vector. A lemma shows that a well-typed expression
    fails to evaluate exactly when one of its divisions has a zero divisor.
- `SI`, `Constants`, `Angles`, `SiCommonUnits`, `USCS`: the catalogs.
  - Each entry is the quantity it holds.
  - A `…Definition` lemma evaluates the library's initialiser through the
    operators. It shows that the declaration compiles, because
    `Declare(declared, value)` requires equal vectors, and that the result is
    that quantity.

## Model

| member | source | states |
|---|---|---|
| `Dimension.Add` | include/physics/units.hpp:173-178 | Each exponent of a product's vector is the sum of the operands' exponents at that position. |
| `Dimension.Sub` | include/physics/units.hpp:180-185 | Each exponent of a quotient's vector is the dividend's exponent minus the divisor's. |
| `Dimension.Neg` | include/physics/units.hpp:196-200 | Each exponent of a reciprocal's vector is the negated exponent. |
| `Dimension.SameTypeIffSameExponents` | include/physics/units.hpp:117-134 | Two vectors are the same `Units` type exactly when all seven exponents agree, in both directions. |
| `Dimension.AddCommutes` | include/physics/units.hpp:173-178 | The product's vector does not depend on operand order. |
| `Dimension.AddAssociates` | include/physics/units.hpp:173-178 | The vector of a chained product does not depend on grouping. |
| `Dimension.SubUndoesAdd` | include/physics/units.hpp:173-185 | Dividing by a factor restores the other factor's vector. Multiplying a quotient back restores the dividend's. A vector over itself is dimensionless. |
| `Dimension.NegIsSubFromZero` | include/physics/units.hpp:196-200 | The reciprocal's vector is the dimensionless vector minus the operand's. It cancels the operand, and negating twice gives the operand back. |
| `Dimension.BaseVector` | include/physics/units.hpp:204-210 | The base vector for a slot has exponent 1 there and 0 in the six other slots. |
| `Dimension.BaseDimensionsAreBaseVectors` | include/physics/units.hpp:204-210 | Mass, Length, Time, ElectricCurrent, ThermodynamicTemperature, LuminousIntensity and AmountOfSubstance are the base vectors of slots 0 to 6. |
| `Dimension.SharedAliases` | include/physics/units.hpp:204-252 | Names declared in one typedef are one vector: Inertia = Mass, Radioactivity = Frequency, Torque = RotationalForce (one typedef, whose vector is also Energy's), Illuminance = Luminance, EquivalentDose = AbsorvedDose. Angle and SolidAngle are the zero vector. |
| `Dimension.RepeatedAliasBlockAgrees` | include/physics/units.hpp:264-310 | Every vector written in the repeated typedef block is the vector that name already has, so the redeclarations are legal. |
| `Dimension.DerivedAliasesFromBase` | include/physics/units.hpp:213-232 | Each derived alias is the product or quotient of base aliases its physics promises, e.g. Force = Mass·Length/Time², Capacitance = Charge/Voltage, Conductance = −Resistance. |
| `Dimension.AngularRate` | include/physics/units.hpp:254-259 | The intended vector of the k-th rate of an angle: time exponent −k and every other exponent 0. |
| `Dimension.AngularRateStep` | include/physics/units.hpp:254-259 | The 0-th rate is the Angle vector, and each further rate divides by Time. |
| `Dimension.AngularFamilyAsWritten` | include/physics/units.hpp:251-259 | As written, AngularVelocity equals WaveNumber. Each of the six angular rates differs from the angle-per-time vector. RotationalInertia is mass·length, not mass·length². |
| `Dimension.AngularRatesMirrorLinearRates` | include/physics/units.hpp:240-259 | With the intended vectors, each linear rate (Velocity … Pop) is Length times the matching angular rate. |
| `Dimension.MomentOfInertiaFromTorque` | include/physics/units.hpp:251-252 | The intended moment of inertia is mass·length². It is Torque divided by the second angular rate, and it differs from the library's RotationalInertia. |
| `Quantities.ValueIn` | include/physics/units.hpp:141 | `q.value(u)` multiplied back by `u`'s magnitude gives `q`'s magnitude. It requires the same vector and a nonzero unit. |
| `Quantities.Plus` | include/physics/units.hpp:143 | Requires equal vectors and keeps that vector. Subtracting `b`'s magnitude from the result gives `a`'s. |
| `Quantities.Minus` | include/physics/units.hpp:144 | Requires equal vectors and keeps that vector. Adding `b`'s magnitude to the result gives `a`'s. |
| `Quantities.Scale` | include/physics/units.hpp:146 | Keeps the vector. Dividing the magnitude by a nonzero factor gives the original; a zero factor gives zero. |
| `Quantities.Shrink` | include/physics/units.hpp:147 | Keeps the vector. Multiplying the result back by the divisor gives the original magnitude. |
| `Quantities.ScalarTimes` | include/physics/units.hpp:191-194 | `k * q` is the same quantity as `q * k`. |
| `Quantities.Times` | include/physics/units.hpp:173-178 | Exponents add position by position, and magnitudes multiply. |
| `Quantities.Over` | include/physics/units.hpp:180-185 | The quotient's vector plus the divisor's is the dividend's, and likewise for magnitudes. Two operands with one vector give the zero vector. |
| `Quantities.Reciprocal` | include/physics/units.hpp:196-200 | `k / q` has the vector that cancels `q`'s, and its magnitude times `q`'s is `k`. |
| `Quantities.Declare` | src/si.cpp:23-43 | A declaration `const D u = e;` compiles only when `e` has vector `D`. It then holds `e`'s magnitude. |
| `Quantities.TimesCommutes` | include/physics/units.hpp:173-178 | Products of quantities do not depend on operand order. |
| `Quantities.OverUndoesTimes` | include/physics/units.hpp:173-185 | Division by a nonzero quantity undoes multiplication by it, in vector and magnitude, and vice versa. |
| `Quantities.OverSelf` | include/physics/units.hpp:180-185 | A nonzero quantity over itself is the dimensionless 1. |
| `Quantities.ReciprocalIsDimensionlessOver` | include/physics/units.hpp:196-200 | `k / q` equals the dimensionless `k` divided by `q`, and `(1 / q) * q` is the dimensionless 1. |
| `Quantities.DimensionlessActsAsScalar` | include/physics/units.hpp:146-194 | Multiplying or dividing by a dimensionless quantity agrees with scaling by its magnitude. |
| `Quantities.PlusMinusCancel` | include/physics/units.hpp:143-144 | `(a + b) - b == a`, and `+` commutes. |
| `Quantities.ValueOfScaledUnit` | include/physics/units.hpp:141-194 | `(k * u).value(u) == k` and `(u * k).value(u) == k`. |
| `Quantities.Units.Value` | include/physics/units.hpp:141 | `value(u)` on a variable requires the same vector and a nonzero unit, changes nothing, and returns `ValueIn` of the current quantity: the result times `u`'s magnitude is the held magnitude. |
| `Quantities.Units.constructor` | include/physics/units.hpp:138 | A new object holds the given magnitude with its type's vector. |
| `Quantities.Units.PlusAssign` | include/physics/units.hpp:149-153 | `+=` requires the same vector. The object afterwards equals `old + rhs`, and only the magnitude changes. |
| `Quantities.Units.MinusAssign` | include/physics/units.hpp:155-159 | `-=` requires the same vector. The object afterwards equals `old - rhs`. |
| `Quantities.Units.TimesAssign` | include/physics/units.hpp:161-165 | After `*=` the object equals `old * k`. |
| `Quantities.Units.OverAssign` | include/physics/units.hpp:167-171 | After `/=` the object equals `old / k`. |
| `Prefixes.Factor` | include/physics/units.hpp:12-112 | Every helper's factor, as written, is at least 10. |
| `Prefixes.Apply` | include/physics/units.hpp:12-112 | A multiple helper's result divided by its factor is its argument. A sub-multiple helper's result times its factor is its argument. |
| `Prefixes.ApplyTo` | include/physics/units.hpp:12-112 | On a quantity, a helper keeps the vector and scales the magnitude as on a number. |
| `Prefixes.Inverse` | include/physics/units.hpp:12-112 | Each helper is paired with the one of the other direction that uses the same factor. |
| `Prefixes.InverseCancels` | include/physics/units.hpp:12-112 | Paired helpers cancel in both orders (`m_(k_(x)) == x`, `n_(G_(x)) == x`, …), and pairing is an involution. |
| `Prefixes.InverseCancelsOnQuantities` | include/physics/units.hpp:12-112 | The same holds on quantities; kilo then milli on one metre gives one metre. |
| `Prefixes.SiFactorIsTenTo` | include/physics/units.hpp:12-112 | With giga and nano corrected, each factor is ten to the absolute SI exponent. A helper is a multiple exactly when its exponent is positive. |
| `Prefixes.SiApplyIsPowerOfTen` | include/physics/units.hpp:12-112 | With giga and nano corrected, each helper multiplies by exactly ten to its SI exponent. |
| `Prefixes.GigaAndNanoAsWritten` | include/physics/units.hpp:37-87 | As written, `G_(1) == 1e7` and `n_(1) == 1e-7`, a factor of 100 short of SI. Every other helper agrees with SI. |
| `Expressions.TypeOf` | include/physics/units.hpp:143-200 | The vector the compiler infers: equal sides for `+`/`-` (otherwise `None`), added vectors for `*`, subtracted for `/`, negated for `scalar / q`, unchanged for scalings. An expression with no `+` or `-` always compiles. |
| `Expressions.TypeErrorIffMixedSum` | include/physics/units.hpp:143-200 | An expression is rejected exactly when one of its `+` or `-` joins sides that do not compile to one vector; products, quotients and scalings never cause a type error. |
| `Expressions.Eval` | include/physics/units.hpp:143-200 | When an expression type-checks, its run-time value carries exactly the vector the compiler inferred. |
| `Expressions.EvalFailsOnlyOnZeroDivisor` | include/physics/units.hpp:143-200 | A well-typed expression evaluates to a quantity unless one of its divisions (`Units / Units`, `scalar / Units`, `Units / scalar`) meets a zero divisor, and fails exactly in that case. |
| `Expressions.SumTypeChecksIffSameVector` | include/physics/units.hpp:143-144 | `a + b` and `a - b` compile exactly when both sides compile to one vector. |
| `Expressions.ProductsAlwaysTypeCheck` | include/physics/units.hpp:146-200 | Products, quotients, reciprocals and scalings of well-typed operands always compile, with the added, subtracted, negated or unchanged vector. |
| `Expressions.UnitOperandsGiveUnit` | src/si.cpp:20-43 | A well-typed expression built only from magnitude-1 units by products, quotients and reciprocals never divides by zero and evaluates to magnitude 1. |
| `SI.BaseUnitsAreUnitVectors` | src/si.cpp:9-15 | Each base unit has magnitude 1 and the base vector of its own slot. |
| `SI.SquaredSecondIsSecondTimesSecond` | src/si.cpp:20-22 | `s2` is `s * s`, and `rad` and `sr` are the dimensionless 1. |
| `SI.SquareMetreDefinition` | src/si.cpp:23 | `m * m` has the Area vector and gives `m2`. |
| `SI.CubicMetreDefinition` | src/si.cpp:24 | `m2 * m` has the Volume vector and gives `m3`. |
| `SI.HertzDefinition` | src/si.cpp:25 | `1 / s` has the Frequency vector and gives `Hz`. |
| `SI.BecquerelDefinition` | src/si.cpp:26 | `1 / s` has the Radioactivity vector and gives `Bq`. |
| `SI.NewtonDefinition` | src/si.cpp:27 | `kg * m / s2` has the Force vector ⟨1,1,−2,0,0,0,0⟩ and magnitude 1. |
| `SI.PascalDefinition` | src/si.cpp:28 | `N / m2` has the Pressure vector ⟨1,−1,−2,0,0,0,0⟩ and magnitude 1. |
| `SI.JouleDefinition` | src/si.cpp:29 | `N * m` has the Energy vector and gives `J`. |
| `SI.WattDefinition` | src/si.cpp:30 | `J / s` has the Power vector and gives `W`. |
| `SI.CoulombDefinition` | src/si.cpp:31 | `A * s` has the ElectricCharge vector and gives `C`. |
| `SI.VoltDefinition` | src/si.cpp:32 | `W / A` has the Voltage vector and gives `V`. |
| `SI.FaradDefinition` | src/si.cpp:33 | `C / V` has the Capacitance vector ⟨−1,−2,4,2,0,0,0⟩ and gives `F`. |
| `SI.OhmDefinition` | src/si.cpp:34 | `V / A` has the ElectricalResistance vector and gives `Ohm`. |
| `SI.SiemensDefinition` | src/si.cpp:35 | `1 / Ohm` has the ElectricalConducatance vector and gives `S`. |
| `SI.WeberDefinition` | src/si.cpp:36 | `V * s` has the MagneticFlux vector and gives `Wb`. |
| `SI.TeslaDefinition` | src/si.cpp:37 | `Wb / m2` has the MagneticFluxDensity vector and gives `T`. |
| `SI.HenryDefinition` | src/si.cpp:38 | `Wb / A` has the Inductance vector and gives `H`. |
| `SI.LumenDefinition` | src/si.cpp:39 | `cd * sr` has the LuminousFlux vector and gives `lm`. |
| `SI.LuxDefinition` | src/si.cpp:40 | `lm / m2` has the Illuminance vector and gives `lx`. |
| `SI.GrayDefinition` | src/si.cpp:41 | `J / kg` has the AbsorvedDose vector and gives `Gy`. |
| `SI.SievertDefinition` | src/si.cpp:42 | `J / kg` has the EquivalentDose vector and gives `Sv`. |
| `SI.KatalDefinition` | src/si.cpp:43 | `mol / s` has the CatalyticActivity vector and gives `kat`. |
| `SI.SameDefinitionSameUnit` | src/si.cpp:25-42 | `Hz == Bq` and `Gy == Sv` in vector and magnitude. `S` has the negated Resistance vector, and `S * Ohm` is the dimensionless 1. |
| `SI.NewtonAsExpression` | src/si.cpp:27 | As an expression tree, `kg * m / s2` uses only magnitude-1 operands. The compiler infers Force for it, and it evaluates to `N`. |
| `SI.RadianPerSecondIsNotAngularVelocity` | include/physics/units.hpp:254 | `rad / s` has the first angular rate's vector, which is not AngularVelocity's. |
| `Constants.PlanckConstantDefinition` | src/constants.cpp:13-14 | `6.62607015e-34 * J * s` has the declared vector ⟨1,2,−1,0,0,0,0⟩ and gives `h`. |
| `Constants.CaesiumFrequencyDefinition` | src/constants.cpp:15 | `9192631770 * Hz` is a Frequency of magnitude 9192631770. |
| `Constants.SpeedOfLightDefinition` | src/constants.cpp:16 | `299792458 * m / s` is a Velocity of magnitude 299792458. |
| `Constants.ElementaryChargeDefinition` | src/constants.cpp:17 | `1.602176634e-19 * C` is an ElectricCharge of that magnitude. |
| `Constants.AvogadroConstantDefinition` | src/constants.cpp:18-19 | `6.02214076e23 / mol` has the declared vector ⟨0,0,0,0,0,0,−1⟩ and gives `NA`. |
| `Constants.LuminousEfficacyDefinition` | src/constants.cpp:20 | `683 * lm / W` has the declared vector ⟨−1,−2,3,0,0,1,0⟩ and gives `Kcd`. |
| `Constants.AvogadroVectorIsInverseAmount` | src/constants.cpp:18-19 | `NA` has −1 in the amount-of-substance slot and 0 in every other slot. |
| `Constants.DefiningConstantsGiveCurrentAndEnergy` | src/constants.cpp:13-17 | `e * HyperfineTransitionFreqOfCs` has the ElectricCurrent vector, and `h * Hz` has the Energy vector. |
| `Constants.DefiningConstantsGiveMetreAndMole` | src/constants.cpp:16-19 | `c * s` is 299792458 metres, and `NA * mol` is the dimensionless 6.02214076e23. |
| `Constants.DefiningConstantsGiveLumen` | src/constants.cpp:20 | `Kcd * W` is 683 lumens. |
| `Constants.ElectronvoltIsElementaryChargeTimesVolt` | src/constants.cpp:33 | `e * V == eV`. |
| `Constants.MinuteDefinition` | src/constants.cpp:22 | `60 * s` is a Time and gives `min`. |
| `Constants.HourDefinition` | src/constants.cpp:22 | `60 * min` is a Time and gives `hour`. |
| `Constants.DayDefinition` | src/constants.cpp:22 | `24 * hour` is a Time and gives `day`. |
| `Constants.TimeUnitsInSeconds` | src/constants.cpp:22 | In seconds, `min` is 60, `hour` 3600 and `day` 86400. A day is 1440 minutes. |
| `Constants.AstronomicalUnitDefinition` | src/constants.cpp:23 | `149597870700 * m` is a Length and gives `au`. |
| `Constants.HectareDefinition` | src/constants.cpp:29 | `1e4 * m2` is an Area and gives `ha`. |
| `Constants.LitreDefinition` | src/constants.cpp:30 | `m3 / 1000` is a Volume and gives `l`. |
| `Constants.TonneDefinition` | src/constants.cpp:31 | `1000 * kg` is a Mass and gives `t`. |
| `Constants.DaltonDefinition` | src/constants.cpp:31-32 | The dalton's factor times `kg` is a Mass, and it is positive. |
| `Constants.ElectronvoltDefinition` | src/constants.cpp:33 | `1.602176634e-19 * J` is an Energy and gives `eV`. |
| `Constants.AcceptedUnitsInSiUnits` | src/constants.cpp:29-31 | `ha` is 1e4 m², a thousand `l` make `m3`, and `t` is 1000 kg. |
| `Angles.DegreeDefinition` | src/constants.cpp:26 | `pi / 180 * rad` is an Angle and gives `degree`. |
| `Angles.MinuteDefinition` | src/constants.cpp:26 | `degree / 60` is an Angle and gives `minute`. |
| `Angles.SecondDefinition` | src/constants.cpp:27 | `minute / 60` is an Angle and gives `second`. |
| `Angles.AngleUnitsAgree` | src/constants.cpp:26-27 | The three angles are dimensionless and positive. `3600 * second == degree`, `60 * second == minute`, and 180 degrees are pi radians. |
| `SiCommonUnits.MillimetreDefinition` | src/constants.cpp:39 | `m / 1000` is a Length and gives `mm`. |
| `SiCommonUnits.KilometreDefinition` | src/constants.cpp:40 | `1000 * m` is a Length and gives `km`. |
| `SiCommonUnits.SquareKilometreDefinition` | src/constants.cpp:45 | `km * km` is an Area of magnitude 1e6. |
| `SiCommonUnits.CommonUnitsAgree` | src/constants.cpp:39-45 | A kilometre is 1e6 millimetres, and a square kilometre is 1e6 m² or 100 hectares. |
| `SiCommonUnits.SquareOfLengthIsArea` | src/constants.cpp:42-43 | `cm * cm` and `dm * dm` compile for any length and give an Area with the squared magnitude. |
| `SiCommonUnits.CubeOfLengthIsVolume` | src/constants.cpp:47-51 | `cm * cm * cm` and `dm * dm * dm` (and their copies `ml`, `liter`) compile for any length and give a Volume with the cubed magnitude. |
| `USCS.InchDefinition` | src/constants.cpp:57 | `25.4 * si::mm` is a Length and gives `inch`. |
| `USCS.FootDefinition` | src/constants.cpp:58 | `12 * inch` is a Length and gives `foot`. |
| `USCS.YardDefinition` | src/constants.cpp:59 | `3 * foot` is a Length and gives `yard`. |
| `USCS.MileDefinition` | src/constants.cpp:60 | `1760 * yard` is a Length and gives `mile`. |
| `USCS.PicaDefinition` | src/constants.cpp:61 | `inch / 6` is a Length and gives `pica`. |
| `USCS.PointDefinition` | src/constants.cpp:62 | `pica / 12` is a Length and gives `point`. |
| `USCS.LengthChainAgrees` | src/constants.cpp:57-62 | An inch is 0.0254 m and 12 inches make a foot. A mile is 5280 feet or 1609.344 m. `point * 72 == inch`. |

## Left out

- IEEE-754 doubles are not modelled. Magnitudes are exact reals, so there is no rounding, overflow, infinity or NaN. Every division (`value`, `/`, `/=`, `scalar / Units`) requires a nonzero divisor. There the library would produce an infinity or NaN; `Eval` returns `None`.
- Quantities.ValueIn: `value` is declared without `const`, so the library only accepts it on a non-`const` object (`Quantities.Units.Value`); on the `const` catalog entries it does not compile. `ValueIn` does not model that restriction. The lemmas that use it on catalog entries (`Constants.TimeUnitsInSeconds`, `Constants.AcceptedUnitsInSiUnits`, `SiCommonUnits.CommonUnitsAgree`, `USCS.LengthChainAgrees`) state ratios of magnitudes, not `.value` calls that compile.
- The compile-time mechanics are not modelled: the `T7`/`U7` macros, the `explicit` constructor and the non-deduced `value_type` parameters. The exponents are a value, and a type error is a violated precondition.
- Prefix helpers instantiated with an integer type are left out. The model covers numbers and quantities as reals. At an integer type the helpers behave in three different ways:
  - `h_` and `da_` compute `100 * x` and `10 * x` in integer arithmetic, which can overflow.
  - `d_` and `c_` divide by the integer literals 10 and 100, truncating toward zero.
  - The others multiply or divide by a double literal (`1e24 * x`, `x / 1e3`, …) and convert the result back to the integer type, truncating toward zero. When the value is out of that type's range the conversion is undefined behaviour; for `T_` and the larger multiples this happens at `int` for every nonzero `x`.
- The compound assignments return `*this`. That reference is not modelled; the methods change the object and return nothing.
- `raw_value` is the `mag` field of a quantity, and `Units.Get` is the object's current quantity. Neither has a contract of its own.
- The catalog entries are stated as the values they hold. Each `…Definition` lemma proves that the library's initialiser evaluates to that value. Static-initialisation order across files is not modelled; entries are taken in dependency order.
- The value of `pi` and the dalton's factor in kilograms are opaque positive reals (`Constants.pi`, `Constants.DaltonInKilograms`). Their decimal literals are not modelled.
- `week` and `year` are declared but never defined, so they are not modelled.
- `constants::degree`, `constants::minute` and `constants::second` are declared in the constants header but defined only in the nested namespace `constants::angle`. The module `Angles` models the `constants::angle` definitions; the names the header declares stay undefined and are not modelled.
- The survey and nautical US units and the US areas are declared but never defined. The declarations also conflict (`yard` and `mile`, and the survey `link`, `rod`, `chain`, `furlong`, `mile` and `league`, each declared both as a Length and as an Area), so none of them is modelled.
- `cm`, `dm`, `micra`, `hm`, `g` and `tonne` are declared but never defined. So `cm2`, `dm2`, `cm3`, `dm3`, `ml` and `liter` are modelled by their vectors over an arbitrary length (`SiCommonUnits.SquareOfLengthIsArea`, `SiCommonUnits.CubeOfLengthIsVolume`), not by magnitudes.
- The second definitions of `si::m2` and `si::m3` next to the constants are a link-time duplicate of the SI catalog's. They are not modelled.
- `mm2` and `hectare` in the SI namespace are declared but never defined, so they are not modelled.

## Findings

| source | as written | input that shows it | evidently intended | confidence | as-written member | corrected member |
|---|---|---|---|---|---|---|
| include/physics/units.hpp:37-87 | `G_` multiplies by 1e7 and `n_` divides by 1e7 | `G_(1.0)` is 1e7; SI giga is 1e9 | giga 1e9 and nano 1e-9, as every other prefix is its SI power of ten | high (not executed) | `Prefixes.GigaAndNanoAsWritten` | `Prefixes.SiApplyIsPowerOfTen` |
| include/physics/units.hpp:254-259 | AngularVelocity … AngularPop have length exponents −1 … −6 and time exponent 0, so AngularVelocity equals WaveNumber | `rad / s` has vector ⟨0,0,−1,0,0,0,0⟩, which is not AngularVelocity's ⟨0,−1,0,0,0,0,0⟩ | time exponents −1 … −6, mirroring Velocity … Pop | high (not executed) | `Dimension.AngularFamilyAsWritten` | `Dimension.AngularRatesMirrorLinearRates` |
| include/physics/units.hpp:251 | RotationalInertia is ⟨1,1,0,0,0,0,0⟩, mass times length | Torque ⟨1,2,−2,…⟩ over the intended angular acceleration ⟨0,0,−2,…⟩ is ⟨1,2,0,…⟩, not RotationalInertia | mass times squared length, ⟨1,2,0,0,0,0,0⟩ | medium (not executed) | `Dimension.AngularFamilyAsWritten` | `Dimension.MomentOfInertiaFromTorque` |
