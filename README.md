# vsop87-go in Dafny

A model of the computational core of the Go ephemeris library `vsop87-go`. The library computes apparent geocentric ecliptic positions of the Sun, the Moon, the eight major planets and Pluto. It also computes the lunar nodes, nutation, the obliquity of the ecliptic, sidereal time and the Moon's daily motion.

The model follows the library's layering:

- `gomath.dfy`: the parts of Go's `math` package and integer operators the code relies on. These are the truncating `math.Mod`, `math.Modf`, `int(x)`, integer `/` and `%`, and `math.Abs`. Sine, cosine, atan2, asin and sqrt are left uncomputed: they are one abstract constant whose only known laws are sin²x + cos²x = 1, the ranges of atan2, asin and sqrt, and sqrt(0) = 0.
- `mathutils.dfy`, `internal_mathutils.dfy`, `coords.dfy`, `units.dfy` and `timeutils.dfy`: polynomial evaluation, range reduction, the sexagesimal split, Cartesian and spherical coordinates, kilometres and AU, and the J2000 time arguments.
- `sums.dfy`: a generic finite sum over a sequence, with its algebra. Every series of the library is stated as such a sum.
- `vsop87.dfy` and `heliocentric.dfy`: the VSOP87 series evaluator and the eight planets that delegate to it. The generated coefficient tables are abstract constants.
- `geocentric.dfy`, `sun.dfy`, `moon.dfy`, `velocity.dfy`, `node.dfy`, `nutation.dfy`, `obliquity.dfy`, `pluto.dfy` and `sidereal.dfy`: the theories of the individual bodies and of the Earth's orientation.
- `adapters.dfy`, `body.dfy`, `ephem.dfy` and `format.dfy`: the public facade and the output formatting.

## Modelling choices

- Go's `float64` is modelled as Dafny's exact `real`. Integer fields and loop counters are `int`/`nat`.
- Every Go loop is a `method` with loop invariants. Each method is proved equal to a specification function, and the properties are proved about that function. Examples:
  - `Vsop87.ComputeSeries`, `Nutation.ComputeNutation` and the `Moon.SumLR`/`SumB` loops;
  - `Pluto.SphericalHelio` and the `MoonVelocity.SumSeries` loop;
  - `MathUtils.Polynome`, `MathUtils.AngNormPi` and `InternalMathUtils.ReduceRad`;
  - `Geocentric.SearchApparent`, the light-time loop, which exits early.
- Straight-line Go code becomes functions.
- Go's `(EclCoord, error)` pairs become a datatype holding the coordinate and an `Option` of a failure. The Go adapters return a bare `EclCoord` although `ApparentGeocentric` returns an error as well and `sun.Apparent` returns three numbers. The model lets every computer return the coordinate with an optional error, so that the light-time error of `internal/heliocentric/geocentric.go:92-97` reaches `Ephem.EclipticPosition`.
- Where Go divides by a distance of zero and yields an infinity or NaN, the model returns an error or `None`:
  - the aberration term `-κ·cos β / r` in `Geocentric.Corrected` and `Sun.Apparent`;
  - Pluto's declination `asin(z / dist)` in `Pluto.GeocentricEQ`.
- Routines in other packages that this code only calls are abstract constants of function type, with nothing assumed of them:
  - the calendar functions `JulianToCivil`, `JulianMidnight` and `ExtractUTC`, and the epoch `J1900`;
  - `sun.Rect2000`, `coco.Transform` and `coco.Astrometric2000ToMean`;
  - the public `earth.Nutation`.

## Where the code and its comments differ (the model follows the code)

- `DiffAngle` (mathutils/mathutils.go:76-94): the comment promises a signed difference in [-180, 180]. The code returns the unsigned length of the shorter arc, in [0, 180] for inputs in [0, 360). `MathUtils.DiffAngle` states the latter.
- `Point3D.ToSpherical` (mathutils/coords.go:10-40): the comment calls Theta the inclination from +Z in [0, π]. The code computes `atan2(z, sqrt(x² + y²))`, the elevation above the XY-plane in [-π/2, π/2]. `Coords.ToSpherical` states the latter.
- `lbr` (internal/sun/sun.go:17): the comment says centuries. The divisor 365250 gives Julian millennia, the VSOP87 time unit. `TimeUtils.MillenniaSinceJ2000` is used.
- The planet methods' comments (internal/heliocentric/earth.go:23-42 and the other planet files) speak of Julian centuries. Their argument is the millennia count of `HelioRect` (internal/heliocentric/geocentric.go:40).

## Model

| member | source | states |
|---|---|---|
| GoMath.Abs | mathutils/mathutils.go:11 | math.Abs is non-negative and equals x or -x |
| GoMath.Trunc | package/utils/format.go:18 | int(x) truncates toward zero: the integer between 0 and x within distance 1 of x |
| GoMath.Mod | mathutils/mathutils.go:54 | math.Mod's remainder is smaller than the divisor in size and has the dividend's sign |
| GoMath.ModMultiple | mathutils/mathutils.go:54 | math.Mod differs from x by the truncated quotient times y |
| GoMath.Modf | mathutils/mathutils.go:114 | math.Modf splits x into integer and fractional parts that add up to x, both with x's sign, the fraction below 1 in size |
| GoMath.Quo | package/utils/format.go:16 | for a positive divisor, Go's integer / rounds toward zero: floor division when a ≥ 0, and the negated quotient of -a when a < 0 |
| GoMath.Rem | package/utils/format.go:17 | Go's integer % satisfies a == (a/b)*b + a%b and agrees with the Euclidean remainder for non-negative operands |
| MathUtils.AlmostEqualLaws | mathutils/mathutils.go:10-12 | AlmostEqual is symmetric and reflexive for a non-negative threshold |
| MathUtils.Frac | mathutils/mathutils.go:14-23 | Frac(x) is x minus its truncated integer part, below 1 in size, with x's sign |
| MathUtils.FracExample | mathutils/mathutils.go:19 | Frac(-5.5) = -0.5, as documented |
| MathUtils.Polynome | mathutils/mathutils.go:31-41 | the loop with a running power of t returns Σ terms[i]·t^i |
| MathUtils.PolyHorner | mathutils/mathutils.go:25-41 | the sum equals Horner's nested form a0 + t·(a1 + t·(...)) |
| MathUtils.PolyAppend | mathutils/mathutils.go:35-38 | one more coefficient adds its monomial at the next power |
| MathUtils.PolyPrefixStep | mathutils/mathutils.go:35-38 | one loop iteration adds terms[k]·t^k and advances the power to t^(k+1) |
| MathUtils.PolyLinear | mathutils/mathutils.go:25-41 | a two-term polynomial is a + b·t |
| MathUtils.PolyQuadratic | mathutils/mathutils.go:25-41 | a three-term polynomial is a + b·t + c·t² |
| MathUtils.PolyAtZero | mathutils/mathutils.go:31-41 | at t = 0 the polynomial is its constant term |
| MathUtils.PolyScale | mathutils/mathutils.go:31-41 | scaling every coefficient by k scales the polynomial by k |
| MathUtils.PolyExample | mathutils/mathutils_test.go:11-17 | Polynome(10, 1, 2, 3) = 321 exactly |
| MathUtils.RadiansDegrees | mathutils/mathutils.go:43-51 | Radians and Degrees are inverse to each other and strictly increasing |
| MathUtils.Radians | mathutils/mathutils.go:44-46 | deg is to 180 as the result is to π |
| MathUtils.Degrees | mathutils/mathutils.go:49-51 | rad is to π as the result is to 180 |
| MathUtils.ToRange | mathutils/mathutils.go:53-59 | for r > 0 the result lies in [0, r) |
| MathUtils.ToRangeShift | mathutils/mathutils.go:53-59 | the result differs from x by a whole number of periods r |
| MathUtils.ToRangeUnique | mathutils/mathutils.go:53-59 | the result is the only value in [0, r) congruent to x modulo r |
| MathUtils.ToRangeIdempotent | mathutils/mathutils.go:53-59 | reducing twice is reducing once |
| MathUtils.ToRangePeriodic | mathutils/mathutils.go:53-59 | adding any integer multiple of r does not change the result |
| MathUtils.TurnPeriodic | mathutils/mathutils.go:71-74 | ReduceRad ignores an added full turn 2π |
| MathUtils.HalfTurnTwice | internal/sun/sun.go:30 | turning by π and reducing, twice, is the same as reducing once |
| MathUtils.ReduceHours | mathutils/mathutils.go:61-64 | hours are reduced into [0, 24) |
| MathUtils.ReduceDeg | mathutils/mathutils.go:66-69 | degrees are reduced into [0, 360) |
| MathUtils.ReduceRad | mathutils/mathutils.go:71-74 | radians are reduced into [0, 2π) |
| MathUtils.ReduceExamples | mathutils/mathutils_test.go:39-73 | the package's test values: 49.5 h → 1.5, -0.5 h → 23.5, 324070.45° → 70.45, -700 h → 20, and ±12.89 rad within 1e-6 |
| MathUtils.DiffAngle | mathutils/mathutils.go:80-94 | for directions in [0, 360) the result is the shorter arc between them, in [0, 180] |
| MathUtils.DiffAngleSymmetric | mathutils/mathutils.go:80-94 | the shorter arc does not depend on which direction comes first |
| MathUtils.NormPi | mathutils/mathutils.go:96-106 | the reference normalisation lies in (-π, π] |
| MathUtils.NormPiUnique | mathutils/mathutils.go:96-106 | the only value in (-π, π] congruent to x modulo 2π is NormPi(x) |
| MathUtils.AngNormPi | mathutils/mathutils.go:97-106 | the step-by-step reduction returns the unique representative of x in (-π, π] |
| MathUtils.HmsNonNegative | mathutils/mathutils.go:113-118 | for x ≥ 0: whole hours ⌊x⌋, minutes in [0, 60), seconds in [0, 60), and h + m/60 + s/3600 = x |
| MathUtils.HmsNegative | mathutils/mathutils.go:119-127 | for x < 0: the three components have the sizes of Hms(-x); at most one is negative, and a negative minute or second has only zeros before it |
| MathUtils.HmsRoundTrip | mathutils/mathutils.go:108-129 | reading the triple back, with the sign on its negative component, gives x for every x |
| MathUtils.HmsExamples | mathutils/mathutils_test.go:75-101 | the package's values: -0.5 → (0, -30, 0) and ±20.7583 h → ±20 h 45 m 30 s within 1e-6 |
| MathUtils.Hms | mathutils/mathutils.go:113-129 | the sizes of hours, minutes/60 and seconds/3600 add up to the size of x; minutes and seconds are below 60 in size; for x ≥ 0 none is negative |
| InternalMathUtils.ReduceRad | internal/mathutils/mathutils.go:43-49 | the in-place remainder lands in [0, 2π) and agrees with the public ReduceRad |
| Coords.ToSpherical | mathutils/coords.go:30-40 | R is the Euclidean length, Phi lies in [0, 2π) and is atan2(y, x) or that plus 2π, Theta is atan2(z, sqrt(x² + y²)) and lies in [-π/2, π/2] |
| Coords.ToSphericalPhiReduced | mathutils/coords.go:34-37 | the conditional +2π is exactly ReduceRad of atan2(y, x) |
| Coords.ToRectangular | mathutils/coords.go:60-66 | x = R·cos Θ·cos Φ and y = R·cos Θ·sin Φ, so (x, y) points along the azimuth Φ with length R·cos Θ; the height is R·sin Θ |
| Coords.RectangularLength | mathutils/coords.go:60-66 | the rectangular point lies at distance R from the origin |
| Coords.RectangularOf | mathutils/coords.go:60-66 | the same, for a position given by its three components |
| Coords.RectangularOrigin | mathutils/coords.go:60-66 | radius 0 gives the origin whatever the angles |
| Units.KmToAU | utils/utils.go:6-8 | the result times KmPerAU is the input distance |
| Units.AuToKm | utils/utils.go:11-13 | the result divided by KmPerAU is the input distance |
| Units.KmAuRoundTrip | utils/utils.go:3-13 | the two conversions undo each other in both orders |
| Units.KmAuMonotone | utils/utils.go:3-13 | both conversions keep 0 and are strictly increasing |
| TimeUtils.CenturiesSinceJ2000 | internal/moon/node.go:17 | t Julian centuries of 36525 days after J2000 |
| TimeUtils.MillenniaSinceJ2000 | internal/heliocentric/geocentric.go:40 | τ Julian millennia of 365250 days after J2000 |
| TimeUtils.MillenniaAreTenCenturies | internal/sun/sun.go:17 | the VSOP87 τ is one tenth of the century count, and both vanish at J2000 |
| Vsop87.OrbitIndex | internal/vsop87/vsop87.go:13-24 | each orbit constant's iota value lies in 0..7 |
| Vsop87.OrbitIndexOrder | internal/vsop87/vsop87.go:15-24 | Mercury is 0, Neptune is 7, and distinct constants have distinct values |
| Vsop87.TermAtValue | internal/vsop87/vsop87.go:26-29 | a term contributes A·cos(B + C·τ) |
| Vsop87.TermBounded | internal/vsop87/vsop87.go:59 | a term never exceeds its amplitude \|A\| in size |
| Vsop87.HarmonicSumBounded | internal/vsop87/vsop87.go:56-61 | a group's harmonic sum is bounded in size by the sum of its amplitudes |
| Vsop87.GroupSums | internal/vsop87/vsop87.go:52-62 | the args slice has one entry per group |
| Vsop87.ComputeSeries | internal/vsop87/vsop87.go:50-66 | the nested loop returns Σ τ^i·(Σ over group i of A·cos(B + C·τ)) / 1e8 |
| Vsop87.HarmonicSumEmpty | internal/vsop87/vsop87.go:56-60 | a group without terms sums to 0 |
| Vsop87.GroupSumsOfEmpty | internal/vsop87/vsop87.go:52-62 | a series of empty groups has all-zero args |
| Vsop87.SeriesEmpty | internal/vsop87/vsop87.go:50-66 | no groups, or only empty groups, give the value 0 |
| Vsop87.SeriesAtZero | internal/vsop87/vsop87.go:50-66 | at τ = 0 only group 0 contributes: Σ A·cos B / 1e8 |
| Vsop87.SeriesAtEpoch | internal/vsop87/vsop87.go:50-66 | at τ = 0 a series is worth its group 0's Σ A·cos B / 1e8, and 0 when it has no groups |
| Vsop87.SeriesPermutation | internal/vsop87/vsop87.go:55-62 | reordering the terms inside any group does not change the value |
| Vsop87.ScaleAmplitudes | internal/vsop87/vsop87.go:26-29 | each group of the scaled series is the original group with every A multiplied by k |
| Vsop87.TermScale | internal/vsop87/vsop87.go:59 | multiplying A by k multiplies the term by k |
| Vsop87.TermsScaled | internal/vsop87/vsop87.go:57-60 | every term of a scaled group is k times the original term |
| Vsop87.HarmonicSumScaled | internal/vsop87/vsop87.go:56-61 | scaling every amplitude of a group scales its harmonic sum by k |
| Vsop87.GroupSumScaled | internal/vsop87/vsop87.go:55-62 | entry i of the scaled series' args is k times entry i of the original's |
| Vsop87.GroupSumsScaled | internal/vsop87/vsop87.go:52-62 | the scaled series' args are the original's multiplied entry by entry by k |
| Vsop87.ArgsPolyScaled | internal/vsop87/vsop87.go:65 | the polynomial over the scaled args is k times the original polynomial |
| Vsop87.SeriesLinear | internal/vsop87/vsop87.go:50-66 | the series value is linear in the amplitudes: scaling every A by k scales the value by k |
| Vsop87.ValueScaled | internal/vsop87/vsop87.go:65 | a polynomial k times another gives k times the value after the 1e-8 scaling |
| Heliocentric.BodyType | internal/heliocentric/earth.go:13-16 | the orbit constant a planet reports is the one that names that planet |
| Heliocentric.BodyTypeBijective | internal/vsop87/vsop87.go:15-24 | BodyType is a bijection: every orbit constant is reported by exactly one planet, and two planets share a constant only if they are the same planet |
| Heliocentric.Name | internal/heliocentric/earth.go:18-21 | each planet's name has at least four letters |
| Heliocentric.NameInjective | internal/heliocentric/mercury.go:19-22 | two planets have the same name exactly when they are the same planet |
| Heliocentric.Longitude | internal/heliocentric/earth.go:26-28 | at J2000 (τ = 0) only group 0 of the planet's L table counts: Σ A·cos B / 1e8 |
| Heliocentric.Latitude | internal/heliocentric/earth.go:33-35 | at J2000 only group 0 of the planet's B table counts |
| Heliocentric.RadiusVector | internal/heliocentric/earth.go:41-43 | at J2000 only group 0 of the planet's R table counts |
| Heliocentric.ComputeLongitude | internal/heliocentric/earth.go:26-28 | the longitude method runs the series evaluator over the planet's L table |
| Heliocentric.ComputeLatitude | internal/heliocentric/earth.go:33-35 | the latitude method runs the series evaluator over the planet's B table |
| Heliocentric.ComputeRadiusVector | internal/heliocentric/earth.go:41-43 | the radius method runs the series evaluator over the planet's R table |
| Heliocentric.EarthDelegates | internal/heliocentric/earth.go:13-43 | Earth's constant, name and L, B, R series |
| Heliocentric.MercuryDelegates | internal/heliocentric/mercury.go:14-40 | Mercury's constant, name and L, B, R series |
| Heliocentric.VenusDelegates | internal/heliocentric/venus.go:15-40 | Venus's constant, name and L, B, R series |
| Heliocentric.MarsDelegates | internal/heliocentric/mars.go:15-40 | Mars's constant, name and L, B, R series |
| Heliocentric.JupiterDelegates | internal/heliocentric/jupiter.go:15-40 | Jupiter's constant, name and L, B, R series |
| Heliocentric.SaturnDelegates | internal/heliocentric/saturn.go:15-40 | Saturn's constant, name and L, B, R series |
| Heliocentric.UranusDelegates | internal/heliocentric/uranus.go:15-40 | Uranus's constant, name and L, B, R series |
| Heliocentric.NeptuneDelegates | internal/heliocentric/neptune.go:15-40 | Neptune's constant, name and L, B, R series |
| Geocentric.AberrationEcl | internal/heliocentric/geocentric.go:26-30 | the correction times r is -κ·cos β, so its size is at most κ/\|r\| |
| Geocentric.HelioRect | internal/heliocentric/geocentric.go:39-47 | the heliocentric vector has length R(τ), height R(τ)·sin B(τ), and x, y = R·cos B·(cos L, sin L) with L the longitude reduced to [0, 2π), τ in millennia |
| Geocentric.Displacement | internal/heliocentric/geocentric.go:57-61 | the Earth-to-body vector added to the Earth's position gives the body's, component by component, and it is zero exactly when the two positions coincide |
| Geocentric.GeocentricFrom | internal/heliocentric/geocentric.go:51-65 | longitude in [0, 2π); latitude atan2(z, √(x² + y²)) of the Earth-to-body vector, in [-π/2, π/2]; distance the length of that vector |
| Geocentric.GeocentricLongitude | internal/heliocentric/geocentric.go:63-64 | the final reduction of the longitude is the azimuth of the Earth-to-body vector in [0, 2π) |
| Geocentric.GeocentricEarth | internal/heliocentric/geocentric.go:51-65 | seen from the Earth, the Earth is at distance 0 |
| Geocentric.SearchApparent | internal/heliocentric/geocentric.go:70-98 | the loop returns the first of at most 10 attempts whose longitude moved by less than 1e-8 rad, or the last attempt with a NoConvergence error whose residual is 0, because prevLambda already holds the last longitude |
| Geocentric.SearchSkip | internal/heliocentric/geocentric.go:80-90 | attempts that did not converge are passed over |
| Geocentric.SearchSucceeds | internal/heliocentric/geocentric.go:80-84 | when attempt k is the first to converge, its position comes back without error |
| Geocentric.SearchFails | internal/heliocentric/geocentric.go:92-97 | when no attempt converges, the tenth attempt's position comes back with an error naming the body and the count 10 |
| Geocentric.SearchErrorMeansNoConvergence | internal/heliocentric/geocentric.go:70-98 | an error is reported only if every remaining attempt failed to converge, and then with the last attempt's position |
| Geocentric.SearchFirstSmall | internal/heliocentric/geocentric.go:77-83 | since prevLambda starts at 0, a first longitude below the tolerance is accepted at once |
| Geocentric.RetryFromOriginal | internal/heliocentric/geocentric.go:87-89 | every retry goes back from the original jd, not the previous retry time, by the previous attempt's light time |
| Geocentric.Corrected | internal/heliocentric/geocentric.go:116-125 | a search error is passed on unchanged; otherwise the longitude gains aberration and Δψ and is reduced into [0, 2π), with latitude and distance kept; zero distance is an error |
| Geocentric.ApparentGeocentric | internal/heliocentric/geocentric.go:116-125 | an error exactly when the search fails or the distance is 0, and then a NoConvergence or ZeroDistance error; otherwise longitude in [0, 2π), latitude in [-π/2, π/2] and a positive distance |
| Geocentric.SearchInRange | internal/heliocentric/geocentric.go:70-98 | whichever attempt the search stops at has latitude in [-π/2, π/2] and a non-negative distance |
| Geocentric.CorrectedNutationPeriodic | internal/heliocentric/geocentric.go:123 | adding a full turn to Δψ does not change the corrected position |
| Geocentric.ApparentNutationPeriodic | internal/heliocentric/geocentric.go:116-125 | adding a full turn to Δψ does not change the apparent position |
| Geocentric.SearchResidualZero | internal/heliocentric/geocentric.go:85-96 | as written, every failed search reports a residual of 0 arc-seconds |
| Geocentric.ReportedResidual | internal/heliocentric/geocentric.go:92-97 | when the search fails, the intended residual, the last attempt's change in longitude, is at least the tolerance in arc-seconds in size, so it differs from the 0 that is reported |
| Sun.Lbr | internal/sun/sun.go:16-22 | the Earth's L, B and R series at τ in Julian millennia |
| Sun.Geometric | internal/sun/sun.go:27-33 | the longitude lies in [0, 2π), the latitude is the Earth's negated, the distance is the Earth's |
| Sun.GeometricReflection | internal/sun/sun.go:27-33 | turning the Sun's longitude by π again gives the Earth's heliocentric longitude modulo 2π |
| Sun.Apparent | internal/sun/sun.go:38-42 | the geometric longitude plus aberration and Δψ, reduced into [0, 2π), with latitude and distance kept; no value exactly when the distance is 0 |
| Sun.ApparentNutationPeriodic | internal/sun/sun.go:40 | shifting Δψ by 2π leaves the apparent position unchanged |
| Obliquity.TenMillennia | internal/earth/obliquity.go:38-40 | u is the century count divided by 100 |
| Obliquity.Obliquity | internal/earth/obliquity.go:36-46 | less Δε and converted back to degrees, the result is the Table 22.A polynomial in u, counted in arc-seconds, over 3600 |
| Obliquity.ObliquityDeltaEps | internal/earth/obliquity.go:45 | the nutation in obliquity is added unchanged |
| Obliquity.ObliquityAtJ2000 | internal/earth/obliquity.go:8-46 | at J2000 the mean obliquity is the constant 23.43929111111111° |
| Obliquity.ObliquityExample | earth/obliquirty_test.go:12-19 | at JD 2446895.5 the mean obliquity is 23.44094638888889° within 1e-6, proved over reals |
| LunarNode.Assemble | internal/moon/node.go:10-12 | the result lies in [0, 2π) and is, in degrees, the polynomial reduced into [0, 360) |
| LunarNode.MeanNodeDeg | internal/moon/node.go:17-19 | the mean node in degrees lies in [0, 360) |
| LunarNode.Node | internal/moon/node.go:16-30 | the node lies in [0, 2π); the mean node is the reduced polynomial; the true node is the mean node plus the five corrections, reduced |
| LunarNode.TrueNodeWholeTurns | internal/moon/node.go:23-28 | the true node differs from the mean node by the corrections, up to whole turns |
| LunarNode.MeanNodeExample | internal/moon/node_test.go:21-29 | at JD 2438792.990277 the mean node is 80.31173473979322° within 1e-6 |
| Nutation.TermsSize | internal/earth/nutation.go:30-341 | the table has 62 terms |
| Nutation.ArgumentsAtEpoch | internal/earth/nutation.go:350-354 | at t = 0 the fundamental arguments are their constant terms |
| Nutation.PsiCoeff | internal/earth/nutation.go:366 | the Δψ coefficient in arc-seconds is (Base + PertT·t) / 10000 |
| Nutation.EpsCoeff | internal/earth/nutation.go:367 | the Δε coefficient in arc-seconds is (Base + PertT·t) / 10000 |
| Nutation.CoefficientsAtEpoch | internal/earth/nutation.go:366-367 | at J2000 only the Base part remains |
| Nutation.TermAtValues | internal/earth/nutation.go:359-370 | each term adds coefficient·sin φ to Δψ and coefficient·cos φ to Δε |
| Nutation.NutationOrderIndependent | internal/earth/nutation.go:357-371 | any reordering of the table gives the same (Δψ, Δε) |
| Nutation.NutationSplit | internal/earth/nutation.go:357-371 | a table split in two contributes the sum of its parts to Δψ and to Δε |
| Nutation.ComputeNutation | internal/earth/nutation.go:345-377 | the loop returns the two sums over the 62-term table, converted to radians |
| Nutation.NutationOverSums | internal/earth/nutation.go:374-376 | the result is the two sums in arc-seconds times π/648000 |
| Nutation.SumTerms | internal/earth/nutation.go:357-371 | the accumulators end as the sums over the whole table |
| Nutation.PsiStep | internal/earth/nutation.go:369 | one iteration extends the Δψ sum by the next term |
| Nutation.EpsStep | internal/earth/nutation.go:370 | one iteration extends the Δε sum by the next term |
| Moon.TableSizes | internal/moon/moon.go:45-174 | 60 longitude-and-distance terms, 60 latitude terms, 3 additive terms |
| Moon.ArgSumWholeTurns | internal/moon/moon.go:178-183 | changing a mean argument by whole turns changes the phase by whole turns |
| Moon.GetCoeff | internal/moon/moon.go:186-195 | the coefficient as is for multiplier 0, times E for ±1, times E² otherwise |
| Moon.GetCoeffLaws | internal/moon/moon.go:186-195 | the factor depends only on the multiplier's size, and E = 1 leaves the coefficient unchanged |
| Moon.EFactor | internal/moon/moon.go:211 | E = 1 - 0.002516·t - 0.0000074·t² |
| Moon.EAtEpoch | internal/moon/moon.go:211 | at J2000 E = 1 and every coefficient is used as it stands |
| Moon.MeanLongitude | internal/moon/moon.go:204 | the mean longitude lies in [0, 360) |
| Moon.MeanArgsAt | internal/moon/moon.go:205-208 | D, M☉, M and F lie in [0, 360) |
| Moon.MeanArgsAtEpoch | internal/moon/moon.go:29-44 | at t = 0 the mean arguments are the constant terms of their polynomials |
| Moon.TermValues | internal/moon/moon.go:219-230 | each term adds getCoeff·sin to Σl, getCoeff·cos to Σr and getCoeff·sin to Σb |
| Moon.AdditiveArg | internal/moon/moon.go:243 | each additive argument is A + B·t reduced to [0, 360) and converted to radians |
| Moon.AdditiveArgsAt | internal/moon/moon.go:240-244 | three arguments, one per additive term |
| Moon.ApparentFrom | internal/moon/moon.go:199-257 | the longitude lies in [0, 2π) and the distance in km is 385000.56 + Σr/1000 |
| Moon.Apparent | internal/moon/moon.go:199-257 | from tables 47.A and 47.B: longitude in [0, 2π), distance 385000.56 km + Σr/1000, and Δψ changes neither latitude nor distance |
| Moon.ApparentNutation | internal/moon/moon.go:253 | Δψ changes only the longitude, and a full turn of Δψ changes nothing |
| Moon.ApparentOrderIndependent | internal/moon/moon.go:216-231 | reordering either periodic table gives the same position |
| Moon.LonStep | internal/moon/moon.go:221 | one iteration extends Σl by the next term |
| Moon.DistStep | internal/moon/moon.go:222 | one iteration extends Σr by the next term |
| Moon.BStep | internal/moon/moon.go:230 | one iteration extends Σb by the next term |
| Moon.SumLR | internal/moon/moon.go:217-223 | the loop returns Σl and Σr over the whole table |
| Moon.SumB | internal/moon/moon.go:226-231 | the loop returns Σb over the whole table |
| Moon.AdditiveArgs | internal/moon/moon.go:240-244 | the freshly allocated array holds the three additive arguments |
| Moon.MeanArguments | internal/moon/moon.go:201-214 | the mean longitude, the four mean arguments and E at t |
| Moon.ComputeApparent | internal/moon/moon.go:199-257 | the imperative computation gives the specified apparent position |
| Moon.SumsAssembled | internal/moon/moon.go:247-248 | the periodic sums plus the additive terms are the specified Σl, Σr and Σb |
| Moon.ApparentAssembled | internal/moon/moon.go:252-256 | the final assembly: longitude L + Σl/1e6 in radians plus Δψ reduced, latitude Σb/1e6 in radians, distance (385000.56 + Σr/1000) km in AU |
| MoonVelocity.ArgsAt | internal/moon/velocity.go:19-27 | D, M, M' and F are in [0, 2π) after reduction and conversion |
| MoonVelocity.PhaseOfCosM | internal/moon/velocity.go:88-90 | the cos M term's phase is M |
| MoonVelocity.SumCosMDifference | internal/moon/velocity.go:87-95 | two cos M coefficients change the sum by their difference times cos M, once per cos M entry |
| MoonVelocity.CosMContribution | internal/moon/velocity.go:90-91 | the cos M entry's contribution changes by the coefficient difference times cos M |
| MoonVelocity.OtherContribution | internal/moon/velocity.go:92-93 | every other entry's contribution does not depend on the cos M coefficient |
| MoonVelocity.OneCosMTerm | internal/moon/velocity.go:59 | exactly one entry, the eighteenth, is the cos M term, in both tables |
| MoonVelocity.RelativeToSunOver | internal/moon/velocity.go:29-95 | for any table with one cos M entry, the relative-to-Sun speed differs from the plain one by the base difference plus the coefficient difference times cos M |
| MoonVelocity.RelativeToSunDifference | internal/moon/velocity.go:17-97 | AngularSpeed(jd, true) - AngularSpeed(jd, false) = (12.190749 - 13.176397) + (-0.036211 + 0.003193)·cos M, for the table as written and for the corrected one |
| MoonVelocity.SeriesCorrected | internal/moon/velocity.go:61 | in the corrected table the twentieth entry has the argument 2D - M + M' of its label, and each of 2D - M + M' and 2D + M - M' occurs once |
| MoonVelocity.SeriesAsWrittenRepeats | internal/moon/velocity.go:61-65 | as written, the twentieth and twenty-fourth entries share 2D + M - M', and 2D - M + M' is missing |
| MoonVelocity.AsWrittenDifference | internal/moon/velocity.go:61 | the as-written speed differs from the corrected one by 0.002577·(cos(2D + M - M') - cos(2D - M + M')) |
| MoonVelocity.AngularSpeed | internal/moon/velocity.go:17-97 | the speed from the table as written is the corrected speed plus 0.002577·(cos(2D + M - M') - cos(2D - M + M')) |
| MoonVelocity.SumSeries | internal/moon/velocity.go:81-95 | the loop returns the base plus every entry's contribution, with the cos M coefficient patched |
| MoonVelocity.ComputeAngularSpeed | internal/moon/velocity.go:17-97 | one pass over the table as written gives AngularSpeed |
| Pluto.TableSize | internal/pluto/pluto.go:32-76 | the table has 43 harmonics |
| Pluto.AnglesLinear | internal/pluto/pluto.go:85-87 | J, S and P start at 34.35°, 50.08° and 238.96° and grow by their rates per century |
| Pluto.TermValues | internal/pluto/pluto.go:92-102 | each harmonic adds Sin·sin α + Cos·cos α to x, y and z |
| Pluto.HelioMeanOrbit | internal/pluto/pluto.go:106-113 | without periodic terms the position is the mean orbit |
| Pluto.Helio | internal/pluto/pluto.go:80-114 | the position is the mean orbit moved by the periodic sums: Σz/10^7 AU in distance, Σy/10^6 degrees in latitude, Σx/10^6 degrees in longitude |
| Pluto.HelioOverMeanPlus | internal/pluto/pluto.go:80-114 | the same decomposition holds for any table of terms |
| Pluto.HelioSplit | internal/pluto/pluto.go:90-103 | a table split in two contributes the sum of its parts to x, y and z |
| Pluto.HelioOrderIndependent | internal/pluto/pluto.go:90-103 | any reordering of the table gives the same position |
| Pluto.SumTerms | internal/pluto/pluto.go:89-103 | the loop returns the three sums over the table |
| Pluto.TermStep | internal/pluto/pluto.go:100-102 | one iteration extends the three sums by the next harmonic |
| Pluto.SphericalHelio | internal/pluto/pluto.go:80-114 | the imperative computation gives the specified heliocentric position |
| Pluto.SphericalHelioOver | internal/pluto/pluto.go:80-114 | the same, for any table |
| Pluto.HelioAssembled | internal/pluto/pluto.go:106-113 | R = 40.7241346 + z/1e7, B and L from y/1e6 and x/1e6 in radians |
| Pluto.GeoVector | internal/pluto/pluto.go:143-149 | the geocentric vector is the Sun's position plus Pluto's rotated heliocentric position |
| Pluto.Dist | internal/pluto/pluto.go:150 | the distance is non-negative |
| Pluto.GeocentricEQ | internal/pluto/pluto.go:125-167 | right ascension in [0, 2π), declination asin(z / dist) in [-π/2, π/2] and distance, all from the second pass; no value exactly when that distance is 0 |
| Pluto.RetardedTimeEarlier | internal/pluto/pluto.go:152-156 | the retarded time is not after jd, and the x-component's Sun offset is the same in both passes |
| Pluto.FirstPassGives | internal/pluto/pluto.go:152-157 | the first pass yields the retarded time |
| Pluto.SecondPassGives | internal/pluto/pluto.go:160-163 | the second pass yields the specified equatorial position |
| Pluto.ComputeGeocentricEQ | internal/pluto/pluto.go:125-167 | the loop makes exactly two passes, at jd and at the retarded time, and gives the specified result |
| Pluto.FromEquatorial | internal/pluto/pluto.go:179-188 | the longitude is ReduceRad(λ_mean + Δψ), in [0, 2π), the latitude is the mean-ecliptic one, and the distance is kept |
| Pluto.FromEquatorialNutation | internal/pluto/pluto.go:185 | Δψ only turns the longitude: the result is the Δψ = 0 position with Δψ added to λ and reduced; β and Δ do not depend on Δψ |
| Pluto.Apparent | internal/pluto/pluto.go:174-189 | a position exactly when geocentricEQ has one: geocentricEQ's position carried to the ecliptic of date, with longitude in [0, 2π) and its distance |
| Pluto.ApparentNutation | internal/pluto/pluto.go:174-189 | the apparent position is the one without nutation with its longitude turned by Δψ and reduced |
| Pluto.FromEquatorialPeriodic | internal/pluto/pluto.go:185 | adding a full turn to Δψ changes nothing |
| Pluto.ApparentNutationPeriodic | internal/pluto/pluto.go:174-189 | adding a full turn to Δψ does not change the apparent position |
| Sidereal.MidnightGMST | internal/timeutils/sidereal.go:29-36 | the sidereal time at the preceding midnight lies in [0, 24) |
| Sidereal.MeanGMST | internal/timeutils/sidereal.go:28-38 | the mean sidereal time exceeds the UT hours times 1.002737909350795 by an amount in [0, 24) |
| Sidereal.NutationHours | internal/timeutils/sidereal.go:57-58 | the nutation correction is Δψ·cos ε / 15 hours: it vanishes with Δψ and never exceeds \|Δψ\|/15 hours |
| Sidereal.JulianToSidereal | internal/timeutils/sidereal.go:56-61 | the sidereal time lies in [0, 24) |
| Sidereal.LongitudePeriodic | internal/timeutils/sidereal.go:59-60 | longitudes Lng and Lng + 360 give the same time |
| Sidereal.MeanIgnoresObliquity | internal/timeutils/sidereal.go:57-60 | with Δψ = 0 the obliquity has no effect and the result is mean sidereal time plus Lng/15 |
| Sidereal.GreenwichMean | internal/timeutils/sidereal.go:41-60 | without longitude and nutation the result is Greenwich mean sidereal time, whatever the obliquity |
| Sidereal.ApparentFromMean | internal/timeutils/sidereal.go:56-61 | apparent sidereal time is mean sidereal time plus Δψ·cos ε / 15 hours, up to whole days |
| Sidereal.LocalFromGreenwich | internal/timeutils/sidereal.go:41-60 | local sidereal time is Greenwich's plus Lng/15 hours, up to whole days |
| Format.FormatZodiac | package/utils/format.go:14-19 | for 0 ≤ deg < 360: a sign index in 0..11 naming Zodiac[index], degrees in 0..29, minutes and seconds in 0..59, and 30·index + degrees = ⌊deg⌋ |
| Format.ZodiacRoundTrip | package/utils/format.go:14-19 | the position read back lies within one second of arc below the longitude |
| Format.ZodiacSign | package/utils/format.go:15-17 | the sign covers the thirty degrees containing deg |
| Format.ZodiacExample | package/utils/format.go:13 | 312.5 is Aqu 12°30'00" |
| Format.FormatLatDms | package/utils/format.go:23-33 | the sign is "-" exactly for a negative latitude; minutes and seconds lie in 0..59 |
| Format.LatDmsRoundTrip | package/utils/format.go:23-33 | the size read back lies within one second of arc below \|deg\| |
| Format.LatDmsExample | package/utils/format.go:22 | -45.5 is -45:30:00 |
| EphemBody.NamedBodies | ephem/body.go:8-32 | ten names; exactly the bodies Moon..Pluto are named, with Moon, Sun and Pluto in place |
| EphemBody.NamesDistinct | ephem/body.go:21-32 | no two bodies share a name |
| EphemBody.NatToStringRoundTrip | ephem/body.go:37 | the decimal digits %d prints read back as the number |
| EphemBody.IntToString | ephem/body.go:37 | %d of a negative number is "-" followed by the digits of its size |
| EphemBody.String | ephem/body.go:35-40 | a named body prints as its name; any other prints as "Body(n)" |
| EphemBody.StringIsName | ephem/body.go:35-40 | the printed form is one of the ten names exactly when the body is named |
| Adapters.FromTriple | ephem/adapters.go:24-26 | the Sun's triple becomes a coordinate; no value becomes the zero-distance error |
| Adapters.Compute | ephem/adapters.go:12-32 | a position without error has longitude in [0, 2π); the Moon never fails; the Sun and Pluto fail only at zero distance, with the zero coordinate; a planet fails only with ZeroDistance or NoConvergence |
| Adapters.ComputeDelegates | ephem/adapters.go:10-32 | each computer returns its own theory's result: planets the light-time search, Moon, Sun and Pluto their Apparent |
| Adapters.ComputeLongitudeInRange | ephem/adapters.go:10-32 | every successful computation has its longitude in [0, 2π) |
| Adapters.ComputeNutationPeriodic | ephem/adapters.go:10-32 | every computer ignores a full turn added to Δψ |
| Ephem.RegistryCoversBodies | ephem/ephem.go:19-30 | the registry covers exactly the ten named bodies, each served by its own computer |
| Ephem.Node | ephem/ephem.go:36 | the facade's node, mean or true, lies in [0, 2π) |
| Ephem.Lift | ephem/ephem.go:39-45 | a computer's outcome passes through with its coordinate and whether it failed |
| Ephem.EclipticPosition | ephem/ephem.go:39-45 | an unsupported body gives a zero coordinate and the unsupported-body error; a registered one its computer's result |
| Ephem.EclipticPositionErrors | ephem/ephem.go:39-45 | the unsupported-body error occurs exactly for bodies outside Moon..Pluto; a success has its longitude in [0, 2π) |
| Ephem.StepFor | ephem/ephem.go:89-98 | every step is positive and at most one hour |
| Ephem.StepOrder | ephem/ephem.go:89-98 | the Moon has the smallest step; Mercury, Venus, Sun and Mars 15 minutes; every other body one hour |
| Ephem.CentralDiff | ephem/ephem.go:102-105 | the rate times 2h is the longitude difference normalised into (-π, π] |
| Ephem.CentralDiffBounded | ephem/ephem.go:102-105 | for h > 0 the rate lies in (-π/2h, π/2h] |
| Ephem.CentralDiffWraps | ephem/ephem.go:101-105 | across the 0/2π seam the rate is that of the difference moved by whole turns into (-π, π] |
| Ephem.CentralDiffAntisymmetric | ephem/ephem.go:102-105 | swapping the two longitudes negates the rate, unless the difference is exactly π |
| Ephem.VelocityOutcome | ephem/ephem.go:52-83 | success exactly when all three samples succeed, with the unshifted coordinate and a rate bounded by π/(2h); otherwise the error of the earliest failing sample (the base, then +h, then -h), with a zero coordinate and speed |
| Ephem.VelocityCentralDiff | ephem/ephem.go:79-82 | a successful rate is the central difference of the longitudes at jdTT + h and jdTT - h, which times 2h is their change normalised into (-π, π] |
| Ephem.EclipticPositionWithVelocity | ephem/ephem.go:52-83 | an error comes with the zero coordinate and speed 0; success returns the coordinate at jdTT itself |
| Ephem.VelocityUnsupported | ephem/ephem.go:52-83 | an unsupported body fails with the unsupported-body error |

## Left out

- Trigonometry and square roots: sin, cos, atan2 and asin are not computed; only sin² + cos² = 1, the ranges of atan2, asin and sqrt, and sqrt(0) = 0 are known. Agreement with the Meeus and Swiss Ephemeris reference values in the trigonometric tests is therefore not stated. Those tests are in internal/heliocentric/heliocentric_test.go, internal/pluto/pluto_test.go, internal/moon/moon_test.go, internal/sun/sun_test.go, internal/earth/nutation_test.go, internal/vsop87/vsop87_test.go and ephem/ephem_test.go.
- float64 rounding: all arithmetic is exact. For example, ToRange cannot return exactly r after a rounded `z + r`.
- The generated VSOP87 tables (internal/vsop87/generated) and their generator (internal/vsop87/generate.go, cmd/gen_vsop/main.go) are not part of this model. The 24 tables are abstract constants.
- FK5Correction (internal/vsop87/vsop87.go:73-82): not modelled, because it needs tan and nothing in the core calls it.
- Moon Parallax (internal/moon/moon.go:261-263): not modelled, because it is a single asin.
- NutationEclLon (internal/heliocentric/geocentric.go:34-36): not modelled, because nothing calls it.
- internal/coco (Transform, Astrometric2000ToMean), sun.Rect2000, the public earth package and the calendar functions JulianToCivil, JulianMidnight and ExtractUTC are not part of this model. They are abstract functions with nothing assumed of them, and so is the epoch J1900.
- internal/heliocentric/interface.go and ephem/computer.go only declare interfaces. They are the `Heliocentric.Planet` and `Adapters.Computer` datatypes.
- package/utils/utils.go repeats KmToAU; it is modelled once, in `Units`.
- The text produced by fmt.Sprintf: `Format.FormatZodiac`, `Format.FormatLatDms` and the error messages return their components, not the formatted string. `EphemBody.String` does build the "Body(n)" text.
- Format.FormatZodiac: requires 0 ≤ deg < 360. Go also accepts -30 < deg < 0 without panicking. There the sign is "Ari" and the first non-zero component is negative: -20.75 gives Ari -20:45:00. Go panics only for deg ≤ -30 or deg ≥ 360, where the sign index leaves 0..11.
- Geocentric.AberrationEcl: requires r ≠ 0, where Go divides by zero. Its callers `Geocentric.Corrected` and `Sun.Apparent` return an error or no value there instead of Go's infinity.
- Pluto.GeocentricEQ: returns no value at distance 0, where Go's asin(z / dist) is NaN.
- Ephem.CentralDiff: requires h ≠ 0. Its only step sizes, from StepFor, are positive.
- MathUtils.ToRange: requires r ≠ 0, where math.Mod is NaN. Every caller passes 24, 360 or 2π.
- GoMath.Mod: requires y ≠ 0, where math.Mod is NaN.
- MathUtils.DiffAngle: its contract covers directions in [0, 360) only. For other inputs the function computes the source's expression, but no property is stated.
- MoonVelocity.SeriesCorrected: states that the two arguments 2D - M + M' and 2D + M - M' each occur once in the corrected table, not that all thirty argument combinations are distinct.
- The adapters' return types: in Go, the adapters and ApparentGeocentric disagree on whether an error is returned (ephem/adapters.go:13 against internal/heliocentric/geocentric.go:116). The model's computers all return a coordinate with an optional error.
- Concurrency: there is none in the core.

## Findings

| source | as written | input that shows it | evidently intended | confidence | as-written member | corrected member |
|---|---|---|---|---|---|---|
| internal/heliocentric/geocentric.go:85-96 | the non-convergence error reports `ecl.Lambda - prevLambda`, but `prevLambda` was set to `ecl.Lambda` at the end of the last iteration, so the reported residual is always 0″ | any body and jd for which none of the ten attempts moves the longitude by less than 1e-8 rad | the last attempt's change in longitude, which is at least 1e-8 rad in size whenever the search fails | high, not executed | Geocentric.SearchResidualZero | Geocentric.ReportedResidual |
| internal/moon/velocity.go:61 | the entry labelled cos(M' - M + 2D) has multipliers {2, 1, -1, 0}, the same as the entry for cos(2D + M - M') at line 65, so that argument is counted twice and 2D - M + M' not at all | any jd at which cos(2D + M - M') ≠ cos(2D - M + M'); the speed is then off by 0.002577·(cos(2D + M - M') - cos(2D - M + M')) deg/day | multipliers {2, -1, 1, 0}, as the entry's own label says | medium, not executed | MoonVelocity.SeriesAsWrittenRepeats | MoonVelocity.SeriesCorrected |
