/**
 * The longitude of the Moon's ascending node (internal/moon/node.go): the
 * mean node from its polynomial in Julian centuries, and the true node with
 * five periodic corrections built from the lunar and solar mean arguments.
 */
module LunarNode {
  import opened GoMath
  import opened MathUtils
  import TimeUtils
  import Moon

  /** The mean node's polynomial in Julian centuries, degrees. */
  const NodeCoeffs: seq<real> := [125.0445479, -1934.1362891, 0.0020754, 1.0 / 467441.0, 1.0 / 60616000.0]

  /** assemble: a polynomial in t, reduced to [0, 360) and converted to radians. */
  function Assemble(t: real, terms: seq<real>): (a: real)
    ensures 0.0 <= a < Pi2
    ensures Degrees(a) == ReduceDeg(PolySum(t, terms))
  {
    RadiansDegrees(ReduceDeg(PolySum(t, terms)), 0.0);
    Radians(ReduceDeg(PolySum(t, terms)))
  }

  /** The mean node in degrees, in [0, 360). */
  function MeanNodeDeg(t: real): (mn: real)
    ensures 0.0 <= mn < 360.0
  {
    ReduceDeg(PolySum(t, NodeCoeffs))
  }

  /** The five periodic corrections of the true node, in degrees, from D, M, F and the solar M in radians. */
  function Corrections(d: real, m: real, f: real, ms: real): real
  {
    -1.4979 * Sin(2.0 * (d - f)) - 0.1500 * Sin(ms) - 0.1226 * Sin(2.0 * d)
      + 0.1176 * Sin(2.0 * f) - 0.0801 * Sin(2.0 * (m - f))
  }

  /** The true node in degrees, before reduction: the mean node plus the corrections. */
  function TrueNodeDeg(t: real): real
  {
    var d := Assemble(t, Moon.MoonD);
    var m := Assemble(t, Moon.MoonM);
    var f := Assemble(t, Moon.MoonF);
    var ms := Assemble(t, Moon.SunM);
    MeanNodeDeg(t) + Corrections(d, m, f, ms)
  }

  /**
   * Node: the mean node when trueNode is false; otherwise the mean node
   * plus the periodic corrections, reduced once more to [0, 360). Radians
   * either way.
   */
  function Node(jd: real, trueNode: bool): (node: real)
    ensures 0.0 <= node < Pi2
    ensures !trueNode ==> Degrees(node) == MeanNodeDeg(TimeUtils.CenturiesSinceJ2000(jd))
    ensures trueNode ==> Degrees(node) == ReduceDeg(TrueNodeDeg(TimeUtils.CenturiesSinceJ2000(jd)))
  {
    var t := TimeUtils.CenturiesSinceJ2000(jd);
    var mn := MeanNodeDeg(t);
    if !trueNode then
      RadiansDegrees(mn, 0.0);
      Radians(mn)
    else
      RadiansDegrees(ReduceDeg(TrueNodeDeg(t)), 0.0);
      Radians(ReduceDeg(TrueNodeDeg(t)))
  }

  /** The true node differs from the mean node by the corrections, modulo whole turns. */
  lemma TrueNodeWholeTurns(jd: real) returns (k: int)
    ensures var t := TimeUtils.CenturiesSinceJ2000(jd);
      var c := TrueNodeDeg(t) - MeanNodeDeg(t);
      Degrees(Node(jd, true)) == Degrees(Node(jd, false)) + c - k as real * 360.0
  {
    var t := TimeUtils.CenturiesSinceJ2000(jd);
    k := ToRangeShift(TrueNodeDeg(t), 360.0);
  }

  /** The package's test case: at JD 2438792.990277 the mean node is 80.31173473979322° within 1e-6. */
  lemma MeanNodeExample()
    ensures AlmostEqual(Degrees(Node(2438792.990277, false)), 80.31173473979322, 1e-6)
  {
    var t := TimeUtils.CenturiesSinceJ2000(2438792.990277);
    assert t == -12752.009723 / 36525.0;
    var c := NodeCoeffs;
    assert c[..0] == [];
    assert c[..1] == c[..0] + [c[0]];
    PolyAppend(t, c[..0], c[0]);
    assert Power(t, 1) == Power(t, 0) * t;
    assert c[..2] == c[..1] + [c[1]];
    PolyAppend(t, c[..1], c[1]);
    assert Power(t, 2) == Power(t, 1) * t;
    assert c[..3] == c[..2] + [c[2]];
    PolyAppend(t, c[..2], c[2]);
    assert Power(t, 3) == Power(t, 2) * t;
    assert c[..4] == c[..3] + [c[3]];
    PolyAppend(t, c[..3], c[3]);
    assert Power(t, 4) == Power(t, 3) * t;
    assert c[..5] == c[..4] + [c[4]];
    PolyAppend(t, c[..4], c[4]);
    assert c[..5] == c;
    var p := PolySum(t, c);
    ToRangeUnique(p, 360.0, p - 720.0, 2);
  }
}
