/** Unit conversions shared by every stage of the water-balance engine. */
module Units {
  import opened Arith

  /** Cubic metres to litres. */
  function Liters(m3: real): (l: real)
    ensures l / 1000.0 == m3
    ensures m3 >= 0.0 ==> l >= m3
  {
    m3 * 1000.0
  }

  /** Volume (m³) of a water depth in millimetres spread over an area in m². */
  function M3FromMmOverArea(mm: real, areaM2: real): (v: real)
    ensures mm >= 0.0 && areaM2 >= 0.0 ==> v >= 0.0
    ensures mm > 0.0 && areaM2 > 0.0 ==> v > 0.0
    ensures mm == 0.0 || areaM2 == 0.0 ==> v == 0.0
  {
    MulSign(mm / 1000.0, areaM2);
    Mul(mm / 1000.0, areaM2)
  }

  /** A volume of v m³ spread over the area is a depth of 1000 v / area mm. */
  lemma M3DepthRoundTrip(mm: real, areaM2: real)
    requires areaM2 > 0.0
    ensures M3FromMmOverArea(mm, areaM2) * 1000.0 / areaM2 == mm
  {
    assert M3FromMmOverArea(mm, areaM2) * 1000.0 == mm * areaM2;
  }

  /** The conversion is linear in the depth. */
  lemma M3AdditiveInDepth(mm1: real, mm2: real, areaM2: real)
    ensures M3FromMmOverArea(mm1 + mm2, areaM2)
         == M3FromMmOverArea(mm1, areaM2) + M3FromMmOverArea(mm2, areaM2)
  {
    assert (mm1 + mm2) / 1000.0 == mm1 / 1000.0 + mm2 / 1000.0;
    MulDistributes(mm1 / 1000.0, mm2 / 1000.0, areaM2);
  }

  /** A larger area never yields a smaller volume for a non-negative depth. */
  lemma M3MonotoneInArea(mm: real, a1: real, a2: real)
    requires mm >= 0.0 && a1 <= a2
    ensures M3FromMmOverArea(mm, a1) <= M3FromMmOverArea(mm, a2)
  {
    MulMonotone(a1, a2, mm / 1000.0);
    MulCommutes(a1, mm / 1000.0);
    MulCommutes(a2, mm / 1000.0);
  }

  /** A deeper water layer never yields a smaller volume over a non-negative area. */
  lemma M3MonotoneInDepth(mm1: real, mm2: real, areaM2: real)
    requires mm1 <= mm2 && areaM2 >= 0.0
    ensures M3FromMmOverArea(mm1, areaM2) <= M3FromMmOverArea(mm2, areaM2)
  {
    MulMonotone(mm1 / 1000.0, mm2 / 1000.0, areaM2);
  }
}
