/** Spectral indices of one Sentinel-2 acquisition at one pixel.

    Bands arrive as 16-bit unsigned digital numbers. They are turned into
    reflectance by dividing by a fixed gain, and two normalized differences
    are formed: NDWI2 from NIR (B08) and SWIR (B11), NDVI from NIR (B08) and
    red (B04). Arithmetic is exact; an undefined quotient (0/0, which
    floating point reports as NaN) is `None`. */
module Indices {
  import opened Wrappers

  /** A digital number as read after translation to unsigned 16-bit. */
  type UInt16 = x: int | 0 <= x < 0x1_0000

  /** Scale factor from digital number to reflectance. */
  const Gain: real := 10000.0

  /** Reflectance of a digital number. */
  function Reflectance(dn: UInt16): (r: real)
    ensures 0.0 <= r
    ensures r == 0.0 <==> dn == 0
  {
    dn as real / Gain
  }

  /** The gain cancels: scaling both bands before forming the normalized
      difference gives the same value as using the digital numbers. */
  lemma GainCancels(x: UInt16, y: UInt16)
    requires x + y > 0
    ensures (Reflectance(x) - Reflectance(y)) / (Reflectance(x) + Reflectance(y))
            == (x - y) as real / (x + y) as real
  {
  }

  /** The normalized difference (x - y) / (x + y) computed as the source does,
      on reflectances. It is undefined exactly when both bands are zero, and
      otherwise equals the gain-free quotient and lies in [-1, 1]. */
  function NormalizedDifference(x: UInt16, y: UInt16): (r: Option<real>)
    ensures r.None? <==> x == 0 && y == 0
    ensures r.Some? ==> r.value == (x - y) as real / (x + y) as real
    ensures r.Some? ==> -1.0 <= r.value <= 1.0
  {
    var denominator := Reflectance(x) + Reflectance(y);
    if denominator == 0.0 then None
    else Some((Reflectance(x) - Reflectance(y)) / denominator)
  }

  /** Change of an index between two acquisitions; undefined if either side is. */
  function Delta(post: Option<real>, pre: Option<real>): (r: Option<real>)
    ensures r.Some? <==> post.Some? && pre.Some?
    ensures r.Some? ==> pre.value + r.value == post.value
  {
    match (post, pre)
    case (Some(a), Some(b)) => Some(a - b)
    case _ => None
  }

  /** Strict comparison against a threshold; every comparison with NaN is false. */
  predicate Exceeds(d: Option<real>, threshold: real)
  {
    d.Some? && d.value > threshold
  }
}
