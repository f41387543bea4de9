/** The per-pixel burned-area decision.

    A pixel is first unburned (0). It is marked burned (1) when the burned
    condition holds, and the mark is then overwritten with "unreliable" (2)
    when either acquisition's scene class is one that cannot be trusted. */
module Classifier {
  import opened Wrappers
  import opened Indices

  /** One acquisition at one pixel: red, NIR and SWIR digital numbers and
      the scene-classification (SCL) code. */
  datatype Sample = Sample(b04: UInt16, b08: UInt16, b11: UInt16, scl: UInt16)

  /** The two user thresholds on the index changes. */
  datatype Thresholds = Thresholds(ndvi: real, ndwi: real)

  /** Thresholds used when none are given on the command line. */
  const DefaultThresholds := Thresholds(0.19, 0.18)

  /** How the burned condition groups its clauses.
      `AsWritten` is `(dNDWI2 > t && dNDVI > t && pre_scl == 4) || post_scl == 4`,
      which is what the `&`/`|` expression evaluates to.
      `Corrected` is `dNDWI2 > t && dNDVI > t && (pre_scl == 4 || post_scl == 4)`. */
  datatype Grouping = AsWritten | Corrected

  /** An output code, stored as an unsigned 8-bit value. */
  type UInt8 = x: int | 0 <= x < 0x100

  const Unburned: UInt8 := 0
  const Burned: UInt8 := 1
  const NoData: UInt8 := 2

  /** SCL class "vegetation", the clear reference class. */
  const Vegetation: UInt16 := 4

  /** SCL classes that make a pixel unreliable: no data (0), saturated or
      defective (1), not vegetated (5), water (6), unclassified (7), cloud
      medium (8) and high (9) probability. Dark area pixels (2), cloud
      shadows (3), thin cirrus (10) and snow (11) are not masked. */
  const UnreliableClasses: set<UInt16> := {0, 1, 5, 6, 7, 8, 9}

  function Ndwi2(s: Sample): Option<real> { NormalizedDifference(s.b08, s.b11) }

  function Ndvi(s: Sample): Option<real> { NormalizedDifference(s.b08, s.b04) }

  /** Both index changes exceed their thresholds (strictly, and never for NaN). */
  predicate SpectralChange(pre: Sample, post: Sample, t: Thresholds)
  {
    Exceeds(Delta(Ndwi2(post), Ndwi2(pre)), t.ndwi) &&
    Exceeds(Delta(Ndvi(post), Ndvi(pre)), t.ndvi)
  }

  predicate BurnedCondition(pre: Sample, post: Sample, t: Thresholds, g: Grouping)
  {
    match g
    case AsWritten => (SpectralChange(pre, post, t) && pre.scl == Vegetation) || post.scl == Vegetation
    case Corrected => SpectralChange(pre, post, t) && (pre.scl == Vegetation || post.scl == Vegetation)
  }

  predicate Unreliable(preScl: UInt16, postScl: UInt16)
  {
    preScl in UnreliableClasses || postScl in UnreliableClasses
  }

  /** The output code of one pixel, following the order of the writes:
      start unburned, mark burned, overwrite unreliable. */
  function Classify(pre: Sample, post: Sample, t: Thresholds, g: Grouping): (r: UInt8)
    ensures r == Unburned || r == Burned || r == NoData
  {
    var initial := Unburned;
    var marked := if BurnedCondition(pre, post, t, g) then Burned else initial;
    if Unreliable(pre.scl, post.scl) then NoData else marked
  }
}
