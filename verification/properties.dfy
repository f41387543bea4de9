/** Properties of the per-pixel classifier: the decision table, mask
    precedence, the effect of the clause grouping, strict thresholds and
    undefined indices. */
module ClassifierProperties {
  import opened Wrappers
  import opened Indices
  import opened Classifier

  /** The change of a normalized difference, written directly on digital
      numbers, exceeds the threshold; both quotients must be defined. */
  predicate ReferenceExceeds(preX: UInt16, preY: UInt16, postX: UInt16, postY: UInt16, threshold: real)
  {
    preX + preY > 0 && postX + postY > 0 &&
    (postX - postY) as real / (postX + postY) as real
      - (preX - preY) as real / (preX + preY) as real > threshold
  }

  /** Reference reading of "both index changes exceed their thresholds". */
  predicate ReferenceChange(pre: Sample, post: Sample, t: Thresholds)
  {
    ReferenceExceeds(pre.b08, pre.b11, post.b08, post.b11, t.ndwi) &&
    ReferenceExceeds(pre.b08, pre.b04, post.b08, post.b04, t.ndvi)
  }

  /** The gain-scaled, NaN-aware threshold test agrees with the closed form. */
  lemma SpectralChangeClosedForm(pre: Sample, post: Sample, t: Thresholds)
    ensures SpectralChange(pre, post, t) <==> ReferenceChange(pre, post, t)
  {
  }

  /** Decision table of the source's expression: unreliable pixels are 2;
      otherwise a pixel is 1 exactly when the spectral clause holds on a
      pre-event vegetation pixel or the post-event class is vegetation, and
      0 in every other case. */
  lemma ClassifyCharacterisation(pre: Sample, post: Sample, t: Thresholds)
    ensures Classify(pre, post, t, AsWritten) == NoData <==> Unreliable(pre.scl, post.scl)
    ensures Classify(pre, post, t, AsWritten) == Burned <==>
              !Unreliable(pre.scl, post.scl) &&
              ((ReferenceChange(pre, post, t) && pre.scl == Vegetation) || post.scl == Vegetation)
    ensures Classify(pre, post, t, AsWritten) == Unburned <==>
              !Unreliable(pre.scl, post.scl) &&
              !(ReferenceChange(pre, post, t) && pre.scl == Vegetation) && post.scl != Vegetation
  {
  }

  /** Decision table under the corrected grouping: a pixel is burned only
      with a spectral change on a vegetation pixel of either acquisition. */
  lemma CorrectedCharacterisation(pre: Sample, post: Sample, t: Thresholds)
    ensures Classify(pre, post, t, Corrected) == NoData <==> Unreliable(pre.scl, post.scl)
    ensures Classify(pre, post, t, Corrected) == Burned <==>
              !Unreliable(pre.scl, post.scl) && ReferenceChange(pre, post, t) &&
              (pre.scl == Vegetation || post.scl == Vegetation)
  {
  }

  /** The unreliable overwrite wins over any burned mark, whatever the bands,
      thresholds and grouping; and it is the only way to obtain 2. */
  lemma MaskTakesPrecedence(pre: Sample, post: Sample, t: Thresholds, g: Grouping)
    ensures Classify(pre, post, t, g) == NoData <==>
              pre.scl in {0, 1, 5, 6, 7, 8, 9} || post.scl in {0, 1, 5, 6, 7, 8, 9}
  {
  }

  /** Under the source's grouping a post-event vegetation pixel is burned
      unless masked, whatever the bands and thresholds. */
  lemma PostVegetationShortcut(pre: Sample, post: Sample, t: Thresholds)
    requires post.scl == Vegetation
    requires pre.scl !in UnreliableClasses
    ensures Classify(pre, post, t, AsWritten) == Burned
  {
  }

  /** The two groupings disagree on exactly the unmasked post-event
      vegetation pixels without a spectral change. */
  lemma GroupingsDisagree(pre: Sample, post: Sample, t: Thresholds)
    ensures Classify(pre, post, t, AsWritten) != Classify(pre, post, t, Corrected) <==>
              !Unreliable(pre.scl, post.scl) && post.scl == Vegetation && !SpectralChange(pre, post, t)
  {
  }

  /** Threshold tests are strict: a change equal to its threshold does not
      satisfy the spectral clause. */
  lemma StrictThresholds(pre: Sample, post: Sample, t: Thresholds, g: Grouping)
    requires Delta(Ndwi2(post), Ndwi2(pre)) == Some(t.ndwi) || Delta(Ndvi(post), Ndvi(pre)) == Some(t.ndvi)
    ensures !SpectralChange(pre, post, t)
    ensures g == Corrected || post.scl != Vegetation ==> Classify(pre, post, t, g) != Burned
  {
  }

  /** A zero denominator in any of the four indices makes the spectral
      clause false; such a pixel is then 2 if masked, otherwise 1 only
      through the post-event vegetation shortcut, otherwise 0. */
  lemma UndefinedIndex(pre: Sample, post: Sample, t: Thresholds)
    requires pre.b08 + pre.b11 == 0 || post.b08 + post.b11 == 0 ||
             pre.b08 + pre.b04 == 0 || post.b08 + post.b04 == 0
    ensures !SpectralChange(pre, post, t)
    ensures Classify(pre, post, t, AsWritten) ==
              if Unreliable(pre.scl, post.scl) then NoData
              else if post.scl == Vegetation then Burned
              else Unburned
    ensures Classify(pre, post, t, Corrected) != Burned
  {
  }

  /** A pixel with no change at all (identical acquisitions of class
      vegetation) is burned as written, and unburned when corrected. */
  lemma PrecedenceCounterexample()
    ensures var s := Sample(1000, 3000, 3000, Vegetation);
            !SpectralChange(s, s, DefaultThresholds) &&
            Classify(s, s, DefaultThresholds, AsWritten) == Burned &&
            Classify(s, s, DefaultThresholds, Corrected) == Unburned
  {
  }

  /** Under the corrected grouping no pixel is burned without both index
      changes exceeding their thresholds. */
  lemma CorrectedBurnedNeedsChange(pre: Sample, post: Sample, t: Thresholds)
    ensures Classify(pre, post, t, Corrected) == Burned ==> SpectralChange(pre, post, t)
  {
  }

  /** A clear vegetation pixel whose NDVI rises by 0.30 and NDWI2 by 0.25 is
      burned with the default thresholds under both groupings, and becomes
      2 once the pre-event class is "no data". */
  lemma VegetationChangeScenario()
    ensures var pre := Sample(1000, 3000, 3000, Vegetation);
            var post := Sample(1000, 9000, 5400, Vegetation);
            Delta(Ndvi(post), Ndvi(pre)) == Some(0.3) &&
            Delta(Ndwi2(post), Ndwi2(pre)) == Some(0.25) &&
            Classify(pre, post, DefaultThresholds, AsWritten) == Burned &&
            Classify(pre, post, DefaultThresholds, Corrected) == Burned &&
            Classify(pre.(scl := 0), post, DefaultThresholds, AsWritten) == NoData
  {
  }
}
