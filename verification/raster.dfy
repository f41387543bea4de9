/** The whole-grid classification: eight co-registered band rasters in, one
    8-bit classification raster out, written in the source's three passes
    (zero fill, burned mark, unreliable overwrite). */
module Raster {
  import opened Wrappers
  import opened Indices
  import opened Classifier

  /** The four rasters of one acquisition, as read from its stacked file. */
  datatype Acquisition = Acquisition(
    b04: array2<UInt16>, b08: array2<UInt16>, b11: array2<UInt16>, scl: array2<UInt16>)

  datatype Error = ShapeMismatch

  /** All four rasters of the acquisition are height x width. */
  predicate HasShape(a: Acquisition, height: nat, width: nat)
  {
    a.b04.Length0 == height && a.b04.Length1 == width &&
    a.b08.Length0 == height && a.b08.Length1 == width &&
    a.b11.Length0 == height && a.b11.Length1 == width &&
    a.scl.Length0 == height && a.scl.Length1 == width
  }

  /** All eight rasters share the post-event raster size. */
  predicate SameShape(pre: Acquisition, post: Acquisition)
  {
    HasShape(pre, post.scl.Length0, post.scl.Length1) &&
    HasShape(post, post.scl.Length0, post.scl.Length1)
  }

  /** The acquisition's values at row i, column j. */
  function SampleAt(a: Acquisition, i: nat, j: nat): Sample
    requires HasShape(a, a.scl.Length0, a.scl.Length1)
    requires i < a.scl.Length0 && j < a.scl.Length1
    reads a.b04, a.b08, a.b11, a.scl
  {
    Sample(a.b04[i, j], a.b08[i, j], a.b11[i, j], a.scl[i, j])
  }

  /** The burned condition at one cell. */
  predicate MarkedAt(pre: Acquisition, post: Acquisition, t: Thresholds, g: Grouping, i: nat, j: nat)
    requires SameShape(pre, post)
    requires i < post.scl.Length0 && j < post.scl.Length1
    reads pre.b04, pre.b08, pre.b11, pre.scl, post.b04, post.b08, post.b11, post.scl
  {
    BurnedCondition(SampleAt(pre, i, j), SampleAt(post, i, j), t, g)
  }

  /** The unreliable-class test at one cell. */
  predicate MaskedAt(pre: Acquisition, post: Acquisition, i: nat, j: nat)
    requires SameShape(pre, post)
    requires i < post.scl.Length0 && j < post.scl.Length1
    reads pre.scl, post.scl
  {
    Unreliable(pre.scl[i, j], post.scl[i, j])
  }

  /** Cell (r, c) comes before cell (i, j) in row-major order. */
  predicate Before(r: nat, c: nat, i: nat, j: nat)
  {
    r < i || (r == i && c < j)
  }

  /** The three passes over co-registered rasters. Every cell of the result
      is the per-pixel classification of that cell's eight inputs, so the
      output at a cell depends on nothing but those inputs and the
      thresholds. */
  method ClassifyGrid(pre: Acquisition, post: Acquisition, t: Thresholds, g: Grouping)
    returns (burned: array2<UInt8>)
    requires SameShape(pre, post)
    ensures burned.Length0 == post.scl.Length0 && burned.Length1 == post.scl.Length1
    ensures forall i, j :: 0 <= i < burned.Length0 && 0 <= j < burned.Length1 ==>
              burned[i, j] == Classify(SampleAt(pre, i, j), SampleAt(post, i, j), t, g)
    ensures forall i, j :: 0 <= i < burned.Length0 && 0 <= j < burned.Length1 ==>
              burned[i, j] in {Unburned, Burned, NoData}
  {
    var height := post.scl.Length0;
    var width := post.scl.Length1;
    burned := new UInt8[height, width]((_, _) => Unburned);

    var i := 0;
    while i < height
      invariant 0 <= i <= height
      invariant forall r, c :: 0 <= r < height && 0 <= c < width ==>
                  burned[r, c] == if r < i && MarkedAt(pre, post, t, g, r, c) then Burned else Unburned
    {
      var j := 0;
      while j < width
        invariant 0 <= j <= width
        invariant forall r, c :: 0 <= r < height && 0 <= c < width ==>
                    burned[r, c] == if Before(r, c, i, j) && MarkedAt(pre, post, t, g, r, c) then Burned else Unburned
      {
        if BurnedCondition(SampleAt(pre, i, j), SampleAt(post, i, j), t, g) {
          burned[i, j] := Burned;
        }
        j := j + 1;
      }
      i := i + 1;
    }

    i := 0;
    while i < height
      invariant 0 <= i <= height
      invariant forall r, c :: 0 <= r < height && 0 <= c < width ==>
                  burned[r, c] == if r < i && MaskedAt(pre, post, r, c) then NoData
                                  else if MarkedAt(pre, post, t, g, r, c) then Burned else Unburned
    {
      var j := 0;
      while j < width
        invariant 0 <= j <= width
        invariant forall r, c :: 0 <= r < height && 0 <= c < width ==>
                    burned[r, c] == if Before(r, c, i, j) && MaskedAt(pre, post, r, c) then NoData
                                    else if MarkedAt(pre, post, t, g, r, c) then Burned else Unburned
      {
        if Unreliable(pre.scl[i, j], post.scl[i, j]) {
          burned[i, j] := NoData;
        }
        j := j + 1;
      }
      i := i + 1;
    }
  }

  /** The classification of a whole scene. Rasters of different sizes cannot
      be combined cell by cell and are reported as an error; otherwise the
      result is the three-pass grid. */
  method BurnedArea(pre: Acquisition, post: Acquisition, t: Thresholds, g: Grouping)
    returns (r: Result<array2<UInt8>, Error>)
    ensures r.Failure? <==> !SameShape(pre, post)
    ensures r.Success? ==>
              SameShape(pre, post) &&
              r.value.Length0 == post.scl.Length0 && r.value.Length1 == post.scl.Length1 &&
              forall i, j :: 0 <= i < r.value.Length0 && 0 <= j < r.value.Length1 ==>
                r.value[i, j] == Classify(SampleAt(pre, i, j), SampleAt(post, i, j), t, g)
  {
    if !SameShape(pre, post) {
      return Failure(ShapeMismatch);
    }
    var burned := ClassifyGrid(pre, post, t, g);
    return Success(burned);
  }
}
