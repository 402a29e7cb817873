// Image sizes through one preprocessing iteration of the vision runtime, with the scaling ratio taken as
// an exact real.
module PreprocessBounds {
  import opened Results

  const MAX_MODEL_WIDTH := 672
  const MAX_MODEL_HEIGHT := 192
  const MIN_MODEL_SIDE := 32
  const PAD_DIVISOR := 32

  datatype Size = Size(width: nat, height: nat)

  // The smallest rectangle holding the ink, within an image.
  datatype Ink = Ink(x: nat, y: nat, width: nat, height: nat)

  predicate Inside(ink: Ink, image: Size) {
    ink.width > 0 && ink.height > 0 && ink.x + ink.width <= image.width && ink.y + ink.height <= image.height
  }

  function Max(a: int, b: int): int {
    if a < b then b else a
  }

  function MaximumRatio(s: Size): real {
    var x, y := s.width as real / 672.0, s.height as real / 192.0;
    if x < y then y else x
  }

  function Shrunk(side: nat, ratio: real): nat
    requires ratio > 0.0
  {
    Max(1, (side as real / ratio).Floor)
  }

  // _minmax_size.
  function MinMaxSize(s: Size): Size {
    var ratio := MaximumRatio(s);
    var fit := if ratio > 1.0 then Size(Shrunk(s.width, ratio), Shrunk(s.height, ratio)) else s;
    Size(Max(fit.width, MIN_MODEL_SIDE), Max(fit.height, MIN_MODEL_SIDE))
  }

  function PadUp(value: nat): nat {
    (value + PAD_DIVISOR - 1) / PAD_DIVISOR * PAD_DIVISOR
  }

  // _pad_expression: the ink rectangle, padded; None without ink.
  function PadExpression(ink: Option<Ink>): Option<Size> {
    if ink.None? then None
    else Some(Size(PadUp(ink.value.width), PadUp(ink.value.height)))
  }

  datatype PreprocessError = OutsideDimensions | LostInk | ExceededBounds

  // _preprocess_iteration from the resized image on; `inkOf` finds the ink in an image of a size.
  function PreprocessIteration(ratio: real, requested: Size, inkOf: Size -> Option<Ink>): Result<Size, PreprocessError> {
    if ratio <= 0.0 || requested.width < 1 || requested.height < 1
       || requested.width > MAX_MODEL_WIDTH * 4 || requested.height > MAX_MODEL_HEIGHT * 4
    then Err(OutsideDimensions)
    else
      var padded := PadExpression(inkOf(MinMaxSize(requested)));
      if padded.None? then Err(LostInk)
      else
        var size := MinMaxSize(padded.value);
        if || size.width > MAX_MODEL_WIDTH || size.height > MAX_MODEL_HEIGHT
           || size.width % PAD_DIVISOR != 0 || size.height % PAD_DIVISOR != 0
        then Err(ExceededBounds)
        else Ok(size)
  }

  predicate WithinModel(s: Size) {
    MIN_MODEL_SIDE <= s.width <= MAX_MODEL_WIDTH && MIN_MODEL_SIDE <= s.height <= MAX_MODEL_HEIGHT
  }

  lemma RatioTimes(side: real, limit: real)
    requires limit > 0.0
    ensures side / limit * limit == side
  {
  }

  lemma TimesKeepsOrder(x: real, y: real, ratio: real)
    requires ratio > 0.0
    ensures x <= y ==> x * ratio <= y * ratio
    ensures x < y ==> x * ratio < y * ratio
  {
  }

  lemma QuotientFits(side: real, exact: real, limit: real, ratio: real)
    requires ratio > 0.0 && exact * ratio == side && side <= limit * ratio
    ensures exact <= limit
  {
    if limit < exact { TimesKeepsOrder(limit, exact, ratio); }
  }

  lemma ShrunkFits(side: nat, limit: nat, ratio: real)
    requires limit >= 1 && ratio > 1.0 && ratio >= side as real / limit as real
    ensures Shrunk(side, ratio) <= limit
  {
    var s, l := side as real, limit as real;
    RatioTimes(s, l);
    TimesKeepsOrder(s / l, ratio, l);
    RatioTimes(s, ratio);
    QuotientFits(s, s / ratio, l, ratio);
  }

  // Any image is brought within the model's bounds, and exactly those already within are left alone.
  lemma MinMaxFits(s: Size)
    ensures WithinModel(MinMaxSize(s))
    ensures MinMaxSize(s) == s <==> WithinModel(s)
  {
    var ratio := MaximumRatio(s);
    if ratio > 1.0 {
      ShrunkFits(s.width, MAX_MODEL_WIDTH, ratio);
      ShrunkFits(s.height, MAX_MODEL_HEIGHT, ratio);
    }
  }

  lemma PadUpIsNextMultiple(value: nat)
    ensures PadUp(value) % PAD_DIVISOR == 0 && value <= PadUp(value) < value + PAD_DIVISOR
    ensures forall multiple: nat :: multiple % PAD_DIVISOR == 0 && value <= multiple ==> PadUp(value) <= multiple
  {
    forall multiple: nat | multiple % PAD_DIVISOR == 0 && value <= multiple ensures PadUp(value) <= multiple {
      assert multiple == multiple / PAD_DIVISOR * PAD_DIVISOR;
    }
  }

  // One side divided by the ratio, never below one.
  predicate IsShare(share: nat, side: nat, ratio: real) {
    && share >= 1
    && (share as real * ratio <= side as real || share == 1)
    && side as real < (share + 1) as real * ratio
  }

  // A side above its bound is divided by the larger of the two ratios, and so is the other: what does not
  // fit keeps its proportions, to the pixel, and is only padded to the least side.
  lemma ShrinksInProportion(s: Size)
    requires s.width > MAX_MODEL_WIDTH || s.height > MAX_MODEL_HEIGHT
    ensures var ratio := MaximumRatio(s);
      && ratio > 1.0
      && ratio * 672.0 >= s.width as real && ratio * 192.0 >= s.height as real
      && (ratio * 672.0 == s.width as real || ratio * 192.0 == s.height as real)
      && exists width: nat, height: nat ::
           && IsShare(width, s.width, ratio) && IsShare(height, s.height, ratio)
           && MinMaxSize(s) == Size(Max(width, 32), Max(height, 32))
  {
    var ratio := MaximumRatio(s);
    RatioTimes(s.width as real, 672.0);
    RatioTimes(s.height as real, 192.0);
    var width, height := Shrunk(s.width, ratio), Shrunk(s.height, ratio);
    ShrunkIsShare(s.width, ratio);
    ShrunkIsShare(s.height, ratio);
  }

  lemma QuotientBounds(side: real, exact: real, below: real, above: real, ratio: real)
    requires ratio > 0.0 && exact * ratio == side && exact < above
    ensures below <= exact ==> below * ratio <= side
    ensures side < above * ratio
  {
    TimesKeepsOrder(exact, above, ratio);
    if below <= exact { TimesKeepsOrder(below, exact, ratio); }
  }

  lemma ShrunkIsShare(side: nat, ratio: real)
    requires ratio > 0.0
    ensures IsShare(Shrunk(side, ratio), side, ratio)
  {
    var share := Shrunk(side, ratio);
    RatioTimes(side as real, ratio);
    QuotientBounds(side as real, side as real / ratio, share as real, (share + 1) as real, ratio);
  }

  lemma PaddedInkFits(ink: Ink, bounded: Size)
    requires Inside(ink, bounded) && WithinModel(bounded)
    ensures var padded := Size(PadUp(ink.width), PadUp(ink.height));
            && WithinModel(padded) && MinMaxSize(padded) == padded
            && padded.width % PAD_DIVISOR == 0 && padded.height % PAD_DIVISOR == 0
  {
    PadUpIsNextMultiple(ink.width);
    PadUpIsNextMultiple(ink.height);
    assert MAX_MODEL_WIDTH % PAD_DIVISOR == 0 && MAX_MODEL_HEIGHT % PAD_DIVISOR == 0;
    MinMaxFits(Size(PadUp(ink.width), PadUp(ink.height)));
  }

  // For every size and ink rectangle, padding a bounded image stays within the bounds, so the model gets
  // positive multiples of 32, and the error for exceeding them is unreachable.
  lemma PreprocessingStaysInBounds(ratio: real, requested: Size, inkOf: Size -> Option<Ink>)
    requires forall s :: inkOf(s).Some? ==> Inside(inkOf(s).value, s)
    ensures var r := PreprocessIteration(ratio, requested, inkOf);
            && r != Err(ExceededBounds)
            && (r.Ok? ==>
                  && r.value.width > 0 && r.value.width % 32 == 0 && r.value.width <= 672
                  && r.value.height > 0 && r.value.height % 32 == 0 && r.value.height <= 192
                  && PadExpression(inkOf(MinMaxSize(requested))) == Some(r.value))
            && (r.Ok? <==>
                  && ratio > 0.0 && 1 <= requested.width <= 2688 && 1 <= requested.height <= 768
                  && inkOf(MinMaxSize(requested)).Some?)
            && (r == Err(LostInk) ==> inkOf(MinMaxSize(requested)).None?)
  {
    var bounded := MinMaxSize(requested);
    MinMaxFits(requested);
    var ink := inkOf(bounded);
    if ink.Some? { PaddedInkFits(ink.value, bounded); }
  }
}
