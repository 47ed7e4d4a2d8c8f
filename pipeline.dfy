/** The rules the finger-detection pipeline applies between its OpenCV calls,
    stated once: the skin band test, the choice of the hand contour, the
    channel-order normalisation, the finger-valley test and the finger count,
    together with the reference results that the imperative code of
    finger_detection.py and HandProcessor.py is proved to compute. */
module Pipeline {
  import opened Vision

  // Thresholds of the reference configuration.
  const MinHandArea: real := 5000.0
  const DepthScale: real := 256.0
  const MinValleyDepth: real := 10.0
  const MaxFingers: int := 5

  // The two inclusive HSV bands taken as skin.
  const LowerSkin: Hsv := Hsv(0, 20, 70)
  const UpperSkin: Hsv := Hsv(20, 255, 255)
  const LowerSkin2: Hsv := Hsv(170, 20, 70)
  const UpperSkin2: Hsv := Hsv(180, 255, 255)

  function Min(a: int, b: int): int
  {
    if a <= b then a else b
  }

  // ---------------------------------------------------------------------
  // Skin segmentation, before the morphological clean-up

  /** cv2.inRange on one pixel: 255 when every channel lies within its
      inclusive bounds, 0 otherwise. */
  function InRange(p: Hsv, lo: Hsv, hi: Hsv): byte
  {
    if lo.h <= p.h <= hi.h && lo.s <= p.s <= hi.s && lo.v <= p.v <= hi.v then 255 else 0
  }

  /** cv2.bitwise_or on one pair of mask values. */
  function BitwiseOr(a: byte, b: byte): byte
  {
    ((a as bv8) | (b as bv8)) as int as byte
  }

  /** Reference definition of a skin pixel: a low-hue or a high-hue band,
      both with saturation at least 20 and value at least 70. */
  predicate InSkinBand(p: Hsv)
  {
    || (0 <= p.h <= 20 && 20 <= p.s <= 255 && 70 <= p.v <= 255)
    || (170 <= p.h <= 180 && 20 <= p.s <= 255 && 70 <= p.v <= 255)
  }

  /** The value the combined mask holds for one HSV pixel. */
  function SkinValue(p: Hsv): (r: byte)
    ensures r == 255 <==> InSkinBand(p)
    ensures r == 0 <==> !InSkinBand(p)
  {
    BitwiseOr(InRange(p, LowerSkin, UpperSkin), InRange(p, LowerSkin2, UpperSkin2))
  }

  /** m has the given size and is 255 at the HSV pixels in a skin band, 0 elsewhere. */
  predicate MarksSkin(m: Mask, width: nat, height: nat, hsv: seq<Hsv>)
  {
    && m.width == width && m.height == height && |m.values| == |hsv|
    && (forall i :: 0 <= i < |hsv| ==> (m.values[i] == 255 <==> InSkinBand(hsv[i])))
    && (forall i :: 0 <= i < |hsv| ==> (m.values[i] == 0 <==> !InSkinBand(hsv[i])))
  }

  /** The union of the two band masks of an HSV image. */
  function BandMask(width: nat, height: nat, hsv: seq<Hsv>): (m: Mask)
    ensures MarksSkin(m, width, height, hsv)
  {
    Mask(width, height, seq(|hsv|, i requires 0 <= i < |hsv| => SkinValue(hsv[i])))
  }

  /** detect_skin: HSV conversion, band mask, then dilation, erosion and blur. */
  function DetectSkin(cv: OpenCv, img: Image): (r: Mask)
    ensures exists m :: r == cv.morphology(m) && MarksSkin(m, img.width, img.height, cv.toHsv(img))
  {
    var m := BandMask(img.width, img.height, cv.toHsv(img));
    cv.morphology(m)
  }

  // ---------------------------------------------------------------------
  // Choice of the hand contour

  /** k is the first index of a contour of largest area. */
  predicate IsFirstLargest(cs: seq<Contour>, area: Contour -> real, k: int)
  {
    && 0 <= k < |cs|
    && (forall j :: 0 <= j < |cs| ==> area(cs[j]) <= area(cs[k]))
    && (forall j :: 0 <= j < k ==> area(cs[j]) < area(cs[k]))
  }

  /** The index Python's max(cs, key=area) picks: it scans left to right and
      replaces its candidate only by a strictly larger one. */
  function MaxAreaIndex(cs: seq<Contour>, area: Contour -> real): (k: nat)
    requires |cs| > 0
    ensures IsFirstLargest(cs, area, k)
    decreases |cs|
  {
    if |cs| == 1 then 0
    else
      var k := MaxAreaIndex(cs[..|cs| - 1], area);
      if area(cs[|cs| - 1]) > area(cs[k]) then |cs| - 1 else k
  }

  /** get_hand_contour after cv2.findContours: the first largest contour when
      its area is strictly above the minimum, else none. */
  function SelectHandContour(cs: seq<Contour>, area: Contour -> real): (r: Option<Contour>)
    ensures |cs| == 0 ==> r == None
    ensures r.Some? <==> exists j :: 0 <= j < |cs| && area(cs[j]) > MinHandArea
    ensures r.Some? ==> area(r.value) > MinHandArea
    ensures r.Some? ==> exists k :: IsFirstLargest(cs, area, k) && r.value == cs[k]
  {
    if |cs| == 0 then None
    else
      var maxContour := cs[MaxAreaIndex(cs, area)];
      if area(maxContour) > MinHandArea then Some(maxContour) else None
  }

  /** get_hand_contour: the contours OpenCV finds in the mask, reduced to the
      first largest one when its area is above the minimum. */
  function GetHandContour(cv: OpenCv, mask: Mask): (r: Option<Contour>)
    ensures var cs := cv.findContours(mask);
      && (r.Some? <==> exists j :: 0 <= j < |cs| && cv.contourArea(cs[j]) > MinHandArea)
      && (r.Some? ==> exists k :: IsFirstLargest(cs, cv.contourArea, k) && r.value == cs[k])
  {
    SelectHandContour(cv.findContours(mask), cv.contourArea)
  }

  /** A largest area of exactly the minimum is rejected: the threshold is strict. */
  lemma AreaAtThresholdRejected(cs: seq<Contour>, area: Contour -> real, k: int)
    requires IsFirstLargest(cs, area, k) && area(cs[k]) == MinHandArea
    ensures SelectHandContour(cs, area) == None
  {
  }

  // ---------------------------------------------------------------------
  // Channel-order normalisation

  function ChannelValue(p: Pixel, k: nat): int
  {
    if k == 0 then p.c0 as int else if k == 1 then p.c1 as int else p.c2 as int
  }

  function ChannelSum(px: seq<Pixel>, k: nat): int
  {
    if px == [] then 0 else ChannelValue(px[0], k) + ChannelSum(px[1..], k)
  }

  /** np.mean(img[:,:,k]) for an image with at least one pixel. */
  function ChannelMean(img: Image, k: nat): real
    requires |img.pixels| > 0
  {
    (ChannelSum(img.pixels, k) as real) / (|img.pixels| as real)
  }

  /** The test np.mean(img[:,:,0]) > np.mean(img[:,:,2]). The mean of no
      pixels is NaN, and a comparison with NaN is false. */
  predicate FirstChannelBrighter(img: Image)
  {
    |img.pixels| > 0 && ChannelMean(img, 0) > ChannelMean(img, 2)
  }

  function SwapPixels(px: seq<Pixel>): (r: seq<Pixel>)
    ensures |r| == |px|
  {
    seq(|px|, i requires 0 <= i < |px| => Pixel(px[i].c2, px[i].c1, px[i].c0))
  }

  /** cv2.cvtColor(img, cv2.COLOR_RGB2BGR): channels 0 and 2 exchanged. */
  function SwapOuterChannels(img: Image): Image
  {
    Image(img.width, img.height, SwapPixels(img.pixels))
  }

  lemma {:induction false} SwapPixelsSums(px: seq<Pixel>)
    ensures ChannelSum(SwapPixels(px), 0) == ChannelSum(px, 2)
    ensures ChannelSum(SwapPixels(px), 2) == ChannelSum(px, 0)
  {
    if px != [] {
      assert SwapPixels(px)[1..] == SwapPixels(px[1..]);
      SwapPixelsSums(px[1..]);
    }
  }

  /** Comparing the two means is comparing the two sums: both divide by the
      same pixel count. */
  lemma BrighterIffLargerSum(img: Image)
    ensures FirstChannelBrighter(img) <==> ChannelSum(img.pixels, 0) > ChannelSum(img.pixels, 2)
  {
  }

  /** process_image's first step: exchange channels 0 and 2 when channel 0 is
      brighter on average. */
  function NormalizeChannels(img: Image): (r: Image)
    ensures r.width == img.width && r.height == img.height && |r.pixels| == |img.pixels|
    ensures ChannelSum(r.pixels, 0) <= ChannelSum(r.pixels, 2)
    ensures r == img <==> ChannelSum(img.pixels, 0) <= ChannelSum(img.pixels, 2)
    ensures r != img ==> forall i :: 0 <= i < |img.pixels| ==>
      r.pixels[i] == Pixel(img.pixels[i].c2, img.pixels[i].c1, img.pixels[i].c0)
  {
    BrighterIffLargerSum(img);
    SwapPixelsSums(img.pixels);
    if FirstChannelBrighter(img) then SwapOuterChannels(img) else img
  }

  /** Normalising a normalised image changes nothing. */
  lemma NormalizeIdempotent(img: Image)
    ensures NormalizeChannels(NormalizeChannels(img)) == NormalizeChannels(img)
  {
  }

  // ---------------------------------------------------------------------
  // Finger-valley test

  function SqDist(p: Point, q: Point): int
  {
    (p.x - q.x) * (p.x - q.x) + (p.y - q.y) * (p.y - q.y)
  }

  /** The source's `angle <= 90`, where angle = arccos((b^2 + c^2 - a^2) / (2bc))
      in degrees and a = |end - start|, b = |far - start|, c = |end - far|.
      When b or c is 0 the ratio is NaN and the test is false; otherwise the
      ratio lies in [-1, 1] and its arccos is at most 90 degrees exactly when
      the ratio is not negative, that is, when b^2 + c^2 - a^2 is not. */
  predicate AngleAtMostRight(start: Point, end: Point, far: Point)
  {
    var a2 := SqDist(end, start);
    var b2 := SqDist(far, start);
    var c2 := SqDist(end, far);
    b2 != 0 && c2 != 0 && b2 + c2 - a2 >= 0
  }

  function Sub(p: Point, q: Point): Point
  {
    Point(p.x - q.x, p.y - q.y)
  }

  function Dot(u: Point, v: Point): int
  {
    u.x * v.x + u.y * v.y
  }

  /** Reference definition: far differs from both ends and the angle at far
      between the two ends is not obtuse. */
  predicate NotObtuseAt(far: Point, start: Point, end: Point)
  {
    far != start && far != end && Dot(Sub(start, far), Sub(end, far)) >= 0
  }

  lemma LawOfCosines(start: Point, end: Point, far: Point)
    ensures SqDist(far, start) + SqDist(end, far) - SqDist(end, start)
         == 2 * Dot(Sub(start, far), Sub(end, far))
  {
  }

  lemma SqDistZero(p: Point, q: Point)
    ensures SqDist(p, q) == 0 <==> p == q
  {
  }

  /** With integer points the source's angle test is exactly the dot-product
      test, and a degenerate triangle never passes it. */
  lemma AngleTestIsDotProduct(start: Point, end: Point, far: Point)
    ensures AngleAtMostRight(start, end, far) <==> NotObtuseAt(far, start, end)
    ensures far == start || far == end ==> !AngleAtMostRight(start, end, far)
  {
    LawOfCosines(start, end, far);
    SqDistZero(far, start);
    SqDistZero(end, far);
  }

  /** The source's `d/256.0 > 10`. */
  predicate DeepEnough(d: int)
  {
    (d as real) / DepthScale > MinValleyDepth
  }

  /** The fixed-point depth test is a strict integer threshold. */
  lemma DeepEnoughIff(d: int)
    ensures DeepEnough(d) <==> d > 2560
  {
  }

  /** A defect row counts as a finger valley. */
  predicate IsValley(c: Contour, df: Defect)
    requires InContour(c, df)
  {
    AngleAtMostRight(c[df.s], c[df.e], c[df.f]) && DeepEnough(df.d)
  }

  /** A row is a valley iff its angle at the far point is not obtuse, the far
      point differing from both ends, and its depth is above 2560/256 pixels. */
  lemma IsValleyIff(c: Contour, df: Defect)
    requires InContour(c, df)
    ensures IsValley(c, df) <==> NotObtuseAt(c[df.f], c[df.s], c[df.e]) && df.d > 2560
  {
    AngleTestIsDotProduct(c[df.s], c[df.e], c[df.f]);
    DeepEnoughIff(df.d);
  }

  /** The accepted rows, in defect order. */
  function Valleys(c: Contour, ds: seq<Defect>): (vs: seq<Defect>)
    requires DefectsIndex(c, ds)
    ensures |vs| <= |ds| && DefectsIndex(c, vs)
  {
    if ds == [] then []
    else
      var last := ds[|ds| - 1];
      Valleys(c, ds[..|ds| - 1]) + (if IsValley(c, last) then [last] else [])
  }

  /** Every accepted row is a valley from the input, and every valley in the
      input is accepted. */
  lemma {:induction false} ValleysMembers(c: Contour, ds: seq<Defect>, df: Defect)
    requires DefectsIndex(c, ds)
    ensures df in Valleys(c, ds) <==> df in ds && IsValley(c, df)
    decreases |ds|
  {
    if ds != [] {
      var init := ds[..|ds| - 1];
      ValleysMembers(c, init, df);
      assert ds == init + [ds[|ds| - 1]];
    }
  }

  lemma {:induction false} ValleysAppend(c: Contour, xs: seq<Defect>, ys: seq<Defect>)
    requires DefectsIndex(c, xs) && DefectsIndex(c, ys)
    ensures DefectsIndex(c, xs + ys)
    ensures Valleys(c, xs + ys) == Valleys(c, xs) + Valleys(c, ys)
    decreases |ys|
  {
    if ys == [] {
      assert xs + ys == xs;
    } else {
      var yinit, ylast := ys[..|ys| - 1], ys[|ys| - 1];
      var both := xs + ys;
      assert both[..|both| - 1] == xs + yinit;
      assert both[|both| - 1] == ylast;
      ValleysAppend(c, xs, yinit);
      var tail := if IsValley(c, ylast) then [ylast] else [];
      assert Valleys(c, both) == Valleys(c, xs + yinit) + tail;
      assert Valleys(c, ys) == Valleys(c, yinit) + tail;
    }
  }

  lemma DegenerateRejected(c: Contour, df: Defect)
    requires InContour(c, df)
    requires c[df.f] == c[df.s] || c[df.f] == c[df.e]
    ensures !IsValley(c, df)
  {
    AngleTestIsDotProduct(c[df.s], c[df.e], c[df.f]);
  }

  lemma RejectedAlone(c: Contour, df: Defect)
    requires InContour(c, df) && !IsValley(c, df)
    ensures Valleys(c, [df]) == []
  {
    assert [df][..0] == [];
  }

  /** Removing a rejected row leaves the accepted rows unchanged. */
  lemma RemoveRejected(c: Contour, xs: seq<Defect>, df: Defect, ys: seq<Defect>)
    requires DefectsIndex(c, xs) && DefectsIndex(c, ys) && InContour(c, df)
    requires !IsValley(c, df)
    ensures DefectsIndex(c, xs + [df] + ys) && DefectsIndex(c, xs + ys)
    ensures Valleys(c, xs + [df] + ys) == Valleys(c, xs + ys)
  {
    RejectedAlone(c, df);
    ValleysAppend(c, xs, [df]);
    assert Valleys(c, xs + [df]) == Valleys(c, xs);
    ValleysAppend(c, xs + [df], ys);
    ValleysAppend(c, xs, ys);
  }

  /** A degenerate row, whose farthest point coincides with its start or end,
      is skipped: removing it leaves the accepted rows unchanged, so rows
      after it are judged as if it were absent. */
  lemma DegenerateSkipped(c: Contour, ds: seq<Defect>, i: int)
    requires DefectsIndex(c, ds) && 0 <= i < |ds|
    requires c[ds[i].f] == c[ds[i].s] || c[ds[i].f] == c[ds[i].e]
    ensures !IsValley(c, ds[i])
    ensures Valleys(c, ds) == Valleys(c, ds[..i] + ds[i + 1..])
  {
    var df, before, after := ds[i], ds[..i], ds[i + 1..];
    assert ds == before + [df] + after;
    DegenerateRejected(c, df);
    RemoveRejected(c, before, df, after);
  }

  lemma {:induction false} AllValleysKept(c: Contour, ds: seq<Defect>)
    requires DefectsIndex(c, ds)
    requires forall i :: 0 <= i < |ds| ==> IsValley(c, ds[i])
    ensures Valleys(c, ds) == ds
    decreases |ds|
  {
    if ds != [] {
      var init := ds[..|ds| - 1];
      AllValleysKept(c, init);
      assert IsValley(c, ds[|ds| - 1]);
      assert Valleys(c, ds) == init + [ds[|ds| - 1]];
      assert init + [ds[|ds| - 1]] == ds;
    }
  }

  lemma {:induction false} NoValleysKept(c: Contour, ds: seq<Defect>)
    requires DefectsIndex(c, ds)
    requires forall i :: 0 <= i < |ds| ==> !IsValley(c, ds[i])
    ensures Valleys(c, ds) == []
    decreases |ds|
  {
    if ds != [] {
      var init := ds[..|ds| - 1];
      NoValleysKept(c, init);
      assert !IsValley(c, ds[|ds| - 1]);
      assert Valleys(c, ds) == Valleys(c, init) + [];
    }
  }

  // ---------------------------------------------------------------------
  // Finger count and annotated image

  /** The end points of the accepted rows: the fingertips. */
  function Fingertips(c: Contour, vs: seq<Defect>): (tips: seq<Point>)
    requires DefectsIndex(c, vs)
    ensures |tips| == |vs|
    ensures forall i :: 0 <= i < |vs| ==> tips[i] == c[vs[i].e]
  {
    seq(|vs|, i requires 0 <= i < |vs| => c[vs[i].e])
  }

  /** The farthest points of the accepted rows. */
  function FarPoints(c: Contour, vs: seq<Defect>): (fars: seq<Point>)
    requires DefectsIndex(c, vs)
    ensures |fars| == |vs|
    ensures forall i :: 0 <= i < |vs| ==> fars[i] == c[vs[i].f]
  {
    seq(|vs|, i requires 0 <= i < |vs| => c[vs[i].f])
  }

  function ValleyMarks(ps: seq<Point>): (os: seq<Overlay>)
    ensures |os| == |ps|
  {
    seq(|ps|, i requires 0 <= i < |ps| => ValleyMark(ps[i]))
  }

  function TipMarks(ps: seq<Point>): (os: seq<Overlay>)
    ensures |os| == |ps|
  {
    seq(|ps|, i requires 0 <= i < |ps| => TipMark(ps[i]))
  }

  /** One loop step of count_fingers: the accepted rows of a longer prefix. */
  lemma ValleysStep(c: Contour, ds: seq<Defect>, i: int)
    requires DefectsIndex(c, ds) && 0 <= i < |ds|
    ensures DefectsIndex(c, ds[..i]) && DefectsIndex(c, ds[..i + 1])
    ensures Valleys(c, ds[..i + 1])
         == Valleys(c, ds[..i]) + (if IsValley(c, ds[i]) then [ds[i]] else [])
  {
    assert ds[..i + 1][..i] == ds[..i];
  }

  /** Marks and fingertips of one more accepted row. */
  lemma MarksStep(c: Contour, vs: seq<Defect>, v: Defect)
    requires DefectsIndex(c, vs) && InContour(c, v)
    ensures DefectsIndex(c, vs + [v])
    ensures Fingertips(c, vs + [v]) == Fingertips(c, vs) + [c[v.e]]
    ensures ValleyMarks(FarPoints(c, vs + [v])) == ValleyMarks(FarPoints(c, vs)) + [ValleyMark(c[v.f])]
  {
  }

  lemma TipMarksStep(ps: seq<Point>, j: int)
    requires 0 <= j < |ps|
    ensures TipMarks(ps[..j + 1]) == TipMarks(ps[..j]) + [TipMark(ps[j])]
  {
  }

  predicate DefectsFor(cv: OpenCv, contour: Option<Contour>)
  {
    contour.Some? ==> ResultIndexes(contour.value, cv.convexityDefects(contour.value))
  }

  /** count_fingers' count: 0 without a contour or without a defect array,
      otherwise one more than the number of valleys, capped at five. */
  function FingerCount(cv: OpenCv, contour: Option<Contour>): (n: int)
    requires DefectsFor(cv, contour)
    ensures 0 <= n <= MaxFingers
    ensures contour.Some? && cv.convexityDefects(contour.value).Defects? ==> 1 <= n
  {
    match contour
    case None => 0
    case Some(c) =>
      match cv.convexityDefects(c)
      case Defects(ds) => Min(|Valleys(c, ds)| + 1, MaxFingers)
      case _ => 0
  }

  /** count_fingers' image and count together. */
  function CountFingersResult(cv: OpenCv, contour: Option<Contour>, img: Image): (Picture, int)
    requires DefectsFor(cv, contour)
  {
    match contour
    case None => (Picture(img, []), 0)
    case Some(c) =>
      match cv.convexityDefects(c)
      case Defects(ds) =>
        var vs := Valleys(c, ds);
        var n := FingerCount(cv, contour);
        (Picture(img, [Outline(c)] + ValleyMarks(FarPoints(c, vs)) + TipMarks(Fingertips(c, vs)) + [CountLabel(n)]), n)
      case _ => (Picture(img, [Outline(c)]), 0)
  }

  /** Proof helper: unfolds count_fingers' result once a defect array exists. */
  lemma DefectsCaseResult(cv: OpenCv, c: Contour, img: Image)
    requires ResultIndexes(c, cv.convexityDefects(c)) && cv.convexityDefects(c).Defects?
    ensures var vs := Valleys(c, cv.convexityDefects(c).rows);
      var n := Min(|vs| + 1, MaxFingers);
      CountFingersResult(cv, Some(c), img)
      == (Picture(img, [Outline(c)] + ValleyMarks(FarPoints(c, vs)) + TipMarks(Fingertips(c, vs)) + [CountLabel(n)]), n)
  {
  }

  /** The count is in [0, 5] and is 0 exactly when there is no contour or no
      defect array; with a defect array it is at least 1. */
  lemma FingerCountRange(cv: OpenCv, contour: Option<Contour>)
    requires DefectsFor(cv, contour)
    ensures 0 <= FingerCount(cv, contour) <= MaxFingers
    ensures FingerCount(cv, contour) == 0
        <==> contour.None? || !cv.convexityDefects(contour.value).Defects?
  {
  }

  /** Zero valleys give 1, four give 5, and any more still give 5. */
  lemma FingerCountSteps(cv: OpenCv, c: Contour)
    requires ResultIndexes(c, cv.convexityDefects(c)) && cv.convexityDefects(c).Defects?
    ensures var n := |Valleys(c, cv.convexityDefects(c).rows)|;
      && (n == 0 ==> FingerCount(cv, Some(c)) == 1)
      && (n <= 4 ==> FingerCount(cv, Some(c)) == n + 1)
      && (n >= 4 ==> FingerCount(cv, Some(c)) == MaxFingers)
  {
  }

  /** A non-empty defect array none of whose rows is a valley still reports
      one finger, the hand itself. */
  lemma NoValleyCountsOne(cv: OpenCv, c: Contour)
    requires ResultIndexes(c, cv.convexityDefects(c)) && cv.convexityDefects(c).Defects?
    requires forall i :: 0 <= i < |cv.convexityDefects(c).rows| ==>
      !IsValley(c, cv.convexityDefects(c).rows[i])
    ensures FingerCount(cv, Some(c)) == 1
  {
    NoValleysKept(c, cv.convexityDefects(c).rows);
  }

  /** Five or more valleys are still reported as five fingers. */
  lemma ManyValleysClamp(cv: OpenCv, c: Contour)
    requires ResultIndexes(c, cv.convexityDefects(c)) && cv.convexityDefects(c).Defects?
    requires |cv.convexityDefects(c).rows| >= 4
    requires forall i :: 0 <= i < |cv.convexityDefects(c).rows| ==>
      IsValley(c, cv.convexityDefects(c).rows[i])
    ensures FingerCount(cv, Some(c)) == MaxFingers
  {
    AllValleysKept(c, cv.convexityDefects(c).rows);
  }

  /** cvtColor raises cv2.error on an image without pixels. */
  predicate NoPixels(img: Image)
  {
    img.width == 0 || img.height == 0
  }

  /** cv2.resize with the default scale factors raises cv2.error when a side
      of the requested size is 0; process_image asks for a quarter of the
      image's width and height. */
  predicate InsetTooSmall(img: Image)
  {
    img.width / 4 == 0 || img.height / 4 == 0
  }

  /** process_image's image and count for one decoded image, or the
      cv2.error it raises. */
  function ProcessImageResult(cv: OpenCv, img: Image): Result<(Picture, int)>
    requires WellBehaved(cv)
  {
    var im := NormalizeChannels(img);
    if NoPixels(im) then Failure(CvError("cvtColor"))
    else
      var skinMask := DetectSkin(cv, im);
      var handContour := GetHandContour(cv, skinMask);
      var (out, n) := CountFingersResult(cv, handContour, im);
      if InsetTooSmall(out.base) then Failure(CvError("resize"))
      else Success((out.Draw(MaskInset(cv.resize(skinMask, out.base.width / 4, out.base.height / 4))), n))
  }

  /** process_image fails exactly for an image under 4 pixels wide or high.
      Otherwise it reports count_fingers' count unchanged, and the mask inset
      only adds to the image, drawn on the normalised input. */
  lemma ProcessImageCount(cv: OpenCv, img: Image)
    requires WellBehaved(cv)
    ensures ProcessImageResult(cv, img).Failure? <==> InsetTooSmall(img)
    ensures NoPixels(img) ==> ProcessImageResult(cv, img) == Failure(CvError("cvtColor"))
    ensures !NoPixels(img) && InsetTooSmall(img) ==> ProcessImageResult(cv, img) == Failure(CvError("resize"))
    ensures !InsetTooSmall(img) ==>
      var im := NormalizeChannels(img);
      var contour := GetHandContour(cv, DetectSkin(cv, im));
      var (pic, n) := ProcessImageResult(cv, img).value;
      && n == FingerCount(cv, contour)
      && 0 <= n <= MaxFingers
      && pic.base == im
      && pic.overlays[..|pic.overlays| - 1] == CountFingersResult(cv, contour, im).0.overlays
  {
  }
}
