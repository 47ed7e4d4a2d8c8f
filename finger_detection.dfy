/** app/core/finger_detection.py: the SimpleHandDetector class and the module
    functions around its shared instance. The detector's skin test and contour
    choice are the shared functions Pipeline.DetectSkin and
    Pipeline.GetHandContour; count_fingers and process_image are methods here.
    The module globals last_detected_count (initially 0) and
    hand_skeleton_image (initially None) are the fields of LastResult. */
module FingerDetection {
  import opened Vision
  import opened Pipeline

  /** SimpleHandDetector.count_fingers. */
  method CountFingers(cv: OpenCv, contour: Option<Contour>, img: Image)
    returns (output: Picture, fingerCount: int)
    requires DefectsFor(cv, contour)
    ensures output == CountFingersResult(cv, contour, img).0
    ensures fingerCount == CountFingersResult(cv, contour, img).1 == FingerCount(cv, contour)
    ensures 0 <= fingerCount <= MaxFingers
    ensures contour.None? ==> output == Picture(img, []) && fingerCount == 0
  {
    if contour.None? {
      return Picture(img, []), 0;
    }
    var c := contour.value;
    output := Picture(img, []).Draw(Outline(c));
    assert output.overlays == [Outline(c)];
    var defects := cv.convexityDefects(c);
    if !defects.Defects? {
      // the call raised, or returned None
      return output, 0;
    }
    var fingertips;
    output, fingertips, fingerCount := MarkValleys(c, defects.rows, output);
    fingerCount := Min(fingerCount + 1, MaxFingers);
    output := DrawFingertips(output, fingertips);
    output := output.Draw(CountLabel(fingerCount));
    DefectsCaseResult(cv, c, img);
  }

  /** The loop of count_fingers over the defect rows: each row that passes
      the angle and depth tests gets a circle at its far point, and its end
      point is kept as a fingertip. */
  method MarkValleys(c: Contour, rows: seq<Defect>, output0: Picture)
    returns (output: Picture, fingertips: seq<Point>, fingerCount: int)
    requires DefectsIndex(c, rows)
    ensures output.base == output0.base
    ensures output.overlays == output0.overlays + ValleyMarks(FarPoints(c, Valleys(c, rows)))
    ensures fingertips == Fingertips(c, Valleys(c, rows))
    ensures fingerCount == |fingertips|
  {
    output := output0;
    fingerCount := 0;
    fingertips := [];
    ghost var accepted: seq<Defect> := [];
    for i := 0 to |rows|
      invariant DefectsIndex(c, rows[..i]) && accepted == Valleys(c, rows[..i])
      invariant fingertips == Fingertips(c, accepted)
      invariant fingerCount == |fingertips|
      invariant output.base == output0.base
      invariant output.overlays == output0.overlays + ValleyMarks(FarPoints(c, accepted))
    {
      ValleysStep(c, rows, i);
      var Defect(s, e, f, d) := rows[i];
      var start, end, far := c[s], c[e], c[f];
      if AngleAtMostRight(start, end, far) && DeepEnough(d) {
        MarksStep(c, accepted, rows[i]);
        output := output.Draw(ValleyMark(far));
        fingertips := fingertips + [end];
        fingerCount := fingerCount + 1;
        accepted := accepted + [rows[i]];
      }
    }
    assert rows[..|rows|] == rows;
  }

  /** The loop of count_fingers that draws a circle at every fingertip. */
  method DrawFingertips(output0: Picture, fingertips: seq<Point>) returns (output: Picture)
    ensures output.base == output0.base
    ensures output.overlays == output0.overlays + TipMarks(fingertips)
  {
    output := output0;
    for j := 0 to |fingertips|
      invariant output.base == output0.base
      invariant output.overlays == output0.overlays + TipMarks(fingertips[..j])
    {
      TipMarksStep(fingertips, j);
      output := output.Draw(TipMark(fingertips[j]));
    }
    assert fingertips[..|fingertips|] == fingertips;
  }

  /** SimpleHandDetector.process_image; cv2.error for an image under 4
      pixels wide or high. */
  method ProcessImage(cv: OpenCv, img: Image) returns (r: Result<(Picture, int)>)
    requires WellBehaved(cv)
    ensures r == ProcessImageResult(cv, img)
    ensures r.Failure? <==> InsetTooSmall(img)
    ensures r.Success? ==> 0 <= r.value.1 <= MaxFingers
  {
    ProcessImageCount(cv, img);
    var im := img;
    if FirstChannelBrighter(img) {
      im := SwapOuterChannels(img);
    }
    if NoPixels(im) {
      // cvtColor in detect_skin rejects an empty image
      return Failure(CvError("cvtColor"));
    }
    var skinMask := DetectSkin(cv, im);
    var handContour := GetHandContour(cv, skinMask);
    var resultImg, fingers := CountFingers(cv, handContour, im);
    if InsetTooSmall(resultImg.base) {
      // the inset's requested size has a side of 0
      return Failure(CvError("resize"));
    }
    var maskSmall := cv.resize(skinMask, resultImg.base.width / 4, resultImg.base.height / 4);
    resultImg := resultImg.Draw(MaskInset(maskSmall));
    return Success((resultImg, fingers));
  }

  /** The module globals of finger_detection.py together with the OpenCV
      library its detector calls. */
  class LastResult {
    const cv: OpenCv
    var lastDetectedCount: int
    var handSkeletonImage: Option<Picture>
    /** The decoded image of the run whose result the globals hold. */
    ghost var lastImage: Option<Image>

    /** Both globals hold their initial values, or both come from one run. */
    ghost predicate Valid()
      reads this
    {
      && WellBehaved(cv)
      && match lastImage
         case None => lastDetectedCount == 0 && handSkeletonImage == None
         case Some(img) =>
           && ProcessImageResult(cv, img).Success?
           && lastDetectedCount == ProcessImageResult(cv, img).value.1
           && handSkeletonImage == Some(ProcessImageResult(cv, img).value.0)
    }

    /** Module import: last_detected_count = 0, hand_skeleton_image = None. */
    constructor (cv: OpenCv)
      requires WellBehaved(cv)
      ensures Valid() && this.cv == cv
      ensures lastDetectedCount == 0 && handSkeletonImage == None
    {
      this.cv := cv;
      lastDetectedCount := 0;
      handSkeletonImage := None;
      lastImage := None;
    }

    /** detect_fingers: read the image, run the detector, store both results.
        The two tuning parameters are accepted and ignored. */
    method DetectFingers(imagePath: string, minFingerLength: int := 30, minAngle: int := 80)
      returns (r: Result<int>)
      requires Valid()
      modifies this
      ensures Valid()
      ensures cv.imread(imagePath).None? ==>
        r == Failure(ValueError(imagePath)) && unchanged(this)
      ensures cv.imread(imagePath).Some? ==>
        (r.Failure? <==> InsetTooSmall(cv.imread(imagePath).value))
      ensures cv.imread(imagePath).Some? ==>
        match ProcessImageResult(cv, cv.imread(imagePath).value)
        case Failure(e) => r == Failure(e) && e.CvError? && unchanged(this)
        case Success((pic, n)) =>
          && lastImage == cv.imread(imagePath)
          && r == Success(n) && 0 <= n <= MaxFingers
          && lastDetectedCount == n && handSkeletonImage == Some(pic)
    {
      var image := cv.imread(imagePath);
      if image.None? {
        return Failure(ValueError(imagePath));
      }
      var result := ProcessImage(cv, image.value);
      match result
      case Failure(e) =>
        r := Failure(e);
      case Success((resultImg, fingers)) =>
        lastDetectedCount := fingers;
        handSkeletonImage := Some(resultImg);
        lastImage := image;
        r := Success(fingers);
    }

    /** get_last_finger_count: 0 before any detection. */
    method GetLastFingerCount() returns (n: int)
      requires Valid()
      ensures n == lastDetectedCount
      ensures lastImage.None? ==> n == 0
      ensures lastImage.Some? ==> n == ProcessImageResult(cv, lastImage.value).value.1
      ensures 0 <= n <= MaxFingers
    {
      n := lastDetectedCount;
    }

    /** get_hand_skeleton_image: None before any detection. */
    method GetHandSkeletonImage() returns (p: Option<Picture>)
      requires Valid()
      ensures p == handSkeletonImage
      ensures p.None? <==> lastImage.None?
      ensures lastImage.Some? ==> p == Some(ProcessImageResult(cv, lastImage.value).value.0)
    {
      p := handSkeletonImage;
    }

    /** detect_hand_skeleton: the count and the image of one and the same run. */
    method DetectHandSkeleton(imagePath: string) returns (r: Result<(int, Option<Picture>)>)
      requires Valid()
      modifies this
      ensures Valid()
      ensures cv.imread(imagePath).None? ==>
        r == Failure(ValueError(imagePath)) && unchanged(this)
      ensures cv.imread(imagePath).Some? ==>
        (r.Failure? <==> InsetTooSmall(cv.imread(imagePath).value))
      ensures cv.imread(imagePath).Some? ==>
        match ProcessImageResult(cv, cv.imread(imagePath).value)
        case Failure(e) => r == Failure(e) && e.CvError? && unchanged(this)
        case Success((pic, n)) =>
          lastImage == cv.imread(imagePath) && r == Success((n, Some(pic)))
    {
      var count := DetectFingers(imagePath);
      match count
      case Failure(e) =>
        r := Failure(e);
      case Success(n) =>
        var image := GetHandSkeletonImage();
        r := Success((n, image));
    }

    /** save_debug_image: runs detection again, overwriting both globals, and
        writes the new annotated image to outputPath. */
    method SaveDebugImage(imagePath: string, outputPath: string := "debug_image.jpg")
      returns (r: Result<Option<FileWrite>>)
      requires Valid()
      modifies this
      ensures Valid()
      ensures cv.imread(imagePath).None? ==>
        r == Failure(ValueError(imagePath)) && unchanged(this)
      ensures cv.imread(imagePath).Some? ==>
        (r.Failure? <==> InsetTooSmall(cv.imread(imagePath).value))
      ensures cv.imread(imagePath).Some? ==>
        match ProcessImageResult(cv, cv.imread(imagePath).value)
        case Failure(e) => r == Failure(e) && e.CvError? && unchanged(this)
        case Success((pic, _)) =>
          lastImage == cv.imread(imagePath) && r == Success(Some(FileWrite(outputPath, pic)))
    {
      var count := DetectFingers(imagePath);
      match count
      case Failure(e) =>
        r := Failure(e);
      case Success(_) =>
        match handSkeletonImage
        case Some(p) =>
          r := Success(Some(FileWrite(outputPath, p)));
        case None =>
          match cv.imread(imagePath)
          case Some(image) =>
            r := Success(Some(FileWrite(outputPath, Picture(image, [NoHandLabel]))));
          case None =>
            r := Success(None);
    }
  }
}
