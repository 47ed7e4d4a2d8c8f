/** app/core/HandProcessor.py: the HandProcessor class, the detector the
    upload path uses. Its skin test and contour choice are the shared
    functions Pipeline.DetectSkin and Pipeline.GetHandContour; count_fingers
    and process_image are methods here, proved to compute Pipeline's results. */
module HandProcessor {
  import opened Vision
  import opened Pipeline

  /** count_fingers: rebuilds the triangle of every defect row, accepts the
      rows that pass the angle and depth tests, marks them, and reports one
      more than the number accepted, at most five. */
  method CountFingers(cv: OpenCv, contour: Option<Contour>, img: Image)
    returns (output: Picture, fingerCount: int)
    requires DefectsFor(cv, contour)
    ensures output == CountFingersResult(cv, contour, img).0
    ensures fingerCount == CountFingersResult(cv, contour, img).1 == FingerCount(cv, contour)
    ensures 0 <= fingerCount <= MaxFingers
    ensures contour.None? ==> output == Picture(img, []) && fingerCount == 0
  {
    if contour.None? {
      return Picture(img, []), 0;
    }
    var c := contour.value;
    output := Picture(img, []).Draw(Outline(c));
    assert output.overlays == [Outline(c)];
    var defects := cv.convexityDefects(c);
    if !defects.Defects? {
      // the call raised, or returned None
      return output, 0;
    }
    var fingertips;
    output, fingertips, fingerCount := MarkValleys(c, defects.rows, output);
    fingerCount := Min(fingerCount + 1, MaxFingers);
    output := DrawFingertips(output, fingertips);
    output := output.Draw(CountLabel(fingerCount));
    DefectsCaseResult(cv, c, img);
  }

  /** The loop of count_fingers over the defect rows: each row that passes
      the angle and depth tests gets a circle at its far point, and its end
      point is kept as a fingertip. */
  method MarkValleys(c: Contour, rows: seq<Defect>, output0: Picture)
    returns (output: Picture, fingertips: seq<Point>, fingerCount: int)
    requires DefectsIndex(c, rows)
    ensures output.base == output0.base
    ensures output.overlays == output0.overlays + ValleyMarks(FarPoints(c, Valleys(c, rows)))
    ensures fingertips == Fingertips(c, Valleys(c, rows))
    ensures fingerCount == |fingertips|
  {
    output := output0;
    fingerCount := 0;
    fingertips := [];
    ghost var accepted: seq<Defect> := [];
    for i := 0 to |rows|
      invariant DefectsIndex(c, rows[..i]) && accepted == Valleys(c, rows[..i])
      invariant fingertips == Fingertips(c, accepted)
      invariant fingerCount == |fingertips|
      invariant output.base == output0.base
      invariant output.overlays == output0.overlays + ValleyMarks(FarPoints(c, accepted))
    {
      ValleysStep(c, rows, i);
      var Defect(s, e, f, d) := rows[i];
      var start, end, far := c[s], c[e], c[f];
      if AngleAtMostRight(start, end, far) && DeepEnough(d) {
        MarksStep(c, accepted, rows[i]);
        output := output.Draw(ValleyMark(far));
        fingertips := fingertips + [end];
        fingerCount := fingerCount + 1;
        accepted := accepted + [rows[i]];
      }
    }
    assert rows[..|rows|] == rows;
  }

  /** The loop of count_fingers that draws a circle at every fingertip. */
  method DrawFingertips(output0: Picture, fingertips: seq<Point>) returns (output: Picture)
    ensures output.base == output0.base
    ensures output.overlays == output0.overlays + TipMarks(fingertips)
  {
    output := output0;
    for j := 0 to |fingertips|
      invariant output.base == output0.base
      invariant output.overlays == output0.overlays + TipMarks(fingertips[..j])
    {
      TipMarksStep(fingertips, j);
      output := output.Draw(TipMark(fingertips[j]));
    }
    assert fingertips[..|fingertips|] == fingertips;
  }

  /** process_image: channel normalisation, skin mask, hand contour, finger
      count, then the mask inset pasted onto the annotated image. OpenCV
      raises cv2.error for an image under 4 pixels wide or high. */
  method ProcessImage(cv: OpenCv, img: Image) returns (r: Result<(Picture, int)>)
    requires WellBehaved(cv)
    ensures r == ProcessImageResult(cv, img)
    ensures r.Failure? <==> InsetTooSmall(img)
    ensures r.Success? ==> 0 <= r.value.1 <= MaxFingers
  {
    ProcessImageCount(cv, img);
    var im := img;
    if FirstChannelBrighter(img) {
      im := SwapOuterChannels(img);
    }
    if NoPixels(im) {
      // cvtColor in detect_skin rejects an empty image
      return Failure(CvError("cvtColor"));
    }
    var skinMask := DetectSkin(cv, im);
    var handContour := GetHandContour(cv, skinMask);
    var resultImg, fingers := CountFingers(cv, handContour, im);
    if InsetTooSmall(resultImg.base) {
      // the inset's requested size has a side of 0
      return Failure(CvError("resize"));
    }
    var maskSmall := cv.resize(skinMask, resultImg.base.width / 4, resultImg.base.height / 4);
    resultImg := resultImg.Draw(MaskInset(maskSmall));
    return Success((resultImg, fingers));
  }
}
