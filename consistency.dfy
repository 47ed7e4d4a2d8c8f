/** The two copies of the detector, SimpleHandDetector in finger_detection.py
    and HandProcessor in HandProcessor.py, give the same results on every
    input. */
module Consistency {
  import opened Vision
  import opened Pipeline
  import FingerDetection
  import HandProcessor

  method CountFingersAgree(cv: OpenCv, contour: Option<Contour>, img: Image)
    returns (simple: (Picture, int), processor: (Picture, int))
    requires DefectsFor(cv, contour)
    ensures simple == processor
  {
    var p1, n1 := FingerDetection.CountFingers(cv, contour, img);
    var p2, n2 := HandProcessor.CountFingers(cv, contour, img);
    simple, processor := (p1, n1), (p2, n2);
  }

  method ProcessImageAgree(cv: OpenCv, img: Image)
    returns (simple: Result<(Picture, int)>, processor: Result<(Picture, int)>)
    requires WellBehaved(cv)
    ensures simple == processor
  {
    simple := FingerDetection.ProcessImage(cv, img);
    processor := HandProcessor.ProcessImage(cv, img);
  }
}
