/** app/utils/image_utils.py: the module functions the upload route calls,
    over a shared HandProcessor. Its globals last_detected_count and
    hand_skeleton_image have no initialiser: until detect_fingers first binds
    them, reading them raises NameError. Each is modelled as an Option field,
    None while the name is unbound. */
module ImageUtils {
  import opened Vision
  import opened Pipeline
  import HandProcessor

  class LastResult {
    const cv: OpenCv
    var lastDetectedCount: Option<int>
    var handSkeletonImage: Option<Picture>
    /** The decoded image of the run whose result the globals hold. */
    ghost var lastImage: Option<Image>

    /** Both globals are unbound, or both hold the result of one run: a
        reader never sees a count and an image from different runs. */
    ghost predicate Valid()
      reads this
    {
      && WellBehaved(cv)
      && match lastImage
         case None => lastDetectedCount == None && handSkeletonImage == None
         case Some(img) =>
           && ProcessImageResult(cv, img).Success?
           && lastDetectedCount == Some(ProcessImageResult(cv, img).value.1)
           && handSkeletonImage == Some(ProcessImageResult(cv, img).value.0)
    }

    /** Module import: neither global is bound. */
    constructor (cv: OpenCv)
      requires WellBehaved(cv)
      ensures Valid() && this.cv == cv
      ensures lastDetectedCount == None && handSkeletonImage == None
    {
      this.cv := cv;
      lastDetectedCount := None;
      handSkeletonImage := None;
      lastImage := None;
    }

    /** detect_fingers: read the image (ValueError, with nothing stored, when
        it cannot be read), run HandProcessor.process_image, bind both
        globals. The two tuning parameters are accepted and ignored. */
    method DetectFingers(imagePath: string, minFingerLength: int := 30, minAngle: int := 80)
      returns (r: Result<int>)
      requires Valid()
      modifies this
      ensures Valid()
      ensures cv.imread(imagePath).None? ==>
        r == Failure(ValueError(imagePath)) && unchanged(this)
      ensures cv.imread(imagePath).Some? ==>
        (r.Failure? <==> InsetTooSmall(cv.imread(imagePath).value))
      ensures cv.imread(imagePath).Some? ==>
        match ProcessImageResult(cv, cv.imread(imagePath).value)
        case Failure(e) => r == Failure(e) && e.CvError? && unchanged(this)
        case Success((pic, n)) =>
          && lastImage == cv.imread(imagePath)
          && r == Success(n) && 0 <= n <= MaxFingers
          && lastDetectedCount == Some(n) && handSkeletonImage == Some(pic)
    {
      var image := cv.imread(imagePath);
      if image.None? {
        return Failure(ValueError(imagePath));
      }
      var result := HandProcessor.ProcessImage(cv, image.value);
      match result
      case Failure(e) =>
        r := Failure(e);
      case Success((resultImg, fingers)) =>
        lastDetectedCount := Some(fingers);
        handSkeletonImage := Some(resultImg);
        lastImage := image;
        r := Success(fingers);
    }

    /** get_last_finger_count: NameError before the first detection, then the
        count of the latest run. */
    method GetLastFingerCount() returns (r: Result<int>)
      requires Valid()
      ensures lastImage.None? ==> r == Failure(NameError("last_detected_count"))
      ensures lastImage.Some? ==> r == Success(ProcessImageResult(cv, lastImage.value).value.1)
      ensures r.Success? ==> 0 <= r.value <= MaxFingers
    {
      match lastDetectedCount
      case None =>
        r := Failure(NameError("last_detected_count"));
      case Some(n) =>
        r := Success(n);
    }

    /** get_hand_skeleton_image: NameError before the first detection, then
        the annotated image of the latest run. */
    method GetHandSkeletonImage() returns (r: Result<Picture>)
      requires Valid()
      ensures lastImage.None? ==> r == Failure(NameError("hand_skeleton_image"))
      ensures lastImage.Some? ==> r == Success(ProcessImageResult(cv, lastImage.value).value.0)
    {
      match handSkeletonImage
      case None =>
        r := Failure(NameError("hand_skeleton_image"));
      case Some(p) =>
        r := Success(p);
    }

    /** detect_hand_skeleton: the count and the image of one and the same run. */
    method DetectHandSkeleton(imagePath: string) returns (r: Result<(int, Picture)>)
      requires Valid()
      modifies this
      ensures Valid()
      ensures cv.imread(imagePath).None? ==>
        r == Failure(ValueError(imagePath)) && unchanged(this)
      ensures cv.imread(imagePath).Some? ==>
        (r.Failure? <==> InsetTooSmall(cv.imread(imagePath).value))
      ensures cv.imread(imagePath).Some? ==>
        match ProcessImageResult(cv, cv.imread(imagePath).value)
        case Failure(e) => r == Failure(e) && e.CvError? && unchanged(this)
        case Success((pic, n)) =>
          lastImage == cv.imread(imagePath) && r == Success((n, pic))
    {
      var count := DetectFingers(imagePath);
      match count
      case Failure(e) =>
        r := Failure(e);
      case Success(n) =>
        var image := GetHandSkeletonImage();
        match image
        case Failure(e) =>
          r := Failure(e);
        case Success(p) =>
          r := Success((n, p));
    }

    /** save_debug_image: runs detection again, overwriting both globals, and
        writes the new annotated image to outputPath. */
    method SaveDebugImage(imagePath: string, outputPath: string := "debug_image.jpg")
      returns (r: Result<Option<FileWrite>>)
      requires Valid()
      modifies this
      ensures Valid()
      ensures cv.imread(imagePath).None? ==>
        r == Failure(ValueError(imagePath)) && unchanged(this)
      ensures cv.imread(imagePath).Some? ==>
        (r.Failure? <==> InsetTooSmall(cv.imread(imagePath).value))
      ensures cv.imread(imagePath).Some? ==>
        match ProcessImageResult(cv, cv.imread(imagePath).value)
        case Failure(e) => r == Failure(e) && e.CvError? && unchanged(this)
        case Success((pic, _)) =>
          lastImage == cv.imread(imagePath) && r == Success(Some(FileWrite(outputPath, pic)))
    {
      var count := DetectFingers(imagePath);
      match count
      case Failure(e) =>
        r := Failure(e);
      case Success(_) =>
        match handSkeletonImage
        case Some(p) =>
          r := Success(Some(FileWrite(outputPath, p)));
        case None =>
          match cv.imread(imagePath)
          case Some(image) =>
            r := Success(Some(FileWrite(outputPath, Picture(image, [NoHandLabel]))));
          case None =>
            r := Success(None);
    }
  }
}
