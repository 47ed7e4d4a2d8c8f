/** Values that cross the boundary between the finger-detection pipeline and
    OpenCV / numpy: images, masks, contours, convexity defects, the symbolic
    result of drawing on an image, and the foreign calls themselves, which the
    pipeline receives as a record of functions. */
module Vision {

  /** An 8-bit channel value (numpy uint8). */
  newtype byte = x: int | 0 <= x < 256

  datatype Option<+T> = None | Some(value: T)

  /** The exceptions the core raises. */
  datatype Error =
    | ValueError(path: string)   // cv2.imread could not read the file
    | NameError(name: string)    // a module global read before it was ever bound
    | CvError(call: string)      // cv2.error raised by a failed assertion inside an OpenCV call

  datatype Result<+T> = Success(value: T) | Failure(error: Error)

  /** An integer pixel coordinate, as stored in an OpenCV contour. */
  datatype Point = Point(x: int, y: int)

  /** The boundary points of one region, in contour order. */
  type Contour = seq<Point>

  /** One row (s, e, f, d) of cv2.convexityDefects: indices of the start, end
      and farthest contour points, and the depth in fixed point (pixels * 256). */
  datatype Defect = Defect(s: int, e: int, f: int, d: int)

  /** What cv2.convexityDefects produces for a contour and its hull: an
      exception, None, or an array of defect rows. */
  datatype DefectResult = Raised | NoDefects | Defects(rows: seq<Defect>)

  /** A pixel of a 3-channel image, channels in storage order 0, 1, 2. */
  datatype Pixel = Pixel(c0: byte, c1: byte, c2: byte)

  /** A 3-channel 8-bit image; pixels are row-major. */
  datatype Image = Image(width: nat, height: nat, pixels: seq<Pixel>)

  /** A pixel in OpenCV's 8-bit HSV space (hue 0..179, saturation and value 0..255). */
  datatype Hsv = Hsv(h: byte, s: byte, v: byte)

  /** A single-channel 8-bit image. */
  datatype Mask = Mask(width: nat, height: nat, values: seq<byte>)

  /** One drawing call made on an output image, in the order it is made. */
  datatype Overlay =
    | Outline(contour: Contour)      // cv2.drawContours of the hand contour
    | ValleyMark(far: Point)         // cv2.circle at an accepted defect's farthest point
    | TipMark(tip: Point)            // cv2.circle at a fingertip
    | CountLabel(count: int)         // cv2.putText "Fingers: n"
    | MaskInset(mask: Mask)          // the resized skin mask pasted into the top-left corner
    | NoHandLabel                    // cv2.putText "No hand detected"

  /** An image as its source pixels plus the drawing calls applied to it. */
  datatype Picture = Picture(base: Image, overlays: seq<Overlay>) {
    function Draw(o: Overlay): Picture
    {
      Picture(base, overlays + [o])
    }
  }

  /** An image file written by cv2.imwrite. */
  datatype FileWrite = FileWrite(path: string, picture: Picture)

  /** The OpenCV calls the pipeline makes, as functions of their inputs.
      convexityDefects stands for cv2.convexHull(returnPoints=False) followed
      by cv2.convexityDefects on the same contour. */
  datatype OpenCv = OpenCv(
    imread: string -> Option<Image>,
    toHsv: Image -> seq<Hsv>,
    morphology: Mask -> Mask,
    findContours: Mask -> seq<Contour>,
    contourArea: Contour -> real,
    convexityDefects: Contour -> DefectResult,
    resize: (Mask, nat, nat) -> Mask)

  /** The three indices of a defect row point into the contour. */
  predicate InContour(c: Contour, df: Defect)
  {
    0 <= df.s < |c| && 0 <= df.e < |c| && 0 <= df.f < |c|
  }

  predicate DefectsIndex(c: Contour, ds: seq<Defect>)
  {
    forall i :: 0 <= i < |ds| ==> InContour(c, ds[i])
  }

  predicate ResultIndexes(c: Contour, r: DefectResult)
  {
    r.Defects? ==> DefectsIndex(c, r.rows)
  }

  /** OpenCV's guarantee: convexityDefects only returns indices into its contour. */
  ghost predicate WellBehaved(cv: OpenCv)
  {
    forall c: Contour :: ResultIndexes(c, cv.convexityDefects(c))
  }
}
