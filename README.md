# Finger-detection server: a Dafny model of the counting pipeline

The server counts the extended fingers of a hand in a still image and returns
a number from 0 to 5 plus an annotated debug image. This project models the
decision logic wrapped around the OpenCV calls and proves properties of it.
That logic covers:

- the channel-order normalisation;
- the two-band HSV skin test;
- the choice of the largest contour above an area threshold;
- the finger-valley test on convexity defects (angle at the farthest point no
  more than 90 degrees, depth above 10 pixels in 1/256 fixed point);
- the count, with its +1 floor and its clamp at 5;
- the "last result" module globals written by `detect_fingers` and read by
  the getters.

The pipeline exists twice in the repository: `SimpleHandDetector` in
`app/core/finger_detection.py`, and `HandProcessor` in
`app/core/HandProcessor.py`, which is the copy the upload route uses through
`app/utils/image_utils.py`.

Modules:

- `Vision` (vision.dfy): the values exchanged with OpenCV (images, HSV pixels,
  masks, contours, defect rows). Also the record `OpenCv` of foreign calls,
  each a function of its inputs. A drawn image is a `Picture`: its source
  pixels plus the ordered list of drawing calls made on it.
- `Pipeline` (pipeline.dfy): the rules both detector copies share, written
  once, with reference definitions and lemmas. It also gives the results
  `CountFingersResult` and `ProcessImageResult` that the imperative code is
  proved to compute.
- `FingerDetection` (finger_detection.dfy) and `HandProcessor`
  (hand_processor.dfy): the `count_fingers` loop and `process_image` of each
  file, as methods. Class `FingerDetection.LastResult` holds the module
  globals of finger_detection.py, which start at 0 and `None`.
- `ImageUtils` (image_utils.dfy): class `LastResult` holds the globals of
  image_utils.py. A global that has never been bound is `None`, and reading it
  gives `NameError`.
- `Consistency` (consistency.dfy): client methods showing that the two
  detectors give identical results.

Inputs that come from outside the model:

- The file system and the image decoder (`cv2.imread`).
- BGR-to-HSV conversion.
- Morphology and blur.
- `findContours`, `contourArea`, `convexHull` with `convexityDefects`, and
  `resize`.

Each of these is a field of `OpenCv`. The model assumes what OpenCV
guarantees: defect indices are valid indices into their contour
(`Vision.WellBehaved`, `Vision.DefectsIndex`).

## Model

| member | source | states |
|---|---|---|
| `Pipeline.SkinValue` | app/core/HandProcessor.py:18-28 | The mask value of an HSV pixel is 255 iff the pixel is in the inclusive band H 0..20, S 20..255, V 70..255, or in the band H 170..180 with the same S and V bounds. Otherwise it is 0. The body evaluates the two `inRange` calls and their `bitwise_or`. |
| `Pipeline.BandMask` | app/core/HandProcessor.py:26-28 | The combined mask has the image's size. Each pixel is 255 exactly when that HSV pixel is in a skin band, and 0 exactly when it is not. |
| `Pipeline.DetectSkin` | app/core/HandProcessor.py:12-36 | The skin mask is OpenCV's dilation, erosion and blur applied to a mask of the image's size that is 255 exactly at the HSV pixels in a skin band and 0 at all others. |
| `Pipeline.MaxAreaIndex` | app/core/HandProcessor.py:46 | `max(contours, key=cv2.contourArea)` returns a contour of largest area, and the first one among equals (strict replacement during the scan). |
| `Pipeline.SelectHandContour` | app/core/HandProcessor.py:42-52 | No contours gives `None`. A contour is returned iff some contour's area is strictly above 5000. It is then the first contour of largest area, and its area is above 5000. |
| `Pipeline.GetHandContour` | app/core/HandProcessor.py:38-52 | Of the contours `findContours` returns for the mask, a contour is chosen iff one has an area strictly above 5000. The choice is then the first contour of largest area. |
| `Pipeline.AreaAtThresholdRejected` | app/core/finger_detection.py:43-53 | When the largest area is exactly 5000, `get_hand_contour` returns `None`. The same code appears at HandProcessor.py:42-52. |
| `Pipeline.BrighterIffLargerSum` | app/core/HandProcessor.py:110 | `mean(ch0) > mean(ch2)` holds iff channel 0's sum exceeds channel 2's. For an image without pixels numpy's mean is NaN and the test is false; both sums are then 0. |
| `Pipeline.NormalizeChannels` | app/core/HandProcessor.py:110-111 | The image is returned unchanged iff channel 0's sum does not exceed channel 2's (so equal means give no swap). Otherwise every pixel has channels 0 and 2 exchanged. Afterwards channel 0's sum never exceeds channel 2's. |
| `Pipeline.NormalizeIdempotent` | app/core/finger_detection.py:126-127 | Normalising twice gives the same image as normalising once. |
| `Pipeline.LawOfCosines` | app/core/finger_detection.py:92-98 | For integer points, b² + c² − a², computed from the three squared side lengths, equals twice the dot product (start − far)·(end − far). |
| `Pipeline.AngleTestIsDotProduct` | app/core/finger_detection.py:97-103 | The source's angle test is exactly the reference test `NotObtuseAt`: far differs from start and end, and (start − far)·(end − far) ≥ 0. A degenerate triangle, where far equals start or end, never passes. The source's test is arccos in degrees ≤ 90, with NaN when b or c is 0. |
| `Pipeline.DeepEnoughIff` | app/core/HandProcessor.py:93 | `d/256.0 > 10` holds iff the integer depth d is strictly greater than 2560. |
| `Pipeline.IsValleyIff` | app/core/HandProcessor.py:80-93 | A defect row is accepted iff its far point differs from its start and end points, (start − far)·(end − far) ≥ 0, and its depth d is above 2560 (10 pixels in 1/256 fixed point). |
| `Pipeline.ValleysMembers` | app/core/HandProcessor.py:78-96 | A defect row is among the accepted rows iff it is one of the input rows and passes both the angle and the depth test. |
| `Pipeline.DegenerateSkipped` | app/core/finger_detection.py:97-103 | A row whose far point equals its start or end point is rejected. Removing that row leaves the accepted rows unchanged, so it does not stop the later rows from being examined. |
| `Pipeline.FingerCount` | app/core/HandProcessor.py:54-106 | `count_fingers`' count is in [0, 5], and it is at least 1 whenever `convexityDefects` returns an array. |
| `Pipeline.FingerCountRange` | app/core/finger_detection.py:57-76 | The count is in [0, 5]. It is 0 exactly when there is no contour, or when `convexityDefects` raised or returned `None`. |
| `Pipeline.FingerCountSteps` | app/core/finger_detection.py:111 | With a defect array: zero accepted rows give 1, n ≤ 4 accepted give n + 1, and 4 or more give 5. |
| `Pipeline.NoValleyCountsOne` | app/core/HandProcessor.py:73-98 | A defect array none of whose rows is accepted still gives 1, not 0. |
| `Pipeline.ManyValleysClamp` | app/core/finger_detection.py:108-111 | Four or more rows that all pass the tests give exactly 5, never more. |
| `Pipeline.ProcessImageCount` | app/core/HandProcessor.py:108-129 | `process_image` fails exactly for an image under 4 pixels wide or high, with cv2.error. An image without pixels fails at `cvtColor`, the others at `resize`, whose requested inset size then has a side of 0. Otherwise it reports `count_fingers`' count unchanged, in [0, 5]. The image is then drawn on the normalised input, and its calls are those of `count_fingers` followed by the mask inset. |
| `HandProcessor.CountFingers` | app/core/HandProcessor.py:54-106 | Returns exactly `CountFingersResult`: the annotated picture and a count equal to `FingerCount`, in [0, 5]. With no contour it returns the input image untouched and 0. |
| `HandProcessor.MarkValleys` | app/core/HandProcessor.py:78-96 | The loop over the defect rows marks the far point of every accepted row, in defect order. It returns their end points as the fingertips, and as its running count the number of accepted rows. Loop invariant: after i rows, the state is that of the accepted rows among the first i. |
| `HandProcessor.DrawFingertips` | app/core/HandProcessor.py:100-101 | The loop adds one fingertip circle per fingertip, in order, after the calls already made, and leaves the underlying image alone. |
| `HandProcessor.ProcessImage` | app/core/HandProcessor.py:108-129 | Returns exactly `ProcessImageResult`. It fails with cv2.error exactly for an image under 4 pixels wide or high; otherwise the count is in [0, 5]. |
| `FingerDetection.CountFingers` | app/core/finger_detection.py:55-121 | Same contract as `HandProcessor.CountFingers`, proved for the copy in finger_detection.py. |
| `FingerDetection.MarkValleys` | app/core/finger_detection.py:85-108 | Same contract as `HandProcessor.MarkValleys`, for the copy in finger_detection.py. |
| `FingerDetection.DrawFingertips` | app/core/finger_detection.py:114-115 | Same contract as `HandProcessor.DrawFingertips`, for the copy in finger_detection.py. |
| `FingerDetection.ProcessImage` | app/core/finger_detection.py:123-145 | Returns exactly `ProcessImageResult`. It fails with cv2.error exactly for an image under 4 pixels wide or high; otherwise the count is in [0, 5]. |
| `Consistency.CountFingersAgree` | app/core/HandProcessor.py:54-106 | `HandProcessor.count_fingers` and `SimpleHandDetector.count_fingers` give the same image and count on every input. |
| `Consistency.ProcessImageAgree` | app/core/HandProcessor.py:108-129 | The two `process_image` copies give the same result on every image: the same image and count, or the same error. |
| `FingerDetection.LastResult.constructor` | app/core/finger_detection.py:5-7 | The globals start as count 0 and image `None`. |
| `FingerDetection.LastResult.DetectFingers` | app/core/finger_detection.py:150-176 | See the note on `DetectFingers` below the table. |
| `FingerDetection.LastResult.GetLastFingerCount` | app/core/finger_detection.py:178-185 | Returns the stored count: 0 before any detection, otherwise the last run's count, always in [0, 5]. |
| `FingerDetection.LastResult.GetHandSkeletonImage` | app/core/finger_detection.py:203-211 | Returns `None` before any detection, otherwise the last run's image. |
| `FingerDetection.LastResult.DetectHandSkeleton` | app/core/finger_detection.py:187-201 | Returns the count and the image of one and the same run. It fails with `ValueError` when the image cannot be read, and with cv2.error when the image is under 4 pixels wide or high. In both cases nothing changes. |
| `FingerDetection.LastResult.SaveDebugImage` | app/core/finger_detection.py:213-234 | Runs detection again, overwriting both globals with the new run's results, and writes that run's annotated image to the output path. The detection's `ValueError` or cv2.error propagates, with nothing changed and nothing written. |
| `ImageUtils.LastResult.constructor` | app/utils/image_utils.py:1-4 | Neither global is bound at import. |
| `ImageUtils.LastResult.DetectFingers` | app/utils/image_utils.py:6-29 | See the note on `DetectFingers` below the table; this copy runs through `HandProcessor.process_image`. |
| `ImageUtils.LastResult.GetLastFingerCount` | app/utils/image_utils.py:31-38 | Fails with `NameError` before the first successful detection; it does not default to 0. After that it returns the last run's count, in [0, 5]. |
| `ImageUtils.LastResult.GetHandSkeletonImage` | app/utils/image_utils.py:54-62 | Fails with `NameError` before the first successful detection. After that it returns the last run's annotated image. |
| `ImageUtils.LastResult.DetectHandSkeleton` | app/utils/image_utils.py:40-52 | Returns the count and the image of one and the same run. It fails with `ValueError` when the image cannot be read, and with cv2.error when the image is under 4 pixels wide or high. In both cases nothing changes. |
| `ImageUtils.LastResult.SaveDebugImage` | app/utils/image_utils.py:64-81 | Runs detection again, overwrites both globals with the new run's values, and writes that run's annotated image to the output path. The detection's `ValueError` or cv2.error propagates, with nothing changed and nothing written. |

Note on `DetectFingers`, which describes both copies:

- An unreadable image gives `ValueError` before either global is written.
- A readable image under 4 pixels wide or high gives cv2.error from inside
  `process_image`, and neither global is written. The docstring's promise of a
  count from 0 to 5 does not hold for such an image.
- Otherwise they return the count of `process_image` on the decoded image.
- They store its count and its image together.
- `min_finger_length` and `min_angle` do not appear in the contract, so they
  cannot change the result.

Both `LastResult` classes keep `Valid()` as an invariant: the two globals hold
their initial values, or the count and image of one single run. A reader
therefore never sees a count and an image from different runs.

## Left out

- The OpenCV image operations are inputs, not modelled: BGR-to-HSV
  conversion, dilation and erosion, the Gaussian blur, `findContours`,
  `contourArea`, `convexHull`, `convexityDefects`, `resize`, and the pixels
  that `drawContours`, `circle`, `putText` and the mask inset produce. Drawing
  is recorded as the ordered list of drawing calls.
- The failures of `cvtColor` and `resize` are modelled from the image's size
  alone: an image without pixels, and a requested inset with a side of 0.
  Other OpenCV exceptions are not.
- `convexHull` raising is not modelled. The source calls it outside the `try`,
  so an exception there would propagate out of `process_image`. It is folded
  into the `convexityDefects` input, whose exception the source does catch.
- Floating point is not modelled. The angle test is the exact integer
  law-of-cosines sign, not `np.arccos` in double precision. The two can
  disagree at exactly 90 degrees, where a² computed from `np.sqrt` may round
  above b² + c². They can also disagree for collinear points near 0 degrees,
  where a ratio rounded above 1 gives NaN and the row is rejected.
- The squared side lengths `dx**2 + dy**2` are computed in numpy `int32`.
  Their wrap-around is not modelled: it starts once a sum exceeds 2^31 − 1
  (dx = dy = 32768 already does), and image coordinates are far smaller.
- np.mean is modelled as an exact rational mean. Below 2^44 pixels its
  double-precision result orders the two channels the same way. The sums are
  then integers below 2^52, so they are exact. The two means then differ by at
  least 1/N > 2^-44, more than one unit in the last place of a double below
  256, so rounding keeps their order.
- `img.shape[2] == 3`: every image here has three channels, as `cv2.imread`
  returns with its default flags.
- Aliasing is not modelled, because images are values. With no contour,
  `count_fingers` returns the input array itself, and `process_image` then
  pastes the mask inset into that array in place. The model returns the same
  picture.
- `cv2.boundingRect` is computed by `count_fingers` but never used.
- `detect_skin` of finger_detection.py is the same code as that of
  HandProcessor.py; both are `Pipeline.DetectSkin`. The unused globals
  declared at HandProcessor.py:4-6 are not modelled.
- File contents are not modelled. `cv2.imread` is a function of the path,
  and `cv2.imwrite` is recorded as the `FileWrite` it would perform. The
  `None` branch of `save_debug_image` cannot be taken after a successful
  detection; it is modelled but the contract does not describe it.
- Concurrency is not modelled: the source has no locking, and each method
  here runs to completion.
- The HTTP layer, pydantic models, test.py and run.py are not part of this
  model. Two facts observed there:
  - `FingerCountResponse` declares `le=4` (app/models/FingerCountResponse.py:5)
    although the pipeline can report 5.
  - The `/current` route reads the count kept by finger_detection.py
    (app/routes/current.py:3,13), which the upload path, through
    image_utils.py, never writes.
