/**
 * The camera helper of the Android app: the power-of-two sample size used
 * when decoding a full-resolution photo, the guard on the activity result,
 * and the size of the on-screen preview.
 */
module Camera {
  import opened Common

  /** `CAMERA_REQUEST_CODE`. */
  const CameraRequestCode := 100
  /** `Activity.RESULT_OK`. */
  const ResultOk := -1
  /** `MAX_IMAGE_DIMENSION`. */
  const MaxImageDimension := 1024
  /** `JPEG_QUALITY`. */
  const JpegQuality := 70

  /** The side the scale is computed from: the width when strictly wider, the height otherwise. */
  function LongerSide(width: int, height: int): (l: int)
    ensures l >= width && l >= height && (l == width || l == height)
  {
    if width > height then width else height
  }

  /**
   * `calculateScaleFactor`: the longer side over `maxDimension`, rounded up
   * to 1, 2 or 4 and capped at 8.
   */
  function CalculateScaleFactor(width: int, height: int, maxDimension: int): (f: int)
    requires maxDimension > 0
    ensures f == 1 || f == 2 || f == 4 || f == 8
  {
    var scale := LongerSide(width, height) as real / maxDimension as real;
    if scale <= 1.0 then 1
    else if scale <= 2.0 then 2
    else if scale <= 4.0 then 4
    else 8
  }

  lemma ScaleCompare(l: int, m: int, k: int)
    requires m > 0 && k > 0
    ensures l as real / m as real <= k as real <==> l <= k * m
  {
    var q := l as real / m as real;
    assert q * m as real == l as real;
    if q <= k as real {
      assert q * m as real <= k as real * m as real;
    }
    if l <= k * m {
      assert (k * m) as real == k as real * m as real;
      assert q * m as real <= k as real * m as real;
    }
  }

  /**
   * The sample size is the smallest of 1, 2, 4 that covers the longer side,
   * and 8 when none does; in particular it is 1 exactly when the photo is no
   * larger than `maxDimension`.
   */
  lemma {:induction false} ScaleFactorSpec(width: int, height: int, maxDimension: int)
    requires maxDimension > 0
    ensures var l, f := LongerSide(width, height), CalculateScaleFactor(width, height, maxDimension);
            (f == 1 <==> l <= maxDimension) &&
            (f == 2 <==> maxDimension < l <= 2 * maxDimension) &&
            (f == 4 <==> 2 * maxDimension < l <= 4 * maxDimension) &&
            (f == 8 <==> 4 * maxDimension < l)
  {
    var l := LongerSide(width, height);
    ScaleCompare(l, maxDimension, 1);
    ScaleCompare(l, maxDimension, 2);
    ScaleCompare(l, maxDimension, 4);
  }

  /** A larger photo never gets a smaller sample size. */
  lemma ScaleFactorMonotone(w1: int, h1: int, w2: int, h2: int, maxDimension: int)
    requires maxDimension > 0
    requires LongerSide(w1, h1) <= LongerSide(w2, h2)
    ensures CalculateScaleFactor(w1, h1, maxDimension) <= CalculateScaleFactor(w2, h2, maxDimension)
  {
    ScaleFactorSpec(w1, h1, maxDimension);
    ScaleFactorSpec(w2, h2, maxDimension);
  }

  /**
   * Up to four times the limit, sampling brings the longer side within the
   * limit; beyond that the cap of 8 leaves it larger.
   */
  lemma ScaleFactorBound(width: int, height: int, maxDimension: int)
    requires maxDimension > 0
    ensures var l, f := LongerSide(width, height), CalculateScaleFactor(width, height, maxDimension);
            (l <= 4 * maxDimension ==> l <= f * maxDimension) &&
            (l > 8 * maxDimension ==> l > f * maxDimension)
  {
    ScaleFactorSpec(width, height, maxDimension);
  }

  /**
   * `scaleBitmapForPreview`: the preview is as wide as the screen and its
   * height is the bitmap height times `screenWidth / width`, rounded.
   */
  function PreviewSize(screenWidth: int, width: int, height: int): (d: (int, int))
    requires width > 0
    ensures d.0 == screenWidth
    ensures var exact := height as real * screenWidth as real / width as real;
            exact - 0.5 < d.1 as real <= exact + 0.5
  {
    var scale := screenWidth as real / width as real;
    assert height as real * scale == height as real * screenWidth as real / width as real;
    (screenWidth, RoundHalfUp(height as real * scale))
  }

  /** What a photo becomes: its file, the sample size it was decoded with, and the JPEG quality. */
  datatype Capture = Capture(path: string, sampleSize: int, quality: int)

  class CameraManager {
    var currentPhotoPath: Option<string>
    /** Captures handed to the registered callback, oldest first. */
    var delivered: seq<Capture>

    constructor ()
      ensures currentPhotoPath == None && delivered == []
    {
      currentPhotoPath := None;
      delivered := [];
    }

    /** `createImageFile`: `JPEG_<stamp>_<unique>.jpg`, remembered as the current photo. */
    method CreateImageFile(stamp: string, unique: string) returns (path: string)
      modifies this`currentPhotoPath
      ensures path == "JPEG_" + stamp + "_" + unique + ".jpg"
      ensures currentPhotoPath == Some(path)
    {
      path := "JPEG_" + stamp + "_" + unique + ".jpg";
      currentPhotoPath := Some(path);
    }

    /**
     * `handleCameraResult`: only the camera request with `RESULT_OK` and a
     * remembered photo yields a capture, decoded with the sample size for
     * the photo's bounds (`width` x `height`) and compressed at quality 70.
     * `decodes` is whether the second `decodeFile` yields a bitmap; when it
     * does not, the source's `compress` call on null throws, and no capture
     * comes out. The capture is handed to the callback only when one is set
     * (`hasCallback`).
     */
    method HandleCameraResult(requestCode: int, resultCode: int, width: int, height: int, decodes: bool,
                              hasCallback: bool) returns (r: Option<Capture>)
      modifies this`delivered
      ensures r.Some? <==> requestCode == CameraRequestCode && resultCode == ResultOk && currentPhotoPath.Some? && decodes
      ensures r.Some? ==> r.value == Capture(currentPhotoPath.value, CalculateScaleFactor(width, height, MaxImageDimension), JpegQuality)
      ensures delivered == if r.Some? && hasCallback then old(delivered) + [r.value] else old(delivered)
    {
      if requestCode == CameraRequestCode && resultCode == ResultOk {
        if currentPhotoPath.None? || !decodes {
          return None;
        }
        var sampleSize := CalculateScaleFactor(width, height, MaxImageDimension);
        var capture := Capture(currentPhotoPath.value, sampleSize, JpegQuality);
        if hasCallback {
          delivered := delivered + [capture];
        }
        return Some(capture);
      }
      return None;
    }
  }
}
