/**
 * Image normalisation in the medicine scanner before upload: the Exif
 * orientation fix, the bound of 800 x 800 pixels, and the handling of the
 * temporary capture file. Pixels are an abstract grid of colour values; the
 * JPEG codec and Base64 are not part of this model.
 */
module ScannerImage {
  import opened Common

  /** A decoded bitmap: `height` rows of `width` colour values each. */
  datatype Bitmap = Bitmap(width: nat, height: nat, pixels: seq<seq<int>>)

  /** A decoded image always has at least one pixel, and its rows match its size. */
  predicate WellFormed(b: Bitmap) {
    b.width > 0 && b.height > 0 && |b.pixels| == b.height &&
    forall r :: 0 <= r < b.height ==> |b.pixels[r]| == b.width
  }

  /** `postRotate(90)`: a quarter turn clockwise; row `r` of the result is column `r` read bottom-up. */
  function Rotate90(b: Bitmap): (t: Bitmap)
    requires WellFormed(b)
    ensures WellFormed(t) && t.width == b.height && t.height == b.width
    ensures forall r, c :: 0 <= r < t.height && 0 <= c < t.width ==> t.pixels[r][c] == b.pixels[b.height - 1 - c][r]
  {
    Bitmap(b.height, b.width, seq(b.width, r requires 0 <= r < b.width =>
      seq(b.height, c requires 0 <= c < b.height =>
        b.pixels[b.height - 1 - c][r])))
  }

  /** `postRotate(180)`: a half turn. */
  function Rotate180(b: Bitmap): (t: Bitmap)
    requires WellFormed(b)
    ensures WellFormed(t) && t.width == b.width && t.height == b.height
    ensures forall r, c :: 0 <= r < t.height && 0 <= c < t.width ==> t.pixels[r][c] == b.pixels[b.height - 1 - r][b.width - 1 - c]
  {
    Bitmap(b.width, b.height, seq(b.height, r requires 0 <= r < b.height =>
      seq(b.width, c requires 0 <= c < b.width =>
        b.pixels[b.height - 1 - r][b.width - 1 - c])))
  }

  /** `postRotate(270)`: a quarter turn counter-clockwise; row `r` of the result is column `width - 1 - r`. */
  function Rotate270(b: Bitmap): (t: Bitmap)
    requires WellFormed(b)
    ensures WellFormed(t) && t.width == b.height && t.height == b.width
    ensures forall r, c :: 0 <= r < t.height && 0 <= c < t.width ==> t.pixels[r][c] == b.pixels[c][b.width - 1 - r]
  {
    Bitmap(b.height, b.width, seq(b.width, r requires 0 <= r < b.width =>
      seq(b.height, c requires 0 <= c < b.height =>
        b.pixels[c][b.width - 1 - r])))
  }

  /** `postScale(-1, 1)`: a mirror image left to right. */
  function FlipHorizontal(b: Bitmap): (t: Bitmap)
    requires WellFormed(b)
    ensures WellFormed(t) && t.width == b.width && t.height == b.height
    ensures forall r, c :: 0 <= r < t.height && 0 <= c < t.width ==> t.pixels[r][c] == b.pixels[r][b.width - 1 - c]
  {
    Bitmap(b.width, b.height, seq(b.height, r requires 0 <= r < b.height =>
      seq(b.width, c requires 0 <= c < b.width =>
        b.pixels[r][b.width - 1 - c])))
  }

  /** `postScale(1, -1)`: a mirror image top to bottom. */
  function FlipVertical(b: Bitmap): (t: Bitmap)
    requires WellFormed(b)
    ensures WellFormed(t) && t.width == b.width && t.height == b.height
    ensures forall r, c :: 0 <= r < t.height && 0 <= c < t.width ==> t.pixels[r][c] == b.pixels[b.height - 1 - r][c]
  {
    Bitmap(b.width, b.height, seq(b.height, r requires 0 <= r < b.height =>
      seq(b.width, c requires 0 <= c < b.width =>
        b.pixels[b.height - 1 - r][c])))
  }

  /** Two bitmaps with the same size and the same pixel at every position are equal. */
  lemma SamePixels(a: Bitmap, b: Bitmap)
    requires WellFormed(a) && WellFormed(b) && a.width == b.width && a.height == b.height
    requires forall r, c :: 0 <= r < a.height && 0 <= c < a.width ==> a.pixels[r][c] == b.pixels[r][c]
    ensures a == b
  {
    forall r | 0 <= r < a.height ensures a.pixels[r] == b.pixels[r] {
      assert forall c :: 0 <= c < a.width ==> a.pixels[r][c] == b.pixels[r][c];
    }
  }

  /** A quarter turn back undoes a quarter turn. */
  lemma RotateQuarterInverse(b: Bitmap)
    requires WellFormed(b)
    ensures Rotate270(Rotate90(b)) == b && Rotate90(Rotate270(b)) == b
  {
    SamePixels(Rotate270(Rotate90(b)), b);
    SamePixels(Rotate90(Rotate270(b)), b);
  }

  /** Each flip, and the half turn, is its own inverse; the half turn is both flips. */
  lemma FlipsInvolutive(b: Bitmap)
    requires WellFormed(b)
    ensures FlipHorizontal(FlipHorizontal(b)) == b
    ensures FlipVertical(FlipVertical(b)) == b
    ensures Rotate180(Rotate180(b)) == b
    ensures Rotate180(b) == FlipHorizontal(FlipVertical(b))
  {
    FlipHorizontalInvolutive(b);
    FlipVerticalInvolutive(b);
    Rotate180Involutive(b);
    Rotate180IsBothFlips(b);
  }

  lemma FlipHorizontalInvolutive(b: Bitmap)
    requires WellFormed(b)
    ensures FlipHorizontal(FlipHorizontal(b)) == b
  {
    SamePixels(FlipHorizontal(FlipHorizontal(b)), b);
  }

  lemma FlipVerticalInvolutive(b: Bitmap)
    requires WellFormed(b)
    ensures FlipVertical(FlipVertical(b)) == b
  {
    SamePixels(FlipVertical(FlipVertical(b)), b);
  }

  lemma Rotate180Involutive(b: Bitmap)
    requires WellFormed(b)
    ensures Rotate180(Rotate180(b)) == b
  {
    SamePixels(Rotate180(Rotate180(b)), b);
  }

  lemma Rotate180IsBothFlips(b: Bitmap)
    requires WellFormed(b)
    ensures Rotate180(b) == FlipHorizontal(FlipVertical(b))
  {
    SamePixels(Rotate180(b), FlipHorizontal(FlipVertical(b)));
  }

  /** Exif Orientation values (tag 0x0112, CIPA DC-008 / Exif 2.3 section 4.6.4 A). */
  const OrientationNormal := 1
  const OrientationFlipHorizontal := 2
  const OrientationRotate180 := 3
  const OrientationFlipVertical := 4
  const OrientationTranspose := 5
  const OrientationRotate90 := 6
  const OrientationTransverse := 7
  const OrientationRotate270 := 8

  /** What reading the metadata gave: an exception, or the tag value (`ORIENTATION_NORMAL` when the tag is absent). */
  datatype ExifRead = ReadFailed | Orientation(tag: int)

  predicate Corrected(tag: int) {
    tag == OrientationRotate90 || tag == OrientationRotate180 || tag == OrientationRotate270 ||
    tag == OrientationFlipHorizontal || tag == OrientationFlipVertical
  }

  /**
   * `fixImageOrientation`: the five handled tags select a turn or a flip;
   * every other value, transpose and transverse included, and a failed read
   * give back the input.
   */
  function FixImageOrientation(b: Bitmap, exif: ExifRead): (t: Bitmap)
    requires WellFormed(b)
    ensures WellFormed(t)
    ensures !(exif.Orientation? && Corrected(exif.tag)) ==> t == b
    ensures exif.Orientation? && (exif.tag == OrientationRotate90 || exif.tag == OrientationRotate270)
            ==> t.width == b.height && t.height == b.width
    ensures !(exif.Orientation? && (exif.tag == OrientationRotate90 || exif.tag == OrientationRotate270))
            ==> t.width == b.width && t.height == b.height
  {
    match exif
    case ReadFailed => b
    case Orientation(tag) =>
      if tag == OrientationRotate90 then Rotate90(b)
      else if tag == OrientationRotate180 then Rotate180(b)
      else if tag == OrientationRotate270 then Rotate270(b)
      else if tag == OrientationFlipHorizontal then FlipHorizontal(b)
      else if tag == OrientationFlipVertical then FlipVertical(b)
      else b
  }

  /** The bound on each side before upload. */
  const MaxSide := 800
  /** JPEG quality of the uploaded image. */
  const JpegQuality := 70

  /** `min(800 / w, 800 / h)`. */
  function FitScale(w: nat, h: nat): (s: real)
    requires w > 0 && h > 0
    ensures s > 0.0
    ensures s == MaxSide as real / w as real || s == MaxSide as real / h as real
  {
    var sw := MaxSide as real / w as real;
    var sh := MaxSide as real / h as real;
    if sw <= sh then sw else sh
  }

  /** The target size: unchanged within the bound, otherwise each side times `FitScale`, rounded. */
  function FitDimensions(w: nat, h: nat): (d: (int, int))
    requires w > 0 && h > 0
  {
    if w > MaxSide || h > MaxSide then
      var s := FitScale(w, h);
      (RoundHalfUp(w as real * s), RoundHalfUp(h as real * s))
    else (w, h)
  }

  lemma QuotientOrder(a: nat, b: nat)
    requires 0 < a <= b
    ensures MaxSide as real / b as real <= MaxSide as real / a as real
  {
    var x := MaxSide as real / b as real;
    assert x * b as real == MaxSide as real;
    assert x * a as real <= MaxSide as real;
  }

  /**
   * After fitting both sides are at most 800, and the longer side of an
   * oversized image becomes exactly 800.
   */
  lemma {:induction false} FitWithinBound(w: nat, h: nat)
    requires w > 0 && h > 0
    ensures 0 <= FitDimensions(w, h).0 <= MaxSide && 0 <= FitDimensions(w, h).1 <= MaxSide
    ensures (w > MaxSide || h > MaxSide) && w >= h ==> FitDimensions(w, h).0 == MaxSide
    ensures (w > MaxSide || h > MaxSide) && h >= w ==> FitDimensions(w, h).1 == MaxSide
  {
    if w > MaxSide || h > MaxSide {
      if w >= h {
        QuotientOrder(h, w);
        ScaledSides(w, h);
      } else {
        QuotientOrder(w, h);
        ScaledSides(h, w);
      }
    }
  }

  /** Scaling by 800 over the longer side maps the longer side to 800 and the shorter into 0..800. */
  lemma ScaledSides(long: nat, short: nat)
    requires 0 < short <= long
    ensures var s := MaxSide as real / long as real;
            RoundHalfUp(long as real * s) == MaxSide && 0 <= RoundHalfUp(short as real * s) <= MaxSide
  {
    var s := MaxSide as real / long as real;
    assert long as real * s == MaxSide as real;
    assert short as real * s <= long as real * s;
    RoundHalfUpMonotone(short as real * s, MaxSide as real);
    RoundHalfUpMonotone(0.0, short as real * s);
  }

  /** Images within the bound keep their size, so fitting a fitted image changes nothing. */
  lemma FitIdempotent(w: nat, h: nat)
    requires w > 0 && h > 0
    requires FitDimensions(w, h).0 > 0 && FitDimensions(w, h).1 > 0
    ensures w <= MaxSide && h <= MaxSide ==> FitDimensions(w, h) == (w, h)
    ensures FitDimensions(FitDimensions(w, h).0, FitDimensions(w, h).1) == FitDimensions(w, h)
  {
    FitWithinBound(w, h);
  }

  /** A 1600 x 1200 photo is sent as 800 x 600. */
  lemma FitExample()
    ensures FitDimensions(1600, 1200) == (800, 600)
  {
    assert FitScale(1600, 1200) == 0.5;
  }

  /**
   * `createScaledBitmap` to `w x h`, with each target pixel taken from the
   * source pixel it falls in (the platform's bilinear filter is not modelled).
   */
  function Scale(b: Bitmap, w: nat, h: nat): (t: Bitmap)
    requires WellFormed(b) && w > 0 && h > 0
    ensures WellFormed(t) && t.width == w && t.height == h
  {
    Bitmap(w, h, seq(h, r requires 0 <= r < h =>
      seq(w, c requires 0 <= c < w =>
        ScaleIndex(r, b.height, h); ScaleIndex(c, b.width, w); b.pixels[r * b.height / h][c * b.width / w])))
  }

  lemma ScaleIndex(i: nat, n: nat, m: nat)
    requires i < m && n > 0
    ensures i * n / m < n
  {
    assert i * n < m * n;
  }

  /** The decoded file, as `BitmapFactory.decodeFile` returned it (null when the file is not an image). */
  datatype Decoded = DecodeNull | Image(bitmap: Bitmap)

  /** The extras of the intent that opens the medicine-information screen. */
  datatype Payload = Payload(image: Bitmap, quality: int, caption: string)

  datatype Outcome = FileNotFound | DecodeFailed | ProcessingError | Sent(payload: Payload)

  /** `"Medicine image captured - WxH"`. */
  function CaptionFor(b: Bitmap): (s: string)
    ensures StartsWith(s, "Medicine image captured - ")
  {
    "Medicine image captured - " + NatToString(b.width) + "x" + NatToString(b.height)
  }

  /** `"temp_image_" + millis + ".jpg"`, the name of a capture in the cache directory. */
  function TempName(millis: nat): (s: string)
    ensures StartsWith(s, "temp_image_")
  {
    "temp_image_" + NatToString(millis) + ".jpg"
  }

  /** Captures taken at different milliseconds never share a file. */
  lemma TempNameInjective(a: nat, b: nat)
    requires TempName(a) == TempName(b)
    ensures a == b
  {
    var sa, sb := NatToString(a), NatToString(b);
    assert |sa| == |sb|;
    assert sa == TempName(a)[11..11 + |sa|];
    assert sb == TempName(b)[11..11 + |sb|];
    NatToStringInjective(a, b);
  }

  /** The scanner screen: the files in its cache directory and the screens it opened. */
  class ScannerActivity {
    var cacheFiles: set<string>
    var started: seq<Payload>
    var finished: bool

    constructor ()
      ensures cacheFiles == {} && started == [] && !finished
    {
      cacheFiles := {};
      started := [];
      finished := false;
    }

    /**
     * `captureImage`: nothing without a ready camera; otherwise the capture
     * goes to `temp_image_<millis>.jpg`, which exists afterwards when the
     * camera reports it saved.
     */
    method CaptureImage(cameraReady: bool, millis: nat, saved: bool) returns (path: Option<string>)
      modifies this`cacheFiles
      ensures !cameraReady ==> path == None && cacheFiles == old(cacheFiles)
      ensures cameraReady ==> path == Some(TempName(millis))
      ensures cameraReady ==> cacheFiles == if saved then old(cacheFiles) + {TempName(millis)} else old(cacheFiles)
    {
      if !cameraReady {
        return None;
      }
      var name := TempName(millis);
      if saved {
        cacheFiles := cacheFiles + {name};
      }
      path := Some(name);
    }

    /**
     * `processImage`: a missing file or an undecodable one ends processing
     * with nothing deleted and nothing sent. Otherwise orientation is fixed,
     * then the image is fitted into 800 x 800, then it is sent at JPEG
     * quality 70, and the temporary file is deleted on the way (a failed
     * deletion is only logged). A side that scales to zero pixels makes the
     * platform throw, which is caught before anything is deleted or sent.
     */
    method ProcessImage(path: string, decoded: Decoded, exif: ExifRead, deleteSucceeds: bool) returns (outcome: Outcome)
      requires decoded.Image? ==> WellFormed(decoded.bitmap)
      modifies this
      ensures path !in old(cacheFiles) ==> outcome == FileNotFound
      ensures path in old(cacheFiles) && decoded.DecodeNull? ==> outcome == DecodeFailed
      ensures !outcome.Sent? ==> cacheFiles == old(cacheFiles) && started == old(started) && finished == old(finished)
      ensures outcome.Sent? ==> path in old(cacheFiles) && decoded.Image? && finished
      ensures outcome.Sent? ==> started == old(started) + [outcome.payload]
      ensures outcome.Sent? ==> cacheFiles == if deleteSucceeds then old(cacheFiles) - {path} else old(cacheFiles)
      ensures decoded.Image? && path in old(cacheFiles) ==>
                var oriented := FixImageOrientation(decoded.bitmap, exif);
                var size := FitDimensions(oriented.width, oriented.height);
                if size.0 > 0 && size.1 > 0 then
                  outcome.Sent? && outcome.payload.quality == JpegQuality &&
                  outcome.payload.image.width == size.0 && outcome.payload.image.height == size.1 &&
                  outcome.payload.caption == CaptionFor(outcome.payload.image)
                else outcome == ProcessingError
    {
      if path !in cacheFiles {
        return FileNotFound;
      }
      if decoded.DecodeNull? {
        return DecodeFailed;
      }
      var bitmap := decoded.bitmap;
      bitmap := FixImageOrientation(bitmap, exif);
      if bitmap.width > MaxSide || bitmap.height > MaxSide {
        var size := FitDimensions(bitmap.width, bitmap.height);
        if size.0 <= 0 || size.1 <= 0 {
          return ProcessingError;
        }
        bitmap := Scale(bitmap, size.0, size.1);
      }
      var payload := Payload(bitmap, JpegQuality, CaptionFor(bitmap));
      if deleteSucceeds {
        cacheFiles := cacheFiles - {path};
      }
      started := started + [payload];
      finished := true;
      outcome := Sent(payload);
    }
  }
}
