/**
 * The 16-bit PCM wire format shared by the microphone paths and the playback
 * path of the Android app: each signed sample travels as two octets, low byte
 * first (little-endian). Base64, which wraps these octets for the WebSocket,
 * is not part of this model.
 */
module Pcm {

  /** A signed 16-bit PCM sample (Kotlin `Short`). */
  type Sample = x: int | -32768 <= x < 32768

  /** An octet, as its unsigned bit pattern (`value and 0xFF`). */
  type Octet = x: int | 0 <= x < 256

  /** `value and 0xFF`: the low byte of a sample in two's complement. */
  function Low(v: Sample): Octet {
    v % 256
  }

  /** `(value shr 8) and 0xFF`: `shr` is an arithmetic shift, i.e. floor division by 256. */
  function High(v: Sample): Octet {
    (v / 256) % 256
  }

  /** Reading two octets back as a little-endian signed 16-bit value (`ByteBuffer.getShort`). */
  function FromBytes(lo: Octet, hi: Octet): Sample {
    var u := lo + 256 * hi;
    if u >= 32768 then u - 65536 else u
  }

  /** Splitting a sample into its two bytes loses nothing. */
  lemma SampleRoundTrip(v: Sample)
    ensures FromBytes(Low(v), High(v)) == v
  {
    if v < 0 {
      assert v / 256 < 0;
      assert High(v) == v / 256 + 256;
    }
  }

  /** Every pair of octets is the encoding of exactly one sample. */
  lemma BytesRoundTrip(lo: Octet, hi: Octet)
    ensures Low(FromBytes(lo, hi)) == lo && High(FromBytes(lo, hi)) == hi
  {
    var u := lo + 256 * hi;
    if u >= 32768 {
      assert FromBytes(lo, hi) == (hi - 256) * 256 + lo;
    }
  }

  /** Little-endian packing: sample `i` becomes octets `2i` (low) and `2i + 1` (high). */
  function Pack(s: seq<Sample>): (b: seq<Octet>)
    ensures |b| == 2 * |s|
    ensures forall i :: 0 <= i < |s| ==> b[2 * i] == Low(s[i]) && b[2 * i + 1] == High(s[i])
  {
    if s == [] then [] else [Low(s[0]), High(s[0])] + Pack(s[1..])
  }

  /** Little-endian unpacking of `|b| / 2` samples; a trailing odd octet is not read. */
  function Unpack(b: seq<Octet>): (s: seq<Sample>)
    ensures |s| == |b| / 2
    ensures forall i :: 0 <= i < |s| ==> s[i] == FromBytes(b[2 * i], b[2 * i + 1])
  {
    if |b| < 2 then [] else [FromBytes(b[0], b[1])] + Unpack(b[2..])
  }

  /** Decoding what was encoded gives back the samples. */
  lemma UnpackPack(s: seq<Sample>)
    ensures Unpack(Pack(s)) == s
  {
    var t := Unpack(Pack(s));
    forall i | 0 <= i < |s| ensures t[i] == s[i] {
      SampleRoundTrip(s[i]);
    }
  }

  /** Encoding what was decoded gives back an even-length octet string. */
  lemma {:induction false} PackUnpack(b: seq<Octet>)
    requires |b| % 2 == 0
    ensures Pack(Unpack(b)) == b
  {
    if |b| >= 2 {
      BytesRoundTrip(b[0], b[1]);
      PackUnpack(b[2..]);
      var s := Unpack(b);
      assert s[1..] == Unpack(b[2..]);
      assert b == [b[0], b[1]] + b[2..];
    }
  }

  /** An odd trailing octet does not affect the decoded samples. */
  lemma UnpackIgnoresOddByte(b: seq<Octet>)
    requires |b| % 2 == 1
    ensures Unpack(b) == Unpack(b[..|b| - 1])
  {
  }

  /** Packing commutes with concatenation, so chunked sending yields the same octet stream. */
  lemma {:induction false} PackAppend(a: seq<Sample>, c: seq<Sample>)
    ensures Pack(a + c) == Pack(a) + Pack(c)
  {
    if a != [] {
      assert (a + c)[1..] == a[1..] + c;
      PackAppend(a[1..], c);
    } else {
      assert a + c == c;
    }
  }
}
