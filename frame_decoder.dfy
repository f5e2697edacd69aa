/**
 * Decoding of the binary frames fetched from the data transmitter: 16-bit depth and infrared
 * samples, and 32-bit colour pixels. The lists of samples are specified by functions on the byte
 * sequence; Process16bitsFrame is the in-place decoder that fills a reused array.
 */
module FrameDecoder {
  import opened Wrappers

  /** C# `byte`. */
  newtype byte = x: int | 0 <= x < 0x100

  /** C# `ushort`. */
  newtype ushort = x: int | 0 <= x < 0x1_0000

  /** `byte.MaxValue`, the alpha of every decoded pixel. */
  const ByteMaxValue: byte := 0xFF

  /** Unity's Color32, channels in the order r, g, b, a. */
  datatype Color32 = Color32(r: byte, g: byte, b: byte, a: byte)

  /** BitConverter.ToUInt16 on a little-endian host: the first byte is the low byte. */
  function ToUInt16(lo: byte, hi: byte): (r: ushort)
    ensures r as int % 0x100 == lo as int
    ensures r as int / 0x100 == hi as int
  {
    (lo as int + 0x100 * hi as int) as ushort
  }

  /** The samples of a 16-bit frame: one per consecutive byte pair; an odd trailing byte is ignored. */
  function Samples16(bytes: seq<byte>): seq<ushort>
    decreases |bytes|
  {
    if |bytes| < 2 then [] else [ToUInt16(bytes[0], bytes[1])] + Samples16(bytes[2..])
  }

  lemma {:induction false} Samples16Length(bytes: seq<byte>)
    ensures |Samples16(bytes)| == |bytes| / 2
  {
    if |bytes| >= 2 {
      Samples16Length(bytes[2..]);
    }
  }

  /** Sample i is the little-endian value of bytes 2i and 2i+1. */
  lemma {:induction false} Samples16At(bytes: seq<byte>, i: nat)
    requires i < |bytes| / 2
    ensures |Samples16(bytes)| == |bytes| / 2
    ensures Samples16(bytes)[i] == ToUInt16(bytes[2 * i], bytes[2 * i + 1])
  {
    Samples16Length(bytes);
    if i > 0 {
      Samples16At(bytes[2..], i - 1);
    }
  }

  /** The byte layout the transmitter produces for a list of samples (low byte first). */
  function Bytes16(samples: seq<ushort>): seq<byte>
  {
    if samples == [] then []
    else [(samples[0] as int % 0x100) as byte, (samples[0] as int / 0x100) as byte] + Bytes16(samples[1..])
  }

  /** Decoding the encoded samples gives them back. */
  lemma {:induction false} Samples16OfBytes16(samples: seq<ushort>)
    ensures Samples16(Bytes16(samples)) == samples
  {
    if samples != [] {
      var rest := Bytes16(samples[1..]);
      assert Bytes16(samples)[2..] == rest;
      Samples16OfBytes16(samples[1..]);
    }
  }

  /** A frame of even length is exactly the encoding of its samples. */
  lemma {:induction false} Bytes16OfSamples16(bytes: seq<byte>)
    requires |bytes| % 2 == 0
    ensures Bytes16(Samples16(bytes)) == bytes
  {
    if |bytes| >= 2 {
      Bytes16OfSamples16(bytes[2..]);
      assert Samples16(bytes)[1..] == Samples16(bytes[2..]);
      assert bytes == bytes[..2] + bytes[2..];
    }
  }

  /** The pixels of a colour frame: each 4-byte group B, G, R, X becomes (R, G, B, opaque). */
  function ColorPixels(bytes: seq<byte>): seq<Color32>
    decreases |bytes|
  {
    if |bytes| < 4 then []
    else [Color32(bytes[2], bytes[1], bytes[0], ByteMaxValue)] + ColorPixels(bytes[4..])
  }

  lemma {:induction false} ColorPixelsLength(bytes: seq<byte>)
    ensures |ColorPixels(bytes)| == |bytes| / 4
  {
    if |bytes| >= 4 {
      ColorPixelsLength(bytes[4..]);
    }
  }

  /** Pixel i takes its red, green and blue from bytes 4i+2, 4i+1 and 4i, and is opaque. */
  lemma {:induction false} ColorPixelsAt(bytes: seq<byte>, i: nat)
    requires i < |bytes| / 4
    ensures |ColorPixels(bytes)| == |bytes| / 4
    ensures ColorPixels(bytes)[i] == Color32(bytes[4 * i + 2], bytes[4 * i + 1], bytes[4 * i], ByteMaxValue)
  {
    ColorPixelsLength(bytes);
    if i > 0 {
      ColorPixelsAt(bytes[4..], i - 1);
    }
  }

  /** The fourth byte of each group never matters: frames that differ only there decode alike. */
  lemma {:induction false} ColorPixelsIgnoreFourthByte(bytes: seq<byte>, other: seq<byte>)
    requires |bytes| == |other|
    requires forall k :: 0 <= k < |bytes| && k % 4 != 3 ==> bytes[k] == other[k]
    ensures ColorPixels(bytes) == ColorPixels(other)
  {
    if |bytes| >= 4 {
      assert bytes[0] == other[0] && bytes[1] == other[1] && bytes[2] == other[2];
      forall k | 0 <= k < |bytes[4..]| && k % 4 != 3
        ensures bytes[4..][k] == other[4..][k]
      {
        assert (k + 4) % 4 == k % 4;
      }
      ColorPixelsIgnoreFourthByte(bytes[4..], other[4..]);
    }
  }

  /** The byte layout the transmitter produces for a list of pixels (B, G, R, A per pixel). */
  function BgraBytes(pixels: seq<Color32>): seq<byte>
  {
    if pixels == [] then [] else [pixels[0].b, pixels[0].g, pixels[0].r, pixels[0].a] + BgraBytes(pixels[1..])
  }

  /** Decoding the encoding of opaque pixels gives them back. */
  lemma {:induction false} ColorPixelsOfBgraBytes(pixels: seq<Color32>)
    requires forall k :: 0 <= k < |pixels| ==> pixels[k].a == ByteMaxValue
    ensures ColorPixels(BgraBytes(pixels)) == pixels
  {
    if pixels != [] {
      assert BgraBytes(pixels)[4..] == BgraBytes(pixels[1..]);
      ColorPixelsOfBgraBytes(pixels[1..]);
    }
  }

  /**
   * Process16bitsFrame: decodes the frame `rawBytes` (None for a null frame) into the array
   * `buffer` (a C# `ref` parameter, so the array in use afterwards is returned). A null frame
   * leaves the reference and its contents alone; otherwise the buffer is reused when its length is
   * already half the byte count and replaced by a new array otherwise.
   */
  method Process16bitsFrame(rawBytes: Option<seq<byte>>, buffer: array?<ushort>) returns (result: array?<ushort>)
    modifies buffer
    ensures rawBytes.None? ==> result == buffer
    ensures rawBytes.None? && buffer != null ==> buffer[..] == old(buffer[..])
    ensures rawBytes.Some? ==> result != null && result.Length == |rawBytes.value| / 2
    ensures rawBytes.Some? ==> result[..] == Samples16(rawBytes.value)
    ensures rawBytes.Some? && buffer != null && buffer.Length == |rawBytes.value| / 2 ==> result == buffer
    ensures rawBytes.Some? && (buffer == null || buffer.Length != |rawBytes.value| / 2) ==> fresh(result)
    ensures buffer != null && result != buffer ==> buffer[..] == old(buffer[..])
  {
    if rawBytes.None? {
      return buffer;
    }
    var bytes := rawBytes.value;
    result := buffer;
    if result == null || result.Length != |bytes| / 2 {
      result := new ushort[|bytes| / 2];
    }
    for i := 0 to result.Length
      invariant forall k :: 0 <= k < i ==> result[k] == ToUInt16(bytes[2 * k], bytes[2 * k + 1])
      invariant buffer != null && result != buffer ==> buffer[..] == old(buffer[..])
    {
      result[i] := ToUInt16(bytes[2 * i], bytes[2 * i + 1]);
    }
    Samples16Length(bytes);
    forall k | 0 <= k < result.Length
      ensures result[..][k] == Samples16(bytes)[k]
    {
      Samples16At(bytes, k);
    }
  }
}
