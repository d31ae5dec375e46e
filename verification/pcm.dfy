/** The audio batch: concatenation of the buffered chunks into one buffer and
    its reading as 16-bit signed little-endian samples (`new Int16Array`),
    which throws a RangeError when the byte length is odd. */
module Pcm {
  import opened Wrappers

  type Byte = x: int | 0 <= x < 256

  const Int16Min := -32768
  const Int16Max := 32767

  /** The `RangeError` of an `Int16Array` view over an odd-length buffer. */
  datatype RangeError = OddByteLength(byteLength: nat)

  /** Total byte length of the chunks (the `reduce` over `byteLength`). */
  function SumLengths(chunks: seq<seq<Byte>>): nat {
    if |chunks| == 0 then 0 else SumLengths(chunks[..|chunks| - 1]) + |chunks[|chunks| - 1]|
  }

  /** Byte offset at which chunk `i` starts in the combined buffer. */
  function Offset(chunks: seq<seq<Byte>>, i: nat): nat
    requires i <= |chunks|
  {
    SumLengths(chunks[..i])
  }

  /** The chunks laid end to end. */
  function Flatten(chunks: seq<seq<Byte>>): seq<Byte> {
    if |chunks| == 0 then [] else Flatten(chunks[..|chunks| - 1]) + chunks[|chunks| - 1]
  }

  lemma {:induction false} FlattenLength(chunks: seq<seq<Byte>>)
    ensures |Flatten(chunks)| == SumLengths(chunks)
  {
    if |chunks| > 0 {
      FlattenLength(chunks[..|chunks| - 1]);
    }
  }

  /** Appending a chunk keeps the earlier bytes and adds the new chunk's. */
  lemma FlattenAppend(chunks: seq<seq<Byte>>, c: seq<Byte>)
    ensures Flatten(chunks + [c]) == Flatten(chunks) + c
    ensures SumLengths(chunks + [c]) == SumLengths(chunks) + |c|
  {
  }

  /** Prefixes of the chunk list flatten to prefixes of the buffer. */
  lemma {:induction false} FlattenPrefix(chunks: seq<seq<Byte>>, i: nat)
    requires i <= |chunks|
    ensures |Flatten(chunks[..i])| == Offset(chunks, i) <= |Flatten(chunks)|
    ensures Flatten(chunks)[..Offset(chunks, i)] == Flatten(chunks[..i])
    decreases |chunks|
  {
    FlattenLength(chunks[..i]);
    FlattenLength(chunks);
    if i < |chunks| {
      var init := chunks[..|chunks| - 1];
      assert init[..i] == chunks[..i];
      FlattenPrefix(init, i);
      FlattenLength(init);
      assert Flatten(chunks) == Flatten(init) + chunks[|chunks| - 1];
    } else {
      assert chunks[..i] == chunks;
    }
  }

  /** Every chunk appears, in order, at its offset in the combined buffer. */
  lemma FlattenPlacesChunk(chunks: seq<seq<Byte>>, i: nat)
    requires i < |chunks|
    ensures Offset(chunks, i) + |chunks[i]| == Offset(chunks, i + 1) <= |Flatten(chunks)|
    ensures Flatten(chunks)[Offset(chunks, i)..Offset(chunks, i + 1)] == chunks[i]
  {
    assert chunks[..i + 1] == chunks[..i] + [chunks[i]];
    FlattenAppend(chunks[..i], chunks[i]);
    FlattenPrefix(chunks, i + 1);
    FlattenPrefix(chunks, i);
    FlattenLength(chunks);
    var f := Flatten(chunks);
    assert f[..Offset(chunks, i + 1)] == Flatten(chunks[..i]) + chunks[i];
    assert f[Offset(chunks, i)..Offset(chunks, i + 1)] == f[..Offset(chunks, i + 1)][Offset(chunks, i)..];
  }

  /** The combining loop: allocate a buffer of the total length, then copy
      each chunk into it at the running offset. The result holds exactly the
      chunks' bytes, in order. */
  method CombineChunks(chunks: seq<seq<Byte>>) returns (combined: seq<Byte>)
    ensures |combined| == SumLengths(chunks)
    ensures forall i | 0 <= i < |chunks| ::
      Offset(chunks, i) + |chunks[i]| <= |combined| &&
      combined[Offset(chunks, i)..Offset(chunks, i) + |chunks[i]|] == chunks[i]
    ensures combined == Flatten(chunks)
  {
    var totalLength := SumLengths(chunks);
    FlattenLength(chunks);
    combined := seq(totalLength, _ => 0);
    var offset := 0;
    var n := 0;
    while n < |chunks|
      invariant n <= |chunks|
      invariant |combined| == totalLength
      invariant offset == Offset(chunks, n) <= totalLength
      invariant combined[..offset] == Flatten(chunks[..n])
    {
      var chunk := chunks[n];
      FlattenPrefix(chunks, n + 1);
      assert chunks[..n + 1] == chunks[..n] + [chunk];
      FlattenAppend(chunks[..n], chunk);
      var before := combined[..offset];
      combined := before + chunk + combined[offset + |chunk|..];
      assert combined[..offset + |chunk|] == before + chunk;
      offset := offset + |chunk|;
      n := n + 1;
    }
    assert chunks[..n] == chunks;
    assert combined == combined[..offset];
    forall i | 0 <= i < |chunks|
      ensures Offset(chunks, i) + |chunks[i]| <= |combined|
      ensures combined[Offset(chunks, i)..Offset(chunks, i) + |chunks[i]|] == chunks[i]
    {
      FlattenPlacesChunk(chunks, i);
    }
  }

  /** A little-endian two's-complement 16-bit sample. */
  function Int16At(lo: Byte, hi: Byte): (v: int)
    ensures Int16Min <= v <= Int16Max
    ensures (v + 65536) % 65536 == lo + 256 * hi
  {
    var u := lo + 256 * hi;
    if u >= 32768 then u - 65536 else u
  }

  /** The bytes of a 16-bit sample, low byte first. */
  function Int16Bytes(v: int): (r: seq<Byte>)
    requires Int16Min <= v <= Int16Max
    ensures |r| == 2 && Int16At(r[0], r[1]) == v
  {
    var u := if v < 0 then v + 65536 else v;
    [u % 256, u / 256]
  }

  /** The samples of an `Int16Array` over `bytes`: a RangeError when the byte
      length is odd, otherwise one sample per byte pair. */
  function DecodeInt16(bytes: seq<Byte>): (r: Result<seq<int>, RangeError>)
    ensures r.Failure? <==> |bytes| % 2 == 1
    ensures r.Failure? ==> r.error == OddByteLength(|bytes|)
    ensures r.Success? ==>
      && |r.value| == |bytes| / 2
      && forall i | 0 <= i < |r.value| :: r.value[i] == Int16At(bytes[2 * i], bytes[2 * i + 1])
  {
    if |bytes| % 2 == 1 then Failure(OddByteLength(|bytes|))
    else Success(DecodePairs(bytes))
  }

  function DecodePairs(bytes: seq<Byte>): (r: seq<int>)
    requires |bytes| % 2 == 0
    ensures |r| == |bytes| / 2
    ensures forall i | 0 <= i < |r| :: r[i] == Int16At(bytes[2 * i], bytes[2 * i + 1])
  {
    if |bytes| == 0 then []
    else [Int16At(bytes[0], bytes[1])] + DecodePairs(bytes[2..])
  }

  predicate InInt16Range(samples: seq<int>) {
    forall i | 0 <= i < |samples| :: Int16Min <= samples[i] <= Int16Max
  }

  /** The byte buffer an `Int16Array` of `samples` occupies. */
  function EncodeInt16(samples: seq<int>): (r: seq<Byte>)
    requires InInt16Range(samples)
    ensures |r| == 2 * |samples|
  {
    if |samples| == 0 then []
    else Int16Bytes(samples[0]) + EncodeInt16(samples[1..])
  }

  /** Decoding the encoding of in-range samples gives them back. */
  lemma {:induction false} DecodeEncode(samples: seq<int>)
    requires InInt16Range(samples)
    ensures DecodeInt16(EncodeInt16(samples)) == Success(samples)
  {
    var bytes := EncodeInt16(samples);
    var r := DecodeInt16(bytes);
    assert r.Success? && |r.value| == |samples|;
    forall i | 0 <= i < |samples|
      ensures r.value[i] == samples[i]
    {
      EncodePair(samples, i);
    }
    assert r.value == samples;
  }

  /** Sample `i` of an encoding occupies bytes `2i` and `2i+1`. */
  lemma {:induction false} EncodePair(samples: seq<int>, i: nat)
    requires InInt16Range(samples) && i < |samples|
    ensures Int16At(EncodeInt16(samples)[2 * i], EncodeInt16(samples)[2 * i + 1]) == samples[i]
  {
    if i > 0 {
      EncodePair(samples[1..], i - 1);
      assert EncodeInt16(samples)[2 * i] == EncodeInt16(samples[1..])[2 * (i - 1)];
      assert EncodeInt16(samples)[2 * i + 1] == EncodeInt16(samples[1..])[2 * (i - 1) + 1];
    }
  }

  /** A byte pair survives reading it as a sample and writing it back. */
  lemma Int16PairRoundTrip(lo: Byte, hi: Byte)
    ensures Int16Bytes(Int16At(lo, hi)) == [lo, hi]
  {
  }

  lemma {:induction false} EncodeDecodePairs(bytes: seq<Byte>)
    requires |bytes| % 2 == 0
    ensures InInt16Range(DecodePairs(bytes))
    ensures EncodeInt16(DecodePairs(bytes)) == bytes
  {
    var samples := DecodePairs(bytes);
    if |bytes| > 0 {
      var rest := bytes[2..];
      EncodeDecodePairs(rest);
      assert samples == [Int16At(bytes[0], bytes[1])] + DecodePairs(rest);
      assert samples[1..] == DecodePairs(rest);
      Int16PairRoundTrip(bytes[0], bytes[1]);
      assert EncodeInt16(samples) == [bytes[0], bytes[1]] + EncodeInt16(DecodePairs(rest));
      assert bytes == [bytes[0], bytes[1]] + rest;
    }
  }

  /** Re-encoding a decoded even-length buffer gives back its bytes. */
  lemma EncodeDecode(bytes: seq<Byte>)
    requires |bytes| % 2 == 0
    ensures DecodeInt16(bytes).Success?
    ensures InInt16Range(DecodeInt16(bytes).value)
    ensures EncodeInt16(DecodeInt16(bytes).value) == bytes
  {
    EncodeDecodePairs(bytes);
  }

  /** The extreme samples: bytes 00 80 FF 7F are -32768 and 32767. */
  lemma DecodeExtremes()
    ensures DecodeInt16([0x00, 0x80, 0xFF, 0x7F]) == Success([Int16Min, Int16Max])
  {
    var bytes: seq<Byte> := [0x00, 0x80, 0xFF, 0x7F];
    assert Int16At(0x00, 0x80) == Int16Min;
    assert Int16At(0xFF, 0x7F) == Int16Max;
    assert bytes[2..][2..] == [];
    assert DecodePairs(bytes[2..]) == [Int16Max];
    assert DecodePairs(bytes) == [Int16Min, Int16Max];
  }
}
