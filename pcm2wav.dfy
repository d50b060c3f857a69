/** The PCM-to-WAV serialiser of the speech synthesiser integration: a
    44-byte RIFF/WAVE header followed by little-endian signed 16-bit PCM
    samples, written through a DataView into a freshly allocated buffer. */
module PiperWav {
  import opened Js

  newtype uint8 = x: int | 0 <= x < 0x100

  const TWO16: int := 0x1_0000
  const TWO32: int := 0x1_0000_0000

  /** The four ASCII chunk tags, as the little-endian u32 constants the
      encoder writes. */
  const RIFF_TAG: int := 0x46464952
  const WAVE_TAG: int := 0x45564157
  const FMT_TAG: int := 0x20746d66
  const DATA_TAG: int := 0x61746164

  const HEADER_SIZE: int := 44

  // ---------------------------------------------------------------------
  // Little-endian integer encoding (DataView.setUint16/setInt16/setUint32
  // with littleEndian = true)
  // ---------------------------------------------------------------------

  /** The two bytes that setUint16 or setInt16 store for the integer x:
      x is first reduced modulo 2^16 (so a negative x is stored in two's
      complement), low byte first. getUint16 reads them back as x mod 2^16. */
  function LE16(x: int): (r: seq<uint8>)
    ensures |r| == 2
    ensures U16At(r, 0) == x % TWO16
  {
    var u := x % TWO16;
    [(u % 0x100) as uint8, (u / 0x100) as uint8]
  }

  /** The four bytes that setUint32 stores for the integer x (x modulo 2^32,
      low byte first). getUint32 reads them back as x mod 2^32. */
  function LE32(x: int): (r: seq<uint8>)
    ensures |r| == 4
    ensures U32At(r, 0) == x % TWO32
  {
    var u := x % TWO32;
    assert u / 0x100 == 0x100 * (u / 0x1_0000) + u / 0x100 % 0x100;
    assert u / 0x1_0000 == 0x100 * (u / 0x100_0000) + u / 0x1_0000 % 0x100;
    [(u % 0x100) as uint8, (u / 0x100 % 0x100) as uint8,
     (u / 0x1_0000 % 0x100) as uint8, (u / 0x100_0000) as uint8]
  }

  /** getUint16(off, true). */
  function U16At(s: seq<uint8>, off: nat): int
    requires off + 2 <= |s|
  {
    s[off] as int + 0x100 * s[off + 1] as int
  }

  /** getUint32(off, true). */
  function U32At(s: seq<uint8>, off: nat): int
    requires off + 4 <= |s|
  {
    s[off] as int + 0x100 * s[off + 1] as int
      + 0x1_0000 * s[off + 2] as int + 0x100_0000 * s[off + 3] as int
  }

  /** getInt16(off, true): the two bytes read as a two's-complement value. */
  function I16At(s: seq<uint8>, off: nat): int
    requires off + 2 <= |s|
  {
    var u := U16At(s, off);
    if u < 0x8000 then u else u - TWO16
  }

  /** A signed 16-bit write of an in-range value reads back unchanged. */
  lemma LE16SignedDecodes(q: int)
    requires -0x8000 <= q < 0x8000
    ensures I16At(LE16(q), 0) == q
  {
  }

  // ---------------------------------------------------------------------
  // Sample quantisation
  // ---------------------------------------------------------------------

  /** Truncation of a real toward zero. */
  function Trunc(x: real): (t: int)
    ensures x >= 0.0 ==> t as real <= x < t as real + 1.0
    ensures x < 0.0 ==> t as real - 1.0 < x <= t as real
  {
    if x >= 0.0 then x.Floor else -((-x).Floor)
  }

  /** JavaScript's `x | 0` (ToInt32) on a finite number: truncation toward
      zero, then wrap-around into the signed 32-bit range. */
  function BitOrZero(x: real): (r: int)
    ensures -0x8000_0000 <= r < 0x8000_0000
    ensures -0x8000_0000 <= Trunc(x) < 0x8000_0000 ==> r == Trunc(x)
  {
    var u := Trunc(x) % TWO32;
    if u < 0x8000_0000 then u else u - TWO32
  }

  /** The clamp-and-quantise rule applied to each sample. */
  function Quantize(v: real): (q: int)
    ensures -0x8000 <= q <= 0x7fff
  {
    if v >= 1.0 then 0x7fff
    else if v <= -1.0 then -0x8000
    else BitOrZero(v * 32768.0)
  }

  /** Every sample lands in the signed 16-bit range: out-of-range samples
      clamp to the extremes, and in-range samples never reach -32768, so
      the 16-bit store cannot wrap around. */
  lemma QuantizeRange(v: real)
    ensures -0x8000 <= Quantize(v) <= 0x7fff
    ensures v >= 1.0 ==> Quantize(v) == 0x7fff
    ensures v <= -1.0 ==> Quantize(v) == -0x8000
    ensures -1.0 < v < 1.0 ==> -0x7fff <= Quantize(v) <= 0x7fff
  {
  }

  /** An in-range sample is the truncation toward zero of v * 2^15, so it
      keeps the sign of v and lies within one quantisation step of it. */
  lemma QuantizeInRange(v: real)
    requires -1.0 < v < 1.0
    ensures Quantize(v) == Trunc(v * 32768.0)
    ensures v >= 0.0 ==> 0 <= Quantize(v) && Quantize(v) as real <= v * 32768.0
    ensures v < 0.0 ==> Quantize(v) <= 0 && v * 32768.0 <= Quantize(v) as real
    ensures -1.0 < Quantize(v) as real - v * 32768.0 < 1.0
  {
  }

  /** Quantisation truncates toward zero, not toward minus infinity: it is
      symmetric for in-range samples. */
  lemma QuantizeOdd(v: real)
    requires -1.0 < v < 1.0
    ensures Quantize(-v) == -Quantize(v)
  {
    QuantizeInRange(v);
    QuantizeInRange(-v);
  }

  /** Quantisation preserves the order of samples. */
  lemma QuantizeMonotone(v: real, w: real)
    requires v <= w
    ensures Quantize(v) <= Quantize(w)
  {
    if -1.0 < v < 1.0 && -1.0 < w < 1.0 {
      QuantizeInRange(v);
      QuantizeInRange(w);
      assert v * 32768.0 <= w * 32768.0;
      if v >= 0.0 {
        assert (v * 32768.0).Floor <= (w * 32768.0).Floor;
      } else if w < 0.0 {
        assert (-w * 32768.0).Floor <= (-v * 32768.0).Floor;
      }
    }
  }

  // ---------------------------------------------------------------------
  // The byte stream
  // ---------------------------------------------------------------------

  /** The header fields, before the DataView reduces them to 16 or 32 bits. */
  datatype WavHeader = WavHeader(
    riffSize: int,
    fmtSize: int,
    formatTag: int,
    channels: int,
    sampleRate: int,
    byteRate: int,
    blockAlign: int,
    bitsPerSample: int,
    dataSize: int)

  /** The 44 header bytes, field by field in offset order. */
  function EncodeHeader(h: WavHeader): (e: seq<uint8>)
    ensures |e| == HEADER_SIZE
  {
    LE32(RIFF_TAG) + LE32(h.riffSize) + LE32(WAVE_TAG) + LE32(FMT_TAG)
      + LE32(h.fmtSize) + LE16(h.formatTag) + LE16(h.channels)
      + LE32(h.sampleRate) + LE32(h.byteRate) + LE16(h.blockAlign)
      + LE16(h.bitsPerSample) + LE32(DATA_TAG) + LE32(h.dataSize)
  }

  /** EncodeHeader written as the left-nested chain of appends the field
      writes produce, starting from the empty prefix. */
  lemma HeaderConcat(h: WavHeader)
    ensures EncodeHeader(h)
      == [] + LE32(RIFF_TAG) + LE32(h.riffSize) + LE32(WAVE_TAG) + LE32(FMT_TAG)
         + LE32(h.fmtSize) + LE16(h.formatTag) + LE16(h.channels)
         + LE32(h.sampleRate) + LE32(h.byteRate) + LE16(h.blockAlign)
         + LE16(h.bitsPerSample) + LE32(DATA_TAG) + LE32(h.dataSize)
  {
    assert [] + LE32(RIFF_TAG) == LE32(RIFF_TAG);
  }

  /** Total size of the buffer pcm2wav allocates. */
  function FileSize(n: nat, numChannels: int): (size: int)
    ensures n == 0 ==> size == HEADER_SIZE
    ensures numChannels >= 1 ==> size >= HEADER_SIZE + 2 * n
    ensures numChannels < 1 ==> size <= HEADER_SIZE
  {
    n * numChannels * 2 + HEADER_SIZE
  }

  /** The header pcm2wav writes for n samples. */
  function HeaderFor(n: nat, numChannels: int, sampleRate: int): (h: WavHeader)
    ensures h.fmtSize == 16 && h.formatTag == 1 && h.bitsPerSample == 16
    ensures h.channels == numChannels && h.sampleRate == sampleRate
    ensures h.blockAlign == h.channels * (h.bitsPerSample / 8)
    ensures h.byteRate == h.sampleRate * h.blockAlign
    ensures h.dataSize == n * (h.bitsPerSample / 8)
    ensures h.riffSize == FileSize(n, numChannels) - 8
  {
    WavHeader(
      riffSize := FileSize(n, numChannels) - 8,
      fmtSize := 16,
      formatTag := 1,
      channels := numChannels,
      sampleRate := sampleRate,
      byteRate := numChannels * 2 * sampleRate,
      blockAlign := numChannels * 2,
      bitsPerSample := 16,
      dataSize := 2 * n)
  }

  /** The sample bytes, one little-endian 16-bit value per sample, in order. */
  function SampleBytes(buffer: seq<real>): (r: seq<uint8>)
    ensures |r| == 2 * |buffer|
  {
    if |buffer| == 0 then []
    else SampleBytes(buffer[..|buffer| - 1]) + LE16(Quantize(buffer[|buffer| - 1]))
  }

  /** pcm2wav throws a RangeError exactly when samples are given but the
      channel count is below one: the buffer length is then negative, or too
      short for the header or for the first sample. */
  predicate Throws(n: nat, numChannels: int): (b: bool)
    ensures b <==> n > 0 && FileSize(n, numChannels) < HEADER_SIZE + 2 * n
  {
    n > 0 && numChannels < 1
  }

  /** The number of zero bytes left after the samples. */
  function PaddingSize(n: nat, numChannels: int): nat
    requires !Throws(n, numChannels)
  {
    if n == 0 then 0
    else
      var extra: nat := numChannels - 1;
      MulNonNegative(2 * n, extra);
      2 * n * extra
  }

  lemma MulNonNegative(a: nat, b: nat)
    ensures a * b >= 0
  {
  }

  /** The whole byte stream pcm2wav returns. */
  function WavBytes(buffer: seq<real>, numChannels: int, sampleRate: int): (w: seq<uint8>)
    requires !Throws(|buffer|, numChannels)
    ensures |w| == FileSize(|buffer|, numChannels)
  {
    FileSizeCoversSamples(|buffer|, numChannels);
    EncodeHeader(HeaderFor(|buffer|, numChannels, sampleRate))
      + SampleBytes(buffer)
      + seq(PaddingSize(|buffer|, numChannels), _ => 0 as uint8)
  }

  // ---------------------------------------------------------------------
  // Properties of the byte stream
  // ---------------------------------------------------------------------

  /** Each sample's two bytes sit at offset 2*i of the sample area. */
  lemma {:induction false} SampleBytesAt(buffer: seq<real>, i: nat)
    requires i < |buffer|
    ensures SampleBytes(buffer)[2 * i..2 * i + 2] == LE16(Quantize(buffer[i]))
  {
    var m := |buffer| - 1;
    var init := buffer[..m];
    assert SampleBytes(buffer) == SampleBytes(init) + LE16(Quantize(buffer[m]));
    if i < m {
      SampleBytesAt(init, i);
      assert init[i] == buffer[i];
    }
  }

  /** The header is 44 bytes and every field reads back at its offset,
      reduced to the width the DataView writes it with. */
  lemma HeaderLayout(h: WavHeader)
    ensures |EncodeHeader(h)| == HEADER_SIZE
    ensures U32At(EncodeHeader(h), 0) == RIFF_TAG
    ensures U32At(EncodeHeader(h), 4) == h.riffSize % TWO32
    ensures U32At(EncodeHeader(h), 8) == WAVE_TAG
    ensures U32At(EncodeHeader(h), 12) == FMT_TAG
    ensures U32At(EncodeHeader(h), 16) == h.fmtSize % TWO32
    ensures U16At(EncodeHeader(h), 20) == h.formatTag % TWO16
    ensures U16At(EncodeHeader(h), 22) == h.channels % TWO16
    ensures U32At(EncodeHeader(h), 24) == h.sampleRate % TWO32
    ensures U32At(EncodeHeader(h), 28) == h.byteRate % TWO32
    ensures U16At(EncodeHeader(h), 32) == h.blockAlign % TWO16
    ensures U16At(EncodeHeader(h), 34) == h.bitsPerSample % TWO16
    ensures U32At(EncodeHeader(h), 36) == DATA_TAG
    ensures U32At(EncodeHeader(h), 40) == h.dataSize % TWO32
  {
    RiffFieldsLayout(h);
    FmtFieldsLayout(h);
    DataFieldsLayout(h);
  }

  lemma RiffFieldsLayout(h: WavHeader)
    ensures U32At(EncodeHeader(h), 0) == RIFF_TAG
    ensures U32At(EncodeHeader(h), 4) == h.riffSize % TWO32
    ensures U32At(EncodeHeader(h), 8) == WAVE_TAG
    ensures U32At(EncodeHeader(h), 12) == FMT_TAG
  {
    var e := EncodeHeader(h);
    var riff := LE32(RIFF_TAG) + LE32(h.riffSize) + LE32(WAVE_TAG) + LE32(FMT_TAG);
    assert e[..16] == riff;
    U32Field(riff, 0, RIFF_TAG);
    U32Field(riff, 4, h.riffSize);
    U32Field(riff, 8, WAVE_TAG);
    U32Field(riff, 12, FMT_TAG);
    assert forall i :: 0 <= i < 16 ==> e[i] == riff[i];
  }

  lemma FmtFieldsLayout(h: WavHeader)
    ensures U32At(EncodeHeader(h), 16) == h.fmtSize % TWO32
    ensures U16At(EncodeHeader(h), 20) == h.formatTag % TWO16
    ensures U16At(EncodeHeader(h), 22) == h.channels % TWO16
    ensures U32At(EncodeHeader(h), 24) == h.sampleRate % TWO32
    ensures U32At(EncodeHeader(h), 28) == h.byteRate % TWO32
    ensures U16At(EncodeHeader(h), 32) == h.blockAlign % TWO16
    ensures U16At(EncodeHeader(h), 34) == h.bitsPerSample % TWO16
  {
    var e := EncodeHeader(h);
    var fmt := LE32(h.fmtSize) + LE16(h.formatTag) + LE16(h.channels)
      + LE32(h.sampleRate) + LE32(h.byteRate) + LE16(h.blockAlign) + LE16(h.bitsPerSample);
    assert e[16..36] == fmt;
    U32Field(fmt, 0, h.fmtSize);
    U16Field(fmt, 4, h.formatTag);
    U16Field(fmt, 6, h.channels);
    U32Field(fmt, 8, h.sampleRate);
    U32Field(fmt, 12, h.byteRate);
    U16Field(fmt, 16, h.blockAlign);
    U16Field(fmt, 18, h.bitsPerSample);
    assert forall i :: 0 <= i < 20 ==> e[16 + i] == fmt[i];
  }

  lemma DataFieldsLayout(h: WavHeader)
    ensures U32At(EncodeHeader(h), 36) == DATA_TAG
    ensures U32At(EncodeHeader(h), 40) == h.dataSize % TWO32
  {
    var e := EncodeHeader(h);
    U32Field(e, 36, DATA_TAG);
    U32Field(e, 40, h.dataSize);
  }

  lemma U32Field(s: seq<uint8>, off: nat, x: int)
    requires off + 4 <= |s| && s[off..off + 4] == LE32(x)
    ensures U32At(s, off) == x % TWO32
  {
    assert s[off..off + 4][0] == s[off] && s[off..off + 4][1] == s[off + 1];
    assert s[off..off + 4][2] == s[off + 2] && s[off..off + 4][3] == s[off + 3];
  }

  lemma U16Field(s: seq<uint8>, off: nat, x: int)
    requires off + 2 <= |s| && s[off..off + 2] == LE16(x)
    ensures U16At(s, off) == x % TWO16
  {
    assert s[off..off + 2][0] == s[off] && s[off..off + 2][1] == s[off + 1];
  }

  /** The ASCII codes of a string of 7-bit characters. */
  function Ascii(s: string): seq<uint8>
    requires forall i :: 0 <= i < |s| ==> s[i] as int < 0x80
  {
    seq(|s|, i requires 0 <= i < |s| => s[i] as int as uint8)
  }

  /** The four u32 constants are the chunk tags "RIFF", "WAVE", "fmt " and
      "data" spelled out in ASCII. */
  lemma ChunkTagsAreAscii()
    ensures LE32(RIFF_TAG) == Ascii("RIFF")
    ensures LE32(WAVE_TAG) == Ascii("WAVE")
    ensures LE32(FMT_TAG) == Ascii("fmt ")
    ensures LE32(DATA_TAG) == Ascii("data")
  {
  }

  // ---------------------------------------------------------------------
  // The encoder (DataView writes into a zero-filled ArrayBuffer)
  // ---------------------------------------------------------------------

  /** A buffer of the given size that holds `written` followed by zeros. */
  function ZeroFilled(written: seq<uint8>, size: nat): seq<uint8>
    requires |written| <= size
  {
    written + seq(size - |written|, _ => 0 as uint8)
  }

  /** Overwriting the first zero bytes after `written` appends to it. */
  lemma OverwriteZeros(written: seq<uint8>, bytes: seq<uint8>, size: nat)
    requires |written| + |bytes| <= size
    ensures var before := ZeroFilled(written, size);
      before[..|written|] + bytes + before[|written| + |bytes|..]
        == ZeroFilled(written + bytes, size)
  {
  }

  /** DataView.setUint32(offset, value, true), at the end of the prefix
      written so far (the ghost `written`) of an otherwise zero buffer:
      the four bytes are appended to the prefix and the rest stays zero. */
  method SetUint32(view: array<uint8>, offset: nat, value: int, ghost written: seq<uint8>)
    requires offset == |written| && offset + 4 <= view.Length
    requires view[..] == ZeroFilled(written, view.Length)
    modifies view
    ensures view[..] == ZeroFilled(written + LE32(value), view.Length)
  {
    var bytes := LE32(value);
    view[offset] := bytes[0];
    view[offset + 1] := bytes[1];
    view[offset + 2] := bytes[2];
    view[offset + 3] := bytes[3];
    assert view[..] == old(view[..])[..offset] + bytes + old(view[..])[offset + 4..];
    OverwriteZeros(written, bytes, view.Length);
  }

  /** DataView.setUint16(offset, value, true) in the same position;
      setInt16 stores the same two bytes, since both reduce the value modulo
      2^16. */
  method SetUint16(view: array<uint8>, offset: nat, value: int, ghost written: seq<uint8>)
    requires offset == |written| && offset + 2 <= view.Length
    requires view[..] == ZeroFilled(written, view.Length)
    modifies view
    ensures view[..] == ZeroFilled(written + LE16(value), view.Length)
  {
    var bytes := LE16(value);
    view[offset] := bytes[0];
    view[offset + 1] := bytes[1];
    assert view[..] == old(view[..])[..offset] + bytes + old(view[..])[offset + 2..];
    OverwriteZeros(written, bytes, view.Length);
  }

  /** The header writes of pcm2wav, offsets 0 to 43 of a zero-filled buffer
      of FileSize(n, numChannels) bytes. The ghost `written` is the prefix
      written so far. */
  method WriteHeader(view: array<uint8>, n: nat, numChannels: int, sampleRate: int)
    requires view.Length == FileSize(n, numChannels) >= HEADER_SIZE
    requires view[..] == ZeroFilled([], view.Length)
    modifies view
    ensures view[..] == ZeroFilled(EncodeHeader(HeaderFor(n, numChannels, sampleRate)), view.Length)
  {
    ghost var w0: seq<uint8> := [];
    SetUint32(view, 0, RIFF_TAG, w0);
    ghost var w1 := w0 + LE32(RIFF_TAG);
    SetUint32(view, 4, view.Length - 8, w1);
    ghost var w2 := w1 + LE32(view.Length - 8);
    SetUint32(view, 8, WAVE_TAG, w2);
    ghost var w3 := w2 + LE32(WAVE_TAG);
    SetUint32(view, 12, FMT_TAG, w3);
    ghost var w4 := w3 + LE32(FMT_TAG);
    SetUint32(view, 16, 0x10, w4);
    ghost var w5 := w4 + LE32(0x10);
    SetUint16(view, 20, 0x0001, w5);
    ghost var w6 := w5 + LE16(0x0001);
    SetUint16(view, 22, numChannels, w6);
    ghost var w7 := w6 + LE16(numChannels);
    SetUint32(view, 24, sampleRate, w7);
    ghost var w8 := w7 + LE32(sampleRate);
    SetUint32(view, 28, numChannels * 2 * sampleRate, w8);
    ghost var w9 := w8 + LE32(numChannels * 2 * sampleRate);
    SetUint16(view, 32, numChannels * 2, w9);
    ghost var w10 := w9 + LE16(numChannels * 2);
    SetUint16(view, 34, 16, w10);
    ghost var w11 := w10 + LE16(16);
    SetUint32(view, 36, DATA_TAG, w11);
    ghost var w12 := w11 + LE32(DATA_TAG);
    SetUint32(view, 40, 2 * n, w12);
    ghost var w13 := w12 + LE32(2 * n);
    HeaderConcat(HeaderFor(n, numChannels, sampleRate));
  }

  /** pcm2wav: allocates 44 + 2 * numChannels * n zero bytes, writes the
      header fields at their offsets, then each sample at 44 + 2 * i. The
      ghost variable `written` is the prefix written so far. */
  method Pcm2Wav(buffer: seq<real>, numChannels: int, sampleRate: int)
    returns (result: Result<array<uint8>, JsError>)
    ensures result.Err? <==> Throws(|buffer|, numChannels)
    ensures result.Err? ==> result.error == RangeError
    ensures result.Ok? ==> fresh(result.value)
    ensures result.Ok? ==> result.value[..] == WavBytes(buffer, numChannels, sampleRate)
  {
    var bufferLength := |buffer|;
    if Throws(bufferLength, numChannels) {
      return Err(RangeError);
    }
    FileSizeCoversSamples(bufferLength, numChannels);
    var view := new uint8[FileSize(bufferLength, numChannels)](_ => 0);
    var size := view.Length;
    assert view[..] == ZeroFilled([], size);
    WriteHeader(view, bufferLength, numChannels, sampleRate);
    ghost var written := EncodeHeader(HeaderFor(bufferLength, numChannels, sampleRate));

    var p := HEADER_SIZE;
    for i := 0 to bufferLength
      invariant p == HEADER_SIZE + 2 * i == |written|
      invariant written == EncodeHeader(HeaderFor(bufferLength, numChannels, sampleRate))
                           + SampleBytes(buffer[..i])
      invariant view[..] == ZeroFilled(written, size)
    {
      var v := buffer[i];
      if v >= 1.0 {
        SetUint16(view, p, 0x7fff, written);
      } else if v <= -1.0 {
        SetUint16(view, p, -0x8000, written);
      } else {
        SetUint16(view, p, BitOrZero(v * 32768.0), written);
      }
      written := written + LE16(Quantize(v));
      assert buffer[..i + 1][..i] == buffer[..i];
      p := p + 2;
    }
    assert buffer[..bufferLength] == buffer;
    return Ok(view);
  }

  /** The allocated buffer holds the header, every sample and the padding. */
  lemma FileSizeCoversSamples(n: nat, numChannels: int)
    requires !Throws(n, numChannels)
    ensures FileSize(n, numChannels) == HEADER_SIZE + 2 * n + PaddingSize(n, numChannels)
  {
    if n > 0 {
      assert n * numChannels * 2 == 2 * n + 2 * n * (numChannels - 1);
    }
  }

  // ---------------------------------------------------------------------
  // What the returned bytes contain
  // ---------------------------------------------------------------------

  /** The header occupies the first 44 bytes of the stream. */
  lemma HeaderPrefix(buffer: seq<real>, numChannels: int, sampleRate: int)
    requires !Throws(|buffer|, numChannels)
    ensures var w := WavBytes(buffer, numChannels, sampleRate);
      HEADER_SIZE <= |w|
      && w[..HEADER_SIZE] == EncodeHeader(HeaderFor(|buffer|, numChannels, sampleRate))
  {
    HeaderLayout(HeaderFor(|buffer|, numChannels, sampleRate));
  }

  /** The output holds exactly 44 + 2 * numChannels * n bytes. */
  lemma WavLength(buffer: seq<real>, numChannels: int, sampleRate: int)
    requires !Throws(|buffer|, numChannels)
    ensures |WavBytes(buffer, numChannels, sampleRate)| == |buffer| * numChannels * 2 + 44
  {
    FileSizeCoversSamples(|buffer|, numChannels);
  }

  /** Every header field, read back at its offset: the four ASCII tags, the
      RIFF size (file length minus 8), the fixed PCM fmt fields, the channel
      count, rate, byte rate and block align (each reduced to the width it is
      written with), and the data size 2 * n. */
  lemma WavHeaderFields(buffer: seq<real>, numChannels: int, sampleRate: int)
    requires !Throws(|buffer|, numChannels)
    ensures var w := WavBytes(buffer, numChannels, sampleRate);
      && |w| >= HEADER_SIZE
      && w[0..4] == Ascii("RIFF") && U32At(w, 0) == RIFF_TAG
      && U32At(w, 4) == (|w| - 8) % TWO32
      && w[8..12] == Ascii("WAVE") && U32At(w, 8) == WAVE_TAG
      && w[12..16] == Ascii("fmt ") && U32At(w, 12) == FMT_TAG
      && U32At(w, 16) == 16
      && U16At(w, 20) == 1
      && U16At(w, 22) == numChannels % TWO16
      && U32At(w, 24) == sampleRate % TWO32
      && U32At(w, 28) == numChannels * 2 * sampleRate % TWO32
      && U16At(w, 32) == numChannels * 2 % TWO16
      && U16At(w, 34) == 16
      && w[36..40] == Ascii("data") && U32At(w, 36) == DATA_TAG
      && U32At(w, 40) == 2 * |buffer| % TWO32
  {
    var w := WavBytes(buffer, numChannels, sampleRate);
    var e := EncodeHeader(HeaderFor(|buffer|, numChannels, sampleRate));
    HeaderPrefix(buffer, numChannels, sampleRate);
    HeaderLayout(HeaderFor(|buffer|, numChannels, sampleRate));
    WavLength(buffer, numChannels, sampleRate);
    ChunkTagsAreAscii();
    assert forall k :: 0 <= k < HEADER_SIZE ==> w[k] == e[k];
    assert e[0..4] == LE32(RIFF_TAG);
    assert e[8..12] == LE32(WAVE_TAG);
    assert e[12..16] == LE32(FMT_TAG);
    assert e[36..40] == LE32(DATA_TAG);
    ModSmall(16, TWO32);
    ModSmall(1, TWO16);
    ModSmall(16, TWO16);
  }

  /** Sample i is stored little-endian at offset 44 + 2 * i and reads back as
      its quantised value. */
  lemma WavSampleAt(buffer: seq<real>, numChannels: int, sampleRate: int, i: nat)
    requires !Throws(|buffer|, numChannels) && i < |buffer|
    ensures var w := WavBytes(buffer, numChannels, sampleRate);
      && HEADER_SIZE + 2 * i + 2 <= |w|
      && w[HEADER_SIZE + 2 * i..HEADER_SIZE + 2 * i + 2] == LE16(Quantize(buffer[i]))
      && I16At(w, HEADER_SIZE + 2 * i) == Quantize(buffer[i])
  {
    var w := WavBytes(buffer, numChannels, sampleRate);
    var off := HEADER_SIZE + 2 * i;
    HeaderLayout(HeaderFor(|buffer|, numChannels, sampleRate));
    SampleBytesAt(buffer, i);
    assert w[off..off + 2] == SampleBytes(buffer)[2 * i..2 * i + 2];
    QuantizeRange(buffer[i]);
    LE16SignedDecodes(Quantize(buffer[i]));
    assert w[off..off + 2][0] == w[off] && w[off..off + 2][1] == w[off + 1];
  }

  /** Only n samples are written: when numChannels > 1 the last
      2 * (numChannels - 1) * n bytes stay zero. */
  lemma WavPadding(buffer: seq<real>, numChannels: int, sampleRate: int)
    requires !Throws(|buffer|, numChannels)
    ensures var w := WavBytes(buffer, numChannels, sampleRate);
      forall k :: HEADER_SIZE + 2 * |buffer| <= k < |w| ==> w[k] == 0
  {
    HeaderLayout(HeaderFor(|buffer|, numChannels, sampleRate));
  }

  /** An empty buffer yields the bare 44-byte header with data size 0 and
      RIFF size 36, for any channel count. */
  lemma WavEmpty(numChannels: int, sampleRate: int)
    ensures var w := WavBytes([], numChannels, sampleRate);
      && w == EncodeHeader(HeaderFor(0, numChannels, sampleRate))
      && |w| == HEADER_SIZE && U32At(w, 40) == 0 && U32At(w, 4) == 36
  {
    var h := HeaderFor(0, numChannels, sampleRate);
    assert h.riffSize == 36 && h.dataSize == 0;
    HeaderLayout(h);
    assert WavBytes([], numChannels, sampleRate) == EncodeHeader(h) + [] + [];
    ModSmall(36, TWO32);
  }

  /** The RIFF size counts 2 * numChannels * n data bytes but the data chunk
      declares 2 * n: the chunk sizes add up (RIFF size = 36 + data size)
      exactly when there is one channel or no sample. */
  lemma ChunkSizesAgree(buffer: seq<real>, numChannels: int, sampleRate: int)
    requires numChannels >= 1 && FileSize(|buffer|, numChannels) < TWO32
    ensures var w := WavBytes(buffer, numChannels, sampleRate);
      U32At(w, 4) == 36 + U32At(w, 40) <==> numChannels == 1 || |buffer| == 0
  {
    var n := |buffer|;
    var w := WavBytes(buffer, numChannels, sampleRate);
    WavHeaderFields(buffer, numChannels, sampleRate);
    WavLength(buffer, numChannels, sampleRate);
    var dataBytes := n * numChannels * 2;
    ScaledSize(n, numChannels);
    assert U32At(w, 4) == dataBytes + 36 by {
      ModSmall(|w| - 8, TWO32);
    }
    assert U32At(w, 40) == 2 * n by {
      ModSmall(2 * n, TWO32);
    }
  }

  /** n * numChannels * 2 is at least 2 * n, and equal to it exactly when
      numChannels is 1 or n is 0. */
  lemma ScaledSize(n: nat, numChannels: int)
    requires numChannels >= 1
    ensures 2 * n <= n * numChannels * 2
    ensures n * numChannels * 2 == 2 * n <==> numChannels == 1 || n == 0
  {
    var extra: nat := numChannels - 1;
    MulNonNegative(n, extra);
    assert n * numChannels == n + n * extra;
    if n > 0 && extra > 0 {
      assert n * extra >= n * 1 by {
        MulNonNegative(n, extra - 1);
      }
    }
  }

  lemma ModSmall(x: int, m: int)
    requires 0 <= x < m
    ensures x % m == x
  {
  }

  /** Decoding sample i and dividing by 2^15 recovers any sample in
      [-1, 1] to within one quantisation step (exactly at -1). */
  lemma DecodedSampleError(buffer: seq<real>, numChannels: int, sampleRate: int, i: nat)
    requires !Throws(|buffer|, numChannels) && i < |buffer|
    requires -1.0 <= buffer[i] <= 1.0
    ensures var w := WavBytes(buffer, numChannels, sampleRate);
      HEADER_SIZE + 2 * i + 2 <= |w|
      && var d := I16At(w, HEADER_SIZE + 2 * i) as real / 32768.0;
         -1.0 / 32768.0 <= d - buffer[i] <= 1.0 / 32768.0
         && (buffer[i] == -1.0 ==> d == -1.0)
  {
    WavSampleAt(buffer, numChannels, sampleRate, i);
    var v := buffer[i];
    if -1.0 < v < 1.0 {
      QuantizeInRange(v);
    }
  }

  /** A WAV reader gets back the channel count, the sample rate and the
      sample count n from the header, whenever they fit their fields. */
  lemma WavHeaderRoundTrip(buffer: seq<real>, numChannels: int, sampleRate: int)
    requires 1 <= numChannels < TWO16 && 0 <= sampleRate < TWO32
    requires 2 * |buffer| < TWO32
    ensures var w := WavBytes(buffer, numChannels, sampleRate);
      && |w| >= HEADER_SIZE
      && U16At(w, 22) == numChannels
      && U32At(w, 24) == sampleRate
      && U32At(w, 40) / 2 == |buffer|
      && U16At(w, 20) == 1 && U16At(w, 34) == 16
  {
    var w := WavBytes(buffer, numChannels, sampleRate);
    WavHeaderFields(buffer, numChannels, sampleRate);
    assert U16At(w, 22) == numChannels by {
      ModSmall(numChannels, TWO16);
    }
    assert U32At(w, 24) == sampleRate by {
      ModSmall(sampleRate, TWO32);
    }
    assert U32At(w, 40) == 2 * |buffer| by {
      ModSmall(2 * |buffer|, TWO32);
    }
  }
}
