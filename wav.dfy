/** The voice-over file built in services/geminiService.ts: the base64 PCM
    the speech API returns is turned into bytes, and a canonical 44-byte
    RIFF WAVE header (Microsoft/IBM Multimedia Programming Interface and
    Data Specifications 1.0, WAVE form: a `fmt ` chunk with format tag 1 for
    PCM, then a `data` chunk) is put in front of them. Multi-byte fields are
    little-endian. */
module Wav {

  type byte = x: int | 0 <= x < 256

  const TwoTo16: nat := 65536
  const TwoTo32: nat := 4294967296

  /** `charCodeAt` stored into a byte: the code modulo 256 (`setUint8` and
      a `Uint8Array` store both wrap this way). */
  function CharCodes(s: string): (r: seq<byte>)
    ensures |r| == |s|
    ensures forall i :: 0 <= i < |s| ==> r[i] == (s[i] as int) % 256
  {
    seq(|s|, i requires 0 <= i < |s| => (s[i] as int) % 256)
  }

  /** The little-endian value of the 2 bytes at `off`. */
  function U16At(b: seq<byte>, off: nat): nat
    requires off + 2 <= |b|
  {
    (b[off] as int) + 256 * (b[off + 1] as int)
  }

  /** The little-endian value of the 4 bytes at `off`. */
  function U32At(b: seq<byte>, off: nat): nat
    requires off + 4 <= |b|
  {
    (b[off] as int) + 256 * (b[off + 1] as int) + 65536 * (b[off + 2] as int) + 16777216 * (b[off + 3] as int)
  }

  /** `setUint16(off, v, true)`: the two bytes of `v` modulo `2^16`, low
      byte first. */
  function LE16(v: nat): (r: seq<byte>)
    ensures |r| == 2 && U16At(r, 0) == v % TwoTo16
  {
    var r1 := v / 256;
    var r := [v % 256, r1 % 256];
    assert v == r[0] + 256 * r1;
    assert r1 == r[1] + 256 * (r1 / 256);
    assert v == U16At(r, 0) + 65536 * (r1 / 256);
    r
  }

  /** `setUint32(off, v, true)`: the four bytes of `v` modulo `2^32`, low
      byte first. */
  function LE32(v: nat): (r: seq<byte>)
    ensures |r| == 4 && U32At(r, 0) == v % TwoTo32
  {
    var r1 := v / 256;
    var r2 := r1 / 256;
    var r3 := r2 / 256;
    var r := [v % 256, r1 % 256, r2 % 256, r3 % 256];
    assert v == r[0] + 256 * r1;
    assert r1 == r[1] + 256 * r2;
    assert r2 == r[2] + 256 * r3;
    assert r3 == r[3] + 256 * (r3 / 256);
    assert v == U32At(r, 0) + 4294967296 * (r3 / 256);
    r
  }

  /** The byte rate field: `sampleRate * numChannels * (bitsPerSample / 8)`,
      truncated to an integer. */
  function ByteRate(sampleRate: nat, numChannels: nat, bitsPerSample: nat): nat {
    sampleRate * numChannels * bitsPerSample / 8
  }

  /** The block align field: `numChannels * (bitsPerSample / 8)`, truncated. */
  function BlockAlign(numChannels: nat, bitsPerSample: nat): nat {
    numChannels * bitsPerSample / 8
  }

  /** Byte `i` of the header: the RIFF chunk's id, length and form type,
      the 16-byte `fmt ` chunk (format tag 1, channels, sample rate, byte
      rate, block align, bits per sample), then the `data` chunk's id and
      length. */
  function HeaderByte(i: nat, dataLength: nat, sampleRate: nat, numChannels: nat, bitsPerSample: nat): (r: byte)
    requires i < 44
    ensures i < 4 ==> r == CharCodes("RIFF")[i]
    ensures 8 <= i < 12 ==> r == CharCodes("WAVE")[i - 8]
    ensures 12 <= i < 16 ==> r == CharCodes("fmt ")[i - 12]
    ensures 36 <= i < 40 ==> r == CharCodes("data")[i - 36]
  {
    if i < 4 then [82, 73, 70, 70][i]                       // "RIFF"
    else if i < 8 then LE32(36 + dataLength)[i - 4]
    else if i < 12 then [87, 65, 86, 69][i - 8]             // "WAVE"
    else if i < 16 then [102, 109, 116, 32][i - 12]         // "fmt "
    else if i < 20 then LE32(16)[i - 16]
    else if i < 22 then LE16(1)[i - 20]
    else if i < 24 then LE16(numChannels)[i - 22]
    else if i < 28 then LE32(sampleRate)[i - 24]
    else if i < 32 then LE32(ByteRate(sampleRate, numChannels, bitsPerSample))[i - 28]
    else if i < 34 then LE16(BlockAlign(numChannels, bitsPerSample))[i - 32]
    else if i < 36 then LE16(bitsPerSample)[i - 34]
    else if i < 40 then [100, 97, 116, 97][i - 36]          // "data"
    else LE32(dataLength)[i - 40]
  }

  /** The 44 header bytes. */
  function WavHeader(dataLength: nat, sampleRate: nat, numChannels: nat, bitsPerSample: nat): (h: seq<byte>)
    ensures |h| == 44
  {
    seq(44, i requires 0 <= i < 44 => HeaderByte(i, dataLength, sampleRate, numChannels, bitsPerSample))
  }

  /** Every field of the header sits at its offset with its value (each
      number modulo the width of its field). */
  lemma WavHeaderLayout(dataLength: nat, sampleRate: nat, numChannels: nat, bitsPerSample: nat)
    ensures var h := WavHeader(dataLength, sampleRate, numChannels, bitsPerSample);
      && h[0..4] == [82, 73, 70, 70]
      && U32At(h, 4) == (36 + dataLength) % TwoTo32
      && h[8..12] == [87, 65, 86, 69]
      && h[12..16] == [102, 109, 116, 32]
      && U32At(h, 16) == 16
      && U16At(h, 20) == 1
      && U16At(h, 22) == numChannels % TwoTo16
      && U32At(h, 24) == sampleRate % TwoTo32
      && U32At(h, 28) == ByteRate(sampleRate, numChannels, bitsPerSample) % TwoTo32
      && U16At(h, 32) == BlockAlign(numChannels, bitsPerSample) % TwoTo16
      && U16At(h, 34) == bitsPerSample % TwoTo16
      && h[36..40] == [100, 97, 116, 97]
      && U32At(h, 40) == dataLength % TwoTo32
  {
    var h := WavHeader(dataLength, sampleRate, numChannels, bitsPerSample);
    assert U32At(h, 4) == U32At(LE32(36 + dataLength), 0);
    assert U32At(h, 16) == U32At(LE32(16), 0);
    assert U16At(h, 20) == U16At(LE16(1), 0);
    assert U16At(h, 22) == U16At(LE16(numChannels), 0);
    assert U32At(h, 24) == U32At(LE32(sampleRate), 0);
    assert U32At(h, 28) == U32At(LE32(ByteRate(sampleRate, numChannels, bitsPerSample)), 0);
    assert U16At(h, 32) == U16At(LE16(BlockAlign(numChannels, bitsPerSample)), 0);
    assert U16At(h, 34) == U16At(LE16(bitsPerSample), 0);
    assert U32At(h, 40) == U32At(LE32(dataLength), 0);
  }

  /** The four chunk tags in the header are the codes of their ASCII names. */
  lemma ChunkTags()
    ensures CharCodes("RIFF") == [82, 73, 70, 70]
    ensures CharCodes("WAVE") == [87, 65, 86, 69]
    ensures CharCodes("fmt ") == [102, 109, 116, 32]
    ensures CharCodes("data") == [100, 97, 116, 97]
  {
  }

  // ---------------------------------------------------------------------
  // The imperative writers over the header buffer

  /** `writeString(view, offset, s)`: byte `offset + i` becomes the code of
      character `i`; no other byte changes. */
  method WriteString(view: array<byte>, offset: nat, s: string)
    requires offset + |s| <= view.Length
    modifies view
    ensures forall i :: 0 <= i < |s| ==> view[offset + i] == CharCodes(s)[i]
    ensures forall i :: 0 <= i < view.Length && !(offset <= i < offset + |s|) ==> view[i] == old(view[i])
  {
    for k := 0 to |s|
      invariant forall i :: 0 <= i < k ==> view[offset + i] == CharCodes(s)[i]
      invariant forall i :: 0 <= i < view.Length && !(offset <= i < offset + k) ==> view[i] == old(view[i])
    {
      view[offset + k] := (s[k] as int) % 256;
    }
  }

  /** Writes `bytes` at `offset`; no other byte changes. */
  method SetBytes(view: array<byte>, offset: nat, bytes: seq<byte>)
    requires offset + |bytes| <= view.Length
    modifies view
    ensures forall i :: 0 <= i < |bytes| ==> view[offset + i] == bytes[i]
    ensures forall i :: 0 <= i < view.Length && !(offset <= i < offset + |bytes|) ==> view[i] == old(view[i])
  {
    for k := 0 to |bytes|
      invariant forall i :: 0 <= i < k ==> view[offset + i] == bytes[i]
      invariant forall i :: 0 <= i < view.Length && !(offset <= i < offset + k) ==> view[i] == old(view[i])
    {
      view[offset + k] := bytes[k];
    }
  }

  /** `view.setUint16(offset, v, true)`. */
  method SetUint16(view: array<byte>, offset: nat, v: nat)
    requires offset + 2 <= view.Length
    modifies view
    ensures U16At(view[..], offset) == v % TwoTo16
    ensures forall i :: 0 <= i < |LE16(v)| ==> view[offset + i] == LE16(v)[i]
    ensures forall i :: 0 <= i < view.Length && !(offset <= i < offset + 2) ==> view[i] == old(view[i])
  {
    SetBytes(view, offset, LE16(v));
    assert U16At(view[..], offset) == U16At(LE16(v), 0);
  }

  /** `view.setUint32(offset, v, true)`. */
  method SetUint32(view: array<byte>, offset: nat, v: nat)
    requires offset + 4 <= view.Length
    modifies view
    ensures U32At(view[..], offset) == v % TwoTo32
    ensures forall i :: 0 <= i < |LE32(v)| ==> view[offset + i] == LE32(v)[i]
    ensures forall i :: 0 <= i < view.Length && !(offset <= i < offset + 4) ==> view[i] == old(view[i])
  {
    SetBytes(view, offset, LE32(v));
    assert U32At(view[..], offset) == U32At(LE32(v), 0);
  }

  /** The first twelve writes of `createWavHeader`: the RIFF chunk's id,
      length and form type. */
  method WriteRiffPart(header: array<byte>, dataLength: nat, sampleRate: nat, numChannels: nat, bitsPerSample: nat)
    requires header.Length == 44
    modifies header
    ensures forall i :: 0 <= i < 12 ==> header[i] == HeaderByte(i, dataLength, sampleRate, numChannels, bitsPerSample)
    ensures forall i :: 12 <= i < 44 ==> header[i] == old(header[i])
  {
    ChunkTags();
    WriteString(header, 0, "RIFF");
    SetUint32(header, 4, 36 + dataLength);
    WriteString(header, 8, "WAVE");
  }

  /** The writes of the `fmt ` chunk, bytes 12 to 35. */
  method WriteFmtChunk(header: array<byte>, dataLength: nat, sampleRate: nat, numChannels: nat, bitsPerSample: nat)
    requires header.Length == 44
    modifies header
    ensures forall i :: 12 <= i < 36 ==> header[i] == HeaderByte(i, dataLength, sampleRate, numChannels, bitsPerSample)
    ensures forall i :: 0 <= i < 44 && !(12 <= i < 36) ==> header[i] == old(header[i])
  {
    ChunkTags();
    WriteString(header, 12, "fmt ");
    SetUint32(header, 16, 16);
    SetUint16(header, 20, 1);
    SetUint16(header, 22, numChannels);
    SetUint32(header, 24, sampleRate);
    SetUint32(header, 28, ByteRate(sampleRate, numChannels, bitsPerSample));
    SetUint16(header, 32, BlockAlign(numChannels, bitsPerSample));
    SetUint16(header, 34, bitsPerSample);
  }

  /** The last two writes: the `data` chunk's id and length. */
  method WriteDataPart(header: array<byte>, dataLength: nat, sampleRate: nat, numChannels: nat, bitsPerSample: nat)
    requires header.Length == 44
    modifies header
    ensures forall i :: 36 <= i < 44 ==> header[i] == HeaderByte(i, dataLength, sampleRate, numChannels, bitsPerSample)
    ensures forall i :: 0 <= i < 36 ==> header[i] == old(header[i])
  {
    ChunkTags();
    WriteString(header, 36, "data");
    SetUint32(header, 40, dataLength);
  }

  /** `createWavHeader`: a zeroed 44-byte buffer filled field by field. */
  method CreateWavHeader(dataLength: nat, sampleRate: nat, numChannels: nat, bitsPerSample: nat)
    returns (header: array<byte>)
    ensures header[..] == WavHeader(dataLength, sampleRate, numChannels, bitsPerSample)
  {
    header := new byte[44](_ => 0);
    WriteRiffPart(header, dataLength, sampleRate, numChannels, bitsPerSample);
    WriteFmtChunk(header, dataLength, sampleRate, numChannels, bitsPerSample);
    WriteDataPart(header, dataLength, sampleRate, numChannels, bitsPerSample);
  }

  /** `base64ToUint8Array` after `atob`: one byte per character of the
      decoded binary string, holding that character's code. */
  method BinaryStringToBytes(binaryString: string) returns (bytes: array<byte>)
    ensures bytes[..] == CharCodes(binaryString)
  {
    bytes := new byte[|binaryString|];
    for i := 0 to |binaryString|
      invariant bytes[..i] == CharCodes(binaryString)[..i]
    {
      bytes[i] := (binaryString[i] as int) % 256;
    }
    assert bytes[..] == bytes[..|binaryString|];
  }

  // ---------------------------------------------------------------------
  // The speech file

  /** The voice-over format: 24 kHz, one channel, 16 bits per sample. */
  const SpeechSampleRate: nat := 24000
  const SpeechChannels: nat := 1
  const SpeechBitsPerSample: nat := 16

  /** The bytes of the voice-over blob: header, then the PCM samples. */
  function SpeechWav(pcm: seq<byte>): (r: seq<byte>)
    ensures |r| == |pcm| + 44
    ensures r[44..] == pcm
  {
    WavHeader(|pcm|, SpeechSampleRate, SpeechChannels, SpeechBitsPerSample) + pcm
  }

  lemma SmallMod(x: nat, m: nat)
    requires x < m
    ensures x % m == x
  {
  }

  /** The speech header's fields: mono 16-bit PCM at 24 kHz, 48000 bytes a
      second, 2 bytes a frame. */
  lemma SpeechHeaderFields(dataLength: nat)
    requires dataLength + 36 < TwoTo32
    ensures var h := WavHeader(dataLength, SpeechSampleRate, SpeechChannels, SpeechBitsPerSample);
      && U32At(h, 4) == dataLength + 36
      && U16At(h, 20) == 1
      && U16At(h, 22) == 1
      && U32At(h, 24) == 24000
      && U32At(h, 28) == 48000
      && U16At(h, 32) == 2
      && U16At(h, 34) == 16
      && U32At(h, 40) == dataLength
  {
    WavHeaderLayout(dataLength, SpeechSampleRate, SpeechChannels, SpeechBitsPerSample);
    assert ByteRate(24000, 1, 16) == 48000 && BlockAlign(1, 16) == 2;
    SmallMod(dataLength + 36, TwoTo32);
    SmallMod(dataLength, TwoTo32);
    SmallMod(24000, TwoTo32);
    SmallMod(48000, TwoTo32);
    SmallMod(1, TwoTo16);
    SmallMod(2, TwoTo16);
    SmallMod(16, TwoTo16);
  }

  /** Appending bytes leaves the fields read inside the header as they are. */
  lemma FieldsBeforeSamples(h: seq<byte>, pcm: seq<byte>)
    requires |h| == 44
    ensures forall k :: 0 <= k <= 40 ==> U32At(h + pcm, k) == U32At(h, k)
    ensures forall k :: 0 <= k <= 42 ==> U16At(h + pcm, k) == U16At(h, k)
  {
  }

  /** The voice-over file is 44 bytes longer than its samples, declares mono
      16-bit PCM at 24 kHz (48000 bytes a second, 2 bytes a frame), and its
      length fields agree with the samples it carries. */
  lemma SpeechWavLayout(pcm: seq<byte>)
    requires |pcm| + 36 < TwoTo32
    ensures var w := SpeechWav(pcm);
      && |w| == 44 + |pcm|
      && w[44..] == pcm
      && U32At(w, 4) == |w| - 8
      && U16At(w, 20) == 1
      && U16At(w, 22) == 1
      && U32At(w, 24) == 24000
      && U32At(w, 28) == 48000
      && U16At(w, 32) == 2
      && U16At(w, 34) == 16
      && U32At(w, 40) == |pcm|
  {
    var h := WavHeader(|pcm|, SpeechSampleRate, SpeechChannels, SpeechBitsPerSample);
    SpeechHeaderFields(|pcm|);
    FieldsBeforeSamples(h, pcm);
    assert (h + pcm)[44..] == pcm;
  }

  /** The WAV assembly of `generateSpeech`: the decoded binary string
      becomes the PCM bytes, the header is built for their length and the
      blob is the two one after the other. */
  method AssembleSpeechWav(binaryString: string) returns (wav: seq<byte>)
    ensures wav == SpeechWav(CharCodes(binaryString))
    ensures |wav| == 44 + |binaryString|
  {
    var pcmData := BinaryStringToBytes(binaryString);
    var header := CreateWavHeader(pcmData.Length, SpeechSampleRate, SpeechChannels, SpeechBitsPerSample);
    wav := header[..] + pcmData[..];
  }
}
