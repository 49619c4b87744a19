/** The 8-byte frame header the transmitter fills in before assembling a
    frame, and the frame-number decoding the receive callback performs.
    Byte 0 carries the cognitive-engine number, byte 1 the scenario
    number, bytes 2..5 the 32-bit frame number most significant byte
    first, bytes 6..7 are zero. */
module FrameHeader {
  import opened MachineInts

  /** The frame generator requires exactly eight header bytes. */
  const HEADER_LEN: nat := 8

  /** Byte `i` (0 = most significant) of a 32-bit value: the source masks
      with `0xFF << 8*(3-i)` and shifts right by `8*(3-i)`. */
  function FrameNumberByte(n: u32, i: int): byte
    requires 0 <= i < 4
  {
    if i == 0 then (n / 0x100_0000) % 256
    else if i == 1 then (n / 0x1_0000) % 256
    else if i == 2 then (n / 0x100) % 256
    else n % 256
  }

  /** The header written by the transmit loop for engine `ceIndex`,
      scenario `scIndex` (both counted from 0) and frame `frameNumber`.
      Storing `index + 1` into an `unsigned char` keeps it modulo 256. */
  function EncodeHeader(ceIndex: nat, scIndex: nat, frameNumber: u32): (h: seq<byte>)
    ensures |h| == HEADER_LEN
    ensures h[0] == (ceIndex + 1) % 256 && h[1] == (scIndex + 1) % 256
    ensures h[6] == 0 && h[7] == 0
  {
    [(ceIndex + 1) % 256, (scIndex + 1) % 256,
     FrameNumberByte(frameNumber, 0), FrameNumberByte(frameNumber, 1),
     FrameNumberByte(frameNumber, 2), FrameNumberByte(frameNumber, 3),
     0, 0]
  }

  /** The frame number the receive callback rebuilds by adding
      `header[i+2] << 8*(3-i)` into an `unsigned int` for i = 0..3. Four
      bytes never exceed 2^32 - 1, so the sum never wraps. */
  function DecodeFrameNumber(h: seq<byte>): (n: u32)
    requires |h| >= 6
    ensures n == h[2] as int * 0x100_0000 + h[3] as int * 0x1_0000 + h[4] as int * 0x100 + h[5] as int
  {
    WrapU32(h[2] as int * 0x100_0000 + h[3] as int * 0x1_0000 + h[4] as int * 0x100 + h[5] as int)
  }

  /** The receiver recovers every 32-bit frame number the transmitter
      sends, whatever the engine and scenario numbers. */
  lemma FrameNumberRoundTrip(ceIndex: nat, scIndex: nat, n: u32)
    ensures DecodeFrameNumber(EncodeHeader(ceIndex, scIndex, n)) == n
  {
    var q1 := n / 256;
    var q2 := q1 / 256;
    var q3 := q2 / 256;
    assert n / 0x100 == q1;
    assert n / 0x1_0000 == q2;
    assert n / 0x100_0000 == q3;
    assert q3 < 256;
  }

  /** The converse direction: re-encoding a decoded frame number writes back
      the very bytes 2..5 it was decoded from. */
  lemma FrameBytesRoundTrip(h: seq<byte>, ceIndex: nat, scIndex: nat)
    requires |h| == HEADER_LEN
    ensures EncodeHeader(ceIndex, scIndex, DecodeFrameNumber(h))[2..6] == h[2..6]
  {
    var low := h[4] as int * 0x100 + h[5] as int;
    var mid := h[3] as int * 0x1_0000 + low;
    var n := h[2] as int * 0x100_0000 + mid;
    assert 0 <= low < 0x1_0000;
    assert 0 <= mid < 0x100_0000;
    assert DecodeFrameNumber(h) == n;
    assert n / 0x100_0000 == h[2];
    assert n / 0x1_0000 == h[2] as int * 0x100 + h[3] as int;
    assert n / 0x100 == h[2] as int * 0x1_0000 + h[3] as int * 0x100 + h[4] as int;
    var d := DecodeFrameNumber(h);
    assert FrameNumberByte(d, 0) == h[2];
    assert FrameNumberByte(d, 1) == h[3];
    assert FrameNumberByte(d, 2) == h[4];
    assert FrameNumberByte(d, 3) == h[5];
    var e := EncodeHeader(ceIndex, scIndex, d);
    assert e[2..6] == [e[2], e[3], e[4], e[5]];
    assert h[2..6] == [h[2], h[3], h[4], h[5]];
  }

  /** Distinct frame numbers give distinct headers, so the receiver can
      tell frames apart. */
  lemma EncodeHeaderInjective(ceIndex: nat, scIndex: nat, n: u32, m: u32)
    requires EncodeHeader(ceIndex, scIndex, n) == EncodeHeader(ceIndex, scIndex, m)
    ensures n == m
  {
    FrameNumberRoundTrip(ceIndex, scIndex, n);
    FrameNumberRoundTrip(ceIndex, scIndex, m);
  }
}
