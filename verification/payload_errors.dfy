/** Payload error counting of the receive callback: each received byte is
    compared with the byte the receiver's m-sequence generator produces at
    the same position; a mismatching byte adds one byte error and one bit
    error per differing bit. The generator's output is an input here. */
module PayloadErrors {
  import opened MachineInts

  /** Number of differing bits among the low `width` bits of `a` and `b`,
      bit 0 first. Bit j of x is `(x / 2^j) % 2`, which is what the
      source's test `x & (1 << j)` looks at. */
  function DifferingBits(a: nat, b: nat, width: nat): (d: nat)
    ensures d <= width
  {
    if width == 0 then 0
    else (if a % 2 != b % 2 then 1 else 0) + DifferingBits(a / 2, b / 2, width - 1)
  }

  /** Two values of `width` bits differ in no bit exactly when they are equal. */
  lemma {:induction false} DifferingBitsZeroIffEqual(a: nat, b: nat, width: nat)
    requires a < Pow2(width) && b < Pow2(width)
    ensures DifferingBits(a, b, width) == 0 <==> a == b
  {
    if width > 0 {
      DifferingBitsZeroIffEqual(a / 2, b / 2, width - 1);
    }
  }

  /** Bit errors contributed by one byte position: none for a matching
      byte, otherwise the differing bits (between one and eight). */
  function ByteBitErrors(received: byte, expected: byte): (d: nat)
    ensures d <= 8
    ensures d == 0 <==> received == expected
  {
    DifferingBitsZeroIffEqual(received, expected, 8);
    if received != expected then DifferingBits(received, expected, 8) else 0
  }

  /** Byte errors over a payload, position by position. */
  function ByteErrors(received: seq<byte>, expected: seq<byte>): nat
    requires |received| == |expected|
  {
    if |received| == 0 then 0
    else
      var k := |received| - 1;
      ByteErrors(received[..k], expected[..k]) + (if received[k] != expected[k] then 1 else 0)
  }

  /** Bit errors over a payload, position by position. */
  function BitErrors(received: seq<byte>, expected: seq<byte>): nat
    requires |received| == |expected|
  {
    if |received| == 0 then 0
    else
      var k := |received| - 1;
      BitErrors(received[..k], expected[..k]) + ByteBitErrors(received[k], expected[k])
  }

  /** The positions at which the payload differs from the expected bytes. */
  function Mismatches(received: seq<byte>, expected: seq<byte>): set<int>
    requires |received| == |expected|
  {
    set i | 0 <= i < |received| && received[i] != expected[i]
  }

  /** The byte-error count is the number of mismatching positions. */
  lemma {:induction false} ByteErrorsCountMismatches(received: seq<byte>, expected: seq<byte>)
    requires |received| == |expected|
    ensures ByteErrors(received, expected) == |Mismatches(received, expected)|
    decreases |received|
  {
    if |received| > 0 {
      var k := |received| - 1;
      ByteErrorsCountMismatches(received[..k], expected[..k]);
      var before := Mismatches(received[..k], expected[..k]);
      if received[k] != expected[k] {
        assert Mismatches(received, expected) == before + {k};
      } else {
        assert Mismatches(received, expected) == before;
      }
    }
  }

  /** The bounds the two counts keep: byte errors never exceed the payload
      length, every byte error carries between one and eight bit errors,
      and both counts vanish exactly when the payload is error free. */
  lemma {:induction false} ErrorCountBounds(received: seq<byte>, expected: seq<byte>)
    requires |received| == |expected|
    ensures ByteErrors(received, expected) <= |received|
    ensures ByteErrors(received, expected) <= BitErrors(received, expected)
              <= 8 * ByteErrors(received, expected)
    ensures BitErrors(received, expected) == 0 <==> received == expected
    ensures ByteErrors(received, expected) == 0 <==> received == expected
    decreases |received|
  {
    if |received| > 0 {
      var k := |received| - 1;
      ErrorCountBounds(received[..k], expected[..k]);
      assert received == received[..k] + [received[k]];
      assert expected == expected[..k] + [expected[k]];
    }
  }

  /** The counting loop of the receive callback. */
  method CountPayloadErrors(received: seq<byte>, expected: seq<byte>)
    returns (byteErrors: nat, bitErrors: nat)
    requires |received| == |expected|
    ensures byteErrors == ByteErrors(received, expected)
    ensures bitErrors == BitErrors(received, expected)
    ensures byteErrors <= |received|
    ensures byteErrors <= bitErrors <= 8 * byteErrors
    ensures bitErrors == 0 <==> received == expected
  {
    byteErrors, bitErrors := 0, 0;
    var m := 0;
    while m < |received|
      invariant 0 <= m <= |received|
      invariant byteErrors == ByteErrors(received[..m], expected[..m])
      invariant bitErrors == BitErrors(received[..m], expected[..m])
    {
      assert received[..m + 1][..m] == received[..m];
      assert expected[..m + 1][..m] == expected[..m];
      if received[m] != expected[m] {
        byteErrors := byteErrors + 1;
        // Bit j of a byte is tested as the low bit of the byte shifted
        // right j times, the same bit the source selects with `1 << j`.
        var x: nat, y: nat := received[m], expected[m];
        var j := 0;
        var bits := 0;
        while j < 8
          invariant 0 <= j <= 8
          invariant bits + DifferingBits(x, y, 8 - j) == DifferingBits(received[m], expected[m], 8)
        {
          if x % 2 != y % 2 {
            bits := bits + 1;
          }
          x, y := x / 2, y / 2;
          j := j + 1;
        }
        bitErrors := bitErrors + bits;
      }
      m := m + 1;
    }
    assert received[..m] == received;
    assert expected[..m] == expected;
    ErrorCountBounds(received, expected);
  }
}
