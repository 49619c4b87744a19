/** The per-frame feedback record (`feedbackStruct`) and its construction
    by the receive callback when the frame was decoded locally. */
module Feedback {
  import opened MachineInts
  import FrameHeader
  import PayloadErrors

  /** What the receiver observed about one frame. The frame synchroniser
      reports validity as 0/1 flags; they are booleans here. The mutex,
      condition variable and blocking flag of the C struct belong to the
      hand-off between threads and are not modelled. */
  datatype FeedbackRecord = FeedbackRecord(
    headerValid: bool,
    payloadValid: bool,
    payloadLen: u32,
    payloadByteErrors: nat,
    payloadBitErrors: nat,
    iteration: u32,
    evm: real,
    rssi: real,
    cfo: real)

  /** A validity flag read as the number it is in C. */
  function Indicator(b: bool): nat
  {
    if b then 1 else 0
  }

  /** The record the receive callback builds for a locally decoded frame:
      validity and signal statistics as reported by the synchroniser, the
      frame number read back from the header, and the payload compared with
      the receiver's copy `expected` of the transmitted bytes. */
  function LocalFeedback(header: seq<byte>, headerValid: bool, payloadValid: bool,
                         payload: seq<byte>, expected: seq<byte>,
                         evm: real, rssi: real, cfo: real): (fb: FeedbackRecord)
    requires |header| == FrameHeader.HEADER_LEN
    requires |payload| == |expected| < U32_MODULUS
    ensures fb.payloadLen == |payload|
    ensures fb.payloadByteErrors == |PayloadErrors.Mismatches(payload, expected)|
    ensures fb.payloadBitErrors == PayloadErrors.BitErrors(payload, expected)
    ensures fb.iteration == FrameHeader.DecodeFrameNumber(header)
    ensures fb.payloadByteErrors <= fb.payloadLen
    ensures fb.payloadByteErrors <= fb.payloadBitErrors <= 8 * fb.payloadByteErrors
    ensures fb.payloadBitErrors == 0 <==> payload == expected
    ensures fb.headerValid == headerValid && fb.payloadValid == payloadValid
  {
    PayloadErrors.ErrorCountBounds(payload, expected);
    PayloadErrors.ByteErrorsCountMismatches(payload, expected);
    FeedbackRecord(
      headerValid, payloadValid, |payload|,
      PayloadErrors.ByteErrors(payload, expected),
      PayloadErrors.BitErrors(payload, expected),
      FrameHeader.DecodeFrameNumber(header),
      evm, rssi, cfo)
  }

  /** A frame whose header the transmitter wrote reports the frame number
      that header was written for. */
  lemma LocalFeedbackFrameNumber(ceIndex: nat, scIndex: nat, frameNumber: u32,
                                 headerValid: bool, payloadValid: bool,
                                 payload: seq<byte>, expected: seq<byte>,
                                 evm: real, rssi: real, cfo: real)
    requires |payload| == |expected| < U32_MODULUS
    ensures LocalFeedback(FrameHeader.EncodeHeader(ceIndex, scIndex, frameNumber),
                          headerValid, payloadValid, payload, expected, evm, rssi, cfo).iteration
            == frameNumber
  {
    FrameHeader.FrameNumberRoundTrip(ceIndex, scIndex, frameNumber);
  }
}
