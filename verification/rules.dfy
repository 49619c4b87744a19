/** The string keys a cognitive-engine configuration uses to name its goal,
    its adaptation condition and its adaptation action, read as closed
    enumerations. A key the engine does not recognise is kept as `Other…`:
    an unknown goal stops the run when feedback is processed, an unknown
    condition or action simply never fires. */
module Rules {
  import opened Schemes

  /** The metric `ceProcessData` stores in `latestGoalValue`. */
  datatype Goal =
    | PayloadValid          // "payload_valid": validity of the last payload
    | ValidPayloadCount     // "X_valid_payloads": payloads received valid so far
    | ErrorFreePayloadCount // "X_errorFreePayloads": payloads received error free so far
    | FrameCount            // "X_frames": frames sent in this test
    | ElapsedSeconds        // "X_seconds": running time of this test
    | OtherGoal(key: string)

  /** When `ceModifyTxParams` adapts. */
  datatype Condition =
    | UserSpecified                 // "user_specified": always, after reloading the user file
    | LastPayloadInvalid            // "last_payload_invalid"
    | WeightedAvgPayloadValidBelow  // "weighted_avg_payload_valid<X"
    | WeightedAvgPayloadValidAbove  // "weighted_avg_payload_valid>X"
    | PerBelow                      // "PER<X"
    | PerAbove                      // "PER>X"
    | BerLastPacketBelow            // "BER_lastPacket<X"
    | BerLastPacketAbove            // "BER_lastPacket>X"
    | LastPacketErrorFree           // "last_packet_error_free"
    | OtherCondition(key: string)

  /** What `ceModifyTxParams` changes when it adapts. */
  datatype Action =
    | IncreasePayloadLen            // "increase_payload_len"
    | DecreasePayloadLen            // "decrease_payload_len"
    | DecreaseModSchemePsk          // "decrease_mod_scheme_PSK"
    | DecreaseModSchemeAsk          // "decrease_mod_scheme_ASK"
    | OuterFecOnOff                 // "Outer FEC On/Off"
    | NoFec                         // "no_fec"
    | IncreaseFec                   // "increase_fec"
    | DecreaseFec                   // "decrease_fec"
    | SetModScheme(target: ModScheme) // "mod_scheme-><name>"
    | OtherAction(key: string)

  function GoalKey(g: Goal): string
    requires !g.OtherGoal?
  {
    match g
    case PayloadValid => "payload_valid"
    case ValidPayloadCount => "X_valid_payloads"
    case ErrorFreePayloadCount => "X_errorFreePayloads"
    case FrameCount => "X_frames"
    case ElapsedSeconds => "X_seconds"
  }

  /** The goal a configuration key names. */
  function ParseGoal(key: string): (g: Goal)
    ensures g.OtherGoal? ==> g.key == key
    ensures !g.OtherGoal? ==> GoalKey(g) == key
  {
    if key == "payload_valid" then PayloadValid
    else if key == "X_valid_payloads" then ValidPayloadCount
    else if key == "X_errorFreePayloads" then ErrorFreePayloadCount
    else if key == "X_frames" then FrameCount
    else if key == "X_seconds" then ElapsedSeconds
    else OtherGoal(key)
  }

  /** A recognised goal's key parses back to it. */
  lemma GoalKeyRoundTrip(g: Goal)
    requires !g.OtherGoal?
    ensures ParseGoal(GoalKey(g)) == g
  {
  }

  function ConditionKey(c: Condition): string
    requires !c.OtherCondition?
  {
    match c
    case UserSpecified => "user_specified"
    case LastPayloadInvalid => "last_payload_invalid"
    case WeightedAvgPayloadValidBelow => "weighted_avg_payload_valid<X"
    case WeightedAvgPayloadValidAbove => "weighted_avg_payload_valid>X"
    case PerBelow => "PER<X"
    case PerAbove => "PER>X"
    case BerLastPacketBelow => "BER_lastPacket<X"
    case BerLastPacketAbove => "BER_lastPacket>X"
    case LastPacketErrorFree => "last_packet_error_free"
  }

  /** The condition a configuration key names. */
  function ParseCondition(key: string): (c: Condition)
    ensures c.OtherCondition? ==> c.key == key
    ensures !c.OtherCondition? ==> ConditionKey(c) == key
  {
    if key == "user_specified" then UserSpecified
    else if key == "last_payload_invalid" then LastPayloadInvalid
    else if key == "weighted_avg_payload_valid<X" then WeightedAvgPayloadValidBelow
    else if key == "weighted_avg_payload_valid>X" then WeightedAvgPayloadValidAbove
    else if key == "PER<X" then PerBelow
    else if key == "PER>X" then PerAbove
    else if key == "BER_lastPacket<X" then BerLastPacketBelow
    else if key == "BER_lastPacket>X" then BerLastPacketAbove
    else if key == "last_packet_error_free" then LastPacketErrorFree
    else OtherCondition(key)
  }

  lemma ConditionKeyRoundTrip(c: Condition)
    requires !c.OtherCondition?
    ensures ParseCondition(ConditionKey(c)) == c
  {
  }

  /** The modulation schemes an explicit `mod_scheme->` action can select:
      there is no such action for 128PSK, 128ASK or BASK. */
  predicate Settable(m: ModScheme)
  {
    m != Psk128 && m != Ask128 && m != Bask
  }

  /** The actions a configuration key can name. */
  predicate Recognised(a: Action)
  {
    !a.OtherAction? && (a.SetModScheme? ==> Settable(a.target))
  }

  /** The key of each recognised action. The key that selects 32PSK is
      spelled "mod_scheme->328PSK"; "mod_scheme->32PSK" is not a key. */
  function ActionKey(a: Action): string
    requires Recognised(a)
  {
    match a
    case IncreasePayloadLen => "increase_payload_len"
    case DecreasePayloadLen => "decrease_payload_len"
    case DecreaseModSchemePsk => "decrease_mod_scheme_PSK"
    case DecreaseModSchemeAsk => "decrease_mod_scheme_ASK"
    case OuterFecOnOff => "Outer FEC On/Off"
    case NoFec => "no_fec"
    case IncreaseFec => "increase_fec"
    case DecreaseFec => "decrease_fec"
    case SetModScheme(m) =>
      match m
      case Bpsk => "mod_scheme->BPSK"
      case Qpsk => "mod_scheme->QPSK"
      case Psk8 => "mod_scheme->8PSK"
      case Psk16 => "mod_scheme->16PSK"
      case Psk32 => "mod_scheme->328PSK"
      case Psk64 => "mod_scheme->64PSK"
      case Qam8 => "mod_scheme->8QAM"
      case Qam16 => "mod_scheme->16QAM"
      case Qam32 => "mod_scheme->32QAM"
      case Qam64 => "mod_scheme->64QAM"
      case Ook => "mod_scheme->OOK"
      case Ask4 => "mod_scheme->4ASK"
      case Ask8 => "mod_scheme->8ASK"
      case Ask16 => "mod_scheme->16ASK"
      case Ask32 => "mod_scheme->32ASK"
      case Ask64 => "mod_scheme->64ASK"
  }

  /** The action a configuration key names. */
  function ParseAction(key: string): (a: Action)
    ensures a.OtherAction? ==> a.key == key
    ensures !a.OtherAction? ==> Recognised(a) && ActionKey(a) == key
  {
    if key == "increase_payload_len" then IncreasePayloadLen
    else if key == "decrease_payload_len" then DecreasePayloadLen
    else if key == "decrease_mod_scheme_PSK" then DecreaseModSchemePsk
    else if key == "decrease_mod_scheme_ASK" then DecreaseModSchemeAsk
    else if key == "Outer FEC On/Off" then OuterFecOnOff
    else if key == "no_fec" then NoFec
    else if key == "increase_fec" then IncreaseFec
    else if key == "decrease_fec" then DecreaseFec
    else ParseSetModScheme(key)
  }

  /** The `mod_scheme-><name>` keys. */
  function ParseSetModScheme(key: string): (a: Action)
    ensures a.OtherAction? ==> a.key == key
    ensures !a.OtherAction? ==> a.SetModScheme? && Recognised(a) && ActionKey(a) == key
  {
    if key == "mod_scheme->BPSK" then SetModScheme(Bpsk)
    else if key == "mod_scheme->QPSK" then SetModScheme(Qpsk)
    else if key == "mod_scheme->8PSK" then SetModScheme(Psk8)
    else if key == "mod_scheme->16PSK" then SetModScheme(Psk16)
    else if key == "mod_scheme->328PSK" then SetModScheme(Psk32)
    else if key == "mod_scheme->64PSK" then SetModScheme(Psk64)
    else if key == "mod_scheme->8QAM" then SetModScheme(Qam8)
    else if key == "mod_scheme->16QAM" then SetModScheme(Qam16)
    else if key == "mod_scheme->32QAM" then SetModScheme(Qam32)
    else if key == "mod_scheme->64QAM" then SetModScheme(Qam64)
    else if key == "mod_scheme->OOK" then SetModScheme(Ook)
    else if key == "mod_scheme->4ASK" then SetModScheme(Ask4)
    else if key == "mod_scheme->8ASK" then SetModScheme(Ask8)
    else if key == "mod_scheme->16ASK" then SetModScheme(Ask16)
    else if key == "mod_scheme->32ASK" then SetModScheme(Ask32)
    else if key == "mod_scheme->64ASK" then SetModScheme(Ask64)
    else OtherAction(key)
  }

  lemma ActionKeyRoundTrip(a: Action)
    requires Recognised(a)
    ensures ParseAction(ActionKey(a)) == a
  {
  }

  /** The spelling quirk: the natural key for 32PSK is not recognised. */
  lemma ThirtyTwoPskKey()
    ensures ParseAction("mod_scheme->328PSK") == SetModScheme(Psk32)
    ensures ParseAction("mod_scheme->32PSK").OtherAction?
  {
  }
}
