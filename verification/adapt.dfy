/** `ceModifyTxParams`: when the configured condition holds, apply the
    configured action to the transmit parameters. The ladder actions are
    written in the source as runs of `if (strcmp(s, a) == 0) strcpy(s, b);`
    statements executed one after another, so a later statement sees the
    value an earlier one wrote; they are modelled exactly that way, as a
    `Chain` of rewrites, and the one-rung behaviour is proved, not assumed. */
module Adapt {
  import opened MachineInts
  import opened Schemes
  import opened Rules
  import opened Outcomes
  import opened Engine
  import opened Feedback
  import CeConfig

  /** One `if (strcmp(s, from) == 0) strcpy(s, to);` statement. */
  datatype Rewrite = Rewrite(from: string, to: string)

  /** The statements of a run, executed in order on one string field. */
  function Chain(s: string, steps: seq<Rewrite>): (r: string)
    ensures r == s || exists k :: 0 <= k < |steps| && r == steps[k].to
    decreases |steps|
  {
    if |steps| == 0 then s
    else
      var next := if s == steps[0].from then steps[0].to else s;
      var r := Chain(next, steps[1..]);
      assert r == next || exists k :: 0 <= k < |steps| - 1 && r == steps[1..][k].to;
      r
  }

  /** A value no statement of the run tests for passes through unchanged. */
  lemma {:induction false} ChainUntouched(s: string, steps: seq<Rewrite>)
    requires forall k :: 0 <= k < |steps| ==> steps[k].from != s
    ensures Chain(s, steps) == s
    decreases |steps|
  {
    if |steps| > 0 {
      assert steps[0].from != s;
      ChainUntouched(s, steps[1..]);
    }
  }

  /** The first statement that tests for the value fires, and nothing after
      it fires again unless a later statement tests for what it wrote. */
  lemma {:induction false} ChainFiresOnce(s: string, steps: seq<Rewrite>, k: nat)
    requires k < |steps| && steps[k].from == s
    requires forall j :: 0 <= j < k ==> steps[j].from != s
    requires forall j :: k < j < |steps| ==> steps[j].from != steps[k].to
    ensures Chain(s, steps) == steps[k].to
    decreases |steps|
  {
    if k == 0 {
      ChainUntouched(steps[0].to, steps[1..]);
    } else {
      assert steps[0].from != s;
      ChainFiresOnce(s, steps[1..], k - 1);
    }
  }

  // ---------------------------------------------------------------------
  // The runs of statements, in source order.

  /** `decrease_mod_scheme_PSK`. */
  const PskDownSteps: seq<Rewrite> := [
    Rewrite("QPSK", "BPSK"), Rewrite("8PSK", "QPSK"), Rewrite("16PSK", "8PSK"),
    Rewrite("32PSK", "16PSK"), Rewrite("64PSK", "32PSK"), Rewrite("128PSK", "64PSK")]

  /** `decrease_mod_scheme_ASK`. */
  const AskDownSteps: seq<Rewrite> := [
    Rewrite("4ASK", "BASK"), Rewrite("8ASK", "4ASK"), Rewrite("16ASK", "8ASK"),
    Rewrite("32ASK", "16ASK"), Rewrite("64ASK", "32ASK"), Rewrite("128ASK", "64ASK")]

  /** `no_fec`: SEC-DED7264 has no statement. */
  const NoFecSteps: seq<Rewrite> := [
    Rewrite("none", "none"), Rewrite("Hamming74", "none"), Rewrite("Hamming128", "none"),
    Rewrite("Golay2412", "none"), Rewrite("SEC-DED2216", "none"), Rewrite("SEC-DED3932", "none")]

  /** `increase_fec`, strongest code first. */
  const FecUpSteps: seq<Rewrite> := [
    Rewrite("SEC-DED3932", "SEC-DED7264"), Rewrite("SEC-DED2216", "SEC-DED3932"),
    Rewrite("Golay2412", "SEC-DED2216"), Rewrite("Hamming128", "Golay2412"),
    Rewrite("Hamming74", "Hamming128"), Rewrite("none", "Hamming74")]

  /** `decrease_fec`, weakest code first. */
  const FecDownSteps: seq<Rewrite> := [
    Rewrite("Hamming74", "none"), Rewrite("Hamming128", "Hamming74"),
    Rewrite("Golay2412", "Hamming128"), Rewrite("SEC-DED2216", "Golay2412"),
    Rewrite("SEC-DED3932", "SEC-DED2216"), Rewrite("SEC-DED7264", "SEC-DED3932")]

  /** The ladder actions leave the name alone or move it to a rung of
      their own ladder; which rung is stated by the lemmas below. */
  function DecreasePsk(m: string): (r: string)
    ensures r == m || r in {"BPSK", "QPSK", "8PSK", "16PSK", "32PSK", "64PSK"}
  {
    Chain(m, PskDownSteps)
  }

  function DecreaseAsk(m: string): (r: string)
    ensures r == m || r in {"BASK", "4ASK", "8ASK", "16ASK", "32ASK", "64ASK"}
  {
    Chain(m, AskDownSteps)
  }

  function NoFecName(f: string): (r: string)
    ensures r == f || r == "none"
  {
    Chain(f, NoFecSteps)
  }

  function IncreaseFecName(f: string): (r: string)
    ensures r == f || r in {"Hamming74", "Hamming128", "Golay2412", "SEC-DED2216", "SEC-DED3932", "SEC-DED7264"}
  {
    Chain(f, FecUpSteps)
  }

  function DecreaseFecName(f: string): (r: string)
    ensures r == f || r in {"none", "Hamming74", "Hamming128", "Golay2412", "SEC-DED2216", "SEC-DED3932"}
  {
    Chain(f, FecDownSteps)
  }

  // ---------------------------------------------------------------------
  // The runs against the ladders.

  /** A PSK scheme above BPSK moves down exactly one rung. */
  lemma DecreasePskOneRung(i: int)
    requires 1 <= i < |PskLadder|
    ensures DecreasePsk(PskLadder[i]) == PskLadder[i - 1]
  {
    ChainFiresOnce(PskLadder[i], PskDownSteps, i - 1);
  }

  /** BPSK and every name off the PSK ladder stay as they are. */
  lemma DecreasePskElsewhere(m: string)
    requires forall i :: 1 <= i < |PskLadder| ==> PskLadder[i] != m
    ensures DecreasePsk(m) == m
  {
    assert forall k :: 0 <= k < |PskDownSteps| ==> PskDownSteps[k].from == PskLadder[k + 1];
    ChainUntouched(m, PskDownSteps);
  }

  /** An ASK scheme above BASK moves down exactly one rung. */
  lemma DecreaseAskOneRung(i: int)
    requires 1 <= i < |AskLadder|
    ensures DecreaseAsk(AskLadder[i]) == AskLadder[i - 1]
  {
    ChainFiresOnce(AskLadder[i], AskDownSteps, i - 1);
  }

  /** BASK and every name off the ASK ladder stay as they are. */
  lemma DecreaseAskElsewhere(m: string)
    requires forall i :: 1 <= i < |AskLadder| ==> AskLadder[i] != m
    ensures DecreaseAsk(m) == m
  {
    assert forall k :: 0 <= k < |AskDownSteps| ==> AskDownSteps[k].from == AskLadder[k + 1];
    ChainUntouched(m, AskDownSteps);
  }

  /** One rung down the PSK ladder is one bit per symbol fewer. */
  lemma PskStepLosesOneBit(i: int)
    requires 1 <= i < |PskLadder|
    ensures ConvertModScheme(PskLadder[i]).Ok? && ConvertModScheme(DecreasePsk(PskLadder[i])).Ok?
    ensures ConvertModScheme(DecreasePsk(PskLadder[i])).value.1
            == ConvertModScheme(PskLadder[i]).value.1 - 1
  {
    DecreasePskOneRung(i);
    LadderBitsPerSymbol(i);
    LadderBitsPerSymbol(i - 1);
  }

  /** One rung down the ASK ladder is one bit per symbol fewer. */
  lemma AskStepLosesOneBit(i: int)
    requires 1 <= i < |AskLadder|
    ensures ConvertModScheme(AskLadder[i]).Ok? && ConvertModScheme(DecreaseAsk(AskLadder[i])).Ok?
    ensures ConvertModScheme(DecreaseAsk(AskLadder[i])).value.1
            == ConvertModScheme(AskLadder[i]).value.1 - 1
  {
    DecreaseAskOneRung(i);
    LadderBitsPerSymbol(i);
    LadderBitsPerSymbol(i - 1);
  }

  /** Every FEC scheme below SEC-DED7264 moves up exactly one rung. */
  lemma IncreaseFecOneRung(i: int)
    requires 0 <= i < |FecLadder| - 1
    ensures IncreaseFecName(FecLadder[i]) == FecLadder[i + 1]
  {
    ChainFiresOnce(FecLadder[i], FecUpSteps, 5 - i);
  }

  /** SEC-DED7264 and every name off the FEC ladder stay as they are. */
  lemma IncreaseFecElsewhere(f: string)
    requires forall i :: 0 <= i < |FecLadder| - 1 ==> FecLadder[i] != f
    ensures IncreaseFecName(f) == f
  {
    assert forall k :: 0 <= k < |FecUpSteps| ==> FecUpSteps[k].from == FecLadder[5 - k];
    ChainUntouched(f, FecUpSteps);
  }

  /** Every FEC scheme above none moves down exactly one rung. */
  lemma DecreaseFecOneRung(i: int)
    requires 1 <= i < |FecLadder|
    ensures DecreaseFecName(FecLadder[i]) == FecLadder[i - 1]
  {
    ChainFiresOnce(FecLadder[i], FecDownSteps, i - 1);
  }

  /** none and every name off the FEC ladder stay as they are. */
  lemma DecreaseFecElsewhere(f: string)
    requires forall i :: 1 <= i < |FecLadder| ==> FecLadder[i] != f
    ensures DecreaseFecName(f) == f
  {
    assert forall k :: 0 <= k < |FecDownSteps| ==> FecDownSteps[k].from == FecLadder[k + 1];
    ChainUntouched(f, FecDownSteps);
  }

  /** `no_fec` clears every outer FEC except SEC-DED7264, which it keeps. */
  lemma NoFecClears(i: int)
    requires 0 <= i < |FecLadder|
    ensures NoFecName(FecLadder[i]) == if i == |FecLadder| - 1 then FecLadder[i] else "none"
  {
    if i == |FecLadder| - 1 {
      ChainUntouched(FecLadder[i], NoFecSteps);
    } else {
      ChainFiresOnce(FecLadder[i], NoFecSteps, i);
    }
  }

  /** A name off the FEC ladder is left alone by `no_fec`. */
  lemma NoFecElsewhere(f: string)
    requires forall i :: 0 <= i < |FecLadder| ==> FecLadder[i] != f
    ensures NoFecName(f) == f
  {
    assert forall k :: 0 <= k < |NoFecSteps| ==> NoFecSteps[k].from == FecLadder[k];
    ChainUntouched(f, NoFecSteps);
  }

  /** A PSK step keeps a modulation name `convertModScheme` accepts. */
  lemma DecreasePskKeepsKnown(m: string)
    requires ConvertModScheme(m).Ok?
    ensures ConvertModScheme(DecreasePsk(m)).Ok?
  {
    if i :| 1 <= i < |PskLadder| && PskLadder[i] == m {
      DecreasePskOneRung(i);
      LadderBitsPerSymbol(i - 1);
    } else {
      DecreasePskElsewhere(m);
    }
  }

  /** An ASK step keeps a modulation name `convertModScheme` accepts. */
  lemma DecreaseAskKeepsKnown(m: string)
    requires ConvertModScheme(m).Ok?
    ensures ConvertModScheme(DecreaseAsk(m)).Ok?
  {
    if i :| 1 <= i < |AskLadder| && AskLadder[i] == m {
      DecreaseAskOneRung(i);
      LadderBitsPerSymbol(i - 1);
    } else {
      DecreaseAskElsewhere(m);
    }
  }

  /** `increase_fec` keeps an FEC name `convertFECScheme` accepts. */
  lemma IncreaseFecKeepsKnown(f: string)
    requires ConvertFecScheme(f).Ok?
    ensures ConvertFecScheme(IncreaseFecName(f)).Ok?
  {
    if i :| 0 <= i < |FecLadder| - 1 && FecLadder[i] == f {
      IncreaseFecOneRung(i);
      FecLadderAccepted(i + 1);
    } else {
      IncreaseFecElsewhere(f);
    }
  }

  /** `decrease_fec` keeps an FEC name `convertFECScheme` accepts. */
  lemma DecreaseFecKeepsKnown(f: string)
    requires ConvertFecScheme(f).Ok?
    ensures ConvertFecScheme(DecreaseFecName(f)).Ok?
  {
    if i :| 1 <= i < |FecLadder| && FecLadder[i] == f {
      DecreaseFecOneRung(i);
      FecLadderAccepted(i - 1);
    } else {
      DecreaseFecElsewhere(f);
    }
  }

  /** `no_fec` keeps an FEC name `convertFECScheme` accepts. */
  lemma NoFecKeepsKnown(f: string)
    requires ConvertFecScheme(f).Ok?
    ensures ConvertFecScheme(NoFecName(f)).Ok?
  {
    if i :| 0 <= i < |FecLadder| && FecLadder[i] == f {
      NoFecClears(i);
      FecLadderAccepted(0);
      FecLadderAccepted(i);
    } else {
      NoFecElsewhere(f);
    }
  }

  // ---------------------------------------------------------------------
  // Payload length. The fields are `unsigned int`, so the sum and the
  // difference in the guards wrap modulo 2^32.

  /** `increase_payload_len`. */
  function LengthenPayload(len: u32, inc: u32, max: u32): (r: u32)
    ensures r == len || r == WrapU32(len + inc)
    ensures len + inc < U32_MODULUS ==> r == (if len + inc <= max then len + inc else len)
  {
    if WrapU32(len + inc) <= max then WrapU32(len + inc) else len
  }

  /** `decrease_payload_len`. */
  function ShortenPayload(len: u32, inc: u32, min: u32): (r: u32)
    ensures r == len || r == WrapU32(len - inc)
    ensures inc <= len ==> r == (if len - inc >= min then len - inc else len)
  {
    if WrapU32(len - inc) >= min then WrapU32(len - inc) else len
  }

  /** Both length actions keep the length within [min, max] when the step
      is no larger than the minimum and max + step does not wrap. */
  lemma PayloadLenStaysInBounds(len: u32, inc: u32, min: u32, max: u32)
    requires min <= len <= max
    requires inc <= min && max + inc < U32_MODULUS
    ensures min <= LengthenPayload(len, inc, max) <= max
    ensures min <= ShortenPayload(len, inc, min) <= max
  {
  }

  /** Without `inc <= min` the decrease guard wraps: a length of 1 with
      step 2 passes the `>= min` test and becomes 2^32 - 1, far above max. */
  lemma DecreaseWrapsBelowZero()
    ensures ShortenPayload(1, 2, 1) == U32_MODULUS - 1
    ensures ShortenPayload(1, 2, 1) > 500
  {
  }

  /** Near 2^32 the increase guard wraps: the sum 0 passes `<= max`. */
  lemma IncreaseWrapsPastTop()
    ensures LengthenPayload(U32_MODULUS - 1, 1, U32_MODULUS - 1) == 0
  {
  }

  // ---------------------------------------------------------------------
  // Outer FEC on/off.

  /** `Outer FEC On/Off`: with the switch at 1, remember the outer FEC and
      turn it off; otherwise restore the remembered one and set the switch. */
  function ToggleOuterFec(ce: CognitiveEngine): (r: CognitiveEngine)
    ensures (r.fecSwitch == 1.0) <==> (ce.fecSwitch != 1.0)
    ensures ce.fecSwitch == 1.0 ==> r.outerFEC == "none" && r.outerFECPrev == ce.outerFEC
    ensures ce.fecSwitch != 1.0 ==> r.outerFEC == ce.outerFECPrev && r.outerFECPrev == ce.outerFECPrev
    ensures r == ce.(outerFEC := r.outerFEC, outerFECPrev := r.outerFECPrev, fecSwitch := r.fecSwitch)
  {
    if ce.fecSwitch == 1.0 then
      ce.(outerFECPrev := ce.outerFEC, outerFEC := "none", fecSwitch := 0.0)
    else
      ce.(outerFEC := ce.outerFECPrev, fecSwitch := 1.0)
  }

  /** Off then on again restores the outer FEC and the switch. */
  lemma ToggleTwiceRestores(ce: CognitiveEngine)
    requires ce.fecSwitch == 1.0
    ensures ToggleOuterFec(ToggleOuterFec(ce)) == ce.(outerFECPrev := ce.outerFEC)
  {
  }

  // ---------------------------------------------------------------------
  // The rule.

  /** Whether the configured condition holds for the current metrics and
      the last frame's feedback. "user_specified" always adapts; an
      unrecognised condition never does. */
  function ConditionMet(ce: CognitiveEngine, fb: FeedbackRecord): (met: bool)
    ensures ce.adaptationCondition == UserSpecified ==> met
    ensures ce.adaptationCondition.OtherCondition? ==> !met
    ensures ce.adaptationCondition == LastPayloadInvalid ==> (met <==> !fb.payloadValid)
    ensures ce.adaptationCondition == LastPacketErrorFree ==> (met <==> fb.payloadBitErrors == 0)
    ensures ce.adaptationCondition == WeightedAvgPayloadValidBelow ==>
              (met <==> ce.weightedAvg < ce.weightedAvgPayloadValidThreshold)
    ensures ce.adaptationCondition == WeightedAvgPayloadValidAbove ==>
              (met <==> ce.weightedAvg > ce.weightedAvgPayloadValidThreshold)
    ensures ce.adaptationCondition == PerBelow ==> (met <==> ce.per < ce.perThreshold)
    ensures ce.adaptationCondition == PerAbove ==> (met <==> ce.per > ce.perThreshold)
    ensures ce.adaptationCondition == BerLastPacketBelow ==> (met <==> ce.ber < ce.berThreshold)
    ensures ce.adaptationCondition == BerLastPacketAbove ==> (met <==> ce.ber > ce.berThreshold)
  {
    match ce.adaptationCondition
    case UserSpecified => true
    case LastPayloadInvalid => !fb.payloadValid
    case WeightedAvgPayloadValidBelow => ce.weightedAvg < ce.weightedAvgPayloadValidThreshold
    case WeightedAvgPayloadValidAbove => ce.weightedAvg > ce.weightedAvgPayloadValidThreshold
    case PerBelow => ce.per < ce.perThreshold
    case PerAbove => ce.per > ce.perThreshold
    case BerLastPacketBelow => ce.ber < ce.berThreshold
    case BerLastPacketAbove => ce.ber > ce.berThreshold
    case LastPacketErrorFree => fb.payloadBitErrors == 0
    case OtherCondition(_) => false
  }

  /** The "below" and "above" tests of one metric are strict: they never
      hold together, and exactly one holds unless the metric equals its
      threshold. */
  lemma ThresholdConditionsExclusive(ce: CognitiveEngine, fb: FeedbackRecord, below: Condition, above: Condition)
    requires (below, above) in {(WeightedAvgPayloadValidBelow, WeightedAvgPayloadValidAbove),
                                (PerBelow, PerAbove), (BerLastPacketBelow, BerLastPacketAbove)}
    ensures !(ConditionMet(ce.(adaptationCondition := below), fb)
              && ConditionMet(ce.(adaptationCondition := above), fb))
    ensures ConditionMet(ce.(adaptationCondition := below), fb)
            || ConditionMet(ce.(adaptationCondition := above), fb)
            || (below == PerBelow && ce.per == ce.perThreshold)
            || (below == BerLastPacketBelow && ce.ber == ce.berThreshold)
            || (below == WeightedAvgPayloadValidBelow
                && ce.weightedAvg == ce.weightedAvgPayloadValidThreshold)
  {
  }

  /** The configured action applied to the engine. Only the modulation
      scheme, the outer FEC, its remembered value, the FEC switch and the
      payload length can change, and each action touches only its own. */
  function ApplyAction(ce: CognitiveEngine): (r: CognitiveEngine)
    ensures r == ce.(modScheme := r.modScheme, outerFEC := r.outerFEC,
                     outerFECPrev := r.outerFECPrev, fecSwitch := r.fecSwitch,
                     payloadLen := r.payloadLen)
    ensures ce.adaptation.OtherAction? ==> r == ce
    ensures r.payloadLen != ce.payloadLen ==>
              ce.adaptation == IncreasePayloadLen || ce.adaptation == DecreasePayloadLen
    ensures r.modScheme != ce.modScheme ==>
              ce.adaptation == DecreaseModSchemePsk || ce.adaptation == DecreaseModSchemeAsk
              || ce.adaptation.SetModScheme?
    ensures r.outerFEC != ce.outerFEC ==>
              ce.adaptation in {OuterFecOnOff, NoFec, IncreaseFec, DecreaseFec}
    ensures r.outerFECPrev != ce.outerFECPrev || r.fecSwitch != ce.fecSwitch ==>
              ce.adaptation == OuterFecOnOff
    ensures ce.adaptation.SetModScheme? ==> r.modScheme == ModName(ce.adaptation.target)
    ensures ce.adaptation == DecreaseModSchemePsk ==> r.modScheme == DecreasePsk(ce.modScheme)
    ensures ce.adaptation == DecreaseModSchemeAsk ==> r.modScheme == DecreaseAsk(ce.modScheme)
    ensures ce.adaptation == NoFec ==> r.outerFEC == NoFecName(ce.outerFEC)
    ensures ce.adaptation == IncreaseFec ==> r.outerFEC == IncreaseFecName(ce.outerFEC)
    ensures ce.adaptation == DecreaseFec ==> r.outerFEC == DecreaseFecName(ce.outerFEC)
    ensures ce.adaptation == IncreasePayloadLen ==>
              r.payloadLen == LengthenPayload(ce.payloadLen, ce.payloadLenIncrement, ce.payloadLenMax)
    ensures ce.adaptation == DecreasePayloadLen ==>
              r.payloadLen == ShortenPayload(ce.payloadLen, ce.payloadLenIncrement, ce.payloadLenMin)
    ensures ce.adaptation == OuterFecOnOff ==> r == ToggleOuterFec(ce)
    ensures (PayloadLenInBounds(ce) && ce.payloadLenIncrement <= ce.payloadLenMin
             && ce.payloadLenMax + ce.payloadLenIncrement < U32_MODULUS) ==> PayloadLenInBounds(r)
  {
    match ce.adaptation
    case IncreasePayloadLen =>
      ce.(payloadLen := LengthenPayload(ce.payloadLen, ce.payloadLenIncrement, ce.payloadLenMax))
    case DecreasePayloadLen =>
      ce.(payloadLen := ShortenPayload(ce.payloadLen, ce.payloadLenIncrement, ce.payloadLenMin))
    case DecreaseModSchemePsk => ce.(modScheme := DecreasePsk(ce.modScheme))
    case DecreaseModSchemeAsk => ce.(modScheme := DecreaseAsk(ce.modScheme))
    case OuterFecOnOff => ToggleOuterFec(ce)
    case NoFec => ce.(outerFEC := NoFecName(ce.outerFEC))
    case IncreaseFec => ce.(outerFEC := IncreaseFecName(ce.outerFEC))
    case DecreaseFec => ce.(outerFEC := DecreaseFecName(ce.outerFEC))
    case SetModScheme(target) => ce.(modScheme := ModName(target))
    case OtherAction(_) => ce
  }

  /** `ceModifyTxParams`. When the condition is "user_specified" the user
      file is read first, and the action it names is applied to the engine
      it yields; the file's contents are the input `userFile`, and a file
      that cannot be read stops the run. Adapting never touches what the
      engine has measured. */
  function ModifyTxParams(ce: CognitiveEngine, fb: FeedbackRecord, userFile: Outcome<CeConfig.CeConfigFile>)
    : (r: Outcome<CognitiveEngine>)
    ensures r.Exit? <==> ce.adaptationCondition == UserSpecified && userFile.Exit?
    ensures !ConditionMet(ce, fb) ==> r == Ok(ce)
    ensures ConditionMet(ce, fb) && ce.adaptationCondition != UserSpecified ==> r == Ok(ApplyAction(ce))
    ensures ce.adaptationCondition == UserSpecified && userFile.Ok? ==>
              r == Ok(ApplyAction(CeConfig.ApplyConfig(ce, userFile.value)))
    ensures ce.adaptationCondition != UserSpecified ==>
              r.Ok? && r.value == ce.(modScheme := r.value.modScheme, outerFEC := r.value.outerFEC,
                                      outerFECPrev := r.value.outerFECPrev, fecSwitch := r.value.fecSwitch,
                                      payloadLen := r.value.payloadLen)
    ensures r.Ok? ==> SameMeasurements(r.value, ce)
  {
    if !ConditionMet(ce, fb) then Ok(ce)
    else if ce.adaptationCondition == UserSpecified then
      var cfg :- userFile;
      Ok(ApplyAction(CeConfig.ApplyConfig(ce, cfg)))
    else Ok(ApplyAction(ce))
  }

  /** The engine only ever holds schemes the converters accept: every
      action keeps a known modulation and known outer FEC (current and
      remembered). */
  lemma ActionKeepsSchemesKnown(ce: CognitiveEngine)
    requires ConvertModScheme(ce.modScheme).Ok?
    requires ConvertFecScheme(ce.outerFEC).Ok? && ConvertFecScheme(ce.outerFECPrev).Ok?
    ensures ConvertModScheme(ApplyAction(ce).modScheme).Ok?
    ensures ConvertFecScheme(ApplyAction(ce).outerFEC).Ok?
    ensures ConvertFecScheme(ApplyAction(ce).outerFECPrev).Ok?
  {
    match ce.adaptation
    case DecreaseModSchemePsk => DecreasePskKeepsKnown(ce.modScheme);
    case DecreaseModSchemeAsk => DecreaseAskKeepsKnown(ce.modScheme);
    case NoFec => NoFecKeepsKnown(ce.outerFEC);
    case IncreaseFec => IncreaseFecKeepsKnown(ce.outerFEC);
    case DecreaseFec => DecreaseFecKeepsKnown(ce.outerFEC);
    case SetModScheme(target) => ModNameAccepted(target);
    case _ =>
  }

  /** The rule "PER>X → increase_fec" on an engine without outer FEC whose
      packet error rate exceeds the threshold switches on Hamming74. */
  lemma PerAboveRaisesFec(ce: CognitiveEngine, fb: FeedbackRecord, userFile: Outcome<CeConfig.CeConfigFile>)
    requires ce.adaptationCondition == PerAbove && ce.adaptation == IncreaseFec
    requires ce.outerFEC == "none" && ce.per > ce.perThreshold
    ensures ModifyTxParams(ce, fb, userFile) == Ok(ce.(outerFEC := "Hamming74"))
  {
    IncreaseFecOneRung(0);
  }
}
