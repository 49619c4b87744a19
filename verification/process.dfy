/** Per-frame metric bookkeeping (`ceProcessData`) and the goal check
    (`ceOptimized`) of the cognitive engine. */
module Process {
  import opened MachineInts
  import opened Outcomes
  import opened Rules
  import opened Engine
  import opened Feedback
  import RunningAverage

  /** The frame carried a valid payload without a single bit error. */
  predicate ErrorFree(fb: FeedbackRecord)
  {
    fb.payloadValid && fb.payloadBitErrors == 0
  }

  /** `ceProcessData`: folds one frame's feedback into the engine's counters,
      error rates, averages and latest goal value. The packet error rate is
      the share of frames sent so far that did not arrive error free; the
      bit error rate is relative to the bits of the payload this engine
      sent. `weightedAvg` is a running count of valid payloads, not an
      average. An unrecognised goal stops the run. */
  function ProcessData(ce: CognitiveEngine, fb: FeedbackRecord): (r: Outcomes.Outcome<CognitiveEngine>)
    requires ce.frameNumber >= 1
    requires 0 < ce.payloadLen <= MAX_PAYLOAD_LEN
    requires MetricsWellFormed(ce)
    ensures r.Exit? <==> ce.goal.OtherGoal?
    ensures r.Ok? ==> r.value.validPayloads == ce.validPayloads + Indicator(fb.payloadValid)
    ensures r.Ok? ==> r.value.weightedAvg == ce.weightedAvg + Indicator(fb.payloadValid) as real
    ensures r.Ok? ==> ce.errorFreePayloads <= r.value.errorFreePayloads <= ce.errorFreePayloads + 1
    ensures r.Ok? ==> (r.value.errorFreePayloads == ce.errorFreePayloads + 1 <==> ErrorFree(fb))
    ensures r.Ok? ==> r.value.per == PacketErrorRate(ce.frameNumber, r.value.errorFreePayloads)
    ensures r.Ok? ==> r.value.ber == BitErrorRate(fb.payloadBitErrors, ce.payloadLen)
    ensures r.Ok? ==> r.value.lastReceivedFrame == fb.iteration
    ensures r.Ok? && ce.goal == PayloadValid ==> r.value.latestGoalValue == Indicator(fb.payloadValid) as real
    ensures r.Ok? && ce.goal == ValidPayloadCount ==> r.value.latestGoalValue == r.value.validPayloads as real
    ensures r.Ok? && ce.goal == ErrorFreePayloadCount ==> r.value.latestGoalValue == r.value.errorFreePayloads as real
    ensures r.Ok? && ce.goal == FrameCount ==> r.value.latestGoalValue == ce.frameNumber as real
    ensures r.Ok? && ce.goal == ElapsedSeconds ==> r.value.latestGoalValue == ce.runningTime
    ensures r.Ok? ==> r.value.perAvg == RunningAverage.Update(ce.perAvg, r.value.per).0
    ensures r.Ok? ==> r.value.berAvg == RunningAverage.Update(ce.berAvg, r.value.ber).0
    ensures r.Ok? ==> r.value.validPayloadsAvg
                      == RunningAverage.Update(ce.validPayloadsAvg, Indicator(fb.payloadValid) as real).0
    ensures r.Ok? ==> r.value.errorFreePayloadsAvg
                      == if ErrorFree(fb) then RunningAverage.Update(ce.errorFreePayloadsAvg, 1.0).0
                         else ce.errorFreePayloadsAvg
    ensures r.Ok? ==> MetricsWellFormed(r.value) && (MetricsValid(ce) ==> MetricsValid(r.value))
    ensures r.Ok? ==> r.value == ce.(validPayloads := r.value.validPayloads,
                                     errorFreePayloads := r.value.errorFreePayloads,
                                     errorFreePayloadsAvg := r.value.errorFreePayloadsAvg,
                                     per := r.value.per, perAvg := r.value.perAvg,
                                     ber := r.value.ber, berAvg := r.value.berAvg,
                                     validPayloadsAvg := r.value.validPayloadsAvg,
                                     weightedAvg := r.value.weightedAvg,
                                     lastReceivedFrame := r.value.lastReceivedFrame,
                                     latestGoalValue := r.value.latestGoalValue)
  {
    var valid := Indicator(fb.payloadValid);
    var errorFreeCount := if ErrorFree(fb) then ce.errorFreePayloads + 1 else ce.errorFreePayloads;
    var errorFreeAvg :=
      if ErrorFree(fb) then RunningAverage.Update(ce.errorFreePayloadsAvg, 1.0).0
      else ce.errorFreePayloadsAvg;
    var per := PacketErrorRate(ce.frameNumber, errorFreeCount);
    var ber := BitErrorRate(fb.payloadBitErrors, ce.payloadLen);
    var updated := ce.(
      validPayloads := ce.validPayloads + valid,
      errorFreePayloads := errorFreeCount,
      errorFreePayloadsAvg := errorFreeAvg,
      per := per,
      lastReceivedFrame := fb.iteration,
      ber := ber,
      weightedAvg := ce.weightedAvg + valid as real,
      berAvg := RunningAverage.Update(ce.berAvg, ber).0,
      perAvg := RunningAverage.Update(ce.perAvg, per).0,
      validPayloadsAvg := RunningAverage.Update(ce.validPayloadsAvg, valid as real).0);
    match ce.goal
    case PayloadValid => Ok(updated.(latestGoalValue := valid as real))
    case ValidPayloadCount => Ok(updated.(latestGoalValue := updated.validPayloads as real))
    case ErrorFreePayloadCount => Ok(updated.(latestGoalValue := updated.errorFreePayloads as real))
    case FrameCount => Ok(updated.(latestGoalValue := updated.frameNumber as real))
    case ElapsedSeconds => Ok(updated.(latestGoalValue := updated.runningTime))
    case OtherGoal(_) => Exit("ERROR: Unknown Goal!")
  }

  /** The share of `sent` frames that did not arrive error free. */
  function PacketErrorRate(sent: nat, errorFree: nat): (per: real)
    requires 0 < sent
    ensures per * sent as real == sent as real - errorFree as real
    ensures errorFree <= sent ==> 0.0 <= per <= 1.0
  {
    var per := (sent as real - errorFree as real) / sent as real;
    if errorFree <= sent then
      RateBetweenZeroAndOne(per, sent as real, sent as real - errorFree as real);
      per
    else
      per
  }

  /** The share of a payload's bits that arrived in error. */
  function BitErrorRate(bitErrors: nat, payloadLen: nat): (ber: real)
    requires 0 < payloadLen
    ensures ber * (8 * payloadLen) as real == bitErrors as real
    ensures bitErrors <= 8 * payloadLen ==> 0.0 <= ber <= 1.0
  {
    var ber := bitErrors as real / (payloadLen * 8) as real;
    if bitErrors <= 8 * payloadLen then
      RateBetweenZeroAndOne(ber, (8 * payloadLen) as real, bitErrors as real);
      ber
    else
      ber
  }

  /** A ratio `x` with `x * whole == part` of a part of a positive whole is
      a rate in [0, 1]. */
  lemma RateBetweenZeroAndOne(x: real, whole: real, part: real)
    requires whole > 0.0 && 0.0 <= part <= whole
    requires x * whole == part
    ensures 0.0 <= x <= 1.0
  {
  }

  /** While fewer frames arrived error free than were sent before this one,
      the packet error rate `ceProcessData` records is a proper rate. */
  lemma PerIsARate(ce: CognitiveEngine, fb: FeedbackRecord)
    requires ce.frameNumber >= 1
    requires 0 < ce.payloadLen <= MAX_PAYLOAD_LEN
    requires MetricsWellFormed(ce)
    requires ce.errorFreePayloads < ce.frameNumber
    requires ProcessData(ce, fb).Ok?
    ensures 0.0 <= ProcessData(ce, fb).value.per <= 1.0
  {
  }

  /** `ceOptimized`: records the latest goal value in the goal window at
      slot `iteration % goal_averaging`, keeping `averagedGoalValue` its
      mean, and reports the goal reached only after the warm-up of
      `goal_averaging` frames and only if the latest (not the averaged)
      goal value meets the threshold. */
  function CeOptimized(ce: CognitiveEngine): (r: (CognitiveEngine, bool))
    requires GoalWindowWellFormed(ce)
    ensures r.1 <==> ce.frameNumber > ce.goalAveraging && ce.latestGoalValue >= ce.threshold
    ensures GoalWindowWellFormed(r.0)
    ensures GoalWindowValid(ce) ==> GoalWindowValid(r.0)
    ensures r.0.goalMem[ce.iteration % ce.goalAveraging] == ce.latestGoalValue
    ensures forall i :: 0 <= i < GOAL_MEMORY_LEN && i != ce.iteration % ce.goalAveraging ==>
              r.0.goalMem[i] == ce.goalMem[i]
    ensures r.0 == ce.(goalMem := r.0.goalMem, averagedGoalValue := r.0.averagedGoalValue)
  {
    var slot := ce.iteration % ce.goalAveraging;
    var mean := RunningAverage.ReplaceInMean(
      ce.averagedGoalValue, ce.goalAveraging, ce.goalMem[slot], ce.latestGoalValue);
    var updated := ce.(averagedGoalValue := mean, goalMem := ce.goalMem[slot := ce.latestGoalValue]);
    if GoalWindowValid(ce) then
      RunningAverage.ReplaceInMeanKeepsMean(
        ce.goalMem, ce.goalAveraging, slot, ce.averagedGoalValue, ce.latestGoalValue);
      (updated, ce.frameNumber > ce.goalAveraging && ce.latestGoalValue >= ce.threshold)
    else
      (updated, ce.frameNumber > ce.goalAveraging && ce.latestGoalValue >= ce.threshold)
  }

  /** The goal window is a running average: `ceOptimized` does to the first
      `goal_averaging` slots of the goal memory, with write slot
      `iteration % goal_averaging`, exactly what `running_avg::update` does
      to its window, and the next frame's slot is the one `update` moves to.
      The running-average results (mean invariant, mean of the last window,
      constant input) therefore carry over to `averagedGoalValue`. */
  lemma GoalWindowIsRunningAverage(ce: CognitiveEngine)
    requires GoalWindowWellFormed(ce)
    ensures var window := RunningAverage.RunningAvg(
              ce.goalMem[..ce.goalAveraging], ce.iteration % ce.goalAveraging, ce.averagedGoalValue);
            var updated := RunningAverage.Update(window, ce.latestGoalValue);
            CeOptimized(ce).0.goalMem[..ce.goalAveraging] == updated.0.memory
            && CeOptimized(ce).0.averagedGoalValue == updated.1
            && updated.0.position == (ce.iteration + 1) % ce.goalAveraging
  {
    var n := ce.goalAveraging;
    var slot := ce.iteration % n;
    assert ce.goalMem[slot := ce.latestGoalValue][..n] == ce.goalMem[..n][slot := ce.latestGoalValue];
    NextSlot(ce.iteration, n);
  }

  /** The goal window read as a `running_avg` object: the first
      `goal_averaging` slots of the goal memory, the next write slot
      `iteration % goal_averaging`, and `averagedGoalValue` as its mean. */
  function GoalWindow(ce: CognitiveEngine): (ra: RunningAverage.RunningAvg)
    requires GoalWindowWellFormed(ce)
    ensures ra.WellFormed() && ra.AvgLen() == ce.goalAveraging
    ensures GoalWindowValid(ce) ==> ra.Valid()
  {
    RunningAverage.RunningAvg(
      ce.goalMem[..ce.goalAveraging], ce.iteration % ce.goalAveraging, ce.averagedGoalValue)
  }

  /** The goal checks of successive frames whose goal values are `xs`,
      oldest first; the transmit loop advances the frame number (an
      `unsigned int`) and `iteration` after each. */
  function GoalRounds(ce: CognitiveEngine, xs: seq<real>): (r: CognitiveEngine)
    requires GoalWindowWellFormed(ce)
    ensures GoalWindowWellFormed(r) && r.goalAveraging == ce.goalAveraging
    decreases |xs|
  {
    if |xs| == 0 then ce
    else
      var prev := GoalRounds(ce, xs[..|xs| - 1]);
      var checked := CeOptimized(prev.(latestGoalValue := xs[|xs| - 1])).0;
      checked.(frameNumber := WrapU32(checked.frameNumber + 1), iteration := checked.iteration + 1)
  }

  /** Successive goal checks are successive `running_avg` updates of the
      goal window. */
  lemma {:induction false} GoalRoundsFeedWindow(ce: CognitiveEngine, xs: seq<real>)
    requires GoalWindowWellFormed(ce)
    ensures GoalWindow(GoalRounds(ce, xs)) == RunningAverage.Feed(GoalWindow(ce), xs)
    decreases |xs|
  {
    if |xs| > 0 {
      var x := xs[|xs| - 1];
      var prev := GoalRounds(ce, xs[..|xs| - 1]);
      GoalRoundsFeedWindow(ce, xs[..|xs| - 1]);
      var current := prev.(latestGoalValue := x);
      GoalWindowIsRunningAverage(current);
      assert GoalWindow(current) == GoalWindow(prev);
    }
  }

  /** After at least `goal_averaging` frames, `averagedGoalValue` is the
      mean of the last `goal_averaging` goal values. */
  lemma AveragedGoalIsMeanOfLastWindow(ce: CognitiveEngine, xs: seq<real>)
    requires GoalWindowValid(ce) && |xs| >= ce.goalAveraging
    ensures GoalRounds(ce, xs).averagedGoalValue
            == RunningAverage.Sum(xs[|xs| - ce.goalAveraging..]) / ce.goalAveraging as real
  {
    GoalRoundsFeedWindow(ce, xs);
    RunningAverage.MeanOfLastWindow(GoalWindow(ce), xs);
  }

  /** Advancing the slot and wrapping at `n` is taking the next counter
      value modulo `n`. */
  lemma {:induction false} NextSlot(i: nat, n: nat)
    requires n > 0
    ensures (i % n + 1) % n == (i + 1) % n
    decreases i
  {
    if i >= n {
      NextSlot(i - n, n);
      ModShift(i - n, n);
      ModShift(i + 1 - n, n);
    }
  }
}
