/** `postTxTasks`: after each frame's feedback, process it, check the goal,
    and adapt the transmit parameters only while the goal is not reached. */
module PostTx {
  import opened MachineInts
  import opened Outcomes
  import opened Schemes
  import opened Engine
  import opened Feedback
  import Process
  import Adapt
  import CeConfig

  /** The engine after one frame and whether transmission is done. The
      user file read by a "user_specified" adaptation is the input
      `userFile`. */
  function PostTxTasks(ce: CognitiveEngine, fb: FeedbackRecord, userFile: Outcome<CeConfig.CeConfigFile>)
    : (r: Outcome<(CognitiveEngine, bool)>)
    requires ce.frameNumber >= 1
    requires 0 < ce.payloadLen <= MAX_PAYLOAD_LEN
    requires MetricsWellFormed(ce) && GoalWindowWellFormed(ce)
    ensures ce.goal.OtherGoal? ==> r.Exit?
    ensures !ce.goal.OtherGoal? && (userFile.Ok? || ce.adaptationCondition != Rules.UserSpecified) ==> r.Ok?
    ensures r.Exit? && !ce.goal.OtherGoal? ==>
              userFile.Exit? && ce.adaptationCondition == Rules.UserSpecified && !Done(ce, fb)
    ensures r.Ok? ==> (r.value.1 <==> Done(ce, fb))
    ensures r.Ok? && ce.frameNumber <= ce.goalAveraging ==> !r.value.1
    ensures r.Ok? && r.value.1 ==> r.value.0 == Process.CeOptimized(Process.ProcessData(ce, fb).value).0
    ensures r.Ok? && !r.value.1 ==>
              Ok(r.value.0)
              == Adapt.ModifyTxParams(Process.CeOptimized(Process.ProcessData(ce, fb).value).0, fb, userFile)
    ensures r.Ok? && r.value.1 ==>
              r.value.0.modScheme == ce.modScheme && r.value.0.outerFEC == ce.outerFEC
              && r.value.0.outerFECPrev == ce.outerFECPrev && r.value.0.fecSwitch == ce.fecSwitch
              && r.value.0.payloadLen == ce.payloadLen
    ensures r.Ok? ==>
              r.value.0.validPayloads == ce.validPayloads + Indicator(fb.payloadValid)
              && r.value.0.weightedAvg == ce.weightedAvg + Indicator(fb.payloadValid) as real
              && (r.value.0.errorFreePayloads == ce.errorFreePayloads + 1 <==> Process.ErrorFree(fb))
              && ce.errorFreePayloads <= r.value.0.errorFreePayloads <= ce.errorFreePayloads + 1
              && r.value.0.per == Process.PacketErrorRate(ce.frameNumber, r.value.0.errorFreePayloads)
              && r.value.0.ber == Process.BitErrorRate(fb.payloadBitErrors, ce.payloadLen)
              && r.value.0.lastReceivedFrame == fb.iteration
              && r.value.0.frameNumber == ce.frameNumber && r.value.0.iteration == ce.iteration
    ensures r.Ok? && ce.adaptationCondition != Rules.UserSpecified ==>
              r.value.0.goal == ce.goal && r.value.0.adaptation == ce.adaptation
              && r.value.0.adaptationCondition == ce.adaptationCondition
              && r.value.0.goalAveraging == ce.goalAveraging && r.value.0.threshold == ce.threshold
  {
    var processed :- Process.ProcessData(ce, fb);
    var (checked, optimized) := Process.CeOptimized(processed);
    if optimized then Ok((checked, true))
    else
      var adapted :- Adapt.ModifyTxParams(checked, fb, userFile);
      Ok((adapted, false))
  }

  /** The goal check's verdict after this frame's feedback: past the
      warm-up of `goal_averaging` frames, the new goal value meets the
      threshold. */
  predicate Done(ce: CognitiveEngine, fb: FeedbackRecord)
    requires ce.frameNumber >= 1
    requires 0 < ce.payloadLen <= MAX_PAYLOAD_LEN
    requires MetricsWellFormed(ce) && !ce.goal.OtherGoal?
  {
    ce.frameNumber > ce.goalAveraging && Process.ProcessData(ce, fb).value.latestGoalValue >= ce.threshold
  }

  /** What the engine keeps true from one frame to the next: the goal
      window and metric averages hold their means, every scheme the
      transmit path converts (modulation, CRC, inner and outer FEC, and the
      remembered outer FEC) is a name the converters accept, and the payload length stays within bounds
      that fit the 1000-byte buffer, with a step small enough that neither
      length action wraps. */
  predicate EngineInvariant(ce: CognitiveEngine)
  {
    GoalWindowValid(ce) && MetricsWellFormed(ce) && MetricsValid(ce)
    && ConvertModScheme(ce.modScheme).Ok? && ConvertCrcScheme(ce.crcScheme).Ok?
    && ConvertFecScheme(ce.innerFEC).Ok?
    && ConvertFecScheme(ce.outerFEC).Ok? && ConvertFecScheme(ce.outerFECPrev).Ok?
    && PayloadLenInBounds(ce)
    && 0 < ce.payloadLenMin && ce.payloadLenMax <= MAX_PAYLOAD_LEN
    && ce.payloadLenIncrement <= ce.payloadLenMin
  }

  /** The default engine satisfies the invariant. */
  lemma DefaultEngineInvariant()
    ensures EngineInvariant(CreateCognitiveEngine())
  {
  }

  /** A user file that cannot break the invariant: it leaves
      `goal_averaging` alone, names only schemes the converters accept, and
      sets the payload length either not at all or together with bounds and
      a step that satisfy the invariant themselves. */
  predicate SafeUserFile(cfg: CeConfig.CeConfigFile)
  {
    cfg.goalAveraging.Unset?
    && (cfg.modScheme.Set? ==> ConvertModScheme(cfg.modScheme.value).Ok?)
    && (cfg.crcScheme.Set? ==> ConvertCrcScheme(cfg.crcScheme.value).Ok?)
    && (cfg.innerFEC.Set? ==> ConvertFecScheme(cfg.innerFEC.value).Ok?)
    && (cfg.outerFEC.Set? ==> ConvertFecScheme(cfg.outerFEC.value).Ok?)
    && ((cfg.payloadLen.Unset? && cfg.payloadLenIncrement.Unset?
         && cfg.payloadLenMax.Unset? && cfg.payloadLenMin.Unset?)
        || (cfg.payloadLen.Set? && cfg.payloadLenIncrement.Set?
            && cfg.payloadLenMax.Set? && cfg.payloadLenMin.Set?
            && 0 < cfg.payloadLenMin.value <= cfg.payloadLen.value
            && cfg.payloadLen.value <= cfg.payloadLenMax.value <= MAX_PAYLOAD_LEN
            && 0 <= cfg.payloadLenIncrement.value <= cfg.payloadLenMin.value))
  }

  /** Reloading a safe user file keeps the invariant. */
  lemma SafeReloadKeepsInvariant(ce: CognitiveEngine, cfg: CeConfig.CeConfigFile)
    requires EngineInvariant(ce) && SafeUserFile(cfg)
    ensures EngineInvariant(CeConfig.ApplyConfig(ce, cfg))
  {
    CeConfig.ReloadKeepsGoalWindow(ce, cfg);
    CeConfig.ReloadKeepsMetrics(ce, cfg);
  }

  /** Adapting keeps the invariant, provided a user file read on the way
      is safe. */
  lemma ModifyKeepsInvariant(ce: CognitiveEngine, fb: FeedbackRecord, userFile: Outcome<CeConfig.CeConfigFile>)
    requires EngineInvariant(ce)
    requires ce.adaptationCondition == Rules.UserSpecified && userFile.Ok? ==> SafeUserFile(userFile.value)
    ensures Adapt.ModifyTxParams(ce, fb, userFile).Ok? ==>
              EngineInvariant(Adapt.ModifyTxParams(ce, fb, userFile).value)
  {
    if Adapt.ConditionMet(ce, fb) {
      if ce.adaptationCondition == Rules.UserSpecified {
        if userFile.Ok? {
          SafeReloadKeepsInvariant(ce, userFile.value);
          Adapt.ActionKeepsSchemesKnown(CeConfig.ApplyConfig(ce, userFile.value));
        }
      } else {
        Adapt.ActionKeepsSchemesKnown(ce);
      }
    }
  }

  /** One round of `postTxTasks` keeps the invariant, provided a user file
      read on the way is safe. */
  lemma PostTxKeepsInvariant(ce: CognitiveEngine, fb: FeedbackRecord, userFile: Outcome<CeConfig.CeConfigFile>)
    requires ce.frameNumber >= 1
    requires EngineInvariant(ce)
    requires ce.adaptationCondition == Rules.UserSpecified && userFile.Ok? ==> SafeUserFile(userFile.value)
    ensures PostTxTasks(ce, fb, userFile).Ok? ==> EngineInvariant(PostTxTasks(ce, fb, userFile).value.0)
  {
    if !ce.goal.OtherGoal? {
      var processed := Process.ProcessData(ce, fb).value;
      assert EngineInvariant(processed);
      var checked := Process.CeOptimized(processed).0;
      assert EngineInvariant(checked);
      if !Process.CeOptimized(processed).1 {
        ModifyKeepsInvariant(checked, fb, userFile);
      }
    }
  }
}
