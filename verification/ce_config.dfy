/** The effect of `readCEConfigFile` on an engine that already runs: in the
    "user_specified" mode `ceModifyTxParams` re-reads the user file before
    every adaptation. Parsing the file is outside the model; what the file
    sets is the record `CeConfigFile`, and `ApplyConfig` writes exactly the
    keys it holds into the engine. */
module CeConfig {
  import opened MachineInts
  import opened Rules
  import opened Engine
  import RunningAverage

  /** One key of the `params` group: absent, or present with its value. */
  datatype Setting<T> = Unset | Set(value: T)

  /** A C `int` as the configuration library returns it. */
  type cint = x: int | -0x8000_0000 <= x < 0x8000_0000

  /** A window length handed to `new running_avg<float>`. */
  type WindowLength = n: int | n > 0 witness 1

  /** The keys of the `params` group the engine stores. Integer keys are C
      `int`s, float keys `double`s; `goal_averaging` is read as a float. */
  datatype CeConfigFile = CeConfigFile(
    adaptation: Setting<string>,
    goal: Setting<string>,
    adaptationCondition: Setting<string>,
    modScheme: Setting<string>,
    crcScheme: Setting<string>,
    innerFEC: Setting<string>,
    outerFEC: Setting<string>,
    payloadLen: Setting<cint>,
    payloadLenIncrement: Setting<cint>,
    payloadLenMax: Setting<cint>,
    payloadLenMin: Setting<cint>,
    numSubcarriers: Setting<cint>,
    cpLen: Setting<cint>,
    taperLen: Setting<cint>,
    latestGoalValue: Setting<real>,
    threshold: Setting<real>,
    weightedAvgPayloadValidThreshold: Setting<real>,
    perThreshold: Setting<real>,
    berThreshold: Setting<real>,
    goalAveraging: Setting<real>,
    berAveraging: Setting<WindowLength>,
    perAveraging: Setting<WindowLength>,
    validPayloadsAveraging: Setting<WindowLength>,
    errorFreePayloadsAveraging: Setting<WindowLength>)

  /** A file whose `params` group sets nothing (or has no such group). */
  const EMPTY_CONFIG: CeConfigFile :=
    CeConfigFile(Unset, Unset, Unset, Unset, Unset, Unset, Unset,
                 Unset, Unset, Unset, Unset, Unset, Unset, Unset,
                 Unset, Unset, Unset, Unset, Unset, Unset,
                 Unset, Unset, Unset, Unset)

  /** A key the file sets gives its field that value; a key it leaves
      out keeps the field's current value. */
  predicate Stored<T(==)>(s: Setting<T>, before: T, after: T)
  {
    if s.Set? then after == s.value else after == before
  }

  /** A string key copied into its field. */
  function SetString(s: Setting<string>, current: string): string
  {
    if s.Set? then s.value else current
  }

  /** An `int` key stored into an `unsigned int` field: the value is kept
      modulo 2^32. */
  function SetU32(s: Setting<cint>, current: u32): u32
  {
    if s.Set? then WrapU32(s.value) else current
  }

  /** A float key stored into a float field. */
  function SetReal(s: Setting<real>, current: real): real
  {
    if s.Set? then s.value else current
  }

  /** An averaging key: the field gets a fresh zero window of that length. */
  function SetWindow(s: Setting<WindowLength>, current: RunningAverage.RunningAvg): RunningAverage.RunningAvg
  {
    if s.Set? then RunningAverage.Create(s.value) else current
  }

  /** The fields a configuration file can write. Every other field (the
      counters, the error rates, the goal memory and its mean, the frame and
      iteration numbers, the remembered outer FEC and the FEC switch) keeps
      its value; a window-length key replaces its running average by a zero
      window, and `goal_averaging` is truncated toward zero. */
  function ApplyConfig(ce: CognitiveEngine, cfg: CeConfigFile): (r: CognitiveEngine)
    ensures r == ce.(adaptation := r.adaptation, goal := r.goal,
                     adaptationCondition := r.adaptationCondition,
                     modScheme := r.modScheme, crcScheme := r.crcScheme,
                     innerFEC := r.innerFEC, outerFEC := r.outerFEC,
                     payloadLen := r.payloadLen, payloadLenIncrement := r.payloadLenIncrement,
                     payloadLenMax := r.payloadLenMax, payloadLenMin := r.payloadLenMin,
                     numSubcarriers := r.numSubcarriers, cpLen := r.cpLen, taperLen := r.taperLen,
                     latestGoalValue := r.latestGoalValue, threshold := r.threshold,
                     weightedAvgPayloadValidThreshold := r.weightedAvgPayloadValidThreshold,
                     perThreshold := r.perThreshold, berThreshold := r.berThreshold,
                     goalAveraging := r.goalAveraging,
                     berAvg := r.berAvg, perAvg := r.perAvg,
                     validPayloadsAvg := r.validPayloadsAvg,
                     errorFreePayloadsAvg := r.errorFreePayloadsAvg)
    ensures if cfg.adaptation.Set? then r.adaptation == ParseAction(cfg.adaptation.value)
            else r.adaptation == ce.adaptation
    ensures if cfg.goal.Set? then r.goal == ParseGoal(cfg.goal.value) else r.goal == ce.goal
    ensures if cfg.adaptationCondition.Set?
            then r.adaptationCondition == ParseCondition(cfg.adaptationCondition.value)
            else r.adaptationCondition == ce.adaptationCondition
    ensures Stored(cfg.modScheme, ce.modScheme, r.modScheme)
    ensures Stored(cfg.crcScheme, ce.crcScheme, r.crcScheme)
    ensures Stored(cfg.innerFEC, ce.innerFEC, r.innerFEC)
    ensures Stored(cfg.outerFEC, ce.outerFEC, r.outerFEC)
    ensures SameMeasurements(r, ce)
  {
    ce.(
      adaptation := if cfg.adaptation.Set? then ParseAction(cfg.adaptation.value) else ce.adaptation,
      goal := if cfg.goal.Set? then ParseGoal(cfg.goal.value) else ce.goal,
      adaptationCondition :=
        if cfg.adaptationCondition.Set? then ParseCondition(cfg.adaptationCondition.value)
        else ce.adaptationCondition,
      modScheme := SetString(cfg.modScheme, ce.modScheme),
      crcScheme := SetString(cfg.crcScheme, ce.crcScheme),
      innerFEC := SetString(cfg.innerFEC, ce.innerFEC),
      outerFEC := SetString(cfg.outerFEC, ce.outerFEC),
      payloadLen := SetU32(cfg.payloadLen, ce.payloadLen),
      payloadLenIncrement := SetU32(cfg.payloadLenIncrement, ce.payloadLenIncrement),
      payloadLenMax := SetU32(cfg.payloadLenMax, ce.payloadLenMax),
      payloadLenMin := SetU32(cfg.payloadLenMin, ce.payloadLenMin),
      numSubcarriers := SetU32(cfg.numSubcarriers, ce.numSubcarriers),
      cpLen := SetU32(cfg.cpLen, ce.cpLen),
      taperLen := SetU32(cfg.taperLen, ce.taperLen),
      latestGoalValue := SetReal(cfg.latestGoalValue, ce.latestGoalValue),
      threshold := SetReal(cfg.threshold, ce.threshold),
      weightedAvgPayloadValidThreshold :=
        SetReal(cfg.weightedAvgPayloadValidThreshold, ce.weightedAvgPayloadValidThreshold),
      perThreshold := SetReal(cfg.perThreshold, ce.perThreshold),
      berThreshold := SetReal(cfg.berThreshold, ce.berThreshold),
      goalAveraging :=
        if cfg.goalAveraging.Set? then TruncToInt(cfg.goalAveraging.value) else ce.goalAveraging,
      berAvg := SetWindow(cfg.berAveraging, ce.berAvg),
      perAvg := SetWindow(cfg.perAveraging, ce.perAvg),
      validPayloadsAvg := SetWindow(cfg.validPayloadsAveraging, ce.validPayloadsAvg),
      errorFreePayloadsAvg := SetWindow(cfg.errorFreePayloadsAveraging, ce.errorFreePayloadsAvg))
  }

  /** The float keys are stored as they are, the integer keys modulo 2^32
      (a non-negative `int` unchanged, a negative one plus 2^32),
      `goal_averaging` truncated toward zero, and each averaging key
      replaces its running average by a fresh zero window of that length;
      keys the file leaves out keep their field. */
  lemma ApplyConfigWritesItsKeys(ce: CognitiveEngine, cfg: CeConfigFile)
    ensures var r := ApplyConfig(ce, cfg);
            Stored(cfg.latestGoalValue, ce.latestGoalValue, r.latestGoalValue)
            && Stored(cfg.threshold, ce.threshold, r.threshold)
            && Stored(cfg.weightedAvgPayloadValidThreshold, ce.weightedAvgPayloadValidThreshold,
                      r.weightedAvgPayloadValidThreshold)
            && Stored(cfg.perThreshold, ce.perThreshold, r.perThreshold)
            && Stored(cfg.berThreshold, ce.berThreshold, r.berThreshold)
    ensures var r := ApplyConfig(ce, cfg);
            (cfg.payloadLen.Set? && 0 <= cfg.payloadLen.value ==> r.payloadLen == cfg.payloadLen.value)
            && (cfg.payloadLen.Set? && cfg.payloadLen.value < 0 ==>
                  r.payloadLen == cfg.payloadLen.value + U32_MODULUS)
            && (cfg.payloadLenMin.Set? && 0 <= cfg.payloadLenMin.value ==>
                  r.payloadLenMin == cfg.payloadLenMin.value)
            && (cfg.payloadLenMax.Set? && 0 <= cfg.payloadLenMax.value ==>
                  r.payloadLenMax == cfg.payloadLenMax.value)
            && (cfg.payloadLenIncrement.Set? && 0 <= cfg.payloadLenIncrement.value ==>
                  r.payloadLenIncrement == cfg.payloadLenIncrement.value)
            && (cfg.goalAveraging.Set? ==>
                  -1.0 < cfg.goalAveraging.value - r.goalAveraging as real < 1.0)
    ensures var r := ApplyConfig(ce, cfg);
            Stored(WrappedU32(cfg.payloadLen), ce.payloadLen, r.payloadLen)
            && Stored(WrappedU32(cfg.payloadLenIncrement), ce.payloadLenIncrement, r.payloadLenIncrement)
            && Stored(WrappedU32(cfg.payloadLenMax), ce.payloadLenMax, r.payloadLenMax)
            && Stored(WrappedU32(cfg.payloadLenMin), ce.payloadLenMin, r.payloadLenMin)
            && Stored(WrappedU32(cfg.numSubcarriers), ce.numSubcarriers, r.numSubcarriers)
            && Stored(WrappedU32(cfg.cpLen), ce.cpLen, r.cpLen)
            && Stored(WrappedU32(cfg.taperLen), ce.taperLen, r.taperLen)
    ensures var r := ApplyConfig(ce, cfg);
            (if cfg.goalAveraging.Set? then r.goalAveraging == TruncToInt(cfg.goalAveraging.value)
             else r.goalAveraging == ce.goalAveraging)
            && Stored(FreshWindow(cfg.berAveraging), ce.berAvg, r.berAvg)
            && Stored(FreshWindow(cfg.perAveraging), ce.perAvg, r.perAvg)
            && Stored(FreshWindow(cfg.validPayloadsAveraging), ce.validPayloadsAvg, r.validPayloadsAvg)
            && Stored(FreshWindow(cfg.errorFreePayloadsAveraging), ce.errorFreePayloadsAvg,
                      r.errorFreePayloadsAvg)
  {
  }

  /** An integer key as the `unsigned int` it becomes. */
  function WrappedU32(s: Setting<cint>): Setting<u32>
  {
    if s.Set? then Set(WrapU32(s.value)) else Unset
  }

  /** An averaging key as the fresh window it becomes. */
  function FreshWindow(s: Setting<WindowLength>): Setting<RunningAverage.RunningAvg>
  {
    if s.Set? then Set(RunningAverage.Create(s.value)) else Unset
  }

  /** A reload keeps the metric averages usable and consistent: each is
      either kept or replaced by a fresh zero window. */
  lemma ReloadKeepsMetrics(ce: CognitiveEngine, cfg: CeConfigFile)
    ensures MetricsWellFormed(ce) ==> MetricsWellFormed(ApplyConfig(ce, cfg))
    ensures MetricsValid(ce) ==> MetricsValid(ApplyConfig(ce, cfg))
  {
  }

  /** A file that sets nothing leaves the engine as it was. */
  lemma EmptyConfigChangesNothing(ce: CognitiveEngine)
    ensures ApplyConfig(ce, EMPTY_CONFIG) == ce
  {
  }

  /** Reading the same file again changes nothing more: every key sets its
      field to a value that depends on the file alone. */
  lemma ReloadIdempotent(ce: CognitiveEngine, cfg: CeConfigFile)
    ensures ApplyConfig(ApplyConfig(ce, cfg), cfg) == ApplyConfig(ce, cfg)
  {
  }

  /** A file that leaves `goal_averaging` alone keeps the goal window and
      its mean exactly as they were. */
  lemma ReloadKeepsGoalWindow(ce: CognitiveEngine, cfg: CeConfigFile)
    requires cfg.goalAveraging.Unset?
    ensures GoalWindowValid(ApplyConfig(ce, cfg)) <==> GoalWindowValid(ce)
  {
  }

  /** A file that changes `goal_averaging` touches neither the goal memory
      nor its mean, so the stored mean need not be the mean of the resized
      window: a consistent one-slot window holding 1.0, widened to two
      slots whose second holds 0.0, keeps the mean 1.0 instead of 0.5. */
  lemma GoalAveragingReloadBreaksMean(ce: CognitiveEngine, cfg: CeConfigFile)
    requires GoalWindowValid(ce) && ce.goalAveraging == 1
    requires ce.goalMem[0] == 1.0 && ce.goalMem[1] == 0.0
    requires cfg.goalAveraging == Set(2.0)
    ensures !GoalWindowValid(ApplyConfig(ce, cfg))
  {
    var r := ApplyConfig(ce, cfg);
    assert r.goalAveraging == 2 && r.goalMem == ce.goalMem;
    assert ce.goalMem[..1] == [1.0];
    assert RunningAverage.Sum([1.0]) == 1.0 by { assert [1.0][..0] == []; }
    assert r.goalMem[..2] == [1.0, 0.0];
    assert RunningAverage.Sum([1.0, 0.0]) == 1.0 by { assert [1.0, 0.0][..1] == [1.0]; }
  }
}
