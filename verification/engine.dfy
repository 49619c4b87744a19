/** The cognitive-engine record (`struct CognitiveEngine`) the adaptive
    loop reads and updates, and the defaults `CreateCognitiveEngine` gives
    it before a configuration file overwrites them. */
module Engine {
  import opened MachineInts
  import opened Schemes
  import opened Rules
  import RunningAverage

  /** `goal_mem` is a fixed array of 100 floats. */
  const GOAL_MEMORY_LEN: nat := 100

  /** The transmit loop fills a 1000-byte payload buffer. */
  const MAX_PAYLOAD_LEN: nat := 1000

  /** One engine's parameters and running metrics. RF gains, frequencies,
      bandwidth, the inter-frame delay and the start time are only passed
      on to the radio or to reports and are not part of this record. */
  datatype CognitiveEngine = CognitiveEngine(
    // modulation and coding, by configuration-file name
    modScheme: string,
    crcScheme: string,
    innerFEC: string,
    outerFEC: string,
    outerFECPrev: string,
    bitsPerSym: nat,
    numSubcarriers: u32,
    cpLen: u32,
    taperLen: u32,
    payloadLen: u32,
    // adaptation rule and goal
    adaptationCondition: Condition,
    adaptation: Action,
    goal: Goal,
    goalAveraging: int,
    goalMem: seq<real>,
    averagedGoalValue: real,
    threshold: real,
    latestGoalValue: real,
    weightedAvg: real,
    weightedAvgPayloadValidThreshold: real,
    perThreshold: real,
    berThreshold: real,
    fecSwitch: real,
    payloadLenIncrement: u32,
    payloadLenMax: u32,
    payloadLenMin: u32,
    // control
    runningTime: real,
    iteration: nat,
    frameNumber: u32,
    // metrics
    per: real,
    perAvg: RunningAverage.RunningAvg,
    ber: real,
    berAvg: RunningAverage.RunningAvg,
    validPayloads: nat,
    validPayloadsAvg: RunningAverage.RunningAvg,
    errorFreePayloads: nat,
    errorFreePayloadsAvg: RunningAverage.RunningAvg,
    lastReceivedFrame: u32)

  /** The shape the goal check relies on: a window of 1..100 slots inside
      the 100-slot goal memory. */
  predicate GoalWindowWellFormed(ce: CognitiveEngine)
  {
    1 <= ce.goalAveraging <= GOAL_MEMORY_LEN && |ce.goalMem| == GOAL_MEMORY_LEN
  }

  /** `averagedGoalValue` is the mean of the goal window. */
  predicate GoalWindowValid(ce: CognitiveEngine)
  {
    GoalWindowWellFormed(ce)
    && ce.averagedGoalValue
       == RunningAverage.Sum(ce.goalMem[..ce.goalAveraging]) / ce.goalAveraging as real
  }

  /** The four metric averages are usable windows. */
  predicate MetricsWellFormed(ce: CognitiveEngine)
  {
    ce.perAvg.WellFormed() && ce.berAvg.WellFormed()
    && ce.validPayloadsAvg.WellFormed() && ce.errorFreePayloadsAvg.WellFormed()
  }

  /** The four metric averages hold the mean of their windows. */
  predicate MetricsValid(ce: CognitiveEngine)
  {
    ce.perAvg.Valid() && ce.berAvg.Valid()
    && ce.validPayloadsAvg.Valid() && ce.errorFreePayloadsAvg.Valid()
  }

  /** The payload-length bounds the length actions are meant to keep. */
  predicate PayloadLenInBounds(ce: CognitiveEngine)
  {
    ce.payloadLenMin <= ce.payloadLen <= ce.payloadLenMax
  }

  /** Two engines agree on everything measured from received frames: the
      counters, the error rates, the goal memory and its mean, and the
      frame and iteration numbers. Only frame processing and the goal check
      write these; configuration and adaptation leave them alone. */
  predicate SameMeasurements(a: CognitiveEngine, b: CognitiveEngine)
  {
    a.validPayloads == b.validPayloads && a.errorFreePayloads == b.errorFreePayloads
    && a.weightedAvg == b.weightedAvg && a.per == b.per && a.ber == b.ber
    && a.goalMem == b.goalMem && a.averagedGoalValue == b.averagedGoalValue
    && a.iteration == b.iteration && a.frameNumber == b.frameNumber
    && a.lastReceivedFrame == b.lastReceivedFrame && a.runningTime == b.runningTime
  }

  /** `CreateCognitiveEngine`. The source leaves the four metric averages
      unallocated until the configuration names their window lengths; here
      they start as zero windows of the default length 1. The default
      condition key "packet_error_rate" is not one the engine recognises. */
  function CreateCognitiveEngine(): (ce: CognitiveEngine)
    ensures ConvertModScheme(ce.modScheme).Ok?
    ensures ConvertCrcScheme(ce.crcScheme).Ok?
    ensures ConvertFecScheme(ce.innerFEC).Ok? && ConvertFecScheme(ce.outerFEC).Ok?
    ensures PayloadLenInBounds(ce) && ce.payloadLenIncrement <= ce.payloadLenMin
    ensures GoalWindowValid(ce) && MetricsValid(ce)
    ensures ce.adaptationCondition.OtherCondition?
    ensures ce.validPayloads == 0 && ce.errorFreePayloads == 0 && ce.frameNumber == 0
  {
    RunningAverage.SumConstant(1, 0.0);
    var zeroWindow := RunningAverage.Create(1);
    CognitiveEngine(
      modScheme := "QPSK",
      crcScheme := "none",
      innerFEC := "none",
      outerFEC := "Hamming74",
      outerFECPrev := "Hamming74",
      bitsPerSym := 1,
      numSubcarriers := 64,
      cpLen := 16,
      taperLen := 4,
      payloadLen := 120,
      adaptationCondition := ParseCondition("packet_error_rate"),
      adaptation := ParseAction("mod_scheme->BPSK"),
      goal := ParseGoal("payload_valid"),
      goalAveraging := 1,
      goalMem := seq(GOAL_MEMORY_LEN, _ => 0.0),
      averagedGoalValue := 0.0,
      threshold := 1.0,
      latestGoalValue := 0.0,
      weightedAvg := 0.0,
      weightedAvgPayloadValidThreshold := 0.5,
      perThreshold := 0.5,
      berThreshold := 0.5,
      fecSwitch := 1.0,
      payloadLenIncrement := 2,
      payloadLenMax := 500,
      payloadLenMin := 20,
      runningTime := 0.0,
      iteration := 1,
      frameNumber := 0,
      per := 0.0,
      perAvg := zeroWindow,
      ber := 0.0,
      berAvg := zeroWindow,
      validPayloads := 0,
      validPayloadsAvg := zeroWindow,
      errorFreePayloads := 0,
      errorFreePayloadsAvg := zeroWindow,
      lastReceivedFrame := 0)
  }
}
