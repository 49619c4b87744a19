# crts cognitive engine — a Dafny model

This project models the decision logic of the cognitive radio test system
(`crts.cpp`). A *cognitive engine* (`struct CognitiveEngine`) holds the
transmit parameters of one test:
- the modulation, CRC and FEC schemes;
- the payload length, with its bounds and step;
- one adaptation rule (a condition and an action);
- a goal and its threshold.

After every frame the receiver produces a *feedback record*. It holds:
- validity flags;
- byte and bit error counts, from comparing the payload with the receiver's
  copy of the transmitted pseudo-random bytes;
- the frame number, read back from the 8-byte frame header.

`postTxTasks` then does three things:
1. folds the record into the engine's counters, error rates and running
   averages (`ceProcessData`);
2. decides whether the goal is reached (`ceOptimized`), which ends the
   test;
3. otherwise adapts the transmit parameters by the rule (`ceModifyTxParams`).

The model is functional. The engine and the feedback record are immutable
datatypes and every step is a pure function. A fatal `exit(...)`
becomes the `Exit` case of `Outcomes.Outcome`.

Strings used as keys in the source (goal, condition, action) are parsed
into enumerations with an `Other…` case that holds the unrecognised key.
The modulation scheme and the outer FEC stay strings in the engine, as
`char[30]` fields. That way the ladder actions can be modelled as what they
are in the code: a run of `strcmp`/`strcpy` statements executed in order
(`Adapt.Chain`). That they move exactly one rung is proved.

Integer types:
- `unsigned int` arithmetic is written out modulo 2^32 (`MachineInts.WrapU32`).
- Bytes are integers 0..255.
- Floating-point quantities are reals.

Modules, one per file:

| file | module | models |
|---|---|---|
| machine_ints.dfy | MachineInts | `unsigned char`, `unsigned int`, wrap-around |
| outcomes.dfy | Outcomes | success or fatal exit |
| running_avg.dfy | RunningAverage | `running_avg<T>` |
| schemes.dfy | Schemes | `convertModScheme`, `convertCRCScheme`, `convertFECScheme`, the ladders |
| frame_header.dfy | FrameHeader | header encoding in `main`, frame-number decoding in `rxCallback` |
| payload_errors.dfy | PayloadErrors | the byte/bit error loop of `rxCallback` |
| feedback.dfy | Feedback | `feedbackStruct` and its construction in `rxCallback` |
| rules.dfy | Rules | the goal, condition and action keys |
| engine.dfy | Engine | `struct CognitiveEngine`, `CreateCognitiveEngine` |
| process.dfy | Process | `ceProcessData`, `ceOptimized` |
| ce_config.dfy | CeConfig | the effect of `readCEConfigFile` on a running engine |
| adapt.dfy | Adapt | `ceModifyTxParams` |
| post_tx.dfy | PostTx | `postTxTasks` and the engine invariant |

## Model

| member | source | states |
|---|---|---|
| RunningAverage.Create | crts.cpp:73-78 | A new window of length `avg_len` is all zeros, writes to slot 0 first, and its mean (0) is the mean of the window. |
| RunningAverage.Update | crts.cpp:86-93 | Stores the input in the current slot, advances the slot cyclically (modulo `avg_len`), returns the new mean, and keeps `avg` equal to the mean of the window. |
| RunningAverage.ReplaceInMeanKeepsMean | crts.cpp:87-89 | Subtracting the leaving sample / N and adding the new one / N gives exactly the mean of the window after the slot is overwritten. |
| RunningAverage.Feed | crts.cpp:86-93 | Any sequence of updates keeps the window well formed and of fixed length; fewer than `avg_len` updates leave the slot that many places further on. |
| RunningAverage.FeedConcat | crts.cpp:86-93 | Pushing `a` then `b` is the same as pushing `a + b`. |
| RunningAverage.FeedKeepsMean | crts.cpp:86-93 | The mean invariant holds after any number of updates. |
| RunningAverage.FeedSlots | crts.cpp:86-93 | During the first `avg_len` updates the j-th sample lands j slots after the starting slot, and slots not yet reached keep their old contents. |
| RunningAverage.MeanOfFullWindow | crts.cpp:86-93 | After exactly `avg_len` updates the mean is the arithmetic mean of those inputs, whatever the window held before. |
| RunningAverage.MeanOfLastWindow | crts.cpp:86-93 | After at least `avg_len` updates the mean is the mean of the last `avg_len` inputs. |
| RunningAverage.MeanOfConstantWindow | crts.cpp:86-93 | Pushing the same value `avg_len` times makes the mean that value. |
| Schemes.ConvertModScheme | crts.cpp:1020-1108 | A known name yields the scheme spelled that way with bits per symbol log2 of its constellation size; an unknown name, and only a name no scheme has, is fatal. |
| Schemes.ModNameAccepted | crts.cpp:1020-1108 | Every modulation scheme's own name selects that scheme. |
| Schemes.ConvertCrcScheme | crts.cpp:1110-1145 | A known name yields the CRC spelled that way; any other name is fatal. |
| Schemes.CrcNameAccepted | crts.cpp:1110-1145 | Every CRC's own name selects that CRC. |
| Schemes.ConvertFecScheme | crts.cpp:1147-1186 | A known name yields the FEC spelled that way; any other name is fatal. |
| Schemes.FecNameAccepted | crts.cpp:1147-1186 | Every FEC's own name selects that FEC. |
| Schemes.LadderBitsPerSymbol | crts.cpp:1024-1099 | Rung i of the PSK ladder and of the ASK ladder is accepted and carries i + 1 bits per symbol. |
| Schemes.FecLadderAccepted | crts.cpp:1147-1186 | Every rung of the outer-FEC ladder is an accepted FEC name, in ladder order. |
| FrameHeader.EncodeHeader | crts.cpp:2343-2348 | The header has 8 bytes: engine and scenario numbers plus one (mod 256) in bytes 0 and 1, zeros in bytes 6 and 7. |
| FrameHeader.FrameNumberRoundTrip | crts.cpp:1279 | Decoding bytes 2..5 of a header the transmitter wrote gives back its 32-bit frame number, for every value below 2^32. |
| FrameHeader.FrameBytesRoundTrip | crts.cpp:2345-2346 | Re-encoding a decoded frame number writes back the same bytes 2..5. |
| FrameHeader.EncodeHeaderInjective | crts.cpp:2464-2469 | Distinct frame numbers give distinct headers. |
| PayloadErrors.DifferingBitsZeroIffEqual | crts.cpp:1296-1300 | Two 8-bit values have no differing bit exactly when they are equal. |
| PayloadErrors.ByteBitErrors | crts.cpp:1293-1300 | One byte position adds at most 8 bit errors, and none exactly when the bytes match. |
| PayloadErrors.ByteErrorsCountMismatches | crts.cpp:1290-1302 | The byte-error count is the number of positions where received and expected bytes differ. |
| PayloadErrors.ErrorCountBounds | crts.cpp:1290-1302 | Byte errors ≤ payload length; byte errors ≤ bit errors ≤ 8 · byte errors; each count is 0 exactly when the payload equals the expected bytes. |
| PayloadErrors.CountPayloadErrors | crts.cpp:1290-1302 | The nested counting loop computes the byte and bit error counts, with the bounds and the zero-iff-equal property. |
| Feedback.LocalFeedback | crts.cpp:1266-1302 | The record carries the payload's length, the number of positions where the payload differs from the expected bytes, the total of differing bits, and the frame number decoded from the header. The counts are within the bounds above, with zero bit errors exactly for an exact payload, and the receiver's validity flags are kept. |
| Feedback.LocalFeedbackFrameNumber | crts.cpp:1279 | The record of a frame reports the frame number its header was written with. |
| FrameHeader.DecodeFrameNumber | crts.cpp:1276-1279 | The frame number is bytes 2..5 read most significant first. The `unsigned int` accumulation never wraps. |
| Rules.ParseGoal | crts.cpp:1498-1527 | Each of the five goal keys names its goal; any other key is kept as an unrecognised goal. |
| Rules.GoalKeyRoundTrip | crts.cpp:1498-1522 | A recognised goal's key parses back to that goal. |
| Rules.ParseCondition | crts.cpp:1565-1639 | Each of the nine condition keys names its condition; any other key is kept as unrecognised. |
| Rules.ConditionKeyRoundTrip | crts.cpp:1565-1639 | A recognised condition's key parses back to it. |
| Rules.ParseAction | crts.cpp:1653-1835 | Each action key names its action; any other key is kept as unrecognised. |
| Rules.ParseSetModScheme | crts.cpp:1787-1835 | The sixteen `mod_scheme->` keys each select their scheme; no key selects 128PSK, 128ASK or BASK. |
| Rules.ActionKeyRoundTrip | crts.cpp:1653-1835 | A recognised action's key parses back to it. |
| Rules.ThirtyTwoPskKey | crts.cpp:1799-1801 | 32PSK is selected by the key "mod_scheme->328PSK"; "mod_scheme->32PSK" is not recognised. |
| Engine.CreateCognitiveEngine | crts.cpp:264-331 | The defaults name accepted schemes, keep 20 ≤ 120 ≤ 500 with step 2 ≤ min, start from a zero goal window and zero metrics whose means are consistent, and use a condition key ("packet_error_rate") the rule never recognises. |
| Process.ProcessData | crts.cpp:1471-1531 | Valid payloads grow by the validity flag; error-free payloads grow by one exactly when the payload is valid with no bit error; PER and BER are the stated ratios; `weightedAvg` grows by the flag; the four running averages get the right samples; the goal value follows the goal; an unknown goal is fatal; nothing else changes. |
| Process.PacketErrorRate | crts.cpp:1488 | PER times the frame count is the number of frames not received error free, and PER lies in [0, 1] when that count does not exceed the frames sent. |
| Process.BitErrorRate | crts.cpp:1490 | BER times the payload bits is the bit-error count, and BER lies in [0, 1] when the errors do not exceed the payload bits. |
| Process.PerIsARate | crts.cpp:1479-1488 | While fewer frames arrived error free than were sent, the PER recorded for the next frame is in [0, 1]. |
| Process.CeOptimized | crts.cpp:1533-1555 | Reports the goal reached exactly when frameNumber > goal_averaging and the latest goal value meets the threshold, so never during warm-up. It writes the latest value into slot `iteration % goal_averaging`, keeps `averagedGoalValue` the mean of the window, and changes nothing else. |
| Process.GoalWindowIsRunningAverage | crts.cpp:1536-1538 | The goal-window update is a `running_avg` update of the first `goal_averaging` slots, and the next frame writes to the slot that update advances to. |
| Process.GoalWindow | crts.cpp:1536-1538 | The first `goal_averaging` goal-memory slots, written next at `iteration % goal_averaging`, form a well-formed window of that length. It is a valid running average whenever `averagedGoalValue` is their mean. |
| Process.GoalRounds | crts.cpp:2438-2442 | Goal checks of successive frames keep the goal window well formed and its length unchanged. The frame number (modulo 2^32) and `iteration` advance after each check. |
| Process.GoalRoundsFeedWindow | crts.cpp:1533-1555 | Successive goal checks are exactly successive `running_avg` updates of the goal window, with the same values. |
| Process.AveragedGoalIsMeanOfLastWindow | crts.cpp:1536-1538 | After at least `goal_averaging` frames, `averagedGoalValue` is the mean of the last `goal_averaging` goal values. |
| Adapt.Chain | crts.cpp:1667-1686 | A run of conditional string replacements leaves the value alone or yields one of the replacement strings. |
| Adapt.DecreasePsk | crts.cpp:1667-1686 | `decrease_mod_scheme_PSK` leaves the name alone or yields a PSK rung from BPSK to 64PSK. |
| Adapt.DecreaseAsk | crts.cpp:1688-1707 | `decrease_mod_scheme_ASK` leaves the name alone or yields an ASK rung from BASK to 64ASK. |
| Adapt.NoFecName | crts.cpp:1724-1743 | `no_fec` leaves the outer FEC alone or yields none. |
| Adapt.IncreaseFecName | crts.cpp:1745-1764 | `increase_fec` leaves the outer FEC alone or yields a code from Hamming74 to SEC-DED7264. |
| Adapt.DecreaseFecName | crts.cpp:1766-1785 | `decrease_fec` leaves the outer FEC alone or yields a rung from none to SEC-DED3932. |
| Adapt.ChainUntouched | crts.cpp:1667-1686 | A value no statement of the run tests for is left unchanged. |
| Adapt.ChainFiresOnce | crts.cpp:1667-1686 | The first matching statement fires, and its result stays when no later statement tests for it (no cascade). |
| Adapt.DecreasePskOneRung | crts.cpp:1667-1686 | `decrease_mod_scheme_PSK` moves QPSK…128PSK down exactly one rung. |
| Adapt.DecreasePskElsewhere | crts.cpp:1667-1686 | `decrease_mod_scheme_PSK` leaves BPSK and every non-PSK name unchanged. |
| Adapt.DecreaseAskOneRung | crts.cpp:1688-1707 | `decrease_mod_scheme_ASK` moves 4ASK…128ASK down exactly one rung. |
| Adapt.DecreaseAskElsewhere | crts.cpp:1688-1707 | `decrease_mod_scheme_ASK` leaves BASK and every non-ASK name unchanged. |
| Adapt.PskStepLosesOneBit | crts.cpp:1667-1686 | A PSK step down lowers bits per symbol by exactly one. |
| Adapt.AskStepLosesOneBit | crts.cpp:1688-1707 | An ASK step down lowers bits per symbol by exactly one. |
| Adapt.IncreaseFecOneRung | crts.cpp:1745-1764 | `increase_fec` moves none…SEC-DED3932 up exactly one rung. |
| Adapt.IncreaseFecElsewhere | crts.cpp:1745-1764 | `increase_fec` leaves SEC-DED7264 and every non-ladder name unchanged. |
| Adapt.DecreaseFecOneRung | crts.cpp:1766-1785 | `decrease_fec` moves Hamming74…SEC-DED7264 down exactly one rung. |
| Adapt.DecreaseFecElsewhere | crts.cpp:1766-1785 | `decrease_fec` leaves none and every non-ladder name unchanged. |
| Adapt.NoFecClears | crts.cpp:1724-1743 | `no_fec` turns every outer FEC into none except SEC-DED7264, which it keeps. |
| Adapt.NoFecElsewhere | crts.cpp:1724-1743 | `no_fec` leaves a non-ladder name unchanged. |
| Adapt.DecreasePskKeepsKnown | crts.cpp:1667-1686 | A PSK step keeps a modulation name `convertModScheme` accepts. |
| Adapt.DecreaseAskKeepsKnown | crts.cpp:1688-1707 | An ASK step keeps a modulation name `convertModScheme` accepts. |
| Adapt.IncreaseFecKeepsKnown | crts.cpp:1745-1764 | `increase_fec` keeps an FEC name `convertFECScheme` accepts. |
| Adapt.DecreaseFecKeepsKnown | crts.cpp:1766-1785 | `decrease_fec` keeps an FEC name `convertFECScheme` accepts. |
| Adapt.NoFecKeepsKnown | crts.cpp:1724-1743 | `no_fec` keeps an FEC name `convertFECScheme` accepts. |
| Adapt.LengthenPayload | crts.cpp:1653-1658 | Without wrap-around, the length grows by the step exactly when the sum stays ≤ max, and is otherwise unchanged; in all cases the result is the old length or the wrapped sum. |
| Adapt.ShortenPayload | crts.cpp:1660-1665 | Without wrap-around, the length shrinks by the step exactly when the difference stays ≥ min, and is otherwise unchanged; in all cases the result is the old length or the wrapped difference. |
| Adapt.PayloadLenStaysInBounds | crts.cpp:1653-1665 | With step ≤ min and max + step < 2^32, both length actions keep min ≤ length ≤ max. |
| Adapt.DecreaseWrapsBelowZero | crts.cpp:1660-1665 | Without step ≤ min, the unsigned difference wraps: length 1, step 2, min 1 becomes 2^32 − 1. |
| Adapt.IncreaseWrapsPastTop | crts.cpp:1653-1658 | Near 2^32 the unsigned sum wraps to 0 and passes the `<= max` guard. |
| Adapt.ToggleOuterFec | crts.cpp:1709-1722 | Flips the FEC switch: from 1 it remembers the outer FEC and sets none; otherwise it restores the remembered FEC. It touches nothing else. |
| Adapt.ToggleTwiceRestores | crts.cpp:1709-1722 | Toggling twice from switch 1 restores the outer FEC and the switch; only the remembered FEC differs. |
| Adapt.ConditionMet | crts.cpp:1565-1639 | Each of the ten conditions holds exactly when its own test does. `user_specified` always holds and an unrecognised condition never does. `last_payload_invalid` holds for an invalid payload, and `last_packet_error_free` for a frame with no bit error. The six threshold conditions compare `weightedAvg`, PER or BER strictly below or strictly above their thresholds. |
| Adapt.ThresholdConditionsExclusive | crts.cpp:1580-1631 | The below and above tests of one metric never hold together, and one of them holds unless the metric equals its threshold. |
| Adapt.ApplyAction | crts.cpp:1653-1835 | Each action does its own change: the two length actions apply their guarded step, the PSK, ASK and FEC ladder actions move their field along their ladder, `outer_fec_on_off` toggles, and `mod_scheme->X` sets X. Only modulation, outer FEC, remembered FEC, FEC switch and payload length can change, each only under its own action. An unknown action changes nothing, and the length bounds are kept under the no-wrap conditions. |
| Adapt.ModifyTxParams | crts.cpp:1557-1837 | If the condition does not hold, including any unrecognised condition, nothing changes. If it holds, the configured action is applied. For `user_specified` it is applied to the engine the user file yields, and an unreadable user file is fatal. The measured counters, rates and goal memory never change. |
| Adapt.ActionKeepsSchemesKnown | crts.cpp:1653-1835 | Every action keeps the modulation, outer FEC and remembered FEC names accepted by the converters. |
| Adapt.PerAboveRaisesFec | crts.cpp:1605-1612 | With rule `PER>X` → `increase_fec`, PER above the threshold and outer FEC none, the engine switches to Hamming74 and nothing else changes. |
| CeConfig.ApplyConfig | crts.cpp:538-685 | A user file writes exactly the keys it sets, and every key it leaves out keeps its field. The rule, goal and condition keys are parsed, and the four scheme names are copied. The counters, rates, goal memory and its mean, the frame and iteration numbers, the remembered outer FEC and the FEC switch keep their values. |
| CeConfig.ApplyConfigWritesItsKeys | crts.cpp:579-709 | The float keys are stored as they are. The integer keys are stored modulo 2^32, so a negative `int` becomes itself plus 2^32. `goal_averaging` is truncated toward zero, and each averaging key replaces its running average by a fresh zero window of that length. Keys the file leaves out keep their field. |
| CeConfig.ReloadKeepsMetrics | crts.cpp:686-709 | A reload keeps the four metric averages well formed and consistent: each is kept or replaced by a fresh zero window. |
| CeConfig.EmptyConfigChangesNothing | crts.cpp:538-708 | A file that sets no key leaves the engine unchanged. |
| CeConfig.ReloadIdempotent | crts.cpp:538-708 | Reading the same file twice gives the engine that reading it once gives. |
| CeConfig.ReloadKeepsGoalWindow | crts.cpp:538-708 | A file without `goal_averaging` keeps the goal window's mean as consistent as it was. |
| CeConfig.GoalAveragingReloadBreaksMean | crts.cpp:681-685 | A file that sets `goal_averaging` can leave `averagedGoalValue` different from the mean of the resized window, since neither the memory nor the mean is touched. |
| PostTx.PostTxTasks | crts.cpp:1839-1866 | Fatal for an unknown goal, and otherwise only when a `user_specified` adaptation cannot read its file. Done exactly when frameNumber > goal_averaging and the new goal value meets the threshold, so never during warm-up. When done, the transmit parameters are unchanged. When not done, the result is `ceModifyTxParams` applied to the checked engine. In every case the counters, PER, BER, `weightedAvg` and the last received frame evolve as `ceProcessData` states. |
| PostTx.DefaultEngineInvariant | crts.cpp:264-331 | The default engine satisfies the engine invariant. |
| PostTx.ModifyKeepsInvariant | crts.cpp:1557-1837 | Adaptation keeps the invariant. The invariant covers consistent means, and modulation, CRC, inner-FEC, outer-FEC and remembered-FEC names the converters accept. It also keeps the payload length within bounds that fit the 1000-byte buffer. A user file read on the way must be safe (`PostTx.SafeUserFile`). |
| PostTx.SafeReloadKeepsInvariant | crts.cpp:538-708 | A user file keeps the engine invariant if it leaves `goal_averaging` alone, names only accepted modulation, CRC, inner-FEC and outer-FEC schemes, and sets the payload length only together with consistent bounds and step. |
| PostTx.PostTxKeepsInvariant | crts.cpp:1839-1866 | A whole round of processing, goal check and adaptation keeps the invariant, provided a user file read on the way is safe. So every scheme name the next frame converts is accepted. |

## Behaviour kept as the code has it

- The payload-length guards compute `payloadLen ± payloadLenIncrement` in
  `unsigned int`. They are not clamped, and they can wrap
  (`Adapt.DecreaseWrapsBelowZero`, `Adapt.IncreaseWrapsPastTop`). The
  bounds hold only under step ≤ min and max + step < 2^32.
- Only decreasing PSK/ASK actions exist; there is no increase-modulation
  action. Explicit targets exist only for the modulation, not for the FEC.
- `no_fec` does not clear SEC-DED7264.
- The key that selects 32PSK is "mod_scheme->328PSK".
- The goal check compares the latest goal value with the threshold, not
  the averaged one.
- The goal memory is a fixed 100-slot array indexed by
  `iteration % goal_averaging`.
- `weightedAvg` is a running count of valid payloads.

## Left out

- Impairment DSP (`enactAWGNBaseband`, `enactCWInterfererBaseband`,
  `enactRicianFadingBaseband`) and the order `enactScenarioBasebandTx`
  applies them in: floating-point signal processing with random numbers
  and liquid-dsp filters.
- Threads, mutexes, condition variables and the timed feedback wait: about
  concurrency, not about the engine's decisions.
- Parsing configuration files (`readCEConfigFile`, `readScConfigFile`,
  master files) is file I/O. What the user file read by a `user_specified`
  adaptation sets is the input `userFile` of `Adapt.ModifyTxParams`: the
  keys present (`CeConfig.CeConfigFile`), or `Exit` for a file that cannot
  be read (`exit(EX_NOINPUT)`). Its effect on the engine is modelled
  (`CeConfig.ApplyConfig`). The keys that only reach the radio
  (`delay_us`, gains, frequencies, bandwidth) and the ignored `iterations`
  key are not part of the record.
- CeConfig.ApplyConfig: a string key longer than 29 characters overflows
  its `char[30]` field in the source; the model stores the whole string.
- CeConfig.CeConfigFile: an averaging key of zero or less is not
  representable (`WindowLength` is positive). The source hands it to
  `new running_avg<float>`, and a zero-length window makes every later
  `update` divide by zero, so such a file has no defined behaviour.
- PostTx.PostTxKeepsInvariant: the invariant is proved only for safe user
  files (`PostTx.SafeUserFile`). A user file that sets `goal_averaging`
  leaves `averagedGoalValue` inconsistent with the resized window
  (`CeConfig.GoalAveragingReloadBreaksMean`), and one that sets the payload
  bounds carelessly can break them.
- TCP server and client, and the over-the-air feedback path of
  `rxCallback`: networking.
- The OFDM frame generator and synchroniser, the m-sequence generator and
  the radio hardware. These are foreign libraries. The generator's bytes
  are the `expected` input of the error count.
- Summaries, throughput and all printing: reporting only.
- Floating-point rounding: PER, BER and all averages are reals.
- The float fields `PER_avg`, `BER_avg`, `validPayloads_avg` and
  `errorFreePayloads_avg`: `ceProcessData` discards what the running
  averages return, so they never change there. The model keeps the
  running-average objects themselves (`perAvg` …).
- RF gains, frequencies, bandwidth, delay and start time: passed to the
  radio or to reports only.
- The counters `validPayloads`, `errorFreePayloads` and `iteration` are
  unbounded naturals. The source's 32-bit wrap after 2^32 frames is not
  modelled.
- Process.ProcessData: requires frameNumber ≥ 1 and 0 < payloadLen ≤ 1000.
  The source divides by both without a check. `main` starts every test at
  frame 1, and the payload buffer has 1000 bytes.
- Process.CeOptimized: requires 1 ≤ goal_averaging ≤ 100. The source
  indexes the 100-slot goal memory with `iteration % goal_averaging`
  without a check.
- Engine.CreateCognitiveEngine: the source leaves the four running-average
  objects unallocated until a configuration names their window lengths.
  A configuration without a `*_averaging` key leaves that pointer NULL,
  and the first `ceProcessData` then dereferences it and crashes. The model
  starts the windows as zero windows of length 1 and does not model that
  crash.
