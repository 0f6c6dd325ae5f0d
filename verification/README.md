# DeviceMotion sample pipeline, modelled in Dafny

This project models the sample-processing core of `DeviceMotion`, the
CoreMotion wrapper of the iOS-MOSToolkit repository. It also models the
`signValue` / `signString` helpers of its `Double` extension.

On every sensor tick, `captureData` does the following:

- It counts the tick and ignores a tick that carried no sample.
- It stores the twelve readings as a map from channel key to value
  (`populateRecent`).
- It widens each channel's running low and high (`populateRanges`).
- It turns each reading into an instant percentage (`normalizeRecent`). The
  scale depends on the category named by the key's prefix: attitude, rotation
  rate, gravity or user acceleration. Any other key is measured against its
  own tracked range. None of the twelve keys `populateRecent` builds takes
  that range-based branch, so `captureData` never reaches it.
- It records that percentage at the front of the channel's hysteresis window
  and stores the window's mean as the channel's smoothed value.

`clearDataHighsAndLows` and `clearDataAll` start a new session.
`normalizedValue` reads a smoothed value.

Modules, leaves first:

- `Numeric` (numeric.dfy): `abs`, min and max over the reals.
- `Sign` (sign.dfy): `signValue`, `signString`, and how the status line's
  sign character and the exact magnitude recover a reading.
- `Hysteresis` (hysteresis.dfy): recording into a window, the window sum and
  mean, and the summing loop.
- `RangeTracker` (ranges.dfy): the first-sighting / if / else-if range
  update, `populateRanges`, and the same update applied over the keys in any
  order.
- `Normalizer` (normalizer.dfy): the category constants, prefix dispatch,
  and the instant percentage.
- `DeviceMotion` (device_motion.dfy): the state record, the capture step,
  resets, the accessor, and the session-level lemmas.

The state is immutable: `State(iteration, recent, stats)`. `Stats` bundles
the window size, the ranges, the smoothed values and the windows. Every
operation is a pure function. `Valid` is the invariant that every reachable
state keeps:

- the window size is at least 1;
- every range has low ≤ high;
- every window is non-empty and no longer than the window size;
- every smoothed value is its window's mean;
- every recent reading of a channel that has a range lies inside it.

Values are Dafny `real`s. π is the constant `Normalizer.Pi`, `M_PI` to
Double precision.

## Model

| member | source | states |
|---|---|---|
| Sign.SignValue | swift/extensions/DoubleExtension.swift:32-37 | The result is -1, 0 or 1, and it times `abs(x)` gives `x` back, so its sign is the sign of `x`. Zero gives 0. |
| Sign.SignString | swift/extensions/DoubleExtension.swift:22-28 | The result is "+" exactly when the value is positive, "-" exactly when it is negative, and " " exactly when it is zero. |
| Sign.SignHelpersAgree | swift/extensions/DoubleExtension.swift:22-37 | The helpers agree on every input: "+" iff 1, "-" iff -1, " " iff 0. Zero falls in the "otherwise" branch of both. |
| Sign.SignStringRoundTrip | swift/classes/DeviceMotion.swift:558 | The status line's sign character and the exact magnitude `abs(value)` together recover the raw value. The printed magnitude is rounded to three decimals by `Double.format`, which is not modelled. |
| Hysteresis.Record | swift/classes/DeviceMotion.swift:532-536 | The new percentage is at index 0, and the rest is a prefix of the old window. Below capacity, the window is the old window with the new value prepended. At capacity, it is that sequence truncated to the size. A window within the size stays within it and, for size ≥ 1, is non-empty. |
| Hysteresis.RecordEvictsOldest | swift/classes/DeviceMotion.swift:534 | Recording into a full window drops exactly its oldest entry. |
| Hysteresis.RecordAllKeepsNewest | swift/classes/DeviceMotion.swift:532-536 | Starting from an empty window, any run of recordings leaves the newest `min(n, size)` percentages, newest first. |
| Hysteresis.RecordAllSaturates | swift/classes/DeviceMotion.swift:532-536 | After n recordings the window length is `min(n, size)`, so after size + k recordings it equals the size. |
| Hysteresis.Mean | swift/classes/DeviceMotion.swift:540-542 | The smoothed value of a non-empty window lies between the window's minimum and its maximum. |
| Hysteresis.MeanOfUnitWindow | swift/classes/DeviceMotion.swift:540-542 | A window of percentages in [0, 1] smooths to a value in [0, 1]. |
| Hysteresis.MeanInOrder | swift/classes/DeviceMotion.swift:540-542 | `normalizeRecent`'s front-to-back summing loop, divided by the count, computes the mean. |
| RangeTracker.TrackValue | swift/classes/DeviceMotion.swift:466-479 | One key's update. A first sighting seeds low = high = v. Otherwise the if / else-if chain gives the hull (min of low and v, max of high and v), so the range only widens. A value inside the range changes nothing. Afterwards low ≤ v ≤ high, and other keys are untouched. |
| RangeTracker.PopulateRanges | swift/classes/DeviceMotion.swift:464-480 | Every key of the sample gets the hull of its old range and its value. Keys absent from the sample keep their ranges. low ≤ high holds for every tracked key. |
| RangeTracker.PopulateRangesWidens | swift/classes/DeviceMotion.swift:464-480 | After the update every reading lies in its range, a first sighting gives (v, v), and no low rises and no high falls. |
| RangeTracker.PopulateRangesInOrder | swift/classes/DeviceMotion.swift:466-479 | Updating the keys one at a time, in any order, gives `PopulateRanges`, so the dictionary's iteration order does not matter. |
| Normalizer.CategoryOf | swift/classes/DeviceMotion.swift:508-520 | The category is Attitude, RotationRate, Gravity or UserAcceleration exactly when the key has that root as a prefix. The first match in `normalizeRecent`'s `hasPrefix` chain is the only match. |
| Normalizer.RootsDisjoint | swift/classes/DeviceMotion.swift:122-140 | No key carries two of the four category roots. |
| Normalizer.Percentage | swift/classes/DeviceMotion.swift:507-527 | Each fixed-scale result inverts to the reading. Attitude: p·2π − π = v. Rotation rate: p·30 = abs(v). Gravity: p·2 − 1 = v. User acceleration: p·4 = abs(v). A range-based key gives low + p·(high − low) = v when the width is positive, and exactly 0 otherwise. |
| Normalizer.Landmarks | swift/classes/DeviceMotion.swift:155-158 | Attitude: 0 → 0.5, ±π → 1 and 0. Rotation rate: ±30 → 1. Gravity: 1 → 1, −1 → 0. User acceleration: ±4 → 1. |
| Normalizer.FixedScaleUnitRange | swift/classes/DeviceMotion.swift:508-518 | A fixed-scale percentage lies in [0, 1] exactly when the reading lies within its category's nominal span. Rotation rate and user acceleration are never negative. |
| Normalizer.RangeBasedUnitRange | swift/classes/DeviceMotion.swift:520-527 | For a range-based key with low ≤ v ≤ high the result lies in [0, 1]. When the range is wider than a point, it is 0 exactly at low and 1 exactly at high. |
| Normalizer.DiagnosticHolds | swift/classes/DeviceMotion.swift:529 | The `percentage >= 0` diagnostic always holds for rotation rate, user acceleration, and range-based keys inside their range. For attitude it holds exactly when v ≥ −π, and for gravity exactly when v ≥ −1. |
| DeviceMotion.Init | swift/classes/DeviceMotion.swift:84-98 | A fresh pipeline has tick count 0, all maps empty, and satisfies the invariant. |
| DeviceMotion.WindowSizeFor | swift/classes/DeviceMotion.swift:188-199 | The switch gives window size 5 exactly for the six listed older model strings, spelled as the switch spells them ("iPhone5" has no space), and 30 for every other string. |
| DeviceMotion.Configure | swift/classes/DeviceMotion.swift:188-199 | A pipeline configured for any model string satisfies the invariant and has tick count 0 and no recent readings. Its window size is `WindowSizeFor(model)`: 5 for the models listed as prior to the iPhone 6, 30 for every other string. Its ranges, windows and smoothed values all start empty. |
| DeviceMotion.PopulateRecent | swift/classes/DeviceMotion.swift:433-460 | The recent map holds exactly the twelve channel keys. `MotionOf` reads the sample back out of it. Every key falls into a fixed-scale category. |
| DeviceMotion.NormalizeRecent | swift/classes/DeviceMotion.swift:496-545 | Every channel of the sample gets its percentage recorded and a smoothed value equal to its new window's mean. Channels absent from the sample, the ranges and the window size are unchanged. |
| DeviceMotion.Update | swift/classes/DeviceMotion.swift:425-427 | `populateRanges` runs before `normalizeRecent`. The invariant is kept, the ranges are `PopulateRanges`, and every reading lies within its new range. |
| DeviceMotion.Ingest | swift/classes/DeviceMotion.swift:422-427 | The sample replaces the recent readings, the statistics are updated from it, and the invariant is kept. |
| DeviceMotion.IngestRecords | swift/classes/DeviceMotion.swift:520-542 | A sampled channel's new window starts with the percentage computed against the just-widened range. It continues with a prefix of the old window and has length `min(old + 1, size)`. The stored value is its mean. |
| DeviceMotion.IngestKeepsOthers | swift/classes/DeviceMotion.swift:466-498 | A channel absent from the sample keeps its range, window and smoothed value. |
| DeviceMotion.CaptureData | swift/classes/DeviceMotion.swift:405-429 | The tick count rises by one. A nil sample changes nothing else. A real sample yields recent readings equal to the sample. The statistics are exactly one `populateRanges` followed by one `normalizeRecent` over those readings (`Update`), so each window gains exactly one percentage. All twelve channels get ranges and smoothed values, and the state still satisfies the invariant. |
| DeviceMotion.CaptureAll | swift/classes/DeviceMotion.swift:248-251 | Any run of handler calls keeps the invariant, so low ≤ recent ≤ high holds for every channel that has a range. After `clearDataHighsAndLows` a channel can keep a recent reading but have no range. The tick count rises by the run's length. If every tick carries a sample, each captured channel's window grows by one per tick until it holds the window size. |
| DeviceMotion.CapturedWindowsFill | swift/classes/DeviceMotion.swift:532-536 | From a fresh pipeline, after n ticks that all carry a sample, each captured channel's window holds min(n, window size) percentages. |
| DeviceMotion.ClearDataHighsAndLows | swift/classes/DeviceMotion.swift:284-292 | Low, high, smoothed values and windows are emptied. Recent readings, tick count and window size are kept. The invariant is kept. |
| DeviceMotion.ClearDataAll | swift/classes/DeviceMotion.swift:274-280 | Like `clearDataHighsAndLows`, but the recent readings are emptied too. |
| DeviceMotion.ResetThenReplay | swift/classes/DeviceMotion.swift:284-292 | After a reset, replaying any run of ticks gives the same ranges, windows and smoothed values as a fresh pipeline replaying that run. |
| DeviceMotion.NormalizedValue | swift/classes/DeviceMotion.swift:567-570 | Corrected accessor. It returns 0.0 before the first tick and 0.0 for a channel with no smoothed value. Otherwise, on a state satisfying the invariant, it returns the stored smoothed value, which is the mean of the channel's window and so lies between the window's minimum and maximum. |
| DeviceMotion.NormalizedValueAsWritten | swift/classes/DeviceMotion.swift:567-570 | As written, the read traps exactly when the tick count is ≥ 1 and the channel has no smoothed value. Otherwise it agrees with the corrected accessor. |
| DeviceMotion.NilFirstTickTraps | swift/classes/DeviceMotion.swift:407-413 | A first tick without a sample opens the guard, so reading `ATTITUDE_ROLL` traps. The corrected accessor gives 0.0. |
| DeviceMotion.ResetTraps | swift/classes/DeviceMotion.swift:284-292 | After a capture and then `clearDataHighsAndLows`, every read traps. |
| DeviceMotion.CapturedChannelsRead | swift/classes/DeviceMotion.swift:567-570 | After a real sample, every captured channel reads without trapping, and the value is its window's mean. |
| DeviceMotion.RangeBasedScenario | swift/classes/DeviceMotion.swift:464-542 | The range-based branch, which no key built by `populateRecent` reaches, so this is not a trace `captureData` can produce. A key `X` fed 2, 5, 3 with window size 2 has ranges (2,2), (2,5), (2,5) and windows [0], [1, 0], [1/3, 1]. Its smoothed value is 2/3. |
| DeviceMotion.EvictingStep | swift/classes/DeviceMotion.swift:518-534 | The range-based branch, on a key `captureData` never produces. From any state whose range for `X` is (2,5) and whose window is [1, 0] (size 2), reading 3 keeps the range and stores 1/3 at the front of the window. The oldest entry is evicted, leaving [1/3, 1]. |

## Left out

- Platform plumbing is not modelled: CoreMotion, UIKit, proximity and orientation reads, `start` / `stop`, and the operation-queue handler. The handler's successive calls appear only as `CaptureAll`.
- The update interval that `init`'s device-model switch picks is not modelled; it is a timing concern. The window size it picks is modelled by `DeviceMotion.WindowSizeFor`. `UIDevice.modelDetail`, which supplies the model string, is not part of this model, so the string is a parameter.
- DeviceMotion.Init: requires a window size ≥ 1. The field's initial value is the sentinel −1, which `init` always replaces. With −1 every window would be emptied and the mean would be 0/0 (NaN).
- `status`, `description`, `dump` and `stringForParameterField` are not modelled. They assemble strings through `Double.format`, a printf-style call whose behaviour is not visible here. The status line prints the magnitude with `format("1.3")`, rounded to three decimals. `Sign.SignStringRoundTrip` is about the sign character and the exact magnitude, not the rounded text.
- The `Log.assert` diagnostic at :529 and `Log.nsError` at :409 only log. The diagnostic's condition is stated as `Normalizer.DiagnosticHolds`.
- IEEE-754 behaviour (NaN, infinities, signed zero, rounding) is not modelled. Values are exact reals.
- The tick counter is unbounded. Swift's `Int` is word-sized: `captureIteration += 1` (:407) traps after 2^63 − 1 ticks on 64-bit devices, and after 2^31 − 1 ticks on the 32-bit devices the switch at :190-191 lists (iPhone 4, 4s, 5, 5c).
- RangeTracker.TrackValue: the two dictionaries `dataRangeLow` and `dataRangeHigh` are modelled as one map of (low, high) pairs. Swift's comparison of a value against a missing high entry is not modelled. That case cannot arise, because both entries are always written together.
- The code runs `normalizeRecent` over the sample's keys in dictionary order. The model has no loop method for it, because each key's update reads and writes only that key's entries. `populateRanges`, which has the same shape, is shown order-independent by `PopulateRangesInOrder`.
- The public properties `attitude`, `rotationRate`, `gravity` and `userAcceleration` (:47-50) are not part of `State`. `captureData` writes the sample into them (:415-418), and `clearDataAll` (:278) does not clear them, so after a reset the Swift object still exposes the last sample. The pipeline's outputs are unaffected: `populateRecent` reads the properties right after they are written, and `DeviceMotion.PopulateRecent` takes the sample directly.
- Concurrency is not modelled. The handler runs on an operation queue (:239-251), while the UI reads the maps and may call the public `clearDataHighsAndLows` and `clearDataAll` at any time. The model assumes resets run between ticks. A reset that landed between `populateRanges` and `normalizeRecent` would leave windows without ranges, which the invariant `Valid` rules out.
- The magnetometer channels are compiled out (`#if false`) and are not modelled. Neither are `Log.swift`, the orientation, accuracy and alert extensions, `Double.format`, or the Objective-C headers.

## Findings

| source | as written | input that shows it | evidently intended | confidence | as-written member | corrected member |
|---|---|---|---|---|---|---|
| swift/classes/DeviceMotion.swift:567-570 | `normalizedValue` returns 0.0 only while `captureIteration < 1`, and otherwise force-unwraps `dataNormalized[key]`. `captureData` counts a tick before it discards a nil sample (:407-413), and `clearDataHighsAndLows` empties `dataNormalized` without resetting the count (:284-292). | A first tick whose sample is nil, then a read of `nAttitudeRoll`. Or a capture, then `clearDataHighsAndLows`, then any read. Either way the entry is missing and the unwrap traps. | Return 0.0 when the channel has no smoothed value yet, as the guard intends before the first capture. | medium, not executed | DeviceMotion.NormalizedValueAsWritten (witnessed by DeviceMotion.NilFirstTickTraps and DeviceMotion.ResetTraps) | DeviceMotion.NormalizedValue |
