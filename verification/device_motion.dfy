/** The sample-processing pipeline of `DeviceMotion`: one immutable state
    record holding the most recent reading of every channel, the running
    range of every channel, and every channel's hysteresis window and
    smoothed value, with the capture step and the resets as pure updates. */
module DeviceMotion {
  import opened Numeric
  import opened Hysteresis
  import opened RangeTracker
  import opened Normalizer

  /** The twelve channels `populateRecent` fills. */
  const KeyAttitudeRoll: string := "ATTITUDE_ROLL"
  const KeyAttitudePitch: string := "ATTITUDE_PITCH"
  const KeyAttitudeYaw: string := "ATTITUDE_YAW"
  const KeyRotationRateX: string := "ROTATION_RATE_X"
  const KeyRotationRateY: string := "ROTATION_RATE_Y"
  const KeyRotationRateZ: string := "ROTATION_RATE_Z"
  const KeyGravityX: string := "GRAVITY_X"
  const KeyGravityY: string := "GRAVITY_Y"
  const KeyGravityZ: string := "GRAVITY_Z"
  const KeyUserAccelerationX: string := "USER_ACCELERATION_X"
  const KeyUserAccelerationY: string := "USER_ACCELERATION_Y"
  const KeyUserAccelerationZ: string := "USER_ACCELERATION_Z"

  const CapturedKeys: set<string> := {
    KeyAttitudeRoll, KeyAttitudePitch, KeyAttitudeYaw,
    KeyRotationRateX, KeyRotationRateY, KeyRotationRateZ,
    KeyGravityX, KeyGravityY, KeyGravityZ,
    KeyUserAccelerationX, KeyUserAccelerationY, KeyUserAccelerationZ
  }

  /** The hysteresis window sizes `init` picks: 30 from the iPhone 6 on, 5
      for the older models it lists. */
  const WindowSizeIPhone6Onward: int := 30
  const WindowSizePriorToIPhone6: int := 5

  /** The model strings `init` treats as older hardware, spelled as the
      switch spells them. */
  const PriorToIPhone6Models: set<string> := {
    "iPhone 4", "iPhone 4c", "iPhone 4s", "iPhone5", "iPhone 5c", "iPhone 5s"
  }

  datatype Option<T> = None | Some(value: T)

  /** One device-motion sample: attitude, rotation rate, gravity and user
      acceleration, three axes each. */
  datatype Motion = Motion(
    roll: real, pitch: real, yaw: real,
    rotationX: real, rotationY: real, rotationZ: real,
    gravityX: real, gravityY: real, gravityZ: real,
    accelerationX: real, accelerationY: real, accelerationZ: real)

  /** Everything derived from the readings since the last reset: the
      per-channel ranges, hysteresis windows and smoothed values, together
      with the window size fixed at construction. */
  datatype Stats = Stats(
    windowSize: int,
    ranges: Ranges<string>,
    normalized: map<string, real>,
    hysteresis: map<string, seq<real>>)

  /** The pipeline's state: the tick count, the most recent readings, and
      the statistics derived from them. */
  datatype State = State(iteration: int, recent: map<string, real>, stats: Stats)

  /** A usable window size, well-formed ranges, every window non-empty and
      within the size, and every smoothed value the mean of its window. */
  predicate ValidStats(st: Stats)
  {
    && st.windowSize >= 1
    && WellFormed(st.ranges)
    && st.normalized.Keys == st.hysteresis.Keys
    && st.hysteresis.Keys <= st.ranges.Keys
    && (forall k :: k in st.hysteresis ==> 1 <= |st.hysteresis[k]| <= st.windowSize)
    && (forall k :: k in st.hysteresis ==> st.normalized[k] == Mean(st.hysteresis[k]))
  }

  /** What every reachable state satisfies: valid statistics, and every
      recent reading inside its channel's range. */
  predicate Valid(s: State)
  {
    && s.iteration >= 0
    && ValidStats(s.stats)
    && forall k :: k in s.recent && k in s.stats.ranges ==>
      s.stats.ranges[k].low <= s.recent[k] <= s.stats.ranges[k].high
  }

  /** A fresh pipeline with the given window size. */
  function Init(windowSize: int): (s: State)
    requires windowSize >= 1
    ensures Valid(s)
    ensures s.iteration == 0 && s.recent == map[]
    ensures s.stats == Stats(windowSize, map[], map[], map[])
  {
    State(0, map[], Stats(windowSize, map[], map[], map[]))
  }

  /** `init`'s device-model switch: the window size it configures for a
      device reporting `model`. */
  function WindowSizeFor(model: string): (n: int)
    ensures n >= 1
    ensures n == WindowSizePriorToIPhone6 <==> model in PriorToIPhone6Models
    ensures n == WindowSizeIPhone6Onward <==> model !in PriorToIPhone6Models
  {
    if model in PriorToIPhone6Models then WindowSizePriorToIPhone6 else WindowSizeIPhone6Onward
  }

  /** A pipeline as `init` leaves it on a device reporting `model`. */
  function Configure(model: string): (s: State)
    ensures Valid(s)
    ensures s.iteration == 0 && s.recent == map[]
    ensures s.stats.windowSize in {WindowSizePriorToIPhone6, WindowSizeIPhone6Onward}
    ensures s.stats == Stats(WindowSizeFor(model), map[], map[], map[])
  {
    Init(WindowSizeFor(model))
  }

  /** `populateRecent`: the sample as a map from channel key to reading. */
  function PopulateRecent(m: Motion): (r: map<string, real>)
    ensures r.Keys == CapturedKeys
    ensures MotionOf(r) == m
    ensures forall k :: k in r ==> CategoryOf(k) != Other
  {
    map[
      KeyAttitudeRoll := m.roll, KeyAttitudePitch := m.pitch, KeyAttitudeYaw := m.yaw,
      KeyRotationRateX := m.rotationX, KeyRotationRateY := m.rotationY, KeyRotationRateZ := m.rotationZ,
      KeyGravityX := m.gravityX, KeyGravityY := m.gravityY, KeyGravityZ := m.gravityZ,
      KeyUserAccelerationX := m.accelerationX, KeyUserAccelerationY := m.accelerationY,
      KeyUserAccelerationZ := m.accelerationZ]
  }

  /** Reads a sample back out of a map holding every captured channel. */
  function MotionOf(recent: map<string, real>): Motion
    requires CapturedKeys <= recent.Keys
  {
    Motion(
      recent[KeyAttitudeRoll], recent[KeyAttitudePitch], recent[KeyAttitudeYaw],
      recent[KeyRotationRateX], recent[KeyRotationRateY], recent[KeyRotationRateZ],
      recent[KeyGravityX], recent[KeyGravityY], recent[KeyGravityZ],
      recent[KeyUserAccelerationX], recent[KeyUserAccelerationY], recent[KeyUserAccelerationZ])
  }

  /** Lookups with the defaults `normalizeRecent` applies to a missing entry:
      an empty window, a 0.0 bound. */
  function WindowOf(st: Stats, key: string): seq<real>
  {
    if key in st.hysteresis then st.hysteresis[key] else []
  }

  function LowOf(st: Stats, key: string): real
  {
    if key in st.ranges then st.ranges[key].low else 0.0
  }

  function HighOf(st: Stats, key: string): real
  {
    if key in st.ranges then st.ranges[key].high else 0.0
  }

  /** The channel's window once the instant percentage of its recent reading
      is recorded. */
  function NextWindow(st: Stats, recent: map<string, real>, key: string): (w: seq<real>)
    requires key in recent
    requires st.windowSize >= 1
    ensures |w| >= 1
  {
    Record(WindowOf(st, key), Percentage(key, recent[key], LowOf(st, key), HighOf(st, key)), st.windowSize)
  }

  /** `normalizeRecent`: every channel of the recent sample gets its instant
      percentage recorded at the front of its window, and its smoothed value
      becomes the window's mean; other channels, the ranges and the window
      size are untouched. */
  function NormalizeRecent(st: Stats, recent: map<string, real>): (r: Stats)
    requires st.windowSize >= 1
    ensures r == st.(hysteresis := r.hysteresis, normalized := r.normalized)
    ensures r.hysteresis.Keys == st.hysteresis.Keys + recent.Keys
    ensures r.normalized.Keys == st.normalized.Keys + recent.Keys
    ensures forall k :: k in recent ==>
      r.hysteresis[k] == NextWindow(st, recent, k) && r.normalized[k] == Mean(NextWindow(st, recent, k))
    ensures forall k :: k in st.hysteresis && k !in recent ==> r.hysteresis[k] == st.hysteresis[k]
    ensures forall k :: k in st.normalized && k !in recent ==> r.normalized[k] == st.normalized[k]
  {
    var hysteresis := map k | k in st.hysteresis.Keys + recent.Keys ::
      if k in recent then NextWindow(st, recent, k) else st.hysteresis[k];
    var normalized := map k | k in st.normalized.Keys + recent.Keys ::
      if k in recent then Mean(NextWindow(st, recent, k)) else st.normalized[k];
    st.(hysteresis := hysteresis, normalized := normalized)
  }

  /** `populateRanges` followed by `normalizeRecent` on the statistics: the
      ranges are widened first, so every channel is normalised against its
      just-widened range. */
  function Update(st: Stats, recent: map<string, real>): (r: Stats)
    requires ValidStats(st)
    ensures ValidStats(r)
    ensures r.windowSize == st.windowSize
    ensures r.ranges == PopulateRanges(st.ranges, recent)
    ensures r.normalized.Keys == st.normalized.Keys + recent.Keys
    ensures forall k :: k in recent ==> r.ranges[k].low <= recent[k] <= r.ranges[k].high
  {
    var t := st.(ranges := PopulateRanges(st.ranges, recent));
    PopulateRangesWidens(st.ranges, recent);
    NormalizeKeepsValid(t, recent);
    NormalizeRecent(t, recent)
  }

  lemma NormalizeKeepsValid(t: Stats, recent: map<string, real>)
    requires t.windowSize >= 1
    requires WellFormed(t.ranges)
    requires t.normalized.Keys == t.hysteresis.Keys
    requires t.hysteresis.Keys + recent.Keys <= t.ranges.Keys
    requires forall k :: k in t.hysteresis ==> 1 <= |t.hysteresis[k]| <= t.windowSize
    requires forall k :: k in t.hysteresis ==> t.normalized[k] == Mean(t.hysteresis[k])
    ensures ValidStats(NormalizeRecent(t, recent))
  {
    var r := NormalizeRecent(t, recent);
    forall k | k in r.hysteresis
      ensures 1 <= |r.hysteresis[k]| <= r.windowSize
      ensures r.normalized[k] == Mean(r.hysteresis[k])
    {
      if k in recent {
        assert |WindowOf(t, k)| <= t.windowSize;
      }
    }
  }

  /** Takes in one recent sample: it replaces the recent readings and updates
      the statistics from them. */
  function Ingest(s: State, recent: map<string, real>): (r: State)
    requires Valid(s)
    ensures Valid(r)
    ensures r.iteration == s.iteration && r.recent == recent
    ensures r.stats.windowSize == s.stats.windowSize
    ensures r.stats.ranges == PopulateRanges(s.stats.ranges, recent)
    ensures r.stats.normalized.Keys == s.stats.normalized.Keys + recent.Keys
  {
    State(s.iteration, recent, Update(s.stats, recent))
  }

  /** What `Ingest` does to one channel of the sample: its window gains, at
      the front, the percentage computed against the just-widened range, keeps
      the newest of its older entries up to the window size, and its smoothed
      value is the new window's mean. */
  lemma IngestRecords(s: State, recent: map<string, real>, k: string)
    requires Valid(s)
    requires k in recent
    ensures var r := Ingest(s, recent).stats;
      && k in r.hysteresis
      && r.hysteresis[k][0] == Percentage(k, recent[k], r.ranges[k].low, r.ranges[k].high)
      && r.hysteresis[k][1..] <= WindowOf(s.stats, k)
      && |r.hysteresis[k]| == Occupancy(|WindowOf(s.stats, k)| + 1, s.stats.windowSize)
      && r.normalized[k] == Mean(r.hysteresis[k])
  {
    var t := s.stats.(ranges := PopulateRanges(s.stats.ranges, recent));
    var r := Ingest(s, recent).stats;
    assert r == NormalizeRecent(t, recent);
    var w := WindowOf(s.stats, k);
    assert WindowOf(t, k) == w;
    assert |w| <= s.stats.windowSize;
    var p := Percentage(k, recent[k], t.ranges[k].low, t.ranges[k].high);
    assert r.hysteresis[k] == Record(w, p, s.stats.windowSize);
    RecordShape(w, p, s.stats.windowSize);
  }

  /** Channels absent from the sample keep their range, window and smoothed
      value. */
  lemma IngestKeepsOthers(s: State, recent: map<string, real>, k: string)
    requires Valid(s)
    requires k !in recent
    ensures var r := Ingest(s, recent).stats;
      && (k in r.ranges <==> k in s.stats.ranges)
      && (k in s.stats.ranges ==> r.ranges[k] == s.stats.ranges[k])
      && WindowOf(r, k) == WindowOf(s.stats, k)
      && (k in r.normalized <==> k in s.stats.normalized)
      && (k in s.stats.normalized ==> r.normalized[k] == s.stats.normalized[k])
  {
  }

  /** `captureData`: counts the tick, ignores a missing sample, and otherwise
      ingests the sample's readings. */
  function CaptureData(s: State, dm: Option<Motion>): (r: State)
    requires Valid(s)
    ensures Valid(r)
    ensures r.iteration == s.iteration + 1
    ensures r.stats.windowSize == s.stats.windowSize
    ensures dm.None? ==> r == s.(iteration := s.iteration + 1)
    ensures dm.Some? ==>
      && r.recent.Keys == CapturedKeys
      && MotionOf(r.recent) == dm.value
      && CapturedKeys <= r.stats.normalized.Keys
      && r.stats.ranges == PopulateRanges(s.stats.ranges, r.recent)
      && r.stats == Update(s.stats, r.recent)
  {
    var counted := s.(iteration := s.iteration + 1);
    match dm
    case None => counted
    case Some(m) => Ingest(counted, PopulateRecent(m))
  }

  /** Every captured channel's window in `st` holds `n` more recordings
      than in `base`, up to the window size. */
  predicate WindowsFilled(base: Stats, st: Stats, n: nat)
  {
    && base.windowSize >= 0
    && forall k :: k in CapturedKeys ==>
      |WindowOf(st, k)| == Occupancy(|WindowOf(base, k)| + n, base.windowSize)
  }

  /** Every tick of the run carried a sample. */
  predicate AllSampled(dms: seq<Option<Motion>>)
  {
    forall i :: 0 <= i < |dms| ==> dms[i].Some?
  }

  /** A run of sensor ticks, delivered one after another. When every tick
      carried a sample, each captured channel's window takes one recording
      per tick until it is full. */
  function CaptureAll(s: State, dms: seq<Option<Motion>>): (r: State)
    requires Valid(s)
    ensures Valid(r)
    ensures r.iteration == s.iteration + |dms|
    ensures r.stats.windowSize == s.stats.windowSize
    ensures AllSampled(dms) ==> WindowsFilled(s.stats, r.stats, |dms|)
    decreases |dms|
  {
    if |dms| == 0 then s
    else
      var earlier := dms[..|dms| - 1];
      var prev := CaptureAll(s, earlier);
      var d := dms[|dms| - 1];
      // Both branches capture the last tick; the first also carries the
      // window count forward.
      if AllSampled(dms) then
        assert AllSampled(earlier);
        var m := d.value;
        assert d == Some(m);
        CaptureFillsAll(s, prev, m, |earlier|);
        CaptureData(prev, Some(m))
      else
        CaptureData(prev, d)
  }

  /** One update grows the window of each channel of the sample by one
      entry, up to the window size. */
  lemma UpdateGrowsWindow(st: Stats, recent: map<string, real>, k: string)
    requires ValidStats(st)
    requires k in recent
    ensures |WindowOf(Update(st, recent), k)| == Occupancy(|WindowOf(st, k)| + 1, st.windowSize)
  {
    var s := State(0, map[], st);
    assert Ingest(s, recent).stats == Update(st, recent);
    IngestRecords(s, recent, k);
  }

  /** One channel's share of `UpdateFillsAll`. */
  lemma UpdateFillsOne(base: Stats, st: Stats, recent: map<string, real>, j: nat, k: string)
    requires ValidStats(st)
    requires k in recent
    requires st.windowSize == base.windowSize
    requires |WindowOf(st, k)| == Occupancy(|WindowOf(base, k)| + j, base.windowSize)
    ensures |WindowOf(Update(st, recent), k)| == Occupancy(|WindowOf(base, k)| + (j + 1), base.windowSize)
  {
    UpdateGrowsWindow(st, recent, k);
    OccupancyStep(|WindowOf(base, k)| + j, base.windowSize);
  }

  /** An update whose sample covers every captured channel grows each of
      their windows by one recording. */
  lemma UpdateFillsAll(base: Stats, st: Stats, recent: map<string, real>, j: nat)
    requires ValidStats(st)
    requires CapturedKeys <= recent.Keys
    requires st.windowSize == base.windowSize
    requires WindowsFilled(base, st, j)
    ensures WindowsFilled(base, Update(st, recent), j + 1)
  {
    forall k | k in CapturedKeys
      ensures |WindowOf(Update(st, recent), k)| == Occupancy(|WindowOf(base, k)| + (j + 1), base.windowSize)
    {
      UpdateFillsOne(base, st, recent, j, k);
    }
  }

  /** The step of `CaptureAll`'s window count: after `j` sampled ticks from
      `s`, one more sample grows every captured channel's window by one
      recording. */
  lemma CaptureFillsAll(s: State, prev: State, m: Motion, j: nat)
    requires Valid(prev)
    requires prev.stats.windowSize == s.stats.windowSize
    requires WindowsFilled(s.stats, prev.stats, j)
    ensures WindowsFilled(s.stats, CaptureData(prev, Some(m)).stats, j + 1)
  {
    var r := CaptureData(prev, Some(m));
    UpdateFillsAll(s.stats, prev.stats, r.recent, j);
  }

  /** From a fresh pipeline, after n ticks that all carried a sample, every
      captured channel's window holds all n percentages until it is full,
      and exactly the window size from then on. */
  lemma CapturedWindowsFill(size: int, dms: seq<Option<Motion>>, k: string)
    requires size >= 1
    requires AllSampled(dms)
    requires k in CapturedKeys
    ensures |WindowOf(CaptureAll(Init(size), dms).stats, k)| == Occupancy(|dms|, size)
  {
  }

  /** `clearDataHighsAndLows`: forgets ranges, windows and smoothed values,
      keeping the recent readings, the tick count and the window size. */
  function ClearDataHighsAndLows(s: State): (r: State)
    ensures r.stats == Stats(s.stats.windowSize, map[], map[], map[])
    ensures r.recent == s.recent && r.iteration == s.iteration
    ensures Valid(s) ==> Valid(r)
  {
    s.(stats := s.stats.(ranges := map[], normalized := map[], hysteresis := map[]))
  }

  /** `clearDataAll`: additionally forgets the recent readings. */
  function ClearDataAll(s: State): (r: State)
    ensures r.recent == map[]
    ensures r.stats == Stats(s.stats.windowSize, map[], map[], map[])
    ensures r.iteration == s.iteration
    ensures Valid(s) ==> Valid(r)
  {
    ClearDataHighsAndLows(s.(recent := map[]))
  }

  /** The accessor with the evidently intended behaviour: 0.0 before the
      first tick, 0.0 for a channel with no smoothed value, and otherwise the
      stored smoothed value: the mean of the channel's window, so it lies
      within that window. */
  function NormalizedValue(s: State, key: string): (v: real)
    ensures s.iteration < 1 ==> v == 0.0
    ensures key !in s.stats.normalized ==> v == 0.0
    ensures Valid(s) && s.iteration >= 1 && key in s.stats.hysteresis ==>
      && v == Mean(s.stats.hysteresis[key])
      && SeqMin(s.stats.hysteresis[key]) <= v <= SeqMax(s.stats.hysteresis[key])
  {
    if s.iteration < 1 || key !in s.stats.normalized then 0.0 else s.stats.normalized[key]
  }

  /** The outcome of reading a dictionary entry with a force-unwrap. */
  datatype Read = Value(v: real) | Trap

  /** `normalizedValue` as written: 0.0 while the tick count is below one,
      otherwise a force-unwrapped read of the stored smoothed value, which
      traps when the channel has none. */
  function NormalizedValueAsWritten(s: State, key: string): (r: Read)
    ensures r.Trap? <==> s.iteration >= 1 && key !in s.stats.normalized
    ensures r.Value? ==> r.v == NormalizedValue(s, key)
  {
    if s.iteration < 1 then Value(0.0)
    else if key in s.stats.normalized then Value(s.stats.normalized[key])
    else Trap
  }

  /** The tick count also counts ticks that carried no sample, so a first
      tick without a sample leaves the guard open and the read traps. */
  lemma NilFirstTickTraps(windowSize: int)
    requires windowSize >= 1
    ensures NormalizedValueAsWritten(CaptureData(Init(windowSize), None), KeyAttitudeRoll).Trap?
    ensures NormalizedValue(CaptureData(Init(windowSize), None), KeyAttitudeRoll) == 0.0
  {
  }

  /** A reset empties the smoothed values but not the tick count, so any read
      after it traps until the next sample arrives. */
  lemma ResetTraps(s: State, m: Motion, key: string)
    requires Valid(s)
    ensures NormalizedValueAsWritten(ClearDataHighsAndLows(CaptureData(s, Some(m))), key).Trap?
  {
  }

  /** Once a sample has been captured, every captured channel reads without
      trapping, both accessors agree, and the value is the mean of the
      channel's window. */
  lemma CapturedChannelsRead(s: State, m: Motion, key: string)
    requires Valid(s)
    requires key in CapturedKeys
    ensures var r := CaptureData(s, Some(m));
      && key in r.stats.hysteresis
      && NormalizedValueAsWritten(r, key) == Value(NormalizedValue(r, key))
      && NormalizedValue(r, key) == Mean(r.stats.hysteresis[key])
  {
    var r := CaptureData(s, Some(m));
    assert key in r.stats.normalized;
  }

  /** Starting a new measurement session: after a reset, replaying any run of
      ticks yields the same ranges, windows and smoothed values as a fresh
      pipeline replaying the same run. */
  lemma {:induction false} ResetThenReplay(s: State, dms: seq<Option<Motion>>)
    requires Valid(s)
    ensures CaptureAll(ClearDataHighsAndLows(s), dms).stats == CaptureAll(Init(s.stats.windowSize), dms).stats
  {
    if |dms| > 0 {
      var earlier := dms[..|dms| - 1];
      var d := dms[|dms| - 1];
      ResetThenReplay(s, earlier);
      var reset := CaptureAll(ClearDataHighsAndLows(s), earlier);
      var anew := CaptureAll(Init(s.stats.windowSize), earlier);
      assert CaptureAll(ClearDataHighsAndLows(s), dms) == CaptureData(reset, d);
      assert CaptureAll(Init(s.stats.windowSize), dms) == CaptureData(anew, d);
    }
  }

  /** Ingesting a one-channel sample: the channel's range becomes the hull
      of its old range and the reading, and the percentage against that
      range enters its window. */
  lemma IngestOne(s: State, x: string, v: real)
    requires Valid(s)
    ensures var r := Ingest(s, map[x := v]).stats;
      var rg := Hull(s.stats.ranges, x, v);
      && r.ranges[x] == rg
      && r.hysteresis[x] == Record(WindowOf(s.stats, x), Percentage(x, v, rg.low, rg.high), s.stats.windowSize)
      && r.normalized[x] == Mean(r.hysteresis[x])
  {
    var recent := map[x := v];
    var t := s.stats.(ranges := PopulateRanges(s.stats.ranges, recent));
    assert WindowOf(t, x) == WindowOf(s.stats, x);
  }

  /** The range-based scenario below: channel `X` has range `rg` (none yet
      when `rg` is `None`) and window `w`, with a window size of two. */
  predicate ScenarioState(s: State, rg: Option<Range>, w: seq<real>)
  {
    && Valid(s)
    && s.stats.windowSize == 2
    && (rg.None? ==> "X" !in s.stats.ranges)
    && (rg.Some? ==> "X" in s.stats.ranges && s.stats.ranges["X"] == rg.value)
    && WindowOf(s.stats, "X") == w
  }

  /** The scenario's states after one, two and three readings. */
  function ScenarioAfterOne(): State
  {
    Ingest(Init(2), map["X" := 2.0])
  }

  function ScenarioAfterTwo(): State
  {
    Ingest(ScenarioAfterOne(), map["X" := 5.0])
  }

  function ScenarioAfterThree(): State
  {
    Ingest(ScenarioAfterTwo(), map["X" := 3.0])
  }

  lemma ScenarioFirst()
    ensures ScenarioState(ScenarioAfterOne(), Some(Range(2.0, 2.0)), [0.0])
  {
    IngestOne(Init(2), "X", 2.0);
    assert CategoryOf("X") == Other;
  }

  lemma ScenarioSecond()
    ensures ScenarioState(ScenarioAfterTwo(), Some(Range(2.0, 5.0)), [1.0, 0.0])
  {
    ScenarioFirst();
    IngestOne(ScenarioAfterOne(), "X", 5.0);
    assert CategoryOf("X") == Other;
    assert Percentage("X", 5.0, 2.0, 5.0) == 1.0;
  }

  lemma ScenarioThird()
    ensures ScenarioState(ScenarioAfterThree(), Some(Range(2.0, 5.0)), [1.0 / 3.0, 1.0])
  {
    ScenarioSecond();
    EvictingStep(ScenarioAfterTwo());
  }

  /** The third reading of the scenario, from any state that matches the
      scenario after two readings. */
  lemma EvictingStep(s: State)
    requires ScenarioState(s, Some(Range(2.0, 5.0)), [1.0, 0.0])
    ensures ScenarioState(Ingest(s, map["X" := 3.0]), Some(Range(2.0, 5.0)), [1.0 / 3.0, 1.0])
  {
    IngestOne(s, "X", 3.0);
    assert CategoryOf("X") == Other;
    assert Percentage("X", 3.0, 2.0, 5.0) == 1.0 / 3.0;
    RecordEvictsOldest([1.0, 0.0], 1.0 / 3.0, 2);
  }

  /** A range-based channel `X` fed 2.0, 5.0, 3.0 with a window of two: the
      range goes (2, 2), (2, 5), (2, 5), the percentages are 0, 1 and 1/3,
      the first is evicted, and the smoothed value is 2/3. */
  lemma RangeBasedScenario()
    ensures ScenarioState(ScenarioAfterOne(), Some(Range(2.0, 2.0)), [0.0])
    ensures ScenarioState(ScenarioAfterTwo(), Some(Range(2.0, 5.0)), [1.0, 0.0])
    ensures ScenarioState(ScenarioAfterThree(), Some(Range(2.0, 5.0)), [1.0 / 3.0, 1.0])
    ensures ScenarioAfterThree().stats.normalized["X"] == 2.0 / 3.0
  {
    ScenarioFirst();
    ScenarioSecond();
    ScenarioThird();
    MeanOfTwo(1.0 / 3.0, 1.0);
  }
}
