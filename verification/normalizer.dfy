/** The instant percentage `normalizeRecent` computes for one channel before
    it enters the hysteresis window: a fixed scale per sensor category,
    chosen by the channel key's prefix, or the channel's tracked range for
    any other key. */
module Normalizer {
  import opened Numeric

  /** Key roots that select a category. */
  const KeyAttitude: string := "ATTITUDE"
  const KeyRotationRate: string := "ROTATION_RATE"
  const KeyGravity: string := "GRAVITY"
  const KeyUserAcceleration: string := "USER_ACCELERATION"

  /** `M_PI`, written to the precision of a Double. */
  const Pi: real := 3.141592653589793

  /** Relative maxima of each category; readings may go past them. */
  const MaxAttitude: real := Pi
  const MaxRotationRate: real := 30.0
  const MaxGravity: real := 1.0
  const MaxUserAcceleration: real := 4.0

  datatype Category = Attitude | RotationRate | Gravity | UserAcceleration | Other

  /** The first key root that prefixes `key`, in the order of `normalizeRecent`'s `hasPrefix` chain. No key
      has two of these roots, so the first match is the only match. */
  function CategoryOf(key: string): (c: Category)
    ensures c == Attitude <==> KeyAttitude <= key
    ensures c == RotationRate <==> KeyRotationRate <= key
    ensures c == Gravity <==> KeyGravity <= key
    ensures c == UserAcceleration <==> KeyUserAcceleration <= key
  {
    RootsDisjoint(key);
    if KeyAttitude <= key then Attitude
    else if KeyRotationRate <= key then RotationRate
    else if KeyGravity <= key then Gravity
    else if KeyUserAcceleration <= key then UserAcceleration
    else Other
  }

  /** The four key roots start with four different letters, so no key
      carries two of them. */
  lemma RootsDisjoint(key: string)
    ensures !(KeyAttitude <= key && KeyRotationRate <= key)
    ensures !(KeyAttitude <= key && KeyGravity <= key)
    ensures !(KeyAttitude <= key && KeyUserAcceleration <= key)
    ensures !(KeyRotationRate <= key && KeyGravity <= key)
    ensures !(KeyRotationRate <= key && KeyUserAcceleration <= key)
    ensures !(KeyGravity <= key && KeyUserAcceleration <= key)
  {
    if |key| > 0 {
      assert KeyAttitude <= key ==> key[0] == 'A';
      assert KeyRotationRate <= key ==> key[0] == 'R';
      assert KeyGravity <= key ==> key[0] == 'G';
      assert KeyUserAcceleration <= key ==> key[0] == 'U';
    }
  }

  /** The percentage for reading `v` of channel `key`, given the channel's
      current `low` and `high`. A zero-width range gives exactly 0. */
  function Percentage(key: string, v: real, low: real, high: real): (p: real)
    ensures CategoryOf(key) == RotationRate ==> p * MaxRotationRate == Abs(v)
    ensures CategoryOf(key) == UserAcceleration ==> p * MaxUserAcceleration == Abs(v)
    ensures CategoryOf(key) == Attitude ==> p * (2.0 * MaxAttitude) - MaxAttitude == v
    ensures CategoryOf(key) == Gravity ==> p * (2.0 * MaxGravity) - MaxGravity == v
    ensures CategoryOf(key) == Other && high - low > 0.0 ==> low + p * (high - low) == v
    ensures CategoryOf(key) == Other && high - low <= 0.0 ==> p == 0.0
  {
    match CategoryOf(key)
    case Attitude => (v + MaxAttitude) / (MaxAttitude * 2.0)
    case RotationRate => Abs(v) / MaxRotationRate
    case Gravity => (v + MaxGravity) / (MaxGravity * 2.0)
    case UserAcceleration => Abs(v) / MaxUserAcceleration
    case Other => if high - low > 0.0 then (v - low) / (high - low) else 0.0
  }

  /** The landmark readings of each fixed-scale category. */
  lemma Landmarks(key: string, low: real, high: real)
    ensures CategoryOf(key) == Attitude ==>
      && Percentage(key, 0.0, low, high) == 0.5
      && Percentage(key, -Pi, low, high) == 0.0
      && Percentage(key, Pi, low, high) == 1.0
    ensures CategoryOf(key) == RotationRate ==>
      && Percentage(key, 0.0, low, high) == 0.0
      && Percentage(key, 30.0, low, high) == 1.0
      && Percentage(key, -30.0, low, high) == 1.0
    ensures CategoryOf(key) == Gravity ==>
      && Percentage(key, 1.0, low, high) == 1.0
      && Percentage(key, -1.0, low, high) == 0.0
      && Percentage(key, 0.0, low, high) == 0.5
    ensures CategoryOf(key) == UserAcceleration ==>
      && Percentage(key, 4.0, low, high) == 1.0
      && Percentage(key, -4.0, low, high) == 1.0
  {
  }

  /** A fixed-scale percentage stays within [0, 1] exactly when the reading
      stays within its category's nominal span; beyond it the reading goes
      "over 100%" (or, for attitude and gravity, below 0). */
  lemma FixedScaleUnitRange(key: string, v: real, low: real, high: real)
    ensures var p := Percentage(key, v, low, high);
      && (CategoryOf(key) == Attitude ==> (0.0 <= p <= 1.0 <==> -MaxAttitude <= v <= MaxAttitude))
      && (CategoryOf(key) == RotationRate ==> 0.0 <= p && (p <= 1.0 <==> Abs(v) <= MaxRotationRate))
      && (CategoryOf(key) == Gravity ==> (0.0 <= p <= 1.0 <==> -MaxGravity <= v <= MaxGravity))
      && (CategoryOf(key) == UserAcceleration ==> 0.0 <= p && (p <= 1.0 <==> Abs(v) <= MaxUserAcceleration))
  {
  }

  /** For any other channel a reading inside a widened range maps into [0, 1],
      hitting 0 exactly at the low and 1 exactly at the high. */
  lemma RangeBasedUnitRange(key: string, v: real, low: real, high: real)
    requires CategoryOf(key) == Other
    requires low <= v <= high
    ensures var p := Percentage(key, v, low, high);
      && 0.0 <= p <= 1.0
      && (low < high ==> (p == 0.0 <==> v == low) && (p == 1.0 <==> v == high))
  {
    if low < high {
      assert Percentage(key, v, low, high) == (v - low) / (high - low);
      UnitQuotient(v - low, high - low);
    }
  }

  lemma UnitQuotient(x: real, d: real)
    requires d > 0.0 && 0.0 <= x <= d
    ensures 0.0 <= x / d <= 1.0
    ensures x / d == 0.0 <==> x == 0.0
    ensures x / d == 1.0 <==> x == d
  {
    assert x / d * d == x;
  }

  /** When `normalizeRecent`'s diagnostic (`percentage >= 0`) holds: always for
      rotation rate and user acceleration, for a range-based channel whose
      reading is not below its low, and for attitude and gravity exactly when
      the reading is not below minus the category's maximum. */
  lemma DiagnosticHolds(key: string, v: real, low: real, high: real)
    ensures var p := Percentage(key, v, low, high);
      && (CategoryOf(key) == RotationRate || CategoryOf(key) == UserAcceleration ==> p >= 0.0)
      && (CategoryOf(key) == Other && low <= v ==> p >= 0.0)
      && (CategoryOf(key) == Attitude ==> (p >= 0.0 <==> v >= -MaxAttitude))
      && (CategoryOf(key) == Gravity ==> (p >= 0.0 <==> v >= -MaxGravity))
  {
    var p := Percentage(key, v, low, high);
    if CategoryOf(key) == Other && low <= v && high - low > 0.0 {
      assert low + p * (high - low) == v;
      assert p * (high - low) >= 0.0;
    }
  }
}
