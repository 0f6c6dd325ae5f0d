/** The running low / high of every channel since the last reset
    (`dataRangeLow` and `dataRangeHigh`, here one map to a `Range` pair)
    and the update `populateRanges` applies for each value of the most
    recent sample. */
module RangeTracker {
  import opened Numeric

  datatype Range = Range(low: real, high: real)

  type Ranges<K> = map<K, Range>

  /** No tracked channel has its low above its high. */
  predicate WellFormed<K>(r: Ranges<K>)
  {
    forall k :: k in r ==> r[k].low <= r[k].high
  }

  /** The smallest range holding both the old range of `key` and the value
      `v` (just `v` on a first sighting): the reference
      `populateRanges`' if / else-if chain is measured against. */
  function Hull<K>(r: Ranges<K>, key: K, v: real): Range
  {
    if key in r then Range(Min(r[key].low, v), Max(r[key].high, v)) else Range(v, v)
  }

  /** One step of `populateRanges` for `key` with value `v`: the first sighting
      seeds low and high; afterwards a single if / else-if chain either lowers
      the low or raises the high, never both. On a well-formed range the chain
      gives the hull, so it agrees with independent min / max updates. */
  function TrackValue<K>(r: Ranges<K>, key: K, v: real): (r': Ranges<K>)
    requires WellFormed(r)
    ensures WellFormed(r')
    ensures r'.Keys == r.Keys + {key}
    ensures r'[key] == Hull(r, key, v)
    ensures r'[key].low <= v <= r'[key].high
    ensures key in r && r[key].low <= v <= r[key].high ==> r' == r
    ensures forall k :: k in r && k != key ==> r'[k] == r[k]
  {
    if key !in r then r[key := Range(v, v)]
    else if v < r[key].low then r[key := r[key].(low := v)]
    else if v > r[key].high then r[key := r[key].(high := v)]
    else r
  }

  /** `populateRanges`: every channel of the most recent sample has its range
      stretched to the hull of its old range and its new value; channels
      absent from the sample keep their ranges. */
  function PopulateRanges<K>(r: Ranges<K>, recent: map<K, real>): (r': Ranges<K>)
    requires WellFormed(r)
    ensures WellFormed(r')
    ensures r'.Keys == r.Keys + recent.Keys
    ensures forall k :: k in recent ==> r'[k] == Hull(r, k, recent[k])
    ensures forall k :: k in r && k !in recent ==> r'[k] == r[k]
  {
    map k | k in r.Keys + recent.Keys ::
      if k in recent then TrackValue(r, k, recent[k])[k] else r[k]
  }

  /** Ranges never lose an observed extreme: each channel of the sample lies
      inside its new range, a first sighting seeds both ends with the value,
      and ranges only widen. */
  lemma PopulateRangesWidens<K>(r: Ranges<K>, recent: map<K, real>)
    requires WellFormed(r)
    ensures var r' := PopulateRanges(r, recent);
      && (forall k :: k in recent ==> r'[k].low <= recent[k] <= r'[k].high)
      && (forall k :: k in recent && k !in r ==> r'[k] == Range(recent[k], recent[k]))
      && (forall k :: k in r ==> r'[k].low <= r[k].low && r[k].high <= r'[k].high)
  {
  }

  /** `populateRanges` walks the sample's dictionary in no fixed order; tracking
      the channels one at a time, in any order, gives `PopulateRanges`. */
  method PopulateRangesInOrder<K>(r: Ranges<K>, recent: map<K, real>) returns (r': Ranges<K>)
    requires WellFormed(r)
    ensures r' == PopulateRanges(r, recent)
  {
    r' := r;
    var todo := recent.Keys;
    while todo != {}
      invariant todo <= recent.Keys
      invariant TrackedExcept(r, recent, todo, r')
      decreases todo
    {
      var k :| k in todo;
      TrackOne(r, recent, todo, r', k);
      r' := TrackValue(r', k, recent[k]);
      todo := todo - {k};
    }
    TrackedAll(r, recent, r');
  }

  /** `cur` is `r` with every channel of `recent` outside `todo` tracked. */
  predicate TrackedExcept<K>(r: Ranges<K>, recent: map<K, real>, todo: set<K>, cur: Ranges<K>)
  {
    && WellFormed(cur)
    && cur.Keys == r.Keys + (recent.Keys - todo)
    && (forall k :: k in cur && k !in recent.Keys - todo ==> cur[k] == r[k])
    && (forall k :: k in recent.Keys - todo ==> cur[k] == Hull(r, k, recent[k]))
  }

  lemma TrackOne<K>(r: Ranges<K>, recent: map<K, real>, todo: set<K>, cur: Ranges<K>, k: K)
    requires todo <= recent.Keys && k in todo
    requires TrackedExcept(r, recent, todo, cur)
    ensures TrackedExcept(r, recent, todo - {k}, TrackValue(cur, k, recent[k]))
  {
    assert Hull(cur, k, recent[k]) == Hull(r, k, recent[k]) by {
      assert k in cur <==> k in r;
      if k in r { assert cur[k] == r[k]; }
    }
  }

  lemma TrackedAll<K>(r: Ranges<K>, recent: map<K, real>, cur: Ranges<K>)
    requires WellFormed(r)
    requires TrackedExcept(r, recent, {}, cur)
    ensures cur == PopulateRanges(r, recent)
  {
    var spec := PopulateRanges(r, recent);
    assert forall k :: k in cur ==> cur[k] == spec[k];
  }
}
