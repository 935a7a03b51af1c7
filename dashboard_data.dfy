/**
 * The data both dashboards keep and the counting rules they share: per-sensor
 * histories capped at `max_data_points` (append, then `pop(0)` when over the
 * cap), the anomaly/alert records they receive, the per-sensor anomaly tally
 * (a dict filled in first-seen order), and the alert timeline.
 *
 * A Python dict keyed by sensor id is a `map` plus the sequence of its keys in
 * insertion order; records are reduced to the keys the dashboards read, each
 * `Option` because `dict.get(key, default)` supplies a default when it is missing.
 */
module DashboardData {
  import opened Wrappers
  import opened Seqs

  /** `self.max_data_points`: the history cap and the anomaly-list cap. */
  const MaxDataPoints: nat := 100
  /** The alert list keeps its last 50 entries. */
  const MaxAlerts: nat := 50
  /** The id used when a record has no `sensor_id`. */
  const UnknownSensor: string := "unknown"

  /** A reading as the dashboards see it: `sensor_id`, `timestamp`, `value`, `is_anomaly_detected`. */
  datatype DashReading = DashReading(sensorId: Option<string>, timestamp: Option<int>, value: Option<real>,
                                     anomalyFlag: Option<bool>)

  /** An anomaly record: `sensor_id` and `consecutive_count`. */
  datatype AnomalyItem = AnomalyItem(sensorId: Option<string>, consecutiveCount: Option<int>)

  /** An alert record: `timestamp`, `severity`, `description`. */
  datatype AlertItem = AlertItem(timestamp: Option<int>, severity: Option<string>, description: Option<string>)

  /** The three parallel lists kept per sensor. */
  datatype History = History(timestamps: seq<int>, values: seq<real>, anomalies: seq<bool>)

  /** `self.sensor_data`: histories by sensor id, and the ids in insertion order. */
  datatype SensorTable = SensorTable(histories: map<string, History>, order: seq<string>)

  /** `self.network_stats`: the numeric entries of the statistics dict, by key. */
  type Stats = map<string, real>

  /** `network_stats.get(key, 0)`. */
  function Stat(stats: Stats, key: string): real {
    if key in stats then stats[key] else 0.0
  }

  const EmptyHistory: History := History([], [], [])
  const EmptyTable: SensorTable := SensorTable(map[], [])

  /** The three lists have one entry per data point, and at most `MaxDataPoints` of them. */
  predicate HistoryInv(h: History) {
    |h.timestamps| == |h.values| == |h.anomalies| <= MaxDataPoints
  }

  /** Keys listed once each, exactly the dict's keys, every history well formed and non-empty. */
  ghost predicate TableInv(t: SensorTable) {
    && Distinct(t.order)
    && (forall k :: k in t.histories <==> k in t.order)
    && (forall k :: k in t.histories ==> HistoryInv(t.histories[k]) && |t.histories[k].timestamps| > 0)
  }

  /**
   * Appending one data point and then, when `timestamps` is over the cap,
   * popping the first entry of all three lists. On a well-formed history this
   * is "keep the last `MaxDataPoints` points".
   */
  function Push(h: History, ts: int, v: real, a: bool): (r: History)
    ensures |h.timestamps| <= MaxDataPoints ==> r.timestamps == Last(h.timestamps + [ts], MaxDataPoints)
    ensures HistoryInv(h) ==> HistoryInv(r) && |r.timestamps| > 0
    ensures HistoryInv(h) ==> r.values == Last(h.values + [v], MaxDataPoints)
    ensures HistoryInv(h) ==> r.anomalies == Last(h.anomalies + [a], MaxDataPoints)
  {
    var t, vs, fs := h.timestamps + [ts], h.values + [v], h.anomalies + [a];
    if |t| > MaxDataPoints then History(t[1..], vs[1..], fs[1..]) else History(t, vs, fs)
  }

  /** The key a reading is filed under. */
  function ReadingKey(r: DashReading): string {
    r.sensorId.GetOr(UnknownSensor)
  }

  /** One iteration of the reading loop of `update_data`; `now` is `datetime.now()`. */
  function AfterReading(t: SensorTable, r: DashReading, now: int): (u: SensorTable)
    ensures u.histories.Keys == t.histories.Keys + {ReadingKey(r)}
  {
    var id := ReadingKey(r);
    var h := if id in t.histories then t.histories[id] else EmptyHistory;
    SensorTable(t.histories[id := Push(h, r.timestamp.GetOr(now), r.value.GetOr(0.0), r.anomalyFlag.GetOr(false))],
                if id in t.histories then t.order else t.order + [id])
  }

  /** The whole reading loop, in order. */
  function AfterReadings(t: SensorTable, rs: seq<DashReading>, now: int): SensorTable
    decreases |rs|
  {
    if rs == [] then t else AfterReadings(AfterReading(t, rs[0], now), rs[1..], now)
  }

  /**
   * What one reading does: the table stays well formed, the reading's sensor
   * gets the reading (with its defaults) as its newest point and keeps at most
   * the last `MaxDataPoints`, a new sensor is appended to the key order, and
   * every other sensor is untouched.
   */
  lemma AfterReadingFacts(t: SensorTable, r: DashReading, now: int)
    requires TableInv(t)
    ensures var u := AfterReading(t, r, now);
      var id := ReadingKey(r);
      var h := if id in t.histories then t.histories[id] else EmptyHistory;
      && TableInv(u)
      && u.histories[id].timestamps == Last(h.timestamps + [r.timestamp.GetOr(now)], MaxDataPoints)
      && u.histories[id].values == Last(h.values + [r.value.GetOr(0.0)], MaxDataPoints)
      && u.histories[id].anomalies == Last(h.anomalies + [r.anomalyFlag.GetOr(false)], MaxDataPoints)
      && u.order == (if id in t.histories then t.order else t.order + [id])
      && (forall k :: k in t.histories && k != id ==> u.histories[k] == t.histories[k])
  {
    var u := AfterReading(t, r, now);
    var id := ReadingKey(r);
    if id !in t.histories {
      assert id !in t.order;
      forall i, j | 0 <= i < j < |u.order|
        ensures u.order[i] != u.order[j]
      {
        if j == |t.order| {
          assert u.order[i] == t.order[i];
        }
      }
    }
  }

  /** The reading loop keeps the table well formed. */
  lemma {:induction false} AfterReadingsInv(t: SensorTable, rs: seq<DashReading>, now: int)
    requires TableInv(t)
    ensures TableInv(AfterReadings(t, rs, now))
    decreases |rs|
  {
    if rs != [] {
      AfterReadingFacts(t, rs[0], now);
      AfterReadingsInv(AfterReading(t, rs[0], now), rs[1..], now);
    }
  }

  /** A sensor that no reading of the batch names keeps its history. */
  lemma {:induction false} AfterReadingsUntouched(t: SensorTable, rs: seq<DashReading>, now: int, k: string)
    requires TableInv(t) && k in t.histories
    requires forall i :: 0 <= i < |rs| ==> ReadingKey(rs[i]) != k
    ensures k in AfterReadings(t, rs, now).histories
    ensures AfterReadings(t, rs, now).histories[k] == t.histories[k]
    decreases |rs|
  {
    if rs != [] {
      AfterReadingFacts(t, rs[0], now);
      AfterReadingsUntouched(AfterReading(t, rs[0], now), rs[1..], now, k);
    }
  }

  /** The ids a batch of readings is filed under. */
  function BatchKeys(rs: seq<DashReading>): set<string>
    decreases |rs|
  {
    if rs == [] then {} else {ReadingKey(rs[0])} + BatchKeys(rs[1..])
  }

  /** The batch adds exactly its own ids to the keys, and the old key order is a prefix of the new one. */
  lemma {:induction false} AfterReadingsKeys(t: SensorTable, rs: seq<DashReading>, now: int)
    ensures var u := AfterReadings(t, rs, now);
      && u.histories.Keys == t.histories.Keys + BatchKeys(rs)
      && |t.order| <= |u.order| && u.order[..|t.order|] == t.order
    decreases |rs|
  {
    if rs != [] {
      var t' := AfterReading(t, rs[0], now);
      AfterReadingsKeys(t', rs[1..], now);
      var u := AfterReadings(t', rs[1..], now);
      assert u.order[..|t.order|] == u.order[..|t'.order|][..|t.order|];
    }
  }

  // ----------------------------------------------------------------- keeping the tail

  /** `xs.extend(new)` then `xs = xs[-cap:]` when too long: a suffix of old ++ new, of at most `cap` entries. */
  lemma KeepTail<T>(old_: seq<T>, new_: seq<T>, cap: nat)
    ensures |Last(old_ + new_, cap)| == Min(|old_| + |new_|, cap)
    ensures old_ + new_ == (old_ + new_)[..|old_ + new_| - |Last(old_ + new_, cap)|] + Last(old_ + new_, cap)
    ensures |new_| <= cap ==> Last(old_ + new_, cap)[|Last(old_ + new_, cap)| - |new_|..] == new_
  {
    var s := old_ + new_;
    LastIsSuffix(s, cap);
    if |new_| <= cap {
      var r := Last(s, cap);
      assert r[|r| - |new_|..] == s[|s| - |new_|..];
      assert s[|s| - |new_|..] == new_;
    }
  }

  // ----------------------------------------------------------------- the per-sensor tally

  /** The key an anomaly is counted under. */
  function AnomalyKey(a: AnomalyItem): string {
    a.sensorId.GetOr(UnknownSensor)
  }

  /** `sensor_counts`: counts by key, and the keys in the order they were first seen. */
  datatype Tally = Tally(keys: seq<string>, count: map<string, nat>)

  /** `sensor_counts[k] = sensor_counts.get(k, 0) + 1`. */
  function Bump(t: Tally, k: string): Tally {
    if k in t.count then Tally(t.keys, t.count[k := t.count[k] + 1]) else Tally(t.keys + [k], t.count[k := 1])
  }

  /** The tally after counting `items` in order. */
  function TallyOf(items: seq<AnomalyItem>): Tally {
    if items == [] then Tally([], map[]) else Bump(TallyOf(items[..|items| - 1]), AnomalyKey(items[|items| - 1]))
  }

  /** How many of `items` are filed under `k`. */
  function Occurrences(items: seq<AnomalyItem>, k: string): (n: nat)
    ensures n <= |items|
  {
    if items == [] then 0
    else Occurrences(items[..|items| - 1], k) + (if AnomalyKey(items[|items| - 1]) == k then 1 else 0)
  }

  /** The sum of the counts of `keys` (Python `sum(sensor_counts.values())`). */
  function SumCounts(keys: seq<string>, count: map<string, nat>): nat {
    if keys == [] then 0
    else SumCounts(keys[..|keys| - 1], count) + (var k := keys[|keys| - 1]; if k in count then count[k] else 0)
  }

  ghost predicate TallyInv(t: Tally) {
    Distinct(t.keys) && forall k :: k in t.count <==> k in t.keys
  }

  /** The tally holds each key once, and every key's count is its number of occurrences. */
  lemma {:induction false} TallyExact(items: seq<AnomalyItem>)
    ensures TallyInv(TallyOf(items))
    ensures forall k :: k in TallyOf(items).count <==> Occurrences(items, k) > 0
    ensures forall k :: k in TallyOf(items).count ==> TallyOf(items).count[k] == Occurrences(items, k)
  {
    if items != [] {
      var init := items[..|items| - 1];
      TallyExact(init);
      var t := TallyOf(init);
      var k := AnomalyKey(items[|items| - 1]);
      if k !in t.count {
        var u := Bump(t, k);
        forall i, j | 0 <= i < j < |u.keys|
          ensures u.keys[i] != u.keys[j]
        {
          if j == |t.keys| {
            assert u.keys[i] == t.keys[i];
          }
        }
      }
    }
  }

  /** Changing the count of a key outside `keys` does not change their sum. */
  lemma {:induction false} SumIgnores(keys: seq<string>, count: map<string, nat>, k: string, v: nat)
    requires k !in keys
    ensures SumCounts(keys, count[k := v]) == SumCounts(keys, count)
  {
    if keys != [] {
      SumIgnores(keys[..|keys| - 1], count, k, v);
    }
  }

  /** Adding one to the count of a listed key adds one to the sum. */
  lemma {:induction false} SumIncrement(keys: seq<string>, count: map<string, nat>, k: string)
    requires Distinct(keys) && k in keys && k in count
    ensures SumCounts(keys, count[k := count[k] + 1]) == SumCounts(keys, count) + 1
  {
    var init := keys[..|keys| - 1];
    if keys[|keys| - 1] == k {
      assert k !in init;
      SumIgnores(init, count, k, count[k] + 1);
    } else {
      assert k in init;
      SumIncrement(init, count, k);
    }
  }

  /** Every counted item is in exactly one bar: the counts sum to the number of items. */
  lemma {:induction false} TallyTotal(items: seq<AnomalyItem>)
    ensures SumCounts(TallyOf(items).keys, TallyOf(items).count) == |items|
  {
    if items != [] {
      var init := items[..|items| - 1];
      TallyTotal(init);
      TallyExact(init);
      var t := TallyOf(init);
      var k := AnomalyKey(items[|items| - 1]);
      if k in t.count {
        SumIncrement(t.keys, t.count, k);
      } else {
        SumIgnores(t.keys, t.count, k, 1);
        assert (t.keys + [k])[..|t.keys|] == t.keys;
      }
    }
  }

  /** Position of the first key with the largest count (Python `max` keeps the first maximum). */
  function MostActiveIndex(keys: seq<string>, count: map<string, nat>): (j: nat)
    requires keys != [] && forall k :: k in keys ==> k in count
    ensures j < |keys|
    ensures forall i :: 0 <= i < |keys| ==> count[keys[i]] <= count[keys[j]]
    ensures forall i :: 0 <= i < j ==> count[keys[i]] < count[keys[j]]
  {
    if |keys| == 1 then 0
    else
      var b := MostActiveIndex(keys[..|keys| - 1], count);
      if count[keys[|keys| - 1]] > count[keys[b]] then |keys| - 1 else b
  }

  /** `max(sensor_counts.keys(), key=...) if sensor_counts else "None"`. */
  function MostActive(keys: seq<string>, count: map<string, nat>): (s: string)
    requires forall k :: k in keys ==> k in count
    ensures keys == [] ==> s == "None"
    ensures keys != [] ==> s in keys && forall k :: k in keys ==> count[k] <= count[s]
  {
    if keys == [] then "None" else keys[MostActiveIndex(keys, count)]
  }

  // ----------------------------------------------------------------- the alert timeline

  /** The colours of `severity_colors`; an unknown severity is drawn in the warning colour. */
  datatype Colour = NormalColour | WarningColour | AnomalyColour | CriticalColour

  function SeverityColour(severity: string): Colour {
    match severity
    case "low" => NormalColour
    case "medium" => WarningColour
    case "high" => AnomalyColour
    case "critical" => CriticalColour
    case _ => WarningColour
  }

  /** One marker of the timeline: its row, time, severity (default `medium`), colour and description. */
  datatype TimelineEntry = TimelineEntry(row: nat, timestamp: int, severity: string, colour: Colour, description: string)

  function Entry(row: nat, a: AlertItem, now: int): TimelineEntry {
    var severity := a.severity.GetOr("medium");
    TimelineEntry(row, a.timestamp.GetOr(now), severity, SeverityColour(severity), a.description.GetOr("Unknown alert"))
  }

  /** The markers for `alert_data[-n:]`, oldest first; `now` stands in for a missing timestamp. */
  function Timeline(alerts: seq<AlertItem>, n: nat, now: int): (r: seq<TimelineEntry>)
    ensures |r| == Min(|alerts|, n)
    ensures forall i :: 0 <= i < |r| ==> r[i] == Entry(i, alerts[|alerts| - |r| + i], now)
  {
    var shown := Min(|alerts|, n);
    seq(shown, i requires 0 <= i < shown => Entry(i, alerts[|alerts| - shown + i], now))
  }

  // ----------------------------------------------------------------- ratios

  /** `max(n, 1)`, the guard the dashboards put under a division. */
  function AtLeastOne(x: real): (m: real)
    ensures m >= 1.0 && m >= x
    ensures x >= 1.0 ==> m == x
    ensures x < 1.0 ==> m == 1.0
  {
    if x >= 1.0 then x else 1.0
  }

  /** A non-negative part of a positive whole is a fraction between 0 and 1. */
  lemma RatioBounded(part: real, whole: real)
    requires 0.0 <= part <= whole && whole > 0.0
    ensures 0.0 <= part / whole <= 1.0
  {
    assert part / whole * whole == part;
  }
}
