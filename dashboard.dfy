/**
 * `IndependentDashboards` (visualizer/dashboard.py): the data it keeps and
 * what each window computes from it before drawing — the network health tier,
 * the sensor health matrix, the last 15 alerts, the anomaly analysis over the
 * last 30 anomalies and the overall system tier. Drawing itself is not modelled.
 */
module Visualizer {
  import opened Wrappers
  import opened Seqs
  import opened DashboardData

  // ----------------------------------------------------------------- network window

  datatype NetworkTier = Excellent | Good | Warning | Critical

  /** What the network window shows: no data, no sensors, or the health percentage and its tier. */
  datatype NetworkView = NoNetworkData | NoSensors | NetworkHealth(totalSensors: real, percentage: real, tier: NetworkTier)

  /** Better tiers rank higher. */
  function NetworkRank(t: NetworkTier): nat {
    match t
    case Critical => 0
    case Warning => 1
    case Good => 2
    case Excellent => 3
  }

  /** The tier of a health percentage: 90, 75 and 50 are the thresholds. */
  function NetworkTierOf(percentage: real): NetworkTier {
    if percentage >= 90.0 then Excellent
    else if percentage >= 75.0 then Good
    else if percentage >= 50.0 then Warning
    else Critical
  }

  /** A higher percentage never gives a worse tier. */
  lemma NetworkTierMonotone(p: real, q: real)
    requires p <= q
    ensures NetworkRank(NetworkTierOf(p)) <= NetworkRank(NetworkTierOf(q))
  {
  }

  /**
   * `update_network_status`: active plus timeout sensors is the total; a tier
   * is computed only when the total is positive.
   */
  function NetworkViewOf(stats: Stats): (v: NetworkView)
    ensures v.NoNetworkData? <==> stats == map[]
    ensures v.NetworkHealth? <==> stats != map[] && Stat(stats, "active_sensors") + Stat(stats, "timeout_sensors") > 0.0
    ensures v.NetworkHealth? ==> v.percentage * v.totalSensors == Stat(stats, "active_sensors") * 100.0
    ensures v.NetworkHealth? ==> v.tier == NetworkTierOf(v.percentage)
    ensures v.NetworkHealth? && Stat(stats, "active_sensors") >= 0.0 && Stat(stats, "timeout_sensors") >= 0.0 ==>
              0.0 <= v.percentage <= 100.0
    ensures v.NetworkHealth? && Stat(stats, "timeout_sensors") == 0.0 ==> v.percentage == 100.0 && v.tier == Excellent
  {
    if stats == map[] then NoNetworkData
    else
      var active := Stat(stats, "active_sensors");
      var timeouts := Stat(stats, "timeout_sensors");
      var total := active + timeouts;
      if total > 0.0 then
        var percentage := active / total * 100.0;
        assert active / total * total == active;
        if active >= 0.0 && timeouts >= 0.0 then RatioBounded(active, total); NetworkHealth(total, percentage, NetworkTierOf(percentage))
        else NetworkHealth(total, percentage, NetworkTierOf(percentage))
      else NoSensors
  }

  // ----------------------------------------------------------------- sensor health window

  /** One row of the health matrix: activity, quality, anomaly-rate score, signal, overall. */
  datatype HealthRow = HealthRow(activity: real, quality: real, anomalyScore: real, signal: real, overall: real)

  /** Every entry lies on the colour scale's 0..1 range. */
  predicate InUnit(r: HealthRow) {
    && 0.0 <= r.activity <= 1.0 && 0.0 <= r.quality <= 1.0 && 0.0 <= r.anomalyScore <= 1.0
    && 0.0 <= r.signal <= 1.0 && 0.0 <= r.overall <= 1.0
  }

  const NeutralRow: HealthRow := HealthRow(0.5, 0.5, 0.5, 0.5, 0.5)

  /** `min(len(timestamps) / 50, 1.0)`: saturates at 50 data points. */
  function Activity(points: nat): (a: real)
    ensures 0.0 <= a <= 1.0
    ensures a == 1.0 <==> points >= 50
    ensures a * 50.0 == Min(points, 50) as real
  {
    if points as real / 50.0 <= 1.0 then points as real / 50.0 else 1.0
  }

  /** `1 - sum(anomalies) / max(len(anomalies), 1)`: the share of points not flagged. */
  function AnomalyScore(flags: seq<bool>): (r: real)
    ensures 0.0 <= r <= 1.0
    ensures flags != [] ==> r * |flags| as real == (|flags| - CountTrue(flags)) as real
    ensures r == 1.0 <==> CountTrue(flags) == 0
  {
    var n := |flags|;
    var flagged := CountTrue(flags);
    if n == 0 then 1.0
    else
      FractionFacts(flagged, n);
      1.0 - flagged as real / AtLeastOne(n as real)
  }

  /**
   * The row of one sensor. `q` and `s` are the two `np.random.random()` draws
   * behind quality and signal strength; a sensor without points gets 0.5 throughout.
   */
  function HealthRowOf(h: History, q: real, s: real): (r: HealthRow)
    requires 0.0 <= q < 1.0 && 0.0 <= s < 1.0
    ensures InUnit(r)
    ensures h.anomalies == [] || h.timestamps == [] ==> r == NeutralRow
    ensures h.anomalies != [] && h.timestamps != [] ==>
              r.activity == Activity(|h.timestamps|) && r.anomalyScore == AnomalyScore(h.anomalies) &&
              0.8 <= r.quality && 0.7 <= r.signal
  {
    if h.anomalies != [] && h.timestamps != [] then
      var activity := Activity(|h.timestamps|);
      var quality := 0.8 + q * 0.2;
      var anomalyScore := AnomalyScore(h.anomalies);
      var signal := 0.7 + s * 0.3;
      HealthRow(activity, quality, anomalyScore, signal, (activity + quality + anomalyScore + signal) / 4.0)
    else NeutralRow
  }

  /**
   * `update_sensor_health`: nothing without sensor data, otherwise one row per
   * sensor among the first six keys in insertion order.
   */
  function SensorHealthOf(t: SensorTable, quality: nat -> real, signal: nat -> real): (r: Option<seq<HealthRow>>)
    requires forall k :: k in t.order ==> k in t.histories
    requires forall i :: 0.0 <= quality(i) < 1.0
    requires forall i :: 0.0 <= signal(i) < 1.0
    ensures r.None? <==> t.histories == map[]
    ensures r.Some? ==> |r.value| == Min(|t.order|, HealthRows)
    ensures r.Some? ==> forall i :: 0 <= i < |r.value| ==> InUnit(r.value[i])
    ensures r.Some? ==> forall i :: 0 <= i < |r.value| ==>
              r.value[i] == HealthRowOf(t.histories[t.order[i]], quality(i), signal(i))
  {
    if t.histories == map[] then None
    else
      var sensors := First(t.order, HealthRows);
      var rows := seq(|sensors|, i requires 0 <= i < |sensors| => HealthRowOf(t.histories[sensors[i]], quality(i), signal(i)));
      assert forall i :: 0 <= i < |rows| ==> InUnit(HealthRowOf(t.histories[sensors[i]], quality(i), signal(i)));
      Some(rows)
  }

  // ----------------------------------------------------------------- anomaly analysis window

  /** `consecutive_count` (default 1) decides the bucket: 3 or more is high, 2 medium, else low. */
  datatype Severity = High | Medium | Low

  function SeverityOf(a: AnomalyItem): Severity {
    var consecutive := a.consecutiveCount.GetOr(1);
    if consecutive >= 3 then High else if consecutive >= 2 then Medium else Low
  }

  datatype SeverityCounts = SeverityCounts(high: nat, medium: nat, low: nat)

  /** `severity_counts` after the loop: every item lands in exactly one bucket. */
  function BucketsOf(items: seq<AnomalyItem>): (c: SeverityCounts)
    ensures c.high + c.medium + c.low == |items|
  {
    if items == [] then SeverityCounts(0, 0, 0)
    else
      var c := BucketsOf(items[..|items| - 1]);
      match SeverityOf(items[|items| - 1])
      case High => c.(high := c.high + 1)
      case Medium => c.(medium := c.medium + 1)
      case Low => c.(low := c.low + 1)
  }

  /** The figures of the analysis summary. */
  datatype AnomalySummary = AnomalySummary(sensors: seq<string>, count: map<string, nat>, total: nat, average: real,
                                           mostActive: string, severity: SeverityCounts)

  const AnalysisWindow: nat := 30

  /** `update_anomaly_analysis` over `anomaly_data[-30:]`; nothing when there are no anomalies. */
  function AnalysisOf(anomalies: seq<AnomalyItem>): (r: Option<AnomalySummary>)
    ensures r.None? <==> anomalies == []
  {
    if anomalies == [] then None
    else
      var recent := Last(anomalies, AnalysisWindow);
      var t := TallyOf(recent);
      TallyExact(recent);
      var total := SumCounts(t.keys, t.count);
      Some(AnomalySummary(t.keys, t.count, total,
                          if t.keys == [] then 0.0 else total as real / |t.keys| as real,
                          MostActive(t.keys, t.count), BucketsOf(recent)))
  }

  /**
   * The summary over the last 30 anomalies: the per-sensor bars and the
   * severity buckets both add up to the number of anomalies counted, each bar
   * is that sensor's number of anomalies, and the most active sensor has the
   * tallest bar.
   */
  lemma AnalysisFacts(anomalies: seq<AnomalyItem>)
    requires anomalies != []
    ensures var s := AnalysisOf(anomalies).value;
      var recent := Last(anomalies, AnalysisWindow);
      && s.total == Min(|anomalies|, AnalysisWindow)
      && s.severity.high + s.severity.medium + s.severity.low == s.total
      && Distinct(s.sensors) && s.sensors != []
      && (forall k :: k in s.count <==> k in s.sensors)
      && (forall k :: k in s.count <==> Occurrences(recent, k) > 0)
      && (forall k :: k in s.count ==> s.count[k] == Occurrences(recent, k))
      && s.mostActive in s.count && (forall k :: k in s.count ==> s.count[k] <= s.count[s.mostActive])
  {
    var recent := Last(anomalies, AnalysisWindow);
    TallyExact(recent);
    TallyTotal(recent);
    var t := TallyOf(recent);
    assert AnomalyKey(recent[0]) in t.count by {
      assert Occurrences(recent, AnomalyKey(recent[0])) > 0 by {
        OccursAt(recent, 0);
      }
    }
  }

  /** An item's own key occurs among the items. */
  lemma {:induction false} OccursAt(items: seq<AnomalyItem>, i: nat)
    requires i < |items|
    ensures Occurrences(items, AnomalyKey(items[i])) > 0
  {
    if i < |items| - 1 {
      assert items[..|items| - 1][i] == items[i];
      OccursAt(items[..|items| - 1], i);
    }
  }

  // ----------------------------------------------------------------- system statistics window

  datatype SystemTier = SystemExcellent | SystemGood | SystemWarning | SystemCritical

  function SystemRank(t: SystemTier): nat {
    match t
    case SystemCritical => 0
    case SystemWarning => 1
    case SystemGood => 2
    case SystemExcellent => 3
  }

  /** Active sensors as a percentage of active plus timed-out ones, with `max(total, 1)` under the division. */
  function ActiveRatio(stats: Stats): (r: real)
    ensures Stat(stats, "active_sensors") >= 0.0 && Stat(stats, "timeout_sensors") >= 0.0 ==> 0.0 <= r <= 100.0
    ensures Stat(stats, "active_sensors") >= 1.0 && Stat(stats, "timeout_sensors") == 0.0 ==> r == 100.0
  {
    var active := Stat(stats, "active_sensors");
    var total := active + Stat(stats, "timeout_sensors");
    var guard := AtLeastOne(total);
    assert active / guard * guard == active;
    if 0.0 <= active <= total then RatioBounded(active, guard); active / guard * 100.0
    else active / guard * 100.0
  }

  /** The thresholds: (95 %, 5 %), (85 %, 10 %), (70 %, 20 %) on active ratio and anomaly rate. */
  function SystemTierOf(activeRatio: real, anomalyRate: real): SystemTier {
    if activeRatio >= 95.0 && anomalyRate < 5.0 then SystemExcellent
    else if activeRatio >= 85.0 && anomalyRate < 10.0 then SystemGood
    else if activeRatio >= 70.0 && anomalyRate < 20.0 then SystemWarning
    else SystemCritical
  }

  /** More active sensors and fewer anomalies never give a worse tier. */
  lemma SystemTierMonotone(a: real, r: real, a': real, r': real)
    requires a <= a' && r' <= r
    ensures SystemRank(SystemTierOf(a, r)) <= SystemRank(SystemTierOf(a', r'))
  {
  }

  /** `update_system_statistics`: no tier without statistics; the anomaly rate is a fraction turned into a percentage. */
  function SystemHealthOf(stats: Stats): (r: Option<SystemTier>)
    ensures r.None? <==> stats == map[]
    ensures r.Some? ==> r.value == SystemTierOf(ActiveRatio(stats), Stat(stats, "anomaly_rate") * 100.0)
    ensures r.Some? && r.value == SystemExcellent ==> ActiveRatio(stats) >= 95.0 && Stat(stats, "anomaly_rate") < 0.05
    ensures r.Some? && Stat(stats, "anomaly_rate") >= 0.2 ==> r.value == SystemCritical
  {
    if stats == map[] then None else Some(SystemTierOf(ActiveRatio(stats), Stat(stats, "anomaly_rate") * 100.0))
  }

  // ----------------------------------------------------------------- the dashboard object

  /** The alert timeline shows the last 15 alerts. */
  const TimelineLength: nat := 15
  /** The health matrix shows the first 6 sensors. */
  const HealthRows: nat := 6

  class IndependentDashboards {
    var updateInterval: int
    var isRunning: bool
    var showAnomalies: bool
    var sensorData: map<string, History>
    var sensorOrder: seq<string>
    var anomalyData: seq<AnomalyItem>
    var alertData: seq<AlertItem>
    var networkStats: Stats

    function Table(): SensorTable
      reads this
    {
      SensorTable(sensorData, sensorOrder)
    }

    ghost predicate Valid()
      reads this
    {
      TableInv(Table()) && |anomalyData| <= MaxDataPoints && |alertData| <= MaxAlerts
    }

    constructor (updateInterval: int)
      ensures Valid()
      ensures this.updateInterval == updateInterval && !isRunning && showAnomalies
      ensures Table() == EmptyTable && anomalyData == [] && alertData == [] && networkStats == map[]
    {
      this.updateInterval := updateInterval;
      isRunning := false;
      showAnomalies := true;
      sensorData := map[];
      sensorOrder := [];
      anomalyData := [];
      alertData := [];
      networkStats := map[];
    }

    /**
     * `update_data`: each reading goes into its sensor's history, then the
     * anomaly and alert lists are extended and cut to their last 100 and 50
     * entries, and the statistics are replaced.
     */
    method UpdateData(readings: seq<DashReading>, anomalies: seq<AnomalyItem>, alerts: seq<AlertItem>, stats: Stats, now: int)
      requires Valid()
      modifies this`sensorData, this`sensorOrder, this`anomalyData, this`alertData, this`networkStats
      ensures Valid()
      ensures Table() == AfterReadings(old(Table()), readings, now)
      ensures anomalyData == Last(old(anomalyData) + anomalies, MaxDataPoints)
      ensures alertData == Last(old(alertData) + alerts, MaxAlerts)
      ensures networkStats == stats
    {
      RecordReadings(readings, now);
      StoreRecords(anomalies, alerts, stats);
    }

    /** The second half of `update_data`: the lists extended and cut, the statistics replaced. */
    method StoreRecords(anomalies: seq<AnomalyItem>, alerts: seq<AlertItem>, stats: Stats)
      modifies this`anomalyData, this`alertData, this`networkStats
      ensures anomalyData == Last(old(anomalyData) + anomalies, MaxDataPoints)
      ensures alertData == Last(old(alertData) + alerts, MaxAlerts)
      ensures networkStats == stats
    {
      anomalyData := anomalyData + anomalies;
      alertData := alertData + alerts;
      networkStats := stats;
      if |anomalyData| > MaxDataPoints {
        anomalyData := anomalyData[|anomalyData| - MaxDataPoints..];
      }
      if |alertData| > MaxAlerts {
        alertData := alertData[|alertData| - MaxAlerts..];
      }
    }

    /** The reading loop of `update_data`. */
    method RecordReadings(readings: seq<DashReading>, now: int)
      requires TableInv(Table())
      modifies this`sensorData, this`sensorOrder
      ensures TableInv(Table())
      ensures Table() == AfterReadings(old(Table()), readings, now)
    {
      var i := 0;
      while i < |readings|
        invariant 0 <= i <= |readings|
        invariant TableInv(Table())
        invariant AfterReadings(Table(), readings[i..], now) == AfterReadings(old(Table()), readings, now)
      {
        AfterReadingFacts(Table(), readings[i], now);
        RecordReading(readings[i], now);
        assert readings[i..][1..] == readings[i + 1..];
        i := i + 1;
      }
    }

    /** One pass of the reading loop of `update_data`. */
    method RecordReading(r: DashReading, now: int)
      modifies this`sensorData, this`sensorOrder
      ensures Table() == AfterReading(old(Table()), r, now)
    {
      var id := r.sensorId.GetOr(UnknownSensor);
      if id !in sensorData {
        sensorData := sensorData[id := EmptyHistory];
        sensorOrder := sensorOrder + [id];
      }
      var h := sensorData[id];
      var timestamps := h.timestamps + [r.timestamp.GetOr(now)];
      var values := h.values + [r.value.GetOr(0.0)];
      var flags := h.anomalies + [r.anomalyFlag.GetOr(false)];
      if |timestamps| > MaxDataPoints {
        timestamps, values, flags := timestamps[1..], values[1..], flags[1..];
      }
      sensorData := sensorData[id := History(timestamps, values, flags)];
    }

    /** What the network window shows. */
    function NetworkStatus(): NetworkView
      reads this
    {
      NetworkViewOf(networkStats)
    }

    /** The health matrix, given the window's random draws. */
    function SensorHealth(quality: nat -> real, signal: nat -> real): Option<seq<HealthRow>>
      requires Valid()
      requires forall i :: 0.0 <= quality(i) < 1.0
      requires forall i :: 0.0 <= signal(i) < 1.0
      reads this
    {
      SensorHealthOf(Table(), quality, signal)
    }

    /** The markers of the alerts window, oldest first. */
    function AlertsTimeline(now: int): seq<TimelineEntry>
      reads this
    {
      Timeline(alertData, TimelineLength, now)
    }

    /** The counting loop of `update_anomaly_analysis`. */
    method AnomalyAnalysis() returns (view: Option<AnomalySummary>)
      ensures view == AnalysisOf(anomalyData)
    {
      if anomalyData == [] {
        return None;
      }
      var recent := Last(anomalyData, AnalysisWindow);
      var keys: seq<string> := [];
      var count: map<string, nat> := map[];
      var high, medium, low := 0, 0, 0;
      for i := 0 to |recent|
        invariant Tally(keys, count) == TallyOf(recent[..i])
        invariant SeverityCounts(high, medium, low) == BucketsOf(recent[..i])
      {
        assert recent[..i + 1][..i] == recent[..i];
        var id := recent[i].sensorId.GetOr(UnknownSensor);
        if id !in count {
          keys := keys + [id];
        }
        count := count[id := (if id in count then count[id] else 0) + 1];
        var consecutive := recent[i].consecutiveCount.GetOr(1);
        if consecutive >= 3 {
          high := high + 1;
        } else if consecutive >= 2 {
          medium := medium + 1;
        } else {
          low := low + 1;
        }
      }
      assert recent[..|recent|] == recent;
      TallyExact(recent);
      var total := SumCounts(keys, count);
      var average := if keys == [] then 0.0 else total as real / |keys| as real;
      view := Some(AnomalySummary(keys, count, total, average, MostActive(keys, count), SeverityCounts(high, medium, low)));
    }

    /** The tier of the statistics window. */
    function SystemHealth(): Option<SystemTier>
      reads this
    {
      SystemHealthOf(networkStats)
    }
  }
}
