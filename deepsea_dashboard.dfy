/**
 * The second `Dashboard` variant: the same data as `Visualizer`, a set of
 * selected sensor labels toggled from a check-box list, and the counting and
 * truncation rules of its plots — the distribution over the last 20 anomalies,
 * the heatmap of the first 5 sensors, the last 10 alerts with shortened
 * captions, and the statistics text split over two columns.
 */
module DeepseaDashboard {
  import opened Wrappers
  import opened Seqs
  import opened DashboardData

  // ----------------------------------------------------------------- sensor selection

  /** The check box that stands for the three sensors together. */
  const AllSensors: string := "All Sensors"
  /** What clicking `All Sensors` selects. */
  const AllSelection: set<string> := {"Sensor 1", "Sensor 2", "Sensor 3"}

  /**
   * `_on_sensor_toggle`: `All Sensors` clears the selection when it is selected
   * and otherwise selects the three sensors; any other label flips its own
   * membership and leaves the rest alone.
   */
  function Toggled(selected: set<string>, clicked: string): (r: set<string>)
    ensures clicked != AllSensors ==> (clicked in r <==> clicked !in selected) && r - {clicked} == selected - {clicked}
    ensures clicked == AllSensors && clicked in selected ==> r == {}
    ensures clicked == AllSensors && clicked !in selected ==> r == AllSelection
  {
    if clicked == AllSensors then
      if clicked in selected then {} else AllSelection
    else if clicked in selected then selected - {clicked} else selected + {clicked}
  }

  /** Toggling the same individual label twice restores the selection. */
  lemma ToggleTwice(selected: set<string>, clicked: string)
    requires clicked != AllSensors
    ensures Toggled(Toggled(selected, clicked), clicked) == selected
  {
    var once := Toggled(selected, clicked);
    var twice := Toggled(once, clicked);
    assert forall x :: x in twice <==> x in selected by {
      assert twice - {clicked} == selected - {clicked};
    }
  }

  /**
   * `All Sensors` is never put into the selection, so from any selection the
   * toggles can reach, clicking it gives exactly the three sensors.
   */
  lemma AllSensorsNeverSelected(selected: set<string>, clicked: string)
    requires AllSensors !in selected
    ensures AllSensors !in Toggled(selected, clicked)
    ensures clicked == AllSensors ==> Toggled(selected, clicked) == AllSelection
  {
    assert AllSensors !in AllSelection;
  }

  // ----------------------------------------------------------------- heatmap

  const HeatmapRows: nat := 5

  /** The anomaly column of one heatmap row: a computed score, or the random placeholder left in place. */
  datatype HeatCell = Placeholder | Score(value: real)

  /** `1 - rate` for a sensor with a non-empty flag list; the placeholder otherwise. */
  function HeatCellOf(h: History): (c: HeatCell)
    ensures c.Score? <==> h.anomalies != []
    ensures c.Score? ==> 0.0 <= c.value <= 1.0
    ensures c.Score? ==> c.value * |h.anomalies| as real == (|h.anomalies| - CountTrue(h.anomalies)) as real
  {
    if h.anomalies == [] then Placeholder
    else
      FractionFacts(CountTrue(h.anomalies), |h.anomalies|);
      Score(1.0 - CountTrue(h.anomalies) as real / |h.anomalies| as real)
  }

  /** `_update_sensor_heatmap`: nothing without data, else one cell per sensor among the first five keys. */
  function HeatmapColumnOf(t: SensorTable): (r: Option<seq<HeatCell>>)
    requires forall k :: k in t.order ==> k in t.histories
    ensures r.None? <==> t.histories == map[]
    ensures r.Some? ==> |r.value| == Min(|t.order|, HeatmapRows)
    ensures r.Some? ==> forall i :: 0 <= i < |r.value| ==> r.value[i] == HeatCellOf(t.histories[t.order[i]])
  {
    if t.histories == map[] then None
    else
      var sensors := First(t.order, HeatmapRows);
      Some(seq(|sensors|, i requires 0 <= i < |sensors| => HeatCellOf(t.histories[sensors[i]])))
  }

  /** In a well-formed table every shown sensor has a computed score between 0 and 1. */
  lemma HeatmapScores(t: SensorTable)
    requires TableInv(t) && t.histories != map[]
    ensures var r := HeatmapColumnOf(t).value;
      forall i :: 0 <= i < |r| ==> r[i].Score? && 0.0 <= r[i].value <= 1.0
  {
    var r := HeatmapColumnOf(t).value;
    forall i | 0 <= i < |r|
      ensures r[i].Score?
    {
      assert t.order[i] in t.histories;
      assert HistoryInv(t.histories[t.order[i]]);
    }
  }

  // ----------------------------------------------------------------- alerts timeline

  const TimelineLength: nat := 10
  const CaptionLength: nat := 30

  /** `description[:30] + '...'`. */
  function Caption(d: string): (c: string)
    ensures |c| == Min(|d|, CaptionLength) + 3
    ensures c[..|c| - 3] == d[..Min(|d|, CaptionLength)]
    ensures c[|c| - 3..] == "..."
  {
    First(d, CaptionLength) + "..."
  }

  /** `_update_alerts_timeline`: the last 10 alerts, each with its shortened caption. */
  function CaptionedTimeline(alerts: seq<AlertItem>, now: int): (r: seq<TimelineEntry>)
    ensures |r| == Min(|alerts|, TimelineLength)
    ensures forall i :: 0 <= i < |r| ==>
              var e := Entry(i, alerts[|alerts| - |r| + i], now);
              r[i] == e.(description := Caption(e.description))
  {
    var entries := Timeline(alerts, TimelineLength, now);
    seq(|entries|, i requires 0 <= i < |entries| => entries[i].(description := Caption(entries[i].description)))
  }

  // ----------------------------------------------------------------- statistics text

  /** One line of the statistics text, holding the value it prints. */
  datatype StatLine =
    | Uptime(seconds: int)
    | TotalReadings(readings: real)
    | AnomaliesDetected(anomalies: real)
    | AlertsRaised(alerts: real)
    | AnomalyRate(rate: real)
    | ActiveSensors(sensors: real)
    | LastReading(time: Option<real>)
    | NoStatistics

  /** Python's `int(x)` on a float: truncation toward zero. */
  function Truncate(x: real): (n: int)
    ensures x >= 0.0 ==> n >= 0 && n as real <= x < n as real + 1.0
    ensures x < 0.0 ==> n <= 0 && n as real - 1.0 < x <= n as real
  {
    if x >= 0.0 then x.Floor else -((-x).Floor)
  }

  /** The statistics text: seven lines from the statistics, or one line saying there are none. */
  function StatLines(stats: Stats): (lines: seq<StatLine>)
    ensures stats == map[] <==> lines == [NoStatistics]
    ensures stats != map[] ==> |lines| == 7 && NoStatistics !in lines
  {
    if stats == map[] then [NoStatistics]
    else
      [ Uptime(Truncate(Stat(stats, "uptime_seconds"))),
        TotalReadings(Stat(stats, "total_readings")),
        AnomaliesDetected(Stat(stats, "anomalies_detected")),
        AlertsRaised(Stat(stats, "alerts_raised")),
        AnomalyRate(Stat(stats, "anomaly_rate")),
        ActiveSensors(Stat(stats, "active_sensors")),
        LastReading(if "last_reading_time" in stats then Some(stats["last_reading_time"]) else None) ]
  }

  /** `stats_text[:4]` and `stats_text[4:]`. */
  function Columns(lines: seq<StatLine>): (r: (seq<StatLine>, seq<StatLine>))
    ensures r.0 + r.1 == lines
    ensures |r.0| == Min(|lines|, 4)
  {
    var split := Min(|lines|, 4);
    assert lines == lines[..split] + lines[split..];
    (lines[..split], lines[split..])
  }

  /** Four lines on the left and three on the right with statistics; one line on the left without. */
  lemma StatisticsLayout(stats: Stats)
    ensures stats == map[] ==> Columns(StatLines(stats)) == ([NoStatistics], [])
    ensures stats != map[] ==> |Columns(StatLines(stats)).0| == 4 && |Columns(StatLines(stats)).1| == 3
  {
    if stats == map[] {
      var c := Columns([NoStatistics]);
      assert c.0 + c.1 == [NoStatistics] && |c.0| == 1;
      assert c.0 == [NoStatistics];
    }
  }

  // ----------------------------------------------------------------- anomaly distribution

  const DistributionWindow: nat := 20

  /** The bars over the last 20 anomalies add up to the number of anomalies counted. */
  lemma DistributionTotal(anomalies: seq<AnomalyItem>)
    ensures var t := TallyOf(Last(anomalies, DistributionWindow));
      SumCounts(t.keys, t.count) == Min(|anomalies|, DistributionWindow)
  {
    TallyTotal(Last(anomalies, DistributionWindow));
  }

  // ----------------------------------------------------------------- the dashboard object

  class Dashboard {
    var updateInterval: int
    var isRunning: bool
    var showAnomalies: bool
    var autoScale: bool
    var selectedSensors: set<string>
    var sensorData: map<string, History>
    var sensorOrder: seq<string>
    var anomalyData: seq<AnomalyItem>
    var alertData: seq<AlertItem>
    var networkStats: Stats

    function Table(): SensorTable
      reads this
    {
      SensorTable(sensorData, sensorOrder)
    }

    ghost predicate Valid()
      reads this
    {
      TableInv(Table()) && |anomalyData| <= MaxDataPoints && |alertData| <= MaxAlerts
    }

    constructor (updateInterval: int)
      ensures Valid()
      ensures this.updateInterval == updateInterval && !isRunning && showAnomalies && autoScale
      ensures selectedSensors == {}
      ensures Table() == EmptyTable && anomalyData == [] && alertData == [] && networkStats == map[]
    {
      this.updateInterval := updateInterval;
      isRunning := false;
      showAnomalies := true;
      autoScale := true;
      selectedSensors := {};
      sensorData := map[];
      sensorOrder := [];
      anomalyData := [];
      alertData := [];
      networkStats := map[];
    }

    /** `_on_sensor_toggle`. */
    method OnSensorToggle(clicked: string)
      modifies this`selectedSensors
      ensures selectedSensors == Toggled(old(selectedSensors), clicked)
      ensures AllSensors !in old(selectedSensors) ==> AllSensors !in selectedSensors
    {
      ghost var before := selectedSensors;
      if clicked == AllSensors {
        if clicked in selectedSensors {
          selectedSensors := {};
        } else {
          selectedSensors := AllSelection;
        }
      } else {
        if clicked in selectedSensors {
          selectedSensors := selectedSensors - {clicked};
        } else {
          selectedSensors := selectedSensors + {clicked};
        }
      }
      if AllSensors !in before {
        AllSensorsNeverSelected(before, clicked);
      }
    }

    /**
     * `update_data`: each reading goes into its sensor's history, then the
     * anomaly and alert lists are extended and cut to their last 100 and 50
     * entries, and the statistics are replaced.
     */
    method UpdateData(readings: seq<DashReading>, anomalies: seq<AnomalyItem>, alerts: seq<AlertItem>, stats: Stats, now: int)
      requires Valid()
      modifies this`sensorData, this`sensorOrder, this`anomalyData, this`alertData, this`networkStats
      ensures Valid()
      ensures Table() == AfterReadings(old(Table()), readings, now)
      ensures anomalyData == Last(old(anomalyData) + anomalies, MaxDataPoints)
      ensures alertData == Last(old(alertData) + alerts, MaxAlerts)
      ensures networkStats == stats
    {
      RecordReadings(readings, now);
      StoreRecords(anomalies, alerts, stats);
    }

    /** The second half of `update_data`: the lists extended and cut, the statistics replaced. */
    method StoreRecords(anomalies: seq<AnomalyItem>, alerts: seq<AlertItem>, stats: Stats)
      modifies this`anomalyData, this`alertData, this`networkStats
      ensures anomalyData == Last(old(anomalyData) + anomalies, MaxDataPoints)
      ensures alertData == Last(old(alertData) + alerts, MaxAlerts)
      ensures networkStats == stats
    {
      anomalyData := anomalyData + anomalies;
      alertData := alertData + alerts;
      networkStats := stats;
      if |anomalyData| > MaxDataPoints {
        anomalyData := anomalyData[|anomalyData| - MaxDataPoints..];
      }
      if |alertData| > MaxAlerts {
        alertData := alertData[|alertData| - MaxAlerts..];
      }
    }

    /** The reading loop of `update_data`. */
    method RecordReadings(readings: seq<DashReading>, now: int)
      requires TableInv(Table())
      modifies this`sensorData, this`sensorOrder
      ensures TableInv(Table())
      ensures Table() == AfterReadings(old(Table()), readings, now)
    {
      var i := 0;
      while i < |readings|
        invariant 0 <= i <= |readings|
        invariant TableInv(Table())
        invariant AfterReadings(Table(), readings[i..], now) == AfterReadings(old(Table()), readings, now)
      {
        AfterReadingFacts(Table(), readings[i], now);
        RecordReading(readings[i], now);
        assert readings[i..][1..] == readings[i + 1..];
        i := i + 1;
      }
    }

    /** One pass of the reading loop of `update_data`. */
    method RecordReading(r: DashReading, now: int)
      modifies this`sensorData, this`sensorOrder
      ensures Table() == AfterReading(old(Table()), r, now)
    {
      var id := r.sensorId.GetOr(UnknownSensor);
      if id !in sensorData {
        sensorData := sensorData[id := EmptyHistory];
        sensorOrder := sensorOrder + [id];
      }
      var h := sensorData[id];
      var timestamps := h.timestamps + [r.timestamp.GetOr(now)];
      var values := h.values + [r.value.GetOr(0.0)];
      var flags := h.anomalies + [r.anomalyFlag.GetOr(false)];
      if |timestamps| > MaxDataPoints {
        timestamps, values, flags := timestamps[1..], values[1..], flags[1..];
      }
      sensorData := sensorData[id := History(timestamps, values, flags)];
    }

    /** The counting loop of `_update_anomaly_distribution`; nothing when there are no anomalies. */
    method AnomalyDistribution() returns (bars: Option<Tally>)
      ensures anomalyData == [] <==> bars.None?
      ensures bars.Some? ==> bars.value == TallyOf(Last(anomalyData, DistributionWindow))
    {
      if anomalyData == [] {
        return None;
      }
      var recent := Last(anomalyData, DistributionWindow);
      var keys: seq<string> := [];
      var count: map<string, nat> := map[];
      for i := 0 to |recent|
        invariant Tally(keys, count) == TallyOf(recent[..i])
      {
        assert recent[..i + 1][..i] == recent[..i];
        var id := recent[i].sensorId.GetOr(UnknownSensor);
        if id !in count {
          keys := keys + [id];
        }
        count := count[id := (if id in count then count[id] else 0) + 1];
      }
      assert recent[..|recent|] == recent;
      bars := Some(Tally(keys, count));
    }

    /** The anomaly column of the heatmap. */
    function Heatmap(): Option<seq<HeatCell>>
      requires Valid()
      reads this
    {
      HeatmapColumnOf(Table())
    }

    /** The markers of the alerts plot, oldest first. */
    function AlertsTimeline(now: int): seq<TimelineEntry>
      reads this
    {
      CaptionedTimeline(alertData, now)
    }

    /** The two columns of the statistics text. */
    function StatisticsDisplay(): (seq<StatLine>, seq<StatLine>)
      reads this
    {
      Columns(StatLines(networkStats))
    }
  }
}
