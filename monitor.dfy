/**
 * The cable monitor: a per-sensor state machine with counters, a bounded
 * buffer of processed readings and two FIFO queues (anomaly events, alerts).
 *
 * The mutable state lives in the fields of `CableMonitor`; `Snapshot()` bundles
 * them into a `MonitorState` value, and each state-changing method is proved
 * equal to a pure transition function on that value (`AfterReading`,
 * `AfterTimeouts`, `AfterAlerts`). The lemmas about those functions state what
 * the monitor promises. Time is an integer number of seconds; the detector's
 * verdict on a reading is an input.
 */
module Monitor {
  import opened Wrappers
  import opened Seqs

  /** Alert rules of the monitor. */
  const ConsecutiveAnomalyLimit: nat := 3
  const AnomalyRateThreshold: real := 0.2
  const SensorTimeoutSeconds: int := 300
  /** Capacity of each sensor's `recent_readings` deque. */
  const RecentCapacity: nat := 50
  /** Number of buffered readings the rate rule looks at. */
  const RateWindow: nat := 100

  /** A reading handed to the monitor; `None` stands for a missing key. */
  datatype Reading = Reading(sensorId: Option<string>, timestamp: Option<int>, value: real)

  /** What the attached anomaly detector gives for one reading. */
  datatype Detection =
    | NoDetector                           // no detector attached, or not trained
    | DetectorError                        // `predict_single` raised
    | Verdict(isAnomaly: bool, score: real)

  /**
   * A reading as it ends up stored: `detected` and `score` are the
   * `is_anomaly_detected` / `anomaly_score` keys written into it (None: never written).
   */
  datatype Record = Record(reading: Reading, detected: Option<bool>, score: Option<real>)

  datatype SensorStatus = Unknown | Active | TimedOut

  datatype SensorState = SensorState(
    lastSeen: Option<int>,
    consecutiveAnomalies: nat,
    recentReadings: seq<Record>,
    status: SensorStatus)

  datatype AnomalyEvent = AnomalyEvent(timestamp: int, sensorId: string, record: Record, consecutiveCount: nat)

  datatype Severity = Medium | High | Critical

  datatype AlertData =
    | ConsecutiveData(sensorId: string, count: nat, at: int)
    | RateData(rate: real, threshold: real, at: int)

  datatype Alert = Alert(alertType: string, timestamp: int, severity: Severity, data: AlertData)

  /** Everything the monitor updates while it runs. */
  datatype MonitorState = MonitorState(
    buffer: seq<Record>,
    anomalyQueue: seq<AnomalyEvent>,
    alertQueue: seq<Alert>,
    totalReadings: nat,
    anomaliesDetected: nat,
    alertsRaised: nat,
    lastReadingTime: Option<int>,
    sensors: map<string, SensorState>,
    sensorOrder: seq<string>)   // keys of `sensors` in insertion order

  datatype MonitoringStats = MonitoringStats(
    isMonitoring: bool,
    uptimeSeconds: int,
    totalReadings: nat,
    anomaliesDetected: nat,
    alertsRaised: nat,
    anomalyRate: real,
    activeSensors: nat,
    timeoutSensors: nat,
    bufferUtilization: real,
    lastReadingTime: Option<int>)

  datatype StatsError = ZeroDivision

  const EventTypes: set<string> := {"on_anomaly", "on_alert", "on_sensor_failure"}

  function FreshSensorState(): SensorState {
    SensorState(None, 0, [], Unknown)
  }

  /** `_get_sensor_state` without the insertion: the stored state or a fresh one. */
  function StateOf(s: MonitorState, sid: string): SensorState {
    if sid in s.sensors then s.sensors[sid] else FreshSensorState()
  }

  /** The state invariant: bounded buffers, anomalies never outnumber readings, keys tracked in order. */
  ghost predicate Inv(s: MonitorState, cap: nat) {
    && |s.buffer| <= cap
    && s.anomaliesDetected <= s.totalReadings
    && Distinct(s.sensorOrder)
    && (forall sid :: sid in s.sensors <==> sid in s.sensorOrder)
    && (forall sid :: sid in s.sensors ==>
          |s.sensors[sid].recentReadings| <= RecentCapacity &&
          (s.sensors[sid].status != Unknown ==> s.sensors[sid].lastSeen.Some?))
  }

  function InitialState(): MonitorState {
    MonitorState([], [], [], 0, 0, 0, None, map[], [])
  }

  /** True when the record carries `is_anomaly_detected == True`. */
  predicate Flagged(rec: Record) {
    rec.detected == Some(true)
  }

  /**
   * The record a reading becomes. A positive verdict on a reading without a
   * timestamp makes `_handle_anomaly` raise on `reading['timestamp']`; the
   * handler in `_process_single_reading` then overwrites the flag with False.
   */
  function Processed(r: Reading, d: Detection): (rec: Record)
    ensures rec.reading == r
    ensures Flagged(rec) <==> d.Verdict? && d.isAnomaly && r.timestamp.Some?
    ensures d.NoDetector? <==> rec.detected.None?
  {
    match d
    case NoDetector => Record(r, None, None)
    case DetectorError => Record(r, Some(false), Some(0.0))
    case Verdict(a, score) =>
      if a && r.timestamp.None? then Record(r, Some(false), Some(0.0))
      else Record(r, Some(a), Some(score))
  }

  /** `_handle_anomaly`: count it, bump the sensor's counter, queue the event (if the timestamp is there). */
  function AfterAnomaly(s: MonitorState, sid: string, r: Reading, rec: Record): MonitorState {
    var st := StateOf(s, sid);
    var n := st.consecutiveAnomalies + 1;
    var s1 := s.(anomaliesDetected := s.anomaliesDetected + 1,
                 sensors := s.sensors[sid := st.(consecutiveAnomalies := n)]);
    if r.timestamp.Some? then s1.(anomalyQueue := s1.anomalyQueue + [AnomalyEvent(r.timestamp.value, sid, rec, n)])
    else s1
  }

  /** The bookkeeping `_process_single_reading` does before asking the detector. */
  function Intake(s: MonitorState, cap: nat, sid: string, ts: int, rec: Record): (t: MonitorState)
    ensures sid in t.sensors
  {
    var st := StateOf(s, sid);
    var order := if sid in s.sensors then s.sensorOrder else s.sensorOrder + [sid];
    var seen := st.(lastSeen := Some(ts),
                    recentReadings := Last(st.recentReadings + [rec], RecentCapacity),
                    status := Active);
    s.(totalReadings := s.totalReadings + 1,
       lastReadingTime := Some(ts),
       buffer := Last(s.buffer + [rec], cap),
       sensors := s.sensors[sid := seen],
       sensorOrder := order)
  }

  /** `_process_single_reading` on the state, with the detector's verdict `d` and the clock `now`. */
  function AfterReading(s: MonitorState, cap: nat, r: Reading, d: Detection, now: int): MonitorState {
    if r.sensorId.None? then s
    else
      var sid := r.sensorId.value;
      var rec := Processed(r, d);
      var s1 := Intake(s, cap, sid, r.timestamp.GetOr(now), rec);
      if d.Verdict? && d.isAnomaly then AfterAnomaly(s1, sid, r, rec)
      else if d.Verdict? then s1.(sensors := s1.sensors[sid := s1.sensors[sid].(consecutiveAnomalies := 0)])
      else s1
  }

  /** `_process_readings`: each (reading, verdict) pair in order. */
  function AfterReadings(s: MonitorState, cap: nat, batch: seq<(Reading, Detection)>, now: int): MonitorState
    decreases |batch|
  {
    if batch == [] then s
    else AfterReadings(AfterReading(s, cap, batch[0].0, batch[0].1, now), cap, batch[1..], now)
  }

  /** Number of readings in the batch that carry a sensor id. */
  function AcceptedCount(batch: seq<(Reading, Detection)>): (n: nat)
    ensures n <= |batch|
  {
    if batch == [] then 0 else (if batch[0].0.sensorId.Some? then 1 else 0) + AcceptedCount(batch[1..])
  }

  /** The timeout rule for one sensor. */
  function TimedOutState(st: SensorState, now: int): SensorState {
    if st.status == Active && st.lastSeen.Some? && now - st.lastSeen.value > SensorTimeoutSeconds
    then st.(status := TimedOut)
    else st
  }

  /** `_check_sensor_timeouts` on the state. */
  function AfterTimeouts(s: MonitorState, now: int): MonitorState {
    s.(sensors := map sid | sid in s.sensors :: TimedOutState(s.sensors[sid], now))
  }

  /** `_get_alert_severity`: a total lookup with `medium` as default. */
  function AlertSeverity(alertType: string): (sev: Severity)
    ensures sev == Critical <==> alertType == "critical_sensor_anomaly"
    ensures sev == High <==> alertType == "consecutive_anomalies" || alertType == "sensor_timeout"
    ensures sev == Medium <==> alertType !in {"consecutive_anomalies", "sensor_timeout", "critical_sensor_anomaly"}
  {
    if alertType == "consecutive_anomalies" then High
    else if alertType == "high_anomaly_rate" then Medium
    else if alertType == "sensor_timeout" then High
    else if alertType == "critical_sensor_anomaly" then Critical
    else Medium
  }

  function MakeAlert(alertType: string, data: AlertData, now: int): Alert {
    Alert(alertType, now, AlertSeverity(alertType), data)
  }

  /** The `consecutive_anomalies` alerts for the sensors of `order`, in that order. */
  function ConsecutiveAlerts(order: seq<string>, sensors: map<string, SensorState>, now: int): seq<Alert>
    decreases |order|
  {
    if order == [] then []
    else
      var rest := ConsecutiveAlerts(order[..|order| - 1], sensors, now);
      var sid := order[|order| - 1];
      if sid in sensors && sensors[sid].consecutiveAnomalies >= ConsecutiveAnomalyLimit
      then rest + [MakeAlert("consecutive_anomalies", ConsecutiveData(sid, sensors[sid].consecutiveAnomalies, now), now)]
      else rest
  }

  /** How many sensors of `order` are at or above the consecutive-anomaly limit. */
  function AtLimitCount(order: seq<string>, sensors: map<string, SensorState>): (n: nat)
    ensures n <= |order|
    decreases |order|
  {
    if order == [] then 0
    else
      var sid := order[|order| - 1];
      AtLimitCount(order[..|order| - 1], sensors)
      + (if sid in sensors && sensors[sid].consecutiveAnomalies >= ConsecutiveAnomalyLimit then 1 else 0)
  }

  /** Number of flagged records (`sum(1 for r in ... if r.get('is_anomaly_detected', False))`). */
  function FlaggedCount(recs: seq<Record>): (n: nat)
    ensures n <= |recs|
    decreases |recs|
  {
    if recs == [] then 0
    else FlaggedCount(recs[..|recs| - 1]) + (if Flagged(recs[|recs| - 1]) then 1 else 0)
  }

  /** The `high_anomaly_rate` rule over the last 100 buffered records. */
  function RateAlerts(buffer: seq<Record>, now: int): seq<Alert> {
    if |buffer| >= RateWindow then
      var rate := FlaggedCount(Last(buffer, RateWindow)) as real / RateWindow as real;
      if rate > AnomalyRateThreshold
      then [MakeAlert("high_anomaly_rate", RateData(rate, AnomalyRateThreshold, now), now)]
      else []
    else []
  }

  /** `_analyze_alerts` on the state: every alert is queued and counted. */
  function AfterAlerts(s: MonitorState, now: int): MonitorState {
    var raised := ConsecutiveAlerts(s.sensorOrder, s.sensors, now) + RateAlerts(s.buffer, now);
    s.(alertQueue := s.alertQueue + raised, alertsRaised := s.alertsRaised + |raised|)
  }

  /** Number of sensors of `order` whose status is `status`. */
  function StatusCount(order: seq<string>, sensors: map<string, SensorState>, status: SensorStatus): (n: nat)
    ensures n <= |order|
    decreases |order|
  {
    if order == [] then 0
    else
      var sid := order[|order| - 1];
      StatusCount(order[..|order| - 1], sensors, status)
      + (if sid in sensors && sensors[sid].status == status then 1 else 0)
  }

  /** How many elements `get_recent_*` takes from a queue of length `n`. */
  function TakeCount(n: nat, limit: int): (k: nat)
    ensures k <= n
    ensures limit <= 0 ==> k == 0
    ensures limit > 0 ==> k == Min(limit, n)
  {
    if limit <= 0 then 0 else Min(limit, n)
  }

  /** The draining loop of `get_recent_anomalies` / `get_recent_alerts`. */
  method Drain<T>(queue: seq<T>, limit: int) returns (taken: seq<T>, rest: seq<T>)
    ensures |taken| == TakeCount(|queue|, limit)
    ensures taken + rest == queue
  {
    taken, rest := [], queue;
    while |taken| < limit && rest != []
      invariant taken + rest == queue
      invariant |taken| <= TakeCount(|queue|, limit)
      invariant |taken| < TakeCount(|queue|, limit) ==> rest != [] && |taken| < limit
      decreases |rest|
    {
      taken, rest := taken + [rest[0]], rest[1..];
    }
  }

  // ---------------------------------------------------------------- lemmas

  /** A reading without a sensor id changes nothing. */
  lemma MissingIdSkipped(s: MonitorState, cap: nat, r: Reading, d: Detection, now: int)
    requires r.sensorId.None?
    ensures AfterReading(s, cap, r, d, now) == s
  {
  }

  /** What an accepted reading does to the counters, the buffer and the queues. */
  lemma AcceptedReadingCounters(s: MonitorState, cap: nat, r: Reading, d: Detection, now: int)
    requires r.sensorId.Some?
    ensures var t := AfterReading(s, cap, r, d, now);
      var anomaly := d.Verdict? && d.isAnomaly;
      && t.totalReadings == s.totalReadings + 1
      && t.anomaliesDetected == s.anomaliesDetected + (if anomaly then 1 else 0)
      && t.buffer == Last(s.buffer + [Processed(r, d)], cap)
      && |t.buffer| <= cap
      && t.lastReadingTime == Some(r.timestamp.GetOr(now))
      && t.anomalyQueue ==
           (if anomaly && r.timestamp.Some?
            then s.anomalyQueue + [AnomalyEvent(r.timestamp.value, r.sensorId.value, Processed(r, d),
                                                StateOf(s, r.sensorId.value).consecutiveAnomalies + 1)]
            else s.anomalyQueue)
      && t.alertQueue == s.alertQueue && t.alertsRaised == s.alertsRaised
  {
    var sid := r.sensorId.value;
    var s1 := Intake(s, cap, sid, r.timestamp.GetOr(now), Processed(r, d));
    assert s1.sensors[sid].consecutiveAnomalies == StateOf(s, sid).consecutiveAnomalies;
  }

  /** What an accepted reading does to the sensor that sent it, and that no other sensor changes. */
  lemma AcceptedReadingSensor(s: MonitorState, cap: nat, r: Reading, d: Detection, now: int)
    requires r.sensorId.Some?
    ensures var t := AfterReading(s, cap, r, d, now);
      var sid := r.sensorId.value;
      && sid in t.sensors
      && t.sensors[sid].lastSeen == Some(r.timestamp.GetOr(now))
      && t.sensors[sid].status == Active
      && t.sensors[sid].recentReadings == Last(StateOf(s, sid).recentReadings + [Processed(r, d)], RecentCapacity)
      && t.sensors[sid].consecutiveAnomalies ==
           (if d.Verdict? && d.isAnomaly then StateOf(s, sid).consecutiveAnomalies + 1
            else if d.Verdict? then 0
            else StateOf(s, sid).consecutiveAnomalies)
      && (forall other :: other != sid ==> (other in t.sensors <==> other in s.sensors))
      && (forall other :: other != sid && other in s.sensors ==> t.sensors[other] == s.sensors[other])
  {
  }

  lemma {:induction false} AfterReadingInv(s: MonitorState, cap: nat, r: Reading, d: Detection, now: int)
    requires Inv(s, cap)
    ensures Inv(AfterReading(s, cap, r, d, now), cap)
  {
    if r.sensorId.Some? {
      var sid := r.sensorId.value;
      var t := AfterReading(s, cap, r, d, now);
      AcceptedReadingSensor(s, cap, r, d, now);
      if sid !in s.sensors {
        assert sid !in s.sensorOrder;
        assert t.sensorOrder == s.sensorOrder + [sid];
      } else {
        assert t.sensorOrder == s.sensorOrder;
      }
      assert forall x :: x in t.sensors <==> x in t.sensorOrder;
    }
  }

  /** `anomalies_detected <= total_readings` and the buffer bounds survive any batch of readings. */
  lemma {:induction false} AfterReadingsInv(s: MonitorState, cap: nat, batch: seq<(Reading, Detection)>, now: int)
    requires Inv(s, cap)
    ensures Inv(AfterReadings(s, cap, batch, now), cap)
    decreases |batch|
  {
    if batch != [] {
      AfterReadingInv(s, cap, batch[0].0, batch[0].1, now);
      AfterReadingsInv(AfterReading(s, cap, batch[0].0, batch[0].1, now), cap, batch[1..], now);
    }
  }

  /** A batch raises `total_readings` by exactly the number of readings that carry a sensor id. */
  lemma {:induction false} AfterReadingsTotal(s: MonitorState, cap: nat, batch: seq<(Reading, Detection)>, now: int)
    ensures AfterReadings(s, cap, batch, now).totalReadings == s.totalReadings + AcceptedCount(batch)
    ensures AfterReadings(s, cap, batch, now).anomaliesDetected <= s.anomaliesDetected + AcceptedCount(batch)
    decreases |batch|
  {
    if batch != [] {
      AfterReadingsTotal(AfterReading(s, cap, batch[0].0, batch[0].1, now), cap, batch[1..], now);
    }
  }

  /** The timeout check moves exactly the stale active sensors to `timeout` and changes nothing else. */
  lemma TimeoutsExact(s: MonitorState, now: int)
    ensures var t := AfterTimeouts(s, now);
      && t.sensors.Keys == s.sensors.Keys
      && t.sensorOrder == s.sensorOrder && t.buffer == s.buffer
      && t.anomalyQueue == s.anomalyQueue && t.alertQueue == s.alertQueue
      && t.totalReadings == s.totalReadings && t.anomaliesDetected == s.anomaliesDetected
      && t.alertsRaised == s.alertsRaised
      && forall sid :: sid in s.sensors ==>
           var before, after := s.sensors[sid], t.sensors[sid];
           var stale := before.status == Active && before.lastSeen.Some? && now - before.lastSeen.value > SensorTimeoutSeconds;
           && after == (if stale then before.(status := TimedOut) else before)
           && (after.status == TimedOut <==> before.status == TimedOut || stale)
  {
  }

  /** Checking twice at the same instant is the same as checking once. */
  lemma TimeoutsIdempotent(s: MonitorState, now: int)
    ensures AfterTimeouts(AfterTimeouts(s, now), now) == AfterTimeouts(s, now)
  {
    var t := AfterTimeouts(s, now);
    assert AfterTimeouts(t, now).sensors == t.sensors;
  }

  lemma TimeoutsInv(s: MonitorState, cap: nat, now: int)
    requires Inv(s, cap)
    ensures Inv(AfterTimeouts(s, now), cap)
  {
  }

  /** One `consecutive_anomalies` alert per sensor at or above the limit, carrying that sensor's counter. */
  lemma {:induction false} ConsecutiveAlertsExact(order: seq<string>, sensors: map<string, SensorState>, now: int)
    ensures var r := ConsecutiveAlerts(order, sensors, now);
      && |r| == AtLimitCount(order, sensors)
      && (forall k :: 0 <= k < |r| ==>
            && r[k].alertType == "consecutive_anomalies" && r[k].severity == High
            && r[k].data.ConsecutiveData?
            && r[k].data.sensorId in order
            && r[k].data.sensorId in sensors
            && r[k].data.count == sensors[r[k].data.sensorId].consecutiveAnomalies
            && r[k].data.count >= ConsecutiveAnomalyLimit)
      && (forall i :: (0 <= i < |order| && order[i] in sensors
                       && sensors[order[i]].consecutiveAnomalies >= ConsecutiveAnomalyLimit) ==>
            exists k :: 0 <= k < |r| && r[k].data == ConsecutiveData(order[i], sensors[order[i]].consecutiveAnomalies, now))
    decreases |order|
  {
    if order != [] {
      var front := order[..|order| - 1];
      ConsecutiveAlertsExact(front, sensors, now);
      var rest := ConsecutiveAlerts(front, sensors, now);
      var r := ConsecutiveAlerts(order, sensors, now);
      assert forall k :: 0 <= k < |rest| ==> r[k] == rest[k];
      forall i | 0 <= i < |order| && order[i] in sensors && sensors[order[i]].consecutiveAnomalies >= ConsecutiveAnomalyLimit
        ensures exists k :: 0 <= k < |r| && r[k].data == ConsecutiveData(order[i], sensors[order[i]].consecutiveAnomalies, now)
      {
        if i < |front| {
          assert front[i] == order[i];
          var k :| 0 <= k < |rest| && rest[k].data == ConsecutiveData(front[i], sensors[front[i]].consecutiveAnomalies, now);
          assert r[k] == rest[k];
        } else {
          assert r[|r| - 1].data == ConsecutiveData(order[i], sensors[order[i]].consecutiveAnomalies, now);
        }
      }
      forall k | 0 <= k < |r| ensures r[k].data.sensorId in order {
        if k < |rest| {
          assert r[k] == rest[k];
          assert rest[k].data.sensorId in front;
        }
      }
    }
  }

  /** The rate rule fires at most once, and exactly when at least 100 readings are buffered and more than 20 of the last 100 are flagged. */
  lemma RateAlertExact(buffer: seq<Record>, now: int)
    ensures var r := RateAlerts(buffer, now);
      && |r| <= 1
      && (|r| == 1 <==> |buffer| >= RateWindow && FlaggedCount(Last(buffer, RateWindow)) > 20)
      && (|r| == 1 ==> r[0].alertType == "high_anomaly_rate" && r[0].severity == Medium)
  {
  }

  /** Every alert raised by the analysis is queued and counted exactly once. */
  lemma AlertsCounted(s: MonitorState, cap: nat, now: int)
    requires Inv(s, cap)
    ensures var t := AfterAlerts(s, now);
      && Inv(t, cap)
      && t.alertsRaised == s.alertsRaised + AtLimitCount(s.sensorOrder, s.sensors) + |RateAlerts(s.buffer, now)|
      && t.alertQueue == s.alertQueue + ConsecutiveAlerts(s.sensorOrder, s.sensors, now) + RateAlerts(s.buffer, now)
  {
    ConsecutiveAlertsExact(s.sensorOrder, s.sensors, now);
  }

  /** Active and timed-out sensors together never outnumber the tracked sensors. */
  lemma {:induction false} StatusCountsBounded(order: seq<string>, sensors: map<string, SensorState>)
    ensures StatusCount(order, sensors, Active) + StatusCount(order, sensors, TimedOut) <= |order|
    decreases |order|
  {
    if order != [] {
      StatusCountsBounded(order[..|order| - 1], sensors);
    }
  }

  /** Over a key order without repetitions, the count is the number of listed sensors with that status. */
  lemma {:induction false} StatusCountCardinality(order: seq<string>, sensors: map<string, SensorState>, status: SensorStatus)
    requires Distinct(order)
    ensures StatusCount(order, sensors, status) == |set k | k in order && k in sensors && sensors[k].status == status|
    decreases |order|
  {
    if order != [] {
      var front, sid := order[..|order| - 1], order[|order| - 1];
      StatusCountCardinality(front, sensors, status);
      var before := set k | k in front && k in sensors && sensors[k].status == status;
      var after := set k | k in order && k in sensors && sensors[k].status == status;
      assert sid !in front;
      if sid in sensors && sensors[sid].status == status {
        assert after == before + {sid};
      } else {
        assert after == before;
      }
    }
  }

  /**
   * When the key order lists exactly the tracked sensors, each once, the count
   * is the number of tracked sensors with that status, as the list
   * comprehensions of `get_monitoring_stats` compute it.
   */
  lemma StatusCountExact(order: seq<string>, sensors: map<string, SensorState>, status: SensorStatus)
    ensures Distinct(order) && (forall sid :: sid in sensors <==> sid in order) ==>
      StatusCount(order, sensors, status) == |set k | k in sensors && sensors[k].status == status|
  {
    if Distinct(order) && (forall sid :: sid in sensors <==> sid in order) {
      StatusCountCardinality(order, sensors, status);
      assert (set k | k in order && k in sensors && sensors[k].status == status)
          == (set k | k in sensors && sensors[k].status == status);
    }
  }

  /** Skeleton of the monitoring loop's body: process a batch, check timeouts, analyse alerts. */
  lemma CycleInv(s: MonitorState, cap: nat, batch: seq<(Reading, Detection)>, now: int)
    requires Inv(s, cap)
    ensures Inv(AfterAlerts(AfterTimeouts(AfterReadings(s, cap, batch, now), now), now), cap)
  {
    AfterReadingsInv(s, cap, batch, now);
    TimeoutsInv(AfterReadings(s, cap, batch, now), cap, now);
    AlertsCounted(AfterTimeouts(AfterReadings(s, cap, batch, now), now), cap, now);
  }

  // ---------------------------------------------------------------- the monitor object

  class CableMonitor {
    const bufferSize: nat
    var isMonitoring: bool
    var startTime: Option<int>
    var dataBuffer: seq<Record>
    var anomalyQueue: seq<AnomalyEvent>
    var alertQueue: seq<Alert>
    var totalReadings: nat
    var anomaliesDetected: nat
    var alertsRaised: nat
    var lastReadingTime: Option<int>
    var sensorStates: map<string, SensorState>
    var sensorOrder: seq<string>
    /** Registered callbacks (opaque handles) per event type. */
    var callbacks: map<string, seq<nat>>

    function Snapshot(): MonitorState
      reads this
    {
      MonitorState(dataBuffer, anomalyQueue, alertQueue, totalReadings, anomaliesDetected,
                   alertsRaised, lastReadingTime, sensorStates, sensorOrder)
    }

    ghost predicate Valid()
      reads this
    {
      Inv(Snapshot(), bufferSize) && callbacks.Keys == EventTypes
    }

    constructor (bufferSize: nat)
      ensures Valid()
      ensures this.bufferSize == bufferSize && Snapshot() == InitialState()
      ensures !isMonitoring && startTime == None
      ensures callbacks == map["on_anomaly" := [], "on_alert" := [], "on_sensor_failure" := []]
    {
      this.bufferSize := bufferSize;
      isMonitoring, startTime := false, None;
      dataBuffer, anomalyQueue, alertQueue := [], [], [];
      totalReadings, anomaliesDetected, alertsRaised := 0, 0, 0;
      lastReadingTime := None;
      sensorStates, sensorOrder := map[], [];
      callbacks := map["on_anomaly" := [], "on_alert" := [], "on_sensor_failure" := []];
    }

    /** `add_callback`: registers under a known event type, otherwise raises and changes nothing. */
    method AddCallback(eventType: string, callback: nat) returns (r: Outcome<string>)
      requires Valid()
      modifies this
      ensures Valid() && Snapshot() == old(Snapshot())
      ensures r.Pass? <==> eventType in EventTypes
      ensures r.Pass? ==> callbacks == old(callbacks)[eventType := old(callbacks)[eventType] + [callback]]
      ensures r.Fail? ==> callbacks == old(callbacks)
      ensures isMonitoring == old(isMonitoring) && startTime == old(startTime)
    {
      if eventType in callbacks {
        callbacks := callbacks[eventType := callbacks[eventType] + [callback]];
        r := Pass;
      } else {
        r := Fail("Unknown event type: " + eventType);
      }
    }

    /** The non-thread part of `start_monitoring`: a second start is ignored. */
    method StartMonitoring(now: int) returns (started: bool)
      requires Valid()
      modifies this
      ensures Valid() && Snapshot() == old(Snapshot()) && callbacks == old(callbacks)
      ensures started == !old(isMonitoring)
      ensures isMonitoring
      ensures startTime == if started then Some(now) else old(startTime)
    {
      if isMonitoring {
        started := false;
        return;
      }
      isMonitoring := true;
      startTime := Some(now);
      started := true;
    }

    /** The flag part of `stop_monitoring`. */
    method StopMonitoring()
      requires Valid()
      modifies this
      ensures Valid() && Snapshot() == old(Snapshot()) && callbacks == old(callbacks)
      ensures !isMonitoring && startTime == old(startTime)
    {
      isMonitoring := false;
    }

    /** `_get_sensor_state`: the sensor's entry, created (and appended to the key order) when missing. */
    method GetSensorState(sid: string) returns (st: SensorState)
      requires Valid()
      modifies this
      ensures Valid()
      ensures sid in old(sensorStates) ==> sensorStates == old(sensorStates) && sensorOrder == old(sensorOrder)
      ensures sid !in old(sensorStates) ==>
        sensorStates == old(sensorStates)[sid := FreshSensorState()] && sensorOrder == old(sensorOrder) + [sid]
      ensures sid in sensorStates && st == sensorStates[sid] == StateOf(old(Snapshot()), sid)
      ensures dataBuffer == old(dataBuffer) && anomalyQueue == old(anomalyQueue) && alertQueue == old(alertQueue)
      ensures totalReadings == old(totalReadings) && anomaliesDetected == old(anomaliesDetected)
      ensures alertsRaised == old(alertsRaised) && lastReadingTime == old(lastReadingTime)
      ensures isMonitoring == old(isMonitoring) && startTime == old(startTime) && callbacks == old(callbacks)
    {
      if sid !in sensorStates {
        assert sid !in sensorOrder;
        sensorStates := sensorStates[sid := FreshSensorState()];
        sensorOrder := sensorOrder + [sid];
      }
      st := sensorStates[sid];
    }

    /** `_handle_anomaly`; `raised` reports the KeyError on a reading without a timestamp. */
    method HandleAnomaly(r: Reading, rec: Record, sid: string) returns (raised: bool)
      modifies this
      ensures Snapshot() == AfterAnomaly(old(Snapshot()), sid, r, rec)
      ensures raised == r.timestamp.None?
      ensures isMonitoring == old(isMonitoring) && startTime == old(startTime) && callbacks == old(callbacks)
    {
      anomaliesDetected := anomaliesDetected + 1;
      var st := if sid in sensorStates then sensorStates[sid] else FreshSensorState();
      var n := st.consecutiveAnomalies + 1;
      sensorStates := sensorStates[sid := st.(consecutiveAnomalies := n)];
      if r.timestamp.None? {
        raised := true;
        return;
      }
      anomalyQueue := anomalyQueue + [AnomalyEvent(r.timestamp.value, sid, rec, n)];
      raised := false;
    }

    /**
     * `_process_single_reading`. The reading dict that the source appends to the
     * buffer is the same object it later annotates with the detector's result;
     * the model appends that final record.
     */
    method ProcessSingleReading(r: Reading, d: Detection, now: int)
      requires Valid()
      modifies this
      ensures Valid()
      ensures Snapshot() == AfterReading(old(Snapshot()), bufferSize, r, d, now)
      ensures isMonitoring == old(isMonitoring) && startTime == old(startTime) && callbacks == old(callbacks)
    {
      AfterReadingInv(Snapshot(), bufferSize, r, d, now);
      if r.sensorId.None? {
        return;
      }
      var sid := r.sensorId.value;
      var rec := Processed(r, d);
      RecordIntake(sid, r.timestamp.GetOr(now), rec);
      if d.Verdict? {
        if d.isAnomaly {
          var _ := HandleAnomaly(r, rec, sid);
        } else {
          sensorStates := sensorStates[sid := sensorStates[sid].(consecutiveAnomalies := 0)];
        }
      }
    }

    /** The bookkeeping of `_process_single_reading` before the detector runs. */
    method RecordIntake(sid: string, ts: int, rec: Record)
      modifies this
      ensures Snapshot() == Intake(old(Snapshot()), bufferSize, sid, ts, rec)
      ensures isMonitoring == old(isMonitoring) && startTime == old(startTime) && callbacks == old(callbacks)
    {
      totalReadings := totalReadings + 1;
      lastReadingTime := Some(ts);
      dataBuffer := Last(dataBuffer + [rec], bufferSize);
      var st := if sid in sensorStates then sensorStates[sid] else FreshSensorState();
      if sid !in sensorStates {
        sensorOrder := sensorOrder + [sid];
      }
      sensorStates := sensorStates[sid := st.(lastSeen := Some(ts),
                                              recentReadings := Last(st.recentReadings + [rec], RecentCapacity),
                                              status := Active)];
    }

    /** `_process_readings` over a batch of (reading, verdict) pairs. */
    method ProcessReadings(batch: seq<(Reading, Detection)>, now: int)
      requires Valid()
      modifies this
      ensures Valid()
      ensures Snapshot() == AfterReadings(old(Snapshot()), bufferSize, batch, now)
      ensures isMonitoring == old(isMonitoring) && startTime == old(startTime) && callbacks == old(callbacks)
    {
      var i := 0;
      while i < |batch|
        invariant 0 <= i <= |batch|
        invariant Valid()
        invariant AfterReadings(Snapshot(), bufferSize, batch[i..], now) == AfterReadings(old(Snapshot()), bufferSize, batch, now)
        invariant isMonitoring == old(isMonitoring) && startTime == old(startTime) && callbacks == old(callbacks)
      {
        assert batch[i..][0] == batch[i] && batch[i..][1..] == batch[i + 1..];
        ProcessSingleReading(batch[i].0, batch[i].1, now);
        i := i + 1;
      }
      assert batch[i..] == [];
    }

    /** `_handle_sensor_timeout`: the sensor's status becomes `timeout`. */
    method HandleSensorTimeout(sid: string)
      requires sid in sensorStates
      modifies this`sensorStates
      ensures sensorStates == old(sensorStates)[sid := old(sensorStates)[sid].(status := TimedOut)]
    {
      sensorStates := sensorStates[sid := sensorStates[sid].(status := TimedOut)];
    }

    /** `_check_sensor_timeouts` at clock `now`. */
    method CheckSensorTimeouts(now: int)
      requires Valid()
      modifies this`sensorStates
      ensures Valid()
      ensures Snapshot() == AfterTimeouts(old(Snapshot()), now)
    {
      TimeoutsInv(Snapshot(), bufferSize, now);
      TimeOutSensors(now);
    }

    /** The loop of `_check_sensor_timeouts`, over the sensors in registration order. */
    method TimeOutSensors(now: int)
      requires forall sid :: sid in sensorStates <==> sid in sensorOrder
      modifies this`sensorStates
      ensures sensorStates == map sid | sid in old(sensorStates) :: TimedOutState(old(sensorStates)[sid], now)
    {
      ghost var before := sensorStates;
      ghost var visited: set<string> := {};
      var i := 0;
      while i < |sensorOrder|
        invariant 0 <= i <= |sensorOrder|
        invariant sensorStates.Keys == before.Keys
        invariant forall j :: 0 <= j < i ==> sensorOrder[j] in visited
        invariant forall sid :: sid in before ==>
          sensorStates[sid] == if sid in visited then TimedOutState(before[sid], now) else before[sid]
      {
        var sid := sensorOrder[i];
        var state := sensorStates[sid];
        if state.lastSeen.Some? && state.status == Active {
          if now - state.lastSeen.value > SensorTimeoutSeconds {
            HandleSensorTimeout(sid);
          }
        }
        visited := visited + {sid};
        i := i + 1;
      }
    }

    /** `_raise_alert`: one more alert counted and queued. */
    method RaiseAlert(alertType: string, data: AlertData, now: int)
      modifies this`alertsRaised, this`alertQueue
      ensures alertsRaised == old(alertsRaised) + 1
      ensures alertQueue == old(alertQueue) + [MakeAlert(alertType, data, now)]
    {
      alertsRaised := alertsRaised + 1;
      alertQueue := alertQueue + [Alert(alertType, now, AlertSeverity(alertType), data)];
    }

    /** `_analyze_alerts` at clock `now`. */
    method AnalyzeAlerts(now: int)
      requires Valid()
      modifies this
      ensures Valid()
      ensures Snapshot() == AfterAlerts(old(Snapshot()), now)
      ensures isMonitoring == old(isMonitoring) && startTime == old(startTime) && callbacks == old(callbacks)
    {
      ghost var s0 := Snapshot();
      ghost var consecutive := ConsecutiveAlerts(sensorOrder, sensorStates, now);
      RaiseConsecutiveAlerts(now);
      CheckAnomalyRate(now);
      assert alertQueue == s0.alertQueue + (consecutive + RateAlerts(s0.buffer, now));
      assert alertsRaised == s0.alertsRaised + |consecutive + RateAlerts(s0.buffer, now)|;
      assert Snapshot() == s0.(alertQueue := alertQueue, alertsRaised := alertsRaised);
    }

    /** The per-sensor half of `_analyze_alerts`. */
    method RaiseConsecutiveAlerts(now: int)
      modifies this`alertQueue, this`alertsRaised
      ensures alertQueue == old(alertQueue) + ConsecutiveAlerts(sensorOrder, sensorStates, now)
      ensures alertsRaised == old(alertsRaised) + |ConsecutiveAlerts(sensorOrder, sensorStates, now)|
    {
      var i := 0;
      while i < |sensorOrder|
        invariant 0 <= i <= |sensorOrder|
        invariant alertQueue == old(alertQueue) + ConsecutiveAlerts(sensorOrder[..i], sensorStates, now)
        invariant alertsRaised == old(alertsRaised) + |ConsecutiveAlerts(sensorOrder[..i], sensorStates, now)|
      {
        var sid := sensorOrder[i];
        assert sensorOrder[..i + 1][..i] == sensorOrder[..i];
        var count := if sid in sensorStates then sensorStates[sid].consecutiveAnomalies else 0;
        if count >= ConsecutiveAnomalyLimit {
          RaiseAlert("consecutive_anomalies", ConsecutiveData(sid, count, now), now);
        }
        i := i + 1;
      }
      assert sensorOrder[..i] == sensorOrder;
    }

    /** The rate half of `_analyze_alerts`. */
    method CheckAnomalyRate(now: int)
      modifies this`alertQueue, this`alertsRaised
      ensures alertQueue == old(alertQueue) + RateAlerts(dataBuffer, now)
      ensures alertsRaised == old(alertsRaised) + |RateAlerts(dataBuffer, now)|
    {
      if |dataBuffer| >= RateWindow {
        var anomalyCount := FlaggedCount(Last(dataBuffer, RateWindow));
        var rate := anomalyCount as real / RateWindow as real;
        if rate > AnomalyRateThreshold {
          RaiseAlert("high_anomaly_rate", RateData(rate, AnomalyRateThreshold, now), now);
        }
      }
    }

    /** One pass of the monitoring loop's body, without the sleep. */
    method MonitoringCycle(batch: seq<(Reading, Detection)>, now: int)
      requires Valid()
      modifies this
      ensures Valid()
      ensures Snapshot() == AfterAlerts(AfterTimeouts(AfterReadings(old(Snapshot()), bufferSize, batch, now), now), now)
      ensures isMonitoring == old(isMonitoring) && startTime == old(startTime) && callbacks == old(callbacks)
    {
      if batch != [] {
        ProcessReadings(batch, now);
      }
      CheckSensorTimeouts(now);
      AnalyzeAlerts(now);
    }

    /** `get_monitoring_stats`; dividing by a zero `buffer_size` raises. */
    function GetMonitoringStats(now: int): (r: Result<MonitoringStats, StatsError>)
      reads this
      ensures r.Failure? <==> bufferSize == 0
      ensures r.Success? ==>
        && r.value.isMonitoring == isMonitoring
        && r.value.lastReadingTime == lastReadingTime
        && (startTime.Some? ==> r.value.uptimeSeconds == now - startTime.value)
        && r.value.bufferUtilization * bufferSize as real == |dataBuffer| as real
        && r.value.activeSensors == StatusCount(sensorOrder, sensorStates, Active)
        && r.value.timeoutSensors == StatusCount(sensorOrder, sensorStates, TimedOut)
      ensures r.Success? && Distinct(sensorOrder) && (forall sid :: sid in sensorStates <==> sid in sensorOrder) ==>
        && r.value.activeSensors == |set k | k in sensorStates && sensorStates[k].status == Active|
        && r.value.timeoutSensors == |set k | k in sensorStates && sensorStates[k].status == TimedOut|
      ensures r.Success? ==>
        && r.value.totalReadings == totalReadings
        && r.value.anomaliesDetected == anomaliesDetected
        && r.value.alertsRaised == alertsRaised
        && (totalReadings == 0 ==> r.value.anomalyRate == anomaliesDetected as real)
        && (totalReadings > 0 ==> r.value.anomalyRate * totalReadings as real == anomaliesDetected as real)
        && (anomaliesDetected <= totalReadings ==> 0.0 <= r.value.anomalyRate <= 1.0)
        && r.value.activeSensors + r.value.timeoutSensors <= |sensorOrder|
        && (startTime.None? ==> r.value.uptimeSeconds == 0)
        && (|dataBuffer| <= bufferSize ==> 0.0 <= r.value.bufferUtilization <= 1.0)
    {
      if bufferSize == 0 then Failure(ZeroDivision)
      else
        StatusCountsBounded(sensorOrder, sensorStates);
        StatusCountExact(sensorOrder, sensorStates, Active);
        StatusCountExact(sensorOrder, sensorStates, TimedOut);
        var denominator := if totalReadings > 1 then totalReadings else 1;
        FractionBounded(anomaliesDetected, denominator);
        FractionBounded(|dataBuffer|, bufferSize);
        Success(MonitoringStats(
          isMonitoring,
          if startTime.Some? then now - startTime.value else 0,
          totalReadings, anomaliesDetected, alertsRaised,
          anomaliesDetected as real / denominator as real,
          StatusCount(sensorOrder, sensorStates, Active),
          StatusCount(sensorOrder, sensorStates, TimedOut),
          |dataBuffer| as real / bufferSize as real,
          lastReadingTime))
    }

    /** `get_recent_anomalies`: at most `limit` events, oldest first, removed from the queue. */
    method GetRecentAnomalies(limit: int) returns (events: seq<AnomalyEvent>)
      requires Valid()
      modifies this`anomalyQueue
      ensures Valid()
      ensures |events| == TakeCount(|old(anomalyQueue)|, limit)
      ensures old(anomalyQueue) == events + anomalyQueue
    {
      events, anomalyQueue := Drain(anomalyQueue, limit);
    }

    /** `get_recent_alerts`: at most `limit` alerts, oldest first, removed from the queue. */
    method GetRecentAlerts(limit: int) returns (alerts: seq<Alert>)
      requires Valid()
      modifies this`alertQueue
      ensures Valid()
      ensures |alerts| == TakeCount(|old(alertQueue)|, limit)
      ensures old(alertQueue) == alerts + alertQueue
    {
      alerts, alertQueue := Drain(alertQueue, limit);
    }
  }
}
