/**
 * The cable network shared by both simulator variants: a table of cables in
 * insertion order, each with a table of sensors in insertion order.
 *
 * Python's dictionaries keyed by `cable_{c}` and `sensor_{c}_{s}` become
 * sequences of records that carry their key; `IndexOf` over the keys is the
 * dictionary lookup. Every random draw of the source is a parameter: a
 * `CableDraw` per cable, a sensor type per (cable, sensor), a `ReadingDraw`
 * per reading and a `pick` for the sensor that fails.
 */
module NetworkModel {
  import opened Wrappers
  import opened Seqs
  import opened Strings

  datatype SensorType = Temperature | Pressure | Vibration | Electrical
  datatype SensorStatus = SensorActive | SensorFailed
  datatype CableStatus = Operational | Damaged
  /** The three voltage ratings a cable is drawn from, in kV. */
  datatype VoltageChoice = V220 | V400 | V500

  const DefaultAnomalyProb: real := 0.05
  /** `simulate_step` advances the clock by one minute. */
  const StepSeconds: int := 60
  const SecondsPerDay: int := 86400

  datatype Sensor = Sensor(id: string, positionKm: real, kind: SensorType, status: SensorStatus, lastReading: Option<int>)

  datatype Cable = Cable(
    id: string,
    lengthKm: real,
    depthM: real,
    voltageRating: int,
    sensors: seq<Sensor>,
    status: CableStatus,
    installedAt: int)

  /** The draws made while creating one cable. */
  datatype CableDraw = CableDraw(lengthKm: real, depthM: real, voltage: VoltageChoice, ageDays: int)

  /** The draws made while generating one reading. */
  datatype ReadingDraw = ReadingDraw(
    tempNoise: real, pressureNoise: real, vibration: real, electricalNoise: real,
    roll: real,    // `np.random.random()`, compared against the anomaly probability
    spike: real)   // the offset or factor of an injected anomaly

  datatype SensorReading = SensorReading(
    timestamp: int, cableId: string, sensorId: string, sensorType: SensorType,
    value: real, positionKm: real, depthM: real, isAnomaly: bool)

  datatype LookupError = CableNotFound(cableId: string) | SensorNotFound(cableId: string, sensorId: string)

  datatype NetworkStatus = NetworkStatus(
    totalCables: nat, totalSensors: nat, activeSensors: nat, simulationTime: int, networkHealth: real)

  function Kilovolts(v: VoltageChoice): int {
    match v
    case V220 => 220
    case V400 => 400
    case V500 => 500
  }

  // ---------------------------------------------------------------- names

  function CableName(c: nat): string {
    "cable_" + NatToString(c)
  }

  function SensorName(c: nat, s: nat): string {
    "sensor_" + NatToString(c) + "_" + NatToString(s)
  }

  lemma CableNameInjective(a: nat, b: nat)
    requires CableName(a) == CableName(b)
    ensures a == b
  {
    assert NatToString(a) == CableName(a)[6..];
    assert NatToString(b) == CableName(b)[6..];
    NatToStringInjective(a, b);
  }

  /** Sensor names never collide, not even across cables (`sensor_1_23` is not `sensor_12_3`). */
  lemma SensorNameInjective(c1: nat, s1: nat, c2: nat, s2: nat)
    requires SensorName(c1, s1) == SensorName(c2, s2)
    ensures c1 == c2 && s1 == s2
  {
    var a, b, c, d := NatToString(c1), NatToString(s1), NatToString(c2), NatToString(s2);
    assert a + ['_'] + b == SensorName(c1, s1)[7..];
    assert c + ['_'] + d == SensorName(c2, s2)[7..];
    DigitsHaveNoUnderscore(a);
    DigitsHaveNoUnderscore(c);
    SplitAtSeparator(a, b, c, d, '_');
    NatToStringInjective(c1, c2);
    NatToStringInjective(s1, s2);
  }

  function CableIds(cables: seq<Cable>): (ids: seq<string>)
    ensures |ids| == |cables|
    ensures forall c :: 0 <= c < |cables| ==> ids[c] == cables[c].id
  {
    seq(|cables|, c requires 0 <= c < |cables| => cables[c].id)
  }

  function SensorIds(sensors: seq<Sensor>): (ids: seq<string>)
    ensures |ids| == |sensors|
    ensures forall s :: 0 <= s < |sensors| ==> ids[s] == sensors[s].id
  {
    seq(|sensors|, s requires 0 <= s < |sensors| => sensors[s].id)
  }

  /** The naming invariant: cable `c` is keyed `cable_{c}` and its sensor `s` is keyed `sensor_{c}_{s}`. */
  predicate WellNamed(cables: seq<Cable>) {
    forall c :: 0 <= c < |cables| ==>
      cables[c].id == CableName(c) &&
      forall s :: 0 <= s < |cables[c].sensors| ==> cables[c].sensors[s].id == SensorName(c, s)
  }

  /** In a well-named network each key is found at its own position. */
  lemma LookupWellNamed(cables: seq<Cable>, c: nat, s: nat)
    requires WellNamed(cables) && c < |cables| && s < |cables[c].sensors|
    ensures IndexOf(CableIds(cables), CableName(c)) == Some(c)
    ensures IndexOf(SensorIds(cables[c].sensors), SensorName(c, s)) == Some(s)
  {
    var ids := CableIds(cables);
    forall i, j | 0 <= i < j < |ids| ensures ids[i] != ids[j] {
      if ids[i] == ids[j] {
        CableNameInjective(i, j);
      }
    }
    IndexOfDistinct(ids, c);
    var sids := SensorIds(cables[c].sensors);
    forall i, j | 0 <= i < j < |sids| ensures sids[i] != sids[j] {
      if sids[i] == sids[j] {
        SensorNameInjective(c, i, c, j);
      }
    }
    IndexOfDistinct(sids, s);
  }

  // ---------------------------------------------------------------- construction

  /** `len(range(n))`. */
  function RangeLength(n: int): nat {
    if n > 0 then n else 0
  }

  /** `(s + 1) * (length / n)`: where sensor `s` of `n` sits along the cable. */
  function Position(s: nat, lengthKm: real, n: nat): real
    requires n > 0
  {
    (s + 1) as real * (lengthKm / n as real)
  }

  /** Sensors are spread strictly increasingly along a cable of positive length. */
  lemma PositionsIncrease(s: nat, t: nat, lengthKm: real, n: nat)
    requires n > 0 && lengthKm > 0.0 && s < t
    ensures Position(s, lengthKm, n) < Position(t, lengthKm, n)
  {
    var step := lengthKm / n as real;
    assert step > 0.0;
    assert (t + 1) as real * step == (s + 1) as real * step + (t - s) as real * step;
  }

  /** The last sensor sits at the cable's end, and every sensor lies on the cable. */
  lemma PositionsOnCable(s: nat, lengthKm: real, n: nat)
    requires n > 0 && s < n && lengthKm >= 0.0
    ensures lengthKm > 0.0 ==> 0.0 < Position(s, lengthKm, n)
    ensures Position(s, lengthKm, n) <= lengthKm
    ensures Position(n - 1, lengthKm, n) == lengthKm
  {
    var step := lengthKm / n as real;
    assert step * n as real == lengthKm;
    assert step >= 0.0;
    assert lengthKm - Position(s, lengthKm, n) == (n - 1 - s) as real * step;
  }

  function NewSensor(c: nat, s: nat, lengthKm: real, n: nat, kind: SensorType): Sensor
    requires n > 0
  {
    Sensor(SensorName(c, s), Position(s, lengthKm, n), kind, SensorActive, None)
  }

  /** The first `k` of the `n` sensors `_create_sensors_for_cable` creates for cable `c`. */
  function InitialSensors(c: nat, lengthKm: real, n: nat, kinds: (nat, nat) -> SensorType, k: nat): seq<Sensor>
    requires k <= n
  {
    if k == 0 then [] else InitialSensors(c, lengthKm, n, kinds, k - 1) + [NewSensor(c, k - 1, lengthKm, n, kinds(c, k - 1))]
  }

  function NewCable(c: nat, d: CableDraw, n: nat, kinds: (nat, nat) -> SensorType, now: int): Cable {
    Cable(CableName(c), d.lengthKm, d.depthM, Kilovolts(d.voltage) * 1000,
          InitialSensors(c, d.lengthKm, n, kinds, n), Operational, now - d.ageDays * SecondsPerDay)
  }

  /** The first `k` cables of the network built at time `now`. */
  function InitialCables(k: nat, n: nat, draws: nat -> CableDraw, kinds: (nat, nat) -> SensorType, now: int): seq<Cable> {
    if k == 0 then [] else InitialCables(k - 1, n, draws, kinds, now) + [NewCable(k - 1, draws(k - 1), n, kinds, now)]
  }

  lemma {:induction false} InitialSensorsAt(c: nat, lengthKm: real, n: nat, kinds: (nat, nat) -> SensorType, k: nat)
    requires k <= n
    ensures |InitialSensors(c, lengthKm, n, kinds, k)| == k
    ensures forall s :: 0 <= s < k ==> InitialSensors(c, lengthKm, n, kinds, k)[s] == NewSensor(c, s, lengthKm, n, kinds(c, s))
  {
    if k > 0 {
      InitialSensorsAt(c, lengthKm, n, kinds, k - 1);
    }
  }

  lemma {:induction false} InitialCablesAt(k: nat, n: nat, draws: nat -> CableDraw, kinds: (nat, nat) -> SensorType, now: int)
    ensures |InitialCables(k, n, draws, kinds, now)| == k
    ensures forall c :: 0 <= c < k ==> InitialCables(k, n, draws, kinds, now)[c] == NewCable(c, draws(c), n, kinds, now)
  {
    if k > 0 {
      InitialCablesAt(k - 1, n, draws, kinds, now);
    }
  }

  /**
   * The network built for `numCables` cables of `numSensors` sensors each:
   * the right number of cables, the right names, every cable operational, every
   * sensor active with no reading yet, at position (s + 1) * length / n.
   */
  lemma InitialNetworkShape(numCables: int, numSensors: int, draws: nat -> CableDraw, kinds: (nat, nat) -> SensorType, now: int)
    ensures var cs := InitialCables(RangeLength(numCables), RangeLength(numSensors), draws, kinds, now);
      && |cs| == RangeLength(numCables)
      && WellNamed(cs)
      && forall c :: 0 <= c < |cs| ==>
           && cs[c].status == Operational
           && cs[c].lengthKm == draws(c).lengthKm
           && |cs[c].sensors| == RangeLength(numSensors)
           && forall s :: 0 <= s < |cs[c].sensors| ==>
                && cs[c].sensors[s].status == SensorActive
                && cs[c].sensors[s].lastReading == None
                && cs[c].sensors[s].kind == kinds(c, s)
                && cs[c].sensors[s].positionKm == Position(s, draws(c).lengthKm, RangeLength(numSensors))
  {
    var n := RangeLength(numSensors);
    var cs := InitialCables(RangeLength(numCables), n, draws, kinds, now);
    InitialCablesAt(RangeLength(numCables), n, draws, kinds, now);
    forall c | 0 <= c < |cs|
      ensures |cs[c].sensors| == n
      ensures forall s :: 0 <= s < n ==> cs[c].sensors[s] == NewSensor(c, s, draws(c).lengthKm, n, kinds(c, s))
    {
      InitialSensorsAt(c, draws(c).lengthKm, n, kinds, n);
    }
  }

  /** The new network has `numCables * numSensors` sensors, all of them active. */
  lemma InitialNetworkCounts(numCables: int, numSensors: int, draws: nat -> CableDraw, kinds: (nat, nat) -> SensorType, now: int)
    ensures var cs := InitialCables(RangeLength(numCables), RangeLength(numSensors), draws, kinds, now);
      && SensorCount(cs) == RangeLength(numCables) * RangeLength(numSensors)
      && ActiveCount(cs) == SensorCount(cs)
  {
    var cs := InitialCables(RangeLength(numCables), RangeLength(numSensors), draws, kinds, now);
    InitialNetworkShape(numCables, numSensors, draws, kinds, now);
    UniformSensorCount(cs, RangeLength(numSensors));
    AllActiveCount(cs);
  }

  // ---------------------------------------------------------------- counting

  /** Number of active sensors in one cable's table. */
  function ActiveIn(sensors: seq<Sensor>): (n: nat)
    ensures n <= |sensors|
  {
    if sensors == [] then 0
    else ActiveIn(sensors[..|sensors| - 1]) + (if sensors[|sensors| - 1].status == SensorActive then 1 else 0)
  }

  /** `sum(len(cable["sensors"]) for cable in ...)`. */
  function SensorCount(cables: seq<Cable>): nat {
    if cables == [] then 0 else SensorCount(cables[..|cables| - 1]) + |cables[|cables| - 1].sensors|
  }

  /** The active sensors summed over all cables. */
  function ActiveCount(cables: seq<Cable>): nat {
    if cables == [] then 0 else ActiveCount(cables[..|cables| - 1]) + ActiveIn(cables[|cables| - 1].sensors)
  }

  lemma {:induction false} ActiveAtMostSensors(cables: seq<Cable>)
    ensures ActiveCount(cables) <= SensorCount(cables)
  {
    if cables != [] {
      ActiveAtMostSensors(cables[..|cables| - 1]);
    }
  }

  lemma {:induction false} UniformSensorCount(cables: seq<Cable>, n: nat)
    requires forall c :: 0 <= c < |cables| ==> |cables[c].sensors| == n
    ensures SensorCount(cables) == |cables| * n
  {
    if cables != [] {
      UniformSensorCount(cables[..|cables| - 1], n);
    }
  }

  lemma {:induction false} ActiveInAll(sensors: seq<Sensor>)
    ensures ActiveIn(sensors) == |sensors| <==> forall s :: 0 <= s < |sensors| ==> sensors[s].status == SensorActive
    ensures ActiveIn(sensors) == 0 <==> forall s :: 0 <= s < |sensors| ==> sensors[s].status == SensorFailed
  {
    if sensors != [] {
      var front := sensors[..|sensors| - 1];
      ActiveInAll(front);
      assert forall s :: 0 <= s < |front| ==> front[s] == sensors[s];
    }
  }

  lemma {:induction false} AllActiveCount(cables: seq<Cable>)
    requires forall c, s :: 0 <= c < |cables| && 0 <= s < |cables[c].sensors| ==> cables[c].sensors[s].status == SensorActive
    ensures ActiveCount(cables) == SensorCount(cables)
  {
    if cables != [] {
      var front := cables[..|cables| - 1];
      assert forall c :: 0 <= c < |front| ==> front[c] == cables[c];
      AllActiveCount(front);
      ActiveInAll(cables[|cables| - 1].sensors);
    }
  }

  /** Replacing one cable's sensor table changes the totals by that table's difference. */
  lemma {:induction false} CountsAfterReplace(cables: seq<Cable>, c: nat, x: Cable)
    requires c < |cables|
    ensures ActiveCount(cables[c := x]) == ActiveCount(cables) - ActiveIn(cables[c].sensors) + ActiveIn(x.sensors)
    ensures SensorCount(cables[c := x]) == SensorCount(cables) - |cables[c].sensors| + |x.sensors|
  {
    var t := cables[c := x];
    var n := |cables| - 1;
    if c == n {
      assert t[..n] == cables[..n];
    } else {
      assert t[..n] == cables[..n][c := x];
      CountsAfterReplace(cables[..n], c, x);
    }
  }

  /** Failing one active sensor lowers the cable's active count by exactly one. */
  lemma {:induction false} ActiveInAfterFail(sensors: seq<Sensor>, j: nat)
    requires j < |sensors| && sensors[j].status == SensorActive
    ensures ActiveIn(sensors[j := sensors[j].(status := SensorFailed)]) == ActiveIn(sensors) - 1
  {
    var t := sensors[j := sensors[j].(status := SensorFailed)];
    var n := |sensors| - 1;
    if j == n {
      assert t[..n] == sensors[..n];
    } else {
      assert t[..n] == sensors[..n][j := sensors[j].(status := SensorFailed)];
      ActiveInAfterFail(sensors[..n], j);
    }
  }

  /** `get_network_status`: counts over the tables and the active fraction (0 for an empty network). */
  function StatusOf(cables: seq<Cable>, time: int): (r: NetworkStatus)
    ensures r.totalCables == |cables| && r.simulationTime == time
    ensures r.totalSensors == SensorCount(cables) && r.activeSensors == ActiveCount(cables)
    ensures r.activeSensors <= r.totalSensors
    ensures 0.0 <= r.networkHealth <= 1.0
    ensures r.totalSensors == 0 ==> r.networkHealth == 0.0
    ensures r.totalSensors > 0 ==> r.networkHealth * r.totalSensors as real == r.activeSensors as real
    ensures r.networkHealth == 1.0 <==> r.totalSensors > 0 && r.activeSensors == r.totalSensors
  {
    ActiveAtMostSensors(cables);
    var total, active := SensorCount(cables), ActiveCount(cables);
    if total > 0 then
      FractionFacts(active, total);
      NetworkStatus(|cables|, total, active, time, active as real / total as real)
    else
      NetworkStatus(|cables|, total, active, time, 0.0)
  }

  // ---------------------------------------------------------------- readings

  /** The un-anomalous value of a sensor of type `kind` on `cable`. */
  function BaseValue(cable: Cable, kind: SensorType, d: ReadingDraw): real {
    match kind
    case Temperature => 4.0 + d.tempNoise
    case Pressure => cable.depthM * 0.1 + d.pressureNoise
    case Vibration => d.vibration
    case Electrical => cable.voltageRating as real * (1.0 + d.electricalNoise)
  }

  /** An injected anomaly: a spike added to temperature and vibration, a factor on pressure and voltage. */
  function Injected(kind: SensorType, value: real, spike: real): real {
    match kind
    case Temperature => value + spike
    case Pressure => value * spike
    case Vibration => value + spike
    case Electrical => value * spike
  }

  /** The reading `generate_sensor_data` builds for a sensor it found. */
  function MakeReading(cable: Cable, sensor: Sensor, time: int, d: ReadingDraw, prob: real): (r: SensorReading)
    ensures r.isAnomaly <==> d.roll < prob
    ensures r.timestamp == time && r.cableId == cable.id && r.sensorId == sensor.id
    ensures !r.isAnomaly ==> r.value == BaseValue(cable, sensor.kind, d)
  {
    var base := BaseValue(cable, sensor.kind, d);
    var isAnomaly := d.roll < prob;
    SensorReading(time, cable.id, sensor.id, sensor.kind,
                  if isAnomaly then Injected(sensor.kind, base, d.spike) else base,
                  sensor.positionKm, cable.depthM, isAnomaly)
  }

  /** `generate_sensor_data` with its two lookup failures. */
  function Generate(cables: seq<Cable>, cableId: string, sensorId: string, time: int, d: ReadingDraw, prob: real)
    : (r: Result<SensorReading, LookupError>)
    ensures r == Failure(CableNotFound(cableId)) <==> cableId !in CableIds(cables)
    ensures r.Failure? ==> r.error.cableId == cableId
    ensures r.Failure? && r.error.SensorNotFound? ==>
      r.error.sensorId == sensorId &&
      exists c :: 0 <= c < |cables| && cables[c].id == cableId && sensorId !in SensorIds(cables[c].sensors)
    ensures var found := IndexOf(CableIds(cables), cableId);
      found.Some? && sensorId in SensorIds(cables[found.value].sensors) ==> r.Success?
    ensures r.Success? ==>
      && exists c, s :: 0 <= c < |cables| && 0 <= s < |cables[c].sensors|
           && cables[c].id == cableId && cables[c].sensors[s].id == sensorId
           && r.value == MakeReading(cables[c], cables[c].sensors[s], time, d, prob)
  {
    match IndexOf(CableIds(cables), cableId)
    case None => Failure(CableNotFound(cableId))
    case Some(c) =>
      match IndexOf(SensorIds(cables[c].sensors), sensorId)
      case None => Failure(SensorNotFound(cableId, sensorId))
      case Some(s) => Success(MakeReading(cables[c], cables[c].sensors[s], time, d, prob))
  }

  /** In a well-named network the lookup always succeeds for the keys of an existing sensor. */
  lemma GenerateFinds(cables: seq<Cable>, c: nat, s: nat, time: int, d: ReadingDraw, prob: real)
    requires WellNamed(cables) && c < |cables| && s < |cables[c].sensors|
    ensures Generate(cables, CableName(c), SensorName(c, s), time, d, prob)
         == Success(MakeReading(cables[c], cables[c].sensors[s], time, d, prob))
  {
    LookupWellNamed(cables, c, s);
  }

  /** The readings for the active sensors of one cable (index `c`), in table order. */
  function CableReadings(cable: Cable, sensors: seq<Sensor>, c: nat, time: int, draw: (nat, nat) -> ReadingDraw): seq<SensorReading> {
    if sensors == [] then []
    else
      var s := |sensors| - 1;
      CableReadings(cable, sensors[..s], c, time, draw)
      + (if sensors[s].status == SensorActive then [MakeReading(cable, sensors[s], time, draw(c, s), DefaultAnomalyProb)] else [])
  }

  /** The readings `simulate_step` returns: cables in order, then sensors in order. */
  function StepReadings(cables: seq<Cable>, time: int, draw: (nat, nat) -> ReadingDraw): seq<SensorReading> {
    if cables == [] then []
    else
      var c := |cables| - 1;
      StepReadings(cables[..c], time, draw) + CableReadings(cables[c], cables[c].sensors, c, time, draw)
  }

  /** The (cable, sensor) positions of the active sensors of one cable. */
  function CableRefs(sensors: seq<Sensor>, c: nat): seq<(nat, nat)> {
    if sensors == [] then []
    else
      var s := |sensors| - 1;
      CableRefs(sensors[..s], c) + (if sensors[s].status == SensorActive then [(c, s)] else [])
  }

  /** The (cable, sensor) positions of all active sensors, in `simulate_step`'s order. */
  function ActiveRefs(cables: seq<Cable>): seq<(nat, nat)> {
    if cables == [] then []
    else
      var c := |cables| - 1;
      ActiveRefs(cables[..c]) + CableRefs(cables[c].sensors, c)
  }

  lemma {:induction false} CableRefsExact(sensors: seq<Sensor>, c: nat)
    ensures |CableRefs(sensors, c)| == ActiveIn(sensors)
    ensures forall p :: p in CableRefs(sensors, c) <==>
      p.0 == c && p.1 < |sensors| && sensors[p.1].status == SensorActive
  {
    if sensors != [] {
      var s := |sensors| - 1;
      CableRefsExact(sensors[..s], c);
    }
  }

  /** The positions of active sensors ascend: cable first, then sensor. */
  predicate Ascending(refs: seq<(nat, nat)>) {
    forall i, j :: 0 <= i < j < |refs| ==> refs[i].0 < refs[j].0 || (refs[i].0 == refs[j].0 && refs[i].1 < refs[j].1)
  }

  lemma {:induction false} CableRefsAscending(sensors: seq<Sensor>, c: nat)
    ensures Ascending(CableRefs(sensors, c))
  {
    if sensors != [] {
      var s := |sensors| - 1;
      CableRefsAscending(sensors[..s], c);
      CableRefsExact(sensors[..s], c);
      var front := CableRefs(sensors[..s], c);
      assert forall i :: 0 <= i < |front| ==> front[i] in front;
    }
  }

  /**
   * The active positions, cable by cable: exactly the active sensors, each once,
   * in table order.
   */
  lemma {:induction false} ActiveRefsExact(cables: seq<Cable>)
    ensures |ActiveRefs(cables)| == ActiveCount(cables)
    ensures Ascending(ActiveRefs(cables))
    ensures forall p :: p in ActiveRefs(cables) <==>
      p.0 < |cables| && p.1 < |cables[p.0].sensors| && cables[p.0].sensors[p.1].status == SensorActive
  {
    if cables != [] {
      var c := |cables| - 1;
      var front := cables[..c];
      ActiveRefsExact(front);
      CableRefsExact(cables[c].sensors, c);
      CableRefsAscending(cables[c].sensors, c);
      var a, b := ActiveRefs(front), CableRefs(cables[c].sensors, c);
      assert forall i :: 0 <= i < |a| ==> a[i] in a;
      assert forall i :: 0 <= i < |b| ==> b[i] in b;
      assert forall k :: 0 <= k < c ==> front[k] == cables[k];
    }
  }

  lemma {:induction false} CableReadingsMatch(cable: Cable, sensors: seq<Sensor>, c: nat, time: int, draw: (nat, nat) -> ReadingDraw)
    ensures var rs, refs := CableReadings(cable, sensors, c, time, draw), CableRefs(sensors, c);
      && |rs| == |refs|
      && forall i :: 0 <= i < |rs| ==>
           refs[i].0 == c && refs[i].1 < |sensors| &&
           rs[i] == MakeReading(cable, sensors[refs[i].1], time, draw(c, refs[i].1), DefaultAnomalyProb)
  {
    if sensors != [] {
      var s := |sensors| - 1;
      CableReadingsMatch(cable, sensors[..s], c, time, draw);
    }
  }

  /**
   * `simulate_step`'s readings: one per active sensor, in the order of the
   * active positions, each generated at the step's time from that sensor's draw.
   */
  lemma {:induction false} StepReadingsMatch(cables: seq<Cable>, time: int, draw: (nat, nat) -> ReadingDraw)
    ensures var rs, refs := StepReadings(cables, time, draw), ActiveRefs(cables);
      && |rs| == |refs| == ActiveCount(cables)
      && forall i :: 0 <= i < |rs| ==>
           refs[i].0 < |cables| && refs[i].1 < |cables[refs[i].0].sensors| &&
           rs[i] == MakeReading(cables[refs[i].0], cables[refs[i].0].sensors[refs[i].1], time,
                                draw(refs[i].0, refs[i].1), DefaultAnomalyProb)
  {
    ActiveRefsExact(cables);
    if cables != [] {
      var c := |cables| - 1;
      var front := cables[..c];
      StepReadingsMatch(front, time, draw);
      CableReadingsMatch(cables[c], cables[c].sensors, c, time, draw);
      assert forall k :: 0 <= k < c ==> front[k] == cables[k];
    }
  }

  /** Every reading of a step carries the step's time, and its flag is the draw's roll below 0.05. */
  lemma StepReadingsFacts(cables: seq<Cable>, time: int, draw: (nat, nat) -> ReadingDraw)
    ensures var rs, refs := StepReadings(cables, time, draw), ActiveRefs(cables);
      forall i :: 0 <= i < |rs| ==>
        rs[i].timestamp == time &&
        i < |refs| && refs[i].0 < |cables| && refs[i].1 < |cables[refs[i].0].sensors| &&
        cables[refs[i].0].sensors[refs[i].1].status == SensorActive &&
        rs[i].cableId == cables[refs[i].0].id && rs[i].sensorId == cables[refs[i].0].sensors[refs[i].1].id &&
        (rs[i].isAnomaly <==> draw(refs[i].0, refs[i].1).roll < DefaultAnomalyProb)
  {
    StepReadingsMatch(cables, time, draw);
    ActiveRefsExact(cables);
    var refs := ActiveRefs(cables);
    assert forall i :: 0 <= i < |refs| ==> refs[i] in refs;
  }

  // ---------------------------------------------------------------- state changes

  /** Two networks with the same keys in the same places. */
  predicate SameLayout(a: seq<Cable>, b: seq<Cable>) {
    && |a| == |b|
    && forall c :: 0 <= c < |a| ==>
         a[c].id == b[c].id && |a[c].sensors| == |b[c].sensors| &&
         forall s :: 0 <= s < |a[c].sensors| ==> a[c].sensors[s].id == b[c].sensors[s].id
  }

  lemma SameLayoutWellNamed(a: seq<Cable>, b: seq<Cable>)
    requires SameLayout(a, b) && WellNamed(a)
    ensures WellNamed(b) && CableIds(b) == CableIds(a)
  {
  }

  /** What `simulate_step` stamps on a sensor: the step time, for active sensors only. */
  function MarkSensor(x: Sensor, time: int): Sensor {
    if x.status == SensorActive then x.(lastReading := Some(time)) else x
  }

  function MarkRead(sensors: seq<Sensor>, time: int): (r: seq<Sensor>)
    ensures |r| == |sensors|
    ensures forall s :: 0 <= s < |sensors| ==> r[s] == MarkSensor(sensors[s], time)
  {
    seq(|sensors|, s requires 0 <= s < |sensors| => MarkSensor(sensors[s], time))
  }

  /** The tables after a step of the simulator that records `last_reading`. */
  function MarkCables(cables: seq<Cable>, time: int): (r: seq<Cable>)
    ensures |r| == |cables|
    ensures forall c :: 0 <= c < |cables| ==> r[c] == cables[c].(sensors := MarkRead(cables[c].sensors, time))
  {
    seq(|cables|, c requires 0 <= c < |cables| => cables[c].(sensors := MarkRead(cables[c].sensors, time)))
  }

  /** Part way through a step: the first `c` cables stamped, the rest as they were. */
  lemma MarkedPrefixWellNamed(before: seq<Cable>, cables: seq<Cable>, c: nat, time: int)
    requires WellNamed(before) && |cables| == |before| && c <= |before|
    requires forall k :: 0 <= k < c ==> cables[k] == before[k].(sensors := MarkRead(before[k].sensors, time))
    requires forall k :: c <= k < |cables| ==> cables[k] == before[k]
    ensures WellNamed(cables)
  {
  }

  predicate SameStatuses(a: seq<Sensor>, b: seq<Sensor>) {
    |a| == |b| && forall s :: 0 <= s < |a| ==> a[s].status == b[s].status
  }

  lemma {:induction false} SameStatusesActive(a: seq<Sensor>, b: seq<Sensor>)
    requires SameStatuses(a, b)
    ensures ActiveIn(a) == ActiveIn(b)
  {
    if a != [] {
      var n := |a| - 1;
      SameStatusesActive(a[..n], b[..n]);
    }
  }

  lemma {:induction false} SameStatusesCount(a: seq<Cable>, b: seq<Cable>)
    requires |a| == |b| && forall c :: 0 <= c < |a| ==> SameStatuses(a[c].sensors, b[c].sensors)
    ensures ActiveCount(a) == ActiveCount(b) && SensorCount(a) == SensorCount(b)
  {
    if a != [] {
      var n := |a| - 1;
      SameStatusesCount(a[..n], b[..n]);
      SameStatusesActive(a[n].sensors, b[n].sensors);
    }
  }

  /** Stamping readings keeps the layout, every status and hence every count. */
  lemma MarkCablesKeeps(cables: seq<Cable>, time: int)
    ensures SameLayout(cables, MarkCables(cables, time))
    ensures ActiveCount(MarkCables(cables, time)) == ActiveCount(cables)
    ensures SensorCount(MarkCables(cables, time)) == SensorCount(cables)
    ensures ActiveRefs(MarkCables(cables, time)) == ActiveRefs(cables)
  {
    var t := MarkCables(cables, time);
    SameStatusesCount(cables, t);
    SameStatusesRefs(cables, t);
  }

  lemma {:induction false} SameStatusesCableRefs(a: seq<Sensor>, b: seq<Sensor>, c: nat)
    requires SameStatuses(a, b)
    ensures CableRefs(a, c) == CableRefs(b, c)
  {
    if a != [] {
      var n := |a| - 1;
      SameStatusesCableRefs(a[..n], b[..n], c);
    }
  }

  lemma {:induction false} SameStatusesRefs(a: seq<Cable>, b: seq<Cable>)
    requires |a| == |b| && forall c :: 0 <= c < |a| ==> SameStatuses(a[c].sensors, b[c].sensors)
    ensures ActiveRefs(a) == ActiveRefs(b)
  {
    if a != [] {
      var n := |a| - 1;
      SameStatusesRefs(a[..n], b[..n]);
      SameStatusesCableRefs(a[n].sensors, b[n].sensors, n);
    }
  }

  /** `[sid for sid, s in sensors.items() if s["status"] == "active"]`, as positions. */
  function ActiveIndices(sensors: seq<Sensor>): (r: seq<nat>)
    ensures |r| == ActiveIn(sensors)
    ensures forall k :: 0 <= k < |r| ==> r[k] < |sensors| && sensors[r[k]].status == SensorActive
  {
    if sensors == [] then []
    else
      var s := |sensors| - 1;
      ActiveIndices(sensors[..s]) + (if sensors[s].status == SensorActive then [s] else [])
  }

  /** Every sensor takes status `st`. */
  function AllStatus(sensors: seq<Sensor>, st: SensorStatus): (r: seq<Sensor>)
    ensures |r| == |sensors|
    ensures forall s :: 0 <= s < |sensors| ==> r[s] == sensors[s].(status := st)
  {
    seq(|sensors|, s requires 0 <= s < |sensors| => sensors[s].(status := st))
  }

  /** The sensor `np.random.choice` fails, for a draw `pick`. */
  function FailOne(sensors: seq<Sensor>, pick: nat): seq<Sensor> {
    var idx := ActiveIndices(sensors);
    if idx == [] then sensors
    else
      var j := idx[pick % |idx|];
      sensors[j := sensors[j].(status := SensorFailed)]
  }

  /** `introduce_fault` on the tables. */
  function AfterFault(cables: seq<Cable>, cableId: string, faultType: string, pick: nat): (r: seq<Cable>)
    ensures SameLayout(cables, r)
    ensures cableId !in CableIds(cables) ==> r == cables
    ensures faultType != "sensor_failure" && faultType != "cable_damage" ==> r == cables
  {
    match IndexOf(CableIds(cables), cableId)
    case None => cables
    case Some(c) =>
      if faultType == "sensor_failure" then cables[c := cables[c].(sensors := FailOne(cables[c].sensors, pick))]
      else if faultType == "cable_damage" then
        cables[c := cables[c].(status := Damaged, sensors := AllStatus(cables[c].sensors, SensorFailed))]
      else cables
  }

  /** `repair_cable` on the tables. */
  function AfterRepair(cables: seq<Cable>, cableId: string): (r: seq<Cable>)
    ensures SameLayout(cables, r)
    ensures cableId !in CableIds(cables) ==> r == cables
  {
    match IndexOf(CableIds(cables), cableId)
    case None => cables
    case Some(c) => cables[c := cables[c].(status := Operational, sensors := AllStatus(cables[c].sensors, SensorActive))]
  }

  /**
   * A sensor failure on an existing cable fails exactly one sensor, one that
   * was active, when there is one; otherwise nothing changes. No other cable,
   * and nothing else of this cable, changes.
   */
  lemma SensorFailureEffect(cables: seq<Cable>, c: nat, pick: nat)
    requires WellNamed(cables) && c < |cables|
    ensures var t := AfterFault(cables, CableName(c), "sensor_failure", pick);
      var before := cables[c].sensors;
      && |t| == |cables|
      && (forall k :: 0 <= k < |cables| && k != c ==> t[k] == cables[k])
      && t[c].(sensors := before) == cables[c]
      && |t[c].sensors| == |before|
      && (ActiveIn(before) == 0 ==> t == cables)
      && (ActiveIn(before) > 0 ==>
            && ActiveCount(t) == ActiveCount(cables) - 1
            && exists j :: 0 <= j < |before| && before[j].status == SensorActive
                 && t[c].sensors == before[j := before[j].(status := SensorFailed)])
  {
    CableLookup(cables, c);
    var before := cables[c].sensors;
    var idx := ActiveIndices(before);
    if idx != [] {
      var j := idx[pick % |idx|];
      ActiveInAfterFail(before, j);
      CountsAfterReplace(cables, c, cables[c].(sensors := FailOne(before, pick)));
    }
  }

  /** Cable damage marks that cable damaged and every one of its sensors failed; no other cable changes. */
  lemma CableDamageEffect(cables: seq<Cable>, c: nat)
    requires WellNamed(cables) && c < |cables|
    ensures var t := AfterFault(cables, CableName(c), "cable_damage", 0);
      && |t| == |cables|
      && (forall k :: 0 <= k < |cables| && k != c ==> t[k] == cables[k])
      && t[c].status == Damaged
      && t[c].(status := cables[c].status, sensors := cables[c].sensors) == cables[c]
      && |t[c].sensors| == |cables[c].sensors|
      && (forall s :: 0 <= s < |t[c].sensors| ==> t[c].sensors[s] == cables[c].sensors[s].(status := SensorFailed))
      && ActiveCount(t) == ActiveCount(cables) - ActiveIn(cables[c].sensors)
  {
    CableLookup(cables, c);
    var t := AfterFault(cables, CableName(c), "cable_damage", 0);
    ActiveInAll(t[c].sensors);
    CountsAfterReplace(cables, c, t[c]);
  }

  /** The fault draw only matters for a sensor failure. */
  lemma CableDamageIgnoresPick(cables: seq<Cable>, cableId: string, p: nat, q: nat)
    ensures AfterFault(cables, cableId, "cable_damage", p) == AfterFault(cables, cableId, "cable_damage", q)
  {
  }

  /** Repair marks that cable operational and every one of its sensors active; no other cable changes. */
  lemma RepairEffect(cables: seq<Cable>, c: nat)
    requires WellNamed(cables) && c < |cables|
    ensures var t := AfterRepair(cables, CableName(c));
      && |t| == |cables|
      && (forall k :: 0 <= k < |cables| && k != c ==> t[k] == cables[k])
      && t[c].status == Operational
      && t[c].(status := cables[c].status, sensors := cables[c].sensors) == cables[c]
      && (forall s :: 0 <= s < |t[c].sensors| ==> t[c].sensors[s] == cables[c].sensors[s].(status := SensorActive))
      && ActiveCount(t) == ActiveCount(cables) + (|cables[c].sensors| - ActiveIn(cables[c].sensors))
  {
    CableLookup(cables, c);
    var t := AfterRepair(cables, CableName(c));
    ActiveInAll(t[c].sensors);
    CountsAfterReplace(cables, c, t[c]);
  }

  /** Repairing twice is repairing once. */
  lemma RepairIdempotent(cables: seq<Cable>, cableId: string)
    ensures AfterRepair(AfterRepair(cables, cableId), cableId) == AfterRepair(cables, cableId)
  {
    var once := AfterRepair(cables, cableId);
    assert CableIds(once) == CableIds(cables);
    match IndexOf(CableIds(cables), cableId)
    case None =>
    case Some(c) =>
      assert once[c].sensors == AllStatus(once[c].sensors, SensorActive);
  }

  /** Repair undoes a cable damage on the statuses of that cable. */
  lemma RepairAfterDamage(cables: seq<Cable>, cableId: string)
    ensures AfterRepair(AfterFault(cables, cableId, "cable_damage", 0), cableId) == AfterRepair(cables, cableId)
  {
    var damaged := AfterFault(cables, cableId, "cable_damage", 0);
    assert CableIds(damaged) == CableIds(cables);
    match IndexOf(CableIds(cables), cableId)
    case None =>
    case Some(c) =>
      assert AllStatus(damaged[c].sensors, SensorActive) == AllStatus(cables[c].sensors, SensorActive);
  }

  lemma CableLookup(cables: seq<Cable>, c: nat)
    requires WellNamed(cables) && c < |cables|
    ensures IndexOf(CableIds(cables), CableName(c)) == Some(c)
  {
    var ids := CableIds(cables);
    forall i, j | 0 <= i < j < |ids| ensures ids[i] != ids[j] {
      if ids[i] == ids[j] {
        CableNameInjective(i, j);
      }
    }
    IndexOfDistinct(ids, c);
  }

  // ---------------------------------------------------------------- loops shared by both simulators

  /** The loop `for sensor in cable["sensors"].values(): sensor["status"] = st`. */
  method SetAllStatus(sensors: seq<Sensor>, st: SensorStatus) returns (r: seq<Sensor>)
    ensures r == AllStatus(sensors, st)
  {
    r := sensors;
    var i := 0;
    while i < |r|
      invariant 0 <= i <= |r| == |sensors|
      invariant forall s :: 0 <= s < i ==> r[s] == sensors[s].(status := st)
      invariant forall s :: i <= s < |r| ==> r[s] == sensors[s]
    {
      r := r[i := r[i].(status := st)];
      i := i + 1;
    }
  }
}
