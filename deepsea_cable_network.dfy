/**
 * The second `CableNetwork` variant. It builds the same tables in a single
 * nested loop, lets a missing key surface as a `KeyError`, and its step leaves
 * `last_reading` untouched. Faults and repairs have the same effect on the
 * tables as in `Simulator`, and are proved against the same `NetworkModel`
 * functions.
 */
module DeepseaSimulator {
  import opened Wrappers
  import opened Seqs
  import opened NetworkModel

  /** Python's `KeyError(key)`. */
  datatype KeyError = KeyError(key: string)

  /** `generate_sensor_data` of this variant: the first missing key is the error. */
  function GenerateOrKeyError(cables: seq<Cable>, cableId: string, sensorId: string, time: int, d: ReadingDraw, prob: real)
    : (r: Result<SensorReading, KeyError>)
    ensures r == Failure(KeyError(cableId)) <== cableId !in CableIds(cables)
    ensures r.Success? <==> Generate(cables, cableId, sensorId, time, d, prob).Success?
    ensures r.Success? ==> r.value == Generate(cables, cableId, sensorId, time, d, prob).value
    ensures r.Failure? && cableId in CableIds(cables) ==> r.error == KeyError(sensorId)
  {
    match Generate(cables, cableId, sensorId, time, d, prob)
    case Success(reading) => Success(reading)
    case Failure(CableNotFound(_)) => Failure(KeyError(cableId))
    case Failure(SensorNotFound(_, _)) => Failure(KeyError(sensorId))
  }

  class CableNetwork {
    const numCables: int
    const numSensorsPerCable: int
    var simulationTime: int
    var isRunning: bool
    var cables: seq<Cable>

    ghost predicate Valid()
      reads this
    {
      WellNamed(cables) && |cables| == RangeLength(numCables)
    }

    /** `__init__` at clock `now`, with the draws the construction makes. */
    constructor (numCables: int, numSensorsPerCable: int, now: int, draws: nat -> CableDraw, kinds: (nat, nat) -> SensorType)
      ensures Valid()
      ensures this.numCables == numCables && this.numSensorsPerCable == numSensorsPerCable
      ensures simulationTime == now && !isRunning
      ensures cables == InitialCables(RangeLength(numCables), RangeLength(numSensorsPerCable), draws, kinds, now)
    {
      this.numCables := numCables;
      this.numSensorsPerCable := numSensorsPerCable;
      simulationTime := now;
      isRunning := false;
      new;
      cables := CreateNetwork(now, draws, kinds);
      InitialNetworkShape(numCables, numSensorsPerCable, draws, kinds, now);
    }

    /** `_create_network`: cables and their sensors in one nested loop. */
    method CreateNetwork(now: int, draws: nat -> CableDraw, kinds: (nat, nat) -> SensorType) returns (network: seq<Cable>)
      ensures network == InitialCables(RangeLength(numCables), RangeLength(numSensorsPerCable), draws, kinds, now)
    {
      var n := RangeLength(numSensorsPerCable);
      network := [];
      var c := 0;
      while c < numCables
        invariant 0 <= c <= RangeLength(numCables)
        invariant network == InitialCables(c, n, draws, kinds, now)
      {
        var d := draws(c);
        var sensors := SensorsForCable(c, d.lengthKm, kinds);
        network := network + [Cable(CableName(c), d.lengthKm, d.depthM, Kilovolts(d.voltage) * 1000, sensors,
                                    Operational, now - d.ageDays * SecondsPerDay)];
        c := c + 1;
      }
    }

    /** The inner loop of `_create_network`: the sensors of cable `c`, spread along its length. */
    method SensorsForCable(c: nat, lengthKm: real, kinds: (nat, nat) -> SensorType) returns (sensors: seq<Sensor>)
      ensures var n := RangeLength(numSensorsPerCable); sensors == InitialSensors(c, lengthKm, n, kinds, n)
    {
      var n := RangeLength(numSensorsPerCable);
      sensors := [];
      var s := 0;
      while s < n
        invariant 0 <= s <= n
        invariant sensors == InitialSensors(c, lengthKm, n, kinds, s)
      {
        var position := Position(s, lengthKm, n);
        sensors := sensors + [Sensor(SensorName(c, s), position, kinds(c, s), SensorActive, None)];
        s := s + 1;
      }
    }

    /** `generate_sensor_data`. */
    function GenerateSensorData(cableId: string, sensorId: string, d: ReadingDraw, anomalyProb: real)
      : Result<SensorReading, KeyError>
      reads this
    {
      GenerateOrKeyError(cables, cableId, sensorId, simulationTime, d, anomalyProb)
    }

    /** `simulate_step`: one reading per active sensor and the clock advanced; the tables stay as they are. */
    method SimulateStep(draw: (nat, nat) -> ReadingDraw) returns (readings: seq<SensorReading>)
      requires Valid()
      modifies this`simulationTime
      ensures readings == StepReadings(cables, old(simulationTime), draw)
      ensures simulationTime == old(simulationTime) + StepSeconds
    {
      readings := [];
      var c := 0;
      while c < |cables|
        invariant 0 <= c <= |cables|
        invariant readings == StepReadings(cables[..c], simulationTime, draw)
        invariant simulationTime == old(simulationTime)
      {
        var cableReadings := ReadCable(c, draw);
        assert cables[..c + 1][..c] == cables[..c];
        readings := readings + cableReadings;
        c := c + 1;
      }
      assert cables[..c] == cables;
      simulationTime := simulationTime + StepSeconds;
    }

    /** The inner loop of `simulate_step`, over the sensors of cable `c`. */
    method ReadCable(c: nat, draw: (nat, nat) -> ReadingDraw) returns (cableReadings: seq<SensorReading>)
      requires WellNamed(cables) && c < |cables|
      ensures cableReadings == CableReadings(cables[c], cables[c].sensors, c, simulationTime, draw)
    {
      var cable := cables[c];
      cableReadings := [];
      var s := 0;
      while s < |cable.sensors|
        invariant 0 <= s <= |cable.sensors|
        invariant cableReadings == CableReadings(cable, cable.sensors[..s], c, simulationTime, draw)
      {
        assert cable.sensors[..s + 1][..s] == cable.sensors[..s];
        if cable.sensors[s].status == SensorActive {
          var result := GenerateSensorData(cable.id, cable.sensors[s].id, draw(c, s), DefaultAnomalyProb);
          GenerateFinds(cables, c, s, simulationTime, draw(c, s), DefaultAnomalyProb);
          cableReadings := cableReadings + [result.value];
        }
        s := s + 1;
      }
      assert cable.sensors[..s] == cable.sensors;
    }

    /** `get_network_status`. */
    function GetNetworkStatus(): NetworkStatus
      reads this
    {
      StatusOf(cables, simulationTime)
    }

    /** `introduce_fault`; an unknown cable returns silently. */
    method IntroduceFault(cableId: string, faultType: string, pick: nat)
      requires Valid()
      modifies this`cables
      ensures Valid()
      ensures cables == AfterFault(old(cables), cableId, faultType, pick)
    {
      var found := IndexOf(CableIds(cables), cableId);
      if found.None? {
        return;
      }
      var c := found.value;
      if faultType == "sensor_failure" {
        var active := ActiveIndices(cables[c].sensors);
        if active != [] {
          var j := active[pick % |active|];
          cables := cables[c := cables[c].(sensors := cables[c].sensors[j := cables[c].sensors[j].(status := SensorFailed)])];
        }
      } else if faultType == "cable_damage" {
        var failed := SetAllStatus(cables[c].sensors, SensorFailed);
        cables := cables[c := cables[c].(status := Damaged, sensors := failed)];
      }
      SameLayoutWellNamed(old(cables), cables);
    }

    /** `repair_cable`: only a known cable is restored. */
    method RepairCable(cableId: string)
      requires Valid()
      modifies this`cables
      ensures Valid()
      ensures cables == AfterRepair(old(cables), cableId)
    {
      var found := IndexOf(CableIds(cables), cableId);
      if found.Some? {
        var c := found.value;
        var restored := SetAllStatus(cables[c].sensors, SensorActive);
        cables := cables[c := cables[c].(status := Operational, sensors := restored)];
      }
      SameLayoutWellNamed(old(cables), cables);
    }
  }
}
