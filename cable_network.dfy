/**
 * The simulator's `CableNetwork` (the variant that records `last_reading`).
 * The tables and their transitions are specified in `NetworkModel`; this class
 * holds them in fields and updates them with the source's loops.
 */
module Simulator {
  import opened Wrappers
  import opened Seqs
  import opened NetworkModel

  class CableNetwork {
    const numCables: int
    const numSensorsPerCable: int
    var simulationTime: int
    var isRunning: bool
    var cables: seq<Cable>

    ghost predicate Valid()
      reads this
    {
      WellNamed(cables) && |cables| == RangeLength(numCables)
    }

    /** `__init__` at clock `now`, with the draws the construction makes. */
    constructor (numCables: int, numSensorsPerCable: int, now: int, draws: nat -> CableDraw, kinds: (nat, nat) -> SensorType)
      ensures Valid()
      ensures this.numCables == numCables && this.numSensorsPerCable == numSensorsPerCable
      ensures simulationTime == now && !isRunning
      ensures cables == InitialCables(RangeLength(numCables), RangeLength(numSensorsPerCable), draws, kinds, now)
    {
      this.numCables := numCables;
      this.numSensorsPerCable := numSensorsPerCable;
      simulationTime := now;
      isRunning := false;
      new;
      cables := InitializeCables(now, draws, kinds);
      InitialNetworkShape(numCables, numSensorsPerCable, draws, kinds, now);
    }

    /** `_initialize_cables`: one cable per index, in order. */
    method InitializeCables(now: int, draws: nat -> CableDraw, kinds: (nat, nat) -> SensorType) returns (cs: seq<Cable>)
      ensures cs == InitialCables(RangeLength(numCables), RangeLength(numSensorsPerCable), draws, kinds, now)
    {
      cs := [];
      var c := 0;
      while c < numCables
        invariant 0 <= c <= RangeLength(numCables)
        invariant cs == InitialCables(c, RangeLength(numSensorsPerCable), draws, kinds, now)
      {
        var d := draws(c);
        var sensors := CreateSensorsForCable(c, d.lengthKm, kinds);
        cs := cs + [Cable(CableName(c), d.lengthKm, d.depthM, Kilovolts(d.voltage) * 1000, sensors,
                          Operational, now - d.ageDays * SecondsPerDay)];
        c := c + 1;
      }
    }

    /** `_create_sensors_for_cable`: `num_sensors_per_cable` active sensors spread along the cable. */
    method CreateSensorsForCable(c: nat, lengthKm: real, kinds: (nat, nat) -> SensorType) returns (sensors: seq<Sensor>)
      ensures var n := RangeLength(numSensorsPerCable); sensors == InitialSensors(c, lengthKm, n, kinds, n)
    {
      sensors := [];
      var n := RangeLength(numSensorsPerCable);
      var s := 0;
      while s < n
        invariant 0 <= s <= n
        invariant sensors == InitialSensors(c, lengthKm, n, kinds, s)
      {
        var position := Position(s, lengthKm, n);
        sensors := sensors + [Sensor(SensorName(c, s), position, kinds(c, s), SensorActive, None)];
        s := s + 1;
      }
    }

    /** `generate_sensor_data`; a missing cable or sensor is the `ValueError`. */
    function GenerateSensorData(cableId: string, sensorId: string, d: ReadingDraw, anomalyProb: real)
      : Result<SensorReading, LookupError>
      reads this
    {
      Generate(cables, cableId, sensorId, simulationTime, d, anomalyProb)
    }

    /** `simulate_step`: one reading per active sensor, `last_reading` stamped, clock advanced. */
    method SimulateStep(draw: (nat, nat) -> ReadingDraw) returns (readings: seq<SensorReading>)
      requires Valid()
      modifies this`cables, this`simulationTime
      ensures Valid()
      ensures readings == StepReadings(old(cables), old(simulationTime), draw)
      ensures cables == MarkCables(old(cables), old(simulationTime))
      ensures simulationTime == old(simulationTime) + StepSeconds
    {
      readings := ReadAllCables(draw);
      simulationTime := simulationTime + StepSeconds;
    }

    /**
     * The outer loop of `simulate_step`, over the cables in order. The stamped
     * cables are collected and stored once the loop is done.
     */
    method ReadAllCables(draw: (nat, nat) -> ReadingDraw) returns (readings: seq<SensorReading>)
      requires Valid()
      modifies this`cables
      ensures Valid()
      ensures readings == StepReadings(old(cables), simulationTime, draw)
      ensures cables == MarkCables(old(cables), simulationTime)
    {
      var marked: seq<Cable> := [];
      readings := [];
      var c := 0;
      while c < |cables|
        invariant cables == old(cables)
        invariant 0 <= c <= |cables|
        invariant readings == StepReadings(cables[..c], simulationTime, draw)
        invariant |marked| == c
        invariant forall k :: 0 <= k < c ==> marked[k] == cables[k].(sensors := MarkRead(cables[k].sensors, simulationTime))
      {
        var cableReadings, sensors := ReadCable(c, draw);
        assert cables[..c + 1][..c] == cables[..c];
        readings := readings + cableReadings;
        marked := marked + [cables[c].(sensors := sensors)];
        c := c + 1;
      }
      assert cables[..c] == cables;
      MarkedPrefixWellNamed(cables, marked, c, simulationTime);
      assert marked == MarkCables(cables, simulationTime);
      cables := marked;
    }

    /** The inner loop of `simulate_step`, over the sensors of cable `c`. */
    method ReadCable(c: nat, draw: (nat, nat) -> ReadingDraw) returns (cableReadings: seq<SensorReading>, sensors: seq<Sensor>)
      requires WellNamed(cables) && c < |cables|
      ensures cableReadings == CableReadings(cables[c], cables[c].sensors, c, simulationTime, draw)
      ensures sensors == MarkRead(cables[c].sensors, simulationTime)
    {
      var cable := cables[c];
      cableReadings := [];
      sensors := cable.sensors;
      var s := 0;
      while s < |sensors|
        invariant 0 <= s <= |sensors| == |cable.sensors|
        invariant cableReadings == CableReadings(cable, cable.sensors[..s], c, simulationTime, draw)
        invariant forall j :: 0 <= j < s ==> sensors[j] == MarkSensor(cable.sensors[j], simulationTime)
        invariant forall j :: s <= j < |sensors| ==> sensors[j] == cable.sensors[j]
      {
        assert cable.sensors[..s + 1][..s] == cable.sensors[..s];
        if sensors[s].status == SensorActive {
          var result := GenerateSensorData(cable.id, sensors[s].id, draw(c, s), DefaultAnomalyProb);
          GenerateFinds(cables, c, s, simulationTime, draw(c, s), DefaultAnomalyProb);
          cableReadings := cableReadings + [result.value];
          sensors := sensors[s := sensors[s].(lastReading := Some(simulationTime))];
        }
        s := s + 1;
      }
      assert cable.sensors[..s] == cable.sensors;
    }

    /** `get_network_status`. */
    function GetNetworkStatus(): NetworkStatus
      reads this
    {
      StatusOf(cables, simulationTime)
    }

    /** `introduce_fault`; `pick` is the draw that chooses the failing sensor. */
    method IntroduceFault(cableId: string, faultType: string, pick: nat)
      requires Valid()
      modifies this`cables
      ensures Valid()
      ensures cables == AfterFault(old(cables), cableId, faultType, pick)
    {
      var found := IndexOf(CableIds(cables), cableId);
      if found.None? {
        return;
      }
      var c := found.value;
      if faultType == "sensor_failure" {
        var active := ActiveIndices(cables[c].sensors);
        if active != [] {
          var j := active[pick % |active|];
          cables := cables[c := cables[c].(sensors := cables[c].sensors[j := cables[c].sensors[j].(status := SensorFailed)])];
        }
      } else if faultType == "cable_damage" {
        var failed := SetAllStatus(cables[c].sensors, SensorFailed);
        cables := cables[c := cables[c].(status := Damaged, sensors := failed)];
      }
      SameLayoutWellNamed(old(cables), cables);
    }

    /** `repair_cable`: an unknown id changes nothing. */
    method RepairCable(cableId: string)
      requires Valid()
      modifies this`cables
      ensures Valid()
      ensures cables == AfterRepair(old(cables), cableId)
    {
      var found := IndexOf(CableIds(cables), cableId);
      if found.None? {
        return;
      }
      var c := found.value;
      var restored := SetAllStatus(cables[c].sensors, SensorActive);
      cables := cables[c := cables[c].(status := Operational, sensors := restored)];
      SameLayoutWellNamed(old(cables), cables);
    }

    /** `get_cable_info`: the cable's record, or None. */
    function GetCableInfo(cableId: string): (r: Option<Cable>)
      reads this
      ensures r.Some? <==> cableId in CableIds(cables)
      ensures r.Some? ==> r.value in cables && r.value.id == cableId
    {
      match IndexOf(CableIds(cables), cableId)
      case None => None
      case Some(c) => Some(cables[c])
    }

    /** `list_cables`: the keys in insertion order, `cable_0`, `cable_1`, .... */
    function ListCables(): (ids: seq<string>)
      reads this
      ensures |ids| == |cables|
      ensures WellNamed(cables) ==> forall c :: 0 <= c < |ids| ==> ids[c] == CableName(c)
    {
      CableIds(cables)
    }
  }
}
