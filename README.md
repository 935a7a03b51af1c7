# CableGuard core in Dafny

This project models the sequential core of CableGuard, a monitoring system for
submarine cables. It has three parts.

- **The monitor** (`CableMonitor`) takes sensor readings. For each one it
  updates counters, a bounded buffer and a state per sensor (last seen,
  consecutive anomalies, status). It raises alerts from threshold rules and
  hands out FIFO queues of anomaly events and alerts.
- **The network simulator** (`CableNetwork`, in two variants) holds a table of
  cables, each with a table of sensors.
  - A step emits one reading per active sensor and advances simulated time by
    one minute.
  - Faults and repairs drive the cable and sensor statuses.
  - A status query counts over the tables.
- **The dashboards** (`IndependentDashboards` and the second variant's
  `Dashboard`) keep per-sensor histories capped at 100 points, plus
  tail-truncated anomaly and alert lists. They classify the data into health
  tiers, severity buckets, heat-map scores, timelines and statistics columns.
  The second variant also has a sensor-selection toggle.

Modules:

| module | file | what it holds |
|---|---|---|
| `Wrappers` | wrappers.dfy | `Option`, `Result`, `Outcome` |
| `Seqs` | seqs.dfy | `Last(xs, n)` (Python's `xs[-n:]`), counting, lookup by index |
| `Strings` | strings.dfy | decimal rendering of naturals and its injectivity; splitting at a separator |
| `Monitor` | monitor.dfy | the monitor's state as a value, its pure transition functions and lemmas, and the `CableMonitor` class |
| `NetworkModel` | network_model.dfy | cables, sensors and readings; the specification functions that both simulators are proved against |
| `Simulator` | cable_network.dfy | the `CableNetwork` class of `simulator/cable_network.py` |
| `DeepseaSimulator` | deepsea_cable_network.dfy | the `CableNetwork` class of `DEEPSEA/cursor/simulator/cable_network.py` |
| `DashboardData` | dashboard_data.dfy | the `update_data` logic shared by both dashboards; the per-sensor tally; the alert timeline |
| `Visualizer` | dashboard.dfy | the classification rules and the `IndependentDashboards` class of `visualizer/dashboard.py` |
| `DeepseaDashboard` | deepsea_dashboard.dfy | the selection toggle, heat map, timeline, statistics layout and the `Dashboard` class of `DEEPSEA/cursor/visualizer/dashboard.py` |

Each class follows the same pattern.

- A function (`Snapshot()` or `Table()`) gathers the class's fields into a
  datatype value.
- Each method that changes state ensures that the new value equals a pure
  function of the old one (`AfterReading`, `AfterTimeouts`, `AfterFault`,
  `MarkCables`, ...).
- The properties the source promises are lemmas about those functions.

Conventions:

- Time is an integer number of seconds, and the clock is a parameter `now`.
- The anomaly detector's answer is a `Detection` parameter: no trained
  detector, a detector that raises, or a verdict with a score.
- Random draws are parameters: functions from the cable and sensor index to
  the drawn values. The only draws whose effect is modelled are:
  - the draw that decides whether a reading is an injected anomaly;
  - the draw that picks the failing sensor, as `pick % |active|`.
- A dictionary whose insertion order is observable is modelled as a map plus a
  sequence of its keys. The key sequence is kept distinct and equal to the key
  set.
- Ratios are exact `real` divisions.

## Model

| member | source | states |
|---|---|---|
| Monitor.Processed | detector/monitor.py:169-185 | the stored record carries the reading unchanged; it is flagged exactly when the detector said anomaly and the reading has a timestamp (without one, `_handle_anomaly` raises and the handler stores False); it has no flag exactly when no detector is attached |
| Monitor.Intake | detector/monitor.py:156-167 | after the bookkeeping the reading's sensor is tracked |
| Monitor.MissingIdSkipped | detector/monitor.py:146-152 | a reading without `sensor_id` leaves the whole monitor state unchanged |
| Monitor.AcceptedReadingCounters | detector/monitor.py:156-161 | an accepted reading raises `total_readings` by 1 and `anomalies_detected` by 1 exactly on an anomaly verdict; the buffer becomes the last `buffer_size` of old buffer plus the record and never exceeds `buffer_size`; `last_reading_time` is the reading's timestamp (or now); one event carrying the new consecutive count is queued exactly when the anomaly has a timestamp; the alert counters and queue are untouched |
| Monitor.AcceptedReadingSensor | detector/monitor.py:163-180 | the sending sensor gets `last_seen` = timestamp and status active, and its recent readings are the last 50 of old plus the record; its counter rises by 1 on an anomaly, resets to 0 on a normal verdict, and is kept without a verdict; every other sensor is unchanged |
| Monitor.AfterReadingInv | detector/monitor.py:157-191 | one reading preserves the invariant: `anomalies_detected <= total_readings`, buffer within `buffer_size`, each recent-readings list within 50, tracked sensors listed once each in insertion order |
| Monitor.AfterReadingsInv | detector/monitor.py:139-142 | a whole batch preserves that invariant |
| Monitor.AfterReadingsTotal | detector/monitor.py:139-157 | a batch raises `total_readings` by exactly the number of its readings that carry a sensor id, and `anomalies_detected` by at most that number |
| Monitor.AcceptedCount | detector/monitor.py:146-152 | the number of readings that carry a sensor id is at most the batch length |
| Monitor.TimeoutsExact | detector/monitor.py:214-228 | the timeout check changes only the status: exactly the active sensors last seen more than 300 s ago become timed out; no sensor appears or disappears, and counters, buffer and queues stay the same |
| Monitor.TimeoutsIdempotent | detector/monitor.py:214-228 | checking twice at the same instant is the same as checking once |
| Monitor.TimeoutsInv | detector/monitor.py:214-228 | the timeout check preserves the monitor invariant |
| Monitor.AtLimitCount | detector/monitor.py:251-253 | the number of sensors at or above 3 consecutive anomalies is at most the number of tracked sensors |
| Monitor.ConsecutiveAlertsExact | detector/monitor.py:250-258 | one `consecutive_anomalies` alert, severity high, per tracked sensor whose counter is at least 3, each carrying that sensor's id and counter; every such sensor gets one |
| Monitor.FlaggedCount | detector/monitor.py:263 | the flagged records are at most all the records |
| Monitor.RateAlertExact | detector/monitor.py:260-271 | at most one rate alert; it is raised exactly when the buffer holds at least 100 records and more than 20 of the last 100 are flagged; it has type `high_anomaly_rate` and severity medium |
| Monitor.AlertsCounted | detector/monitor.py:246-286 | the analysis keeps the invariant; `alerts_raised` rises by exactly the number of alerts raised; the queue gets the per-sensor alerts in sensor order, then the rate alert |
| Monitor.AlertSeverity | detector/monitor.py:297-305 | critical exactly for `critical_sensor_anomaly`; high exactly for `consecutive_anomalies` and `sensor_timeout`; medium for every other type, including unknown ones |
| Monitor.StatusCount | detector/monitor.py:328-329 | the sensors with a given status are at most the tracked sensors |
| Monitor.StatusCountCardinality | detector/monitor.py:328-329 | over a key order without repetitions, the count equals the number of distinct listed sensors with that status |
| Monitor.StatusCountExact | detector/monitor.py:328-329 | when the key order lists exactly the tracked sensors, once each, the count is the size of the set of tracked sensors with that status |
| Monitor.StatusCountsBounded | detector/monitor.py:328-329 | active plus timed-out sensors never exceed the tracked sensors |
| Monitor.CycleInv | detector/monitor.py:119-131 | one pass of the monitoring loop (process the batch, check timeouts, analyse alerts) preserves the invariant |
| Monitor.TakeCount | detector/monitor.py:334-352 | the number of items taken is 0 for a limit at or below 0, else the smaller of the limit and the queue length |
| Monitor.Drain | detector/monitor.py:336-342 | the loop takes exactly that many items, and taken followed by what is left is the old queue, so the items come out oldest first |
| Monitor.CableMonitor.constructor | detector/monitor.py:25-66 | zero counters, empty buffer, queues and sensor table, not monitoring, one empty callback list per event type |
| Monitor.CableMonitor.AddCallback | detector/monitor.py:80-85 | a known event type gets the callback appended and nothing else changes; an unknown type fails and changes nothing |
| Monitor.CableMonitor.StartMonitoring | detector/monitor.py:87-96 | a second start is ignored; a first start sets monitoring and the start time |
| Monitor.CableMonitor.StopMonitoring | detector/monitor.py:107-109 | monitoring is off and nothing else changes |
| Monitor.CableMonitor.GetSensorState | detector/monitor.py:68-78 | returns the stored state, or creates a fresh one (unknown, counter 0) and appends its id to the key order |
| Monitor.CableMonitor.HandleAnomaly | detector/monitor.py:187-201 | counts the anomaly and bumps the sensor's counter; queues the event with the new counter, or reports the missing timestamp |
| Monitor.CableMonitor.ProcessSingleReading | detector/monitor.py:144-185 | the new state is `AfterReading` of the old one, and the invariant is kept |
| Monitor.CableMonitor.RecordIntake | detector/monitor.py:156-167 | the new state is `Intake` of the old one |
| Monitor.CableMonitor.ProcessReadings | detector/monitor.py:139-142 | the new state is `AfterReadings` of the old one over the whole batch, and the invariant is kept |
| Monitor.CableMonitor.HandleSensorTimeout | detector/monitor.py:226-228 | only that sensor's status changes, to timed out |
| Monitor.CableMonitor.CheckSensorTimeouts | detector/monitor.py:214-224 | the new state is `AfterTimeouts` of the old one, and the invariant is kept |
| Monitor.CableMonitor.TimeOutSensors | detector/monitor.py:219-224 | the loop over the sensors maps each state through the timeout rule and keeps the key set |
| Monitor.CableMonitor.RaiseAlert | detector/monitor.py:273-286 | `alerts_raised` rises by 1 and the alert, with its severity from the map, is appended to the queue |
| Monitor.CableMonitor.AnalyzeAlerts | detector/monitor.py:246-271 | the new state is `AfterAlerts` of the old one, and the invariant is kept |
| Monitor.CableMonitor.RaiseConsecutiveAlerts | detector/monitor.py:250-258 | the loop over the sensors raises exactly the per-sensor alerts |
| Monitor.CableMonitor.CheckAnomalyRate | detector/monitor.py:260-271 | raises exactly the rate alert, if any |
| Monitor.CableMonitor.MonitoringCycle | detector/monitor.py:119-131 | one pass of the loop body as the composition of the three transitions |
| Monitor.CableMonitor.GetMonitoringStats | detector/monitor.py:316-332 | fails exactly when `buffer_size` is 0 (the division raises); otherwise it reports the monitoring flag, `last_reading_time` and the three counters as stored; `uptime_seconds` is now minus the start time once started and 0 before; `anomaly_rate` is anomalies / max(1, total) and lies in [0, 1] when anomalies do not outnumber readings; `buffer_utilization` × `buffer_size` is the buffer length, in [0, 1] for a bounded buffer; `active_sensors` and `timeout_sensors` are the numbers of tracked sensors with that status (when the key order lists each tracked sensor once, as the invariant keeps it), together at most the tracked sensors |
| Monitor.CableMonitor.GetRecentAnomalies | detector/monitor.py:334-342 | returns at most `limit` events, oldest first, and removes exactly those from the queue |
| Monitor.CableMonitor.GetRecentAlerts | detector/monitor.py:344-352 | the same for alerts |
| NetworkModel.CableNameInjective | simulator/cable_network.py:37 | distinct indices give distinct cable ids `cable_{c}` |
| NetworkModel.SensorNameInjective | simulator/cable_network.py:56 | distinct (cable, sensor) pairs give distinct ids `sensor_{c}_{s}`, across cables too |
| NetworkModel.LookupWellNamed | simulator/cable_network.py:67-73 | in a network built by the constructor, looking up `cable_{c}` finds cable c and `sensor_{c}_{s}` finds sensor s |
| NetworkModel.CableIds | simulator/cable_network.py:181-187 | the key list has one key per cable, in table order |
| NetworkModel.SensorIds | simulator/cable_network.py:67-73 | the same for a cable's sensors |
| NetworkModel.PositionsIncrease | simulator/cable_network.py:52-53 | on a cable of positive length, sensor positions strictly increase with the index |
| NetworkModel.PositionsOnCable | simulator/cable_network.py:52-53 | every position is at most the cable's length, and positive on a cable of positive length (the source draws lengths from 100 to 2000 km); the last sensor sits exactly at the cable's length |
| NetworkModel.InitialNetworkShape | simulator/cable_network.py:26-63 | the constructed network has `num_cables` cables named `cable_0..`, all operational; each has `num_sensors_per_cable` sensors named `sensor_{c}_{s}`, all active, never read, of the drawn type and at position `(s+1)*length/n` |
| NetworkModel.InitialNetworkCounts | DEEPSEA/cursor/simulator/cable_network.py:22-52 | the new network has `num_cables * num_sensors_per_cable` sensors, all active |
| NetworkModel.ActiveIn | simulator/cable_network.py:124-138 | a cable's active sensors are at most its sensors |
| NetworkModel.StatusOf | simulator/cable_network.py:124-138 | counts cables, sensors and active sensors; active is at most total; health is active/total (0 for an empty network), lies in [0, 1], and is 1 exactly when every sensor of a non-empty network is active |
| NetworkModel.MakeReading | simulator/cable_network.py:75-108 | the reading carries the step time and the cable and sensor ids; it is an anomaly exactly when the draw falls below the injection probability; a normal reading has the base value |
| NetworkModel.Generate | simulator/cable_network.py:65-108 | an unknown cable id gives the cable error; a known cable with an unknown sensor id gives the sensor error; a known cable together with a sensor id of that cable always succeeds, with the reading built from the sensor found |
| NetworkModel.GenerateFinds | simulator/cable_network.py:65-73 | in a constructed network the lookup of an existing sensor always succeeds |
| NetworkModel.ActiveRefsExact | simulator/cable_network.py:114-117 | the positions visited by a step are exactly the active sensors, each once, in ascending table order |
| NetworkModel.StepReadingsMatch | simulator/cable_network.py:110-122 | a step emits exactly one reading per active sensor, in table order, each generated at the step time from that sensor's draw |
| NetworkModel.StepReadingsFacts | simulator/cable_network.py:110-122 | every reading of a step carries the step time and the ids of an active sensor, and is an anomaly exactly when that sensor's draw is below 0.05 |
| NetworkModel.SameLayoutWellNamed | simulator/cable_network.py:140-179 | a change that keeps every id in place keeps the naming invariant and the key list |
| NetworkModel.MarkRead | simulator/cable_network.py:114-119 | every active sensor of a cable gets `last_reading` = step time; failed ones are unchanged |
| NetworkModel.MarkCables | simulator/cable_network.py:110-122 | the same over all cables; nothing else of a cable changes |
| NetworkModel.MarkedPrefixWellNamed | simulator/cable_network.py:112-119 | part way through a step the tables are still well named |
| NetworkModel.MarkCablesKeeps | simulator/cable_network.py:110-122 | stamping readings keeps the layout, every status, the sensor and active counts, and the set of active positions |
| NetworkModel.ActiveIndices | simulator/cable_network.py:148-152 | the candidate list for a sensor failure is exactly the active sensors of the cable, and as long as their count |
| NetworkModel.AllStatus | simulator/cable_network.py:159-179 | every sensor of the cable gets the given status and nothing else changes |
| NetworkModel.AfterFault | simulator/cable_network.py:140-164 | a fault keeps every id in place; an unknown cable, or a fault type other than the two known ones, changes nothing |
| NetworkModel.AfterRepair | simulator/cable_network.py:166-179 | a repair keeps every id in place; an unknown cable changes nothing |
| NetworkModel.SensorFailureEffect | simulator/cable_network.py:145-157 | on an existing cable with an active sensor, exactly one active sensor turns failed and the active count drops by exactly 1; with none, nothing changes; other cables and the rest of this cable are untouched |
| NetworkModel.CableDamageEffect | simulator/cable_network.py:159-164 | the cable turns damaged and every one of its sensors failed; the active count drops by that cable's active sensors; other cables and the cable's other fields are untouched |
| NetworkModel.CableDamageIgnoresPick | simulator/cable_network.py:159-164 | cable damage does not depend on the sensor-failure draw |
| NetworkModel.RepairEffect | simulator/cable_network.py:166-179 | the cable turns operational and every one of its sensors active; the active count rises by its failed sensors; other cables are untouched |
| NetworkModel.RepairIdempotent | simulator/cable_network.py:166-179 | repairing twice is repairing once |
| NetworkModel.RepairAfterDamage | simulator/cable_network.py:159-179 | repairing after a cable damage gives the same tables as repairing without it |
| NetworkModel.CableLookup | simulator/cable_network.py:142-146 | in a constructed network `cable_{c}` is found at position c |
| NetworkModel.SetAllStatus | simulator/cable_network.py:162-163 | the loop over a cable's sensors sets every status, as `AllStatus` describes |
| Simulator.CableNetwork.constructor | simulator/cable_network.py:16-24 | the tables are `InitialCables` of the draws, well named, the time is now, and it is not running |
| Simulator.CableNetwork.InitializeCables | simulator/cable_network.py:26-46 | the loop over the cables builds exactly `InitialCables` |
| Simulator.CableNetwork.CreateSensorsForCable | simulator/cable_network.py:48-63 | the loop builds exactly the `num_sensors_per_cable` sensors of `InitialSensors` |
| Simulator.CableNetwork.SimulateStep | simulator/cable_network.py:110-122 | the readings are `StepReadings` of the old tables at the old time; the new tables are `MarkCables` of the old; the time advances by exactly 60 s |
| Simulator.CableNetwork.ReadAllCables | simulator/cable_network.py:112-119 | the nested loop yields the readings and the stamped tables of one step |
| Simulator.CableNetwork.ReadCable | simulator/cable_network.py:114-119 | the inner loop yields one cable's readings and its stamped sensors |
| Simulator.CableNetwork.IntroduceFault | simulator/cable_network.py:140-164 | the new tables are `AfterFault` of the old ones, and they stay well named |
| Simulator.CableNetwork.RepairCable | simulator/cable_network.py:166-179 | the new tables are `AfterRepair` of the old ones, and they stay well named |
| Simulator.CableNetwork.GetCableInfo | simulator/cable_network.py:181-183 | some record exactly when the id is a key; the record is the cable with that id |
| Simulator.CableNetwork.ListCables | simulator/cable_network.py:185-187 | one key per cable, in insertion order `cable_0`, `cable_1`, ... |
| DeepseaSimulator.GenerateOrKeyError | DEEPSEA/cursor/simulator/cable_network.py:54-90 | succeeds exactly when the lookup succeeds, with the same reading; an unknown cable raises `KeyError` on the cable id, an unknown sensor raises it on the sensor id |
| DeepseaSimulator.CableNetwork.constructor | DEEPSEA/cursor/simulator/cable_network.py:15-20 | the tables are `InitialCables` of the draws, the same network the first variant builds |
| DeepseaSimulator.CableNetwork.CreateNetwork | DEEPSEA/cursor/simulator/cable_network.py:22-52 | the nested loop builds exactly `InitialCables` |
| DeepseaSimulator.CableNetwork.SensorsForCable | DEEPSEA/cursor/simulator/cable_network.py:32-40 | the inner loop builds exactly one cable's `InitialSensors` |
| DeepseaSimulator.CableNetwork.SimulateStep | DEEPSEA/cursor/simulator/cable_network.py:92-103 | the readings are `StepReadings` of the tables, one per active sensor; the tables are not touched; the time advances by 60 s |
| DeepseaSimulator.CableNetwork.ReadCable | DEEPSEA/cursor/simulator/cable_network.py:97-100 | the inner loop yields exactly one cable's readings |
| DeepseaSimulator.CableNetwork.IntroduceFault | DEEPSEA/cursor/simulator/cable_network.py:121-138 | the new tables are `AfterFault` of the old ones; an unknown cable returns without change |
| DeepseaSimulator.CableNetwork.RepairCable | DEEPSEA/cursor/simulator/cable_network.py:140-147 | the new tables are `AfterRepair` of the old ones; only a known cable is restored |
| DashboardData.Push | visualizer/dashboard.py:205-214 | appending and then dropping the oldest element when over 100 leaves each of the three lists equal to the last 100 of old plus the new value |
| DashboardData.AfterReading | visualizer/dashboard.py:196-214 | the set of tracked sensors grows by exactly the reading's id (`unknown` when missing) |
| DashboardData.AfterReadingFacts | visualizer/dashboard.py:196-214 | one reading keeps the three lists of every sensor equal in length, non-empty and at most 100 long; the new timestamp (default now), value (default 0) and flag (default False) are the last elements, and the oldest is dropped when over the cap; a new sensor is appended to the key order; no other sensor changes |
| DashboardData.AfterReadingsInv | visualizer/dashboard.py:196-214 | a whole batch keeps that invariant |
| DashboardData.AfterReadingsUntouched | visualizer/dashboard.py:196-214 | a sensor that no reading of the batch names keeps its history |
| DashboardData.AfterReadingsKeys | visualizer/dashboard.py:196-204 | the tracked sensors after a batch are the old ones plus the ids the batch names; the old key order is a prefix of the new one |
| DashboardData.KeepTail | visualizer/dashboard.py:221-225 | the kept list has min(len, cap) elements and is a suffix of old plus new; when the new items fit under the cap they all survive, last |
| DashboardData.Occurrences | visualizer/dashboard.py:465-467 | the occurrences of a key are at most the number of items |
| DashboardData.TallyExact | visualizer/dashboard.py:462-467 | the per-sensor tally has exactly the ids that occur, each once, and each count equals its number of occurrences |
| DashboardData.TallyTotal | visualizer/dashboard.py:497 | the per-sensor counts add up to the number of items tallied |
| DashboardData.MostActiveIndex | visualizer/dashboard.py:499 | picks a sensor with the largest count, the first such in key order (as Python's `max` does) |
| DashboardData.MostActive | visualizer/dashboard.py:499 | "None" for an empty tally, else a tallied sensor with the largest count |
| DashboardData.Timeline | visualizer/dashboard.py:400-414 | the timeline shows the last `min(len, n)` alerts, oldest first; each keeps its timestamp (default now) and severity (default medium), with the colour of that severity |
| DashboardData.AtLeastOne | visualizer/dashboard.py:574 | `max(x, 1)`: x itself when x is at least 1, and 1 otherwise |
| Visualizer.NetworkViewOf | visualizer/dashboard.py:277-323 | no data exactly for empty statistics; a tier exactly when active + timeout > 0; then percentage × total = active × 100, the tier follows the 90/75/50 thresholds, the percentage is in [0, 100] for non-negative counts, and no timed-out sensors gives 100 % and Excellent |
| Visualizer.NetworkTierMonotone | visualizer/dashboard.py:315-316 | a higher health percentage never gives a worse tier |
| Visualizer.Activity | visualizer/dashboard.py:352 | activity = min(points/50, 1) lies in [0, 1] and is 1 exactly at 50 points or more |
| Visualizer.AnomalyScore | visualizer/dashboard.py:354 | the score 1 − flagged/max(len, 1) lies in [0, 1] and is 1 exactly when nothing is flagged |
| Visualizer.HealthRowOf | visualizer/dashboard.py:349-360 | every metric lies in [0, 1]; a sensor with an empty list gets the neutral 0.5 row; otherwise activity and anomaly score as above, quality at least 0.8 and signal at least 0.7 |
| Visualizer.SensorHealthOf | visualizer/dashboard.py:328-360 | no matrix exactly when there is no sensor data; otherwise one row for each of the first 6 sensors in insertion order, each computed from that sensor's history, all in [0, 1] |
| Visualizer.BucketsOf | visualizer/dashboard.py:462-475 | the high, medium and low buckets add up to the number of anomalies counted |
| Visualizer.AnalysisOf | visualizer/dashboard.py:445-507 | nothing is shown exactly when there are no anomalies |
| Visualizer.AnalysisFacts | visualizer/dashboard.py:462-499 | over the last 30 anomalies, the summary lists each sensor once and nothing else, with its number of occurrences; the total equals min(30, len) and the bucket sum; the most active sensor has the largest count |
| Visualizer.OccursAt | visualizer/dashboard.py:465-467 | an id found at some position of the list occurs in it |
| Visualizer.ActiveRatio | visualizer/dashboard.py:573-574 | the active ratio is in [0, 100] for non-negative counts, and is 100 when there is an active sensor and no timed-out one |
| Visualizer.SystemTierMonotone | visualizer/dashboard.py:577-588 | a better active ratio and a lower anomaly rate never give a worse tier |
| Visualizer.SystemHealthOf | visualizer/dashboard.py:516-588 | no tier exactly when there are no statistics; Excellent only with an active ratio of at least 95 and a rate below 5 %; any rate of 20 % or more is Critical |
| Visualizer.IndependentDashboards.constructor | visualizer/dashboard.py:33-46 | all stores start empty, not running, anomalies shown |
| Visualizer.IndependentDashboards.UpdateData | visualizer/dashboard.py:192-225 | the histories are `AfterReadings` of the old ones; the anomaly list is the last 100 of old plus new; the alert list is the last 50; the statistics are replaced; the invariant is kept |
| Visualizer.IndependentDashboards.StoreRecords | visualizer/dashboard.py:216-225 | the two lists are extended and cut to their caps, and the statistics replaced |
| Visualizer.IndependentDashboards.RecordReadings | visualizer/dashboard.py:196-214 | the reading loop yields `AfterReadings` and keeps the invariant |
| Visualizer.IndependentDashboards.RecordReading | visualizer/dashboard.py:197-214 | one pass of the loop yields `AfterReading` |
| Visualizer.IndependentDashboards.AnomalyAnalysis | visualizer/dashboard.py:462-499 | the counting loop over the last 30 anomalies yields exactly `AnalysisOf` |
| DeepseaDashboard.Toggled | DEEPSEA/cursor/visualizer/dashboard.py:124-135 | an individual label flips its own membership and leaves the rest of the set alone; `All Sensors` empties a set that holds it and otherwise selects exactly Sensor 1-3 |
| DeepseaDashboard.ToggleTwice | DEEPSEA/cursor/visualizer/dashboard.py:131-135 | toggling the same individual label twice restores the selection |
| DeepseaDashboard.AllSensorsNeverSelected | DEEPSEA/cursor/visualizer/dashboard.py:41 | starting without `All Sensors` in the set, no click ever adds it, so clicking it always selects exactly Sensor 1-3 |
| DeepseaDashboard.HeatCellOf | DEEPSEA/cursor/visualizer/dashboard.py:297-300 | a score exactly for a sensor with a non-empty flag list; the score is 1 − rate, in [0, 1] |
| DeepseaDashboard.HeatmapColumnOf | DEEPSEA/cursor/visualizer/dashboard.py:285-300 | no heat map exactly when there is no sensor data; otherwise one cell for each of the first 5 sensors, in insertion order |
| DeepseaDashboard.HeatmapScores | DEEPSEA/cursor/visualizer/dashboard.py:290-300 | with the histories `update_data` keeps, every shown sensor gets a computed score in [0, 1] |
| DeepseaDashboard.Caption | DEEPSEA/cursor/visualizer/dashboard.py:352 | the caption is the first 30 characters of the description (all of a shorter one) followed by `...` |
| DeepseaDashboard.CaptionedTimeline | DEEPSEA/cursor/visualizer/dashboard.py:331-352 | the last `min(len, 10)` alerts, oldest first, each with its shortened caption |
| DeepseaDashboard.Truncate | DEEPSEA/cursor/visualizer/dashboard.py:372 | `int()` truncates toward zero |
| DeepseaDashboard.StatLines | DEEPSEA/cursor/visualizer/dashboard.py:367-384 | one "no statistics" line exactly for empty statistics; seven value lines otherwise |
| DeepseaDashboard.Columns | DEEPSEA/cursor/visualizer/dashboard.py:387-388 | the first column holds the first min(len, 4) lines and the second the rest, in order |
| DeepseaDashboard.StatisticsLayout | DEEPSEA/cursor/visualizer/dashboard.py:367-388 | four lines on the left and three on the right with statistics; the single line on the left without |
| DeepseaDashboard.DistributionTotal | DEEPSEA/cursor/visualizer/dashboard.py:259-262 | the bars over the last 20 anomalies add up to min(20, len) |
| DeepseaDashboard.Dashboard.constructor | DEEPSEA/cursor/visualizer/dashboard.py:28-43 | all stores start empty, nothing selected |
| DeepseaDashboard.Dashboard.OnSensorToggle | DEEPSEA/cursor/visualizer/dashboard.py:124-135 | the selection becomes `Toggled` of the old one, and `All Sensors` never gets in |
| DeepseaDashboard.Dashboard.UpdateData | DEEPSEA/cursor/visualizer/dashboard.py:149-182 | the histories are `AfterReadings` of the old ones, the anomaly and alert lists are the last 100 and 50 of old plus new, the statistics are replaced, and the invariant is kept |
| DeepseaDashboard.Dashboard.StoreRecords | DEEPSEA/cursor/visualizer/dashboard.py:173-182 | the two lists are extended and cut to their caps, and the statistics replaced |
| DeepseaDashboard.Dashboard.RecordReadings | DEEPSEA/cursor/visualizer/dashboard.py:152-171 | the reading loop yields `AfterReadings` and keeps the invariant |
| DeepseaDashboard.Dashboard.RecordReading | DEEPSEA/cursor/visualizer/dashboard.py:153-171 | one pass of the loop yields `AfterReading` |
| DeepseaDashboard.Dashboard.AnomalyDistribution | DEEPSEA/cursor/visualizer/dashboard.py:254-262 | nothing exactly when there are no anomalies; otherwise the tally of the last 20 |

## Left out

- Threads, the daemon loop, `time.sleep`, the join in `stop_monitoring` and the thread-safety of `queue.Queue`: the model is one sequential step at a time (`MonitoringCycle`).
- Logging and the invocation of registered callbacks. Callbacks are opaque handles; only the registration check of `add_callback` is modelled.
- `monitoring_interval`: it only feeds `time.sleep`.
- The anomaly detector in `DEEPSEA/cursor/detector/anomaly_model.py` is a scikit-learn wrapper and is not part of this model. Its answer is the `Detection` parameter.
- `alert_id` and every human-readable description are left out: the alert and timeout descriptions, `timedelta` rendering, `:,` and `.2%` formatting, `strftime`, and the `sensor_` to `Sensor ` label rewrite. The id is built from the wall clock, and these are text only.
- `get_sensor_summary` is outside the named core and is not modelled.
- `export_data` (JSON and CSV files) and the PNG export of the dashboard: file I/O.
- All matplotlib drawing, window layout and animation. Of the dashboards only the data they compute is modelled. The second dashboard's network pie and time-series plot are not among the modelled rules.
- The random placeholder cells of the heat map and the random quality and signal metrics of the health matrix. The heat-map placeholder appears as `Placeholder`; quality and signal are draws in [0, 1) passed as parameters.
- The random magnitudes of the simulators (lengths, depths, voltages, ages, noise, spikes) are uninterpreted draw parameters. Only the anomaly flag and the choice of the failing sensor are interpreted.
- `np.random.choice` over the active sensors is modelled as the element at `pick % |active|` for an arbitrary draw `pick`.
- `datetime.now()` is the parameter `now`, and times are integer seconds. Uptime is uptime in seconds, not a `timedelta`.
- Floating point: ratios and positions are exact reals. The last sensor's position therefore equals the cable length exactly, where floating point might be off in the last bit.
- Python integers of any sign: `buffer_size` is a natural number. A negative `buffer_size` (which `deque` rejects) is not modelled; zero is, with `get_monitoring_stats` failing as the division by zero does.
- Dictionary values that are present but `None`: an absent key and a `None` value are the same `None` here.
- Python aliasing: the dict appended to `data_buffer` and `recent_readings` is mutated afterwards by the detector branch. The model stores the record in its final form.
- Simulator.CableNetwork.ReadAllCables: mutates a local copy of the tables and stores it once the loop is done, where the source overwrites `last_reading` in place. The result is the same because each sensor is visited once.
- Simulator.CableNetwork.GenerateSensorData, DeepseaSimulator.CableNetwork.GenerateSensorData, Simulator.CableNetwork.GetNetworkStatus and DeepseaSimulator.CableNetwork.GetNetworkStatus delegate to `Generate`, `GenerateOrKeyError` and `StatusOf`, whose contracts state their properties. They have no contract of their own.
- Visualizer.IndependentDashboards.NetworkStatus, SensorHealth, AlertsTimeline and SystemHealth, and DeepseaDashboard.Dashboard.Heatmap, AlertsTimeline and StatisticsDisplay: these view functions delegate to the pure functions above, whose contracts state their properties.
- A reading without a timestamp that gets an anomaly verdict is modelled as the code runs. `_handle_anomaly` has already counted the anomaly and bumped the sensor's counter when `reading['timestamp']` raises. The handler then stores the flag as False and queues no event. So `anomalies_detected` counts an anomaly whose record is not flagged.
- The second dashboard's `last_reading_time` line holds the value, not its `str()` rendering, and defaults to `N/A` as `None`.
