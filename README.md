# Paint-shop conveyor simulation, modelled and verified in Dafny

The system simulates a car-body paint shop over one shift. An arrival loop
creates a car every 8 to 12 minutes until the acceptance cutoff (480
minutes). Each car then goes through three stations in a fixed order:
cleaning (1 machine, 15-20 minutes), primer (2 machines, 25-35 minutes) and
painting (1 machine, 30-40 minutes). At every station the car:

- waits for a machine in a first-come, first-served queue;
- stamps its start time and records its wait;
- holds the machine for a sampled duration;
- stamps its end time and records the processing time and busy time;
- gives the machine back.

After cleaning and after primer the shop snapshots the three queue lengths.
It raises one alert per queue longer than the bottleneck threshold (3). The
run continues to time 2000 so that cars still inside can finish. The
summary reports the completed cars, their mean time in the shop, the three
station records and the alert count.

The model has eight modules, one per file:

- `Base` (base.dfy) holds the shared vocabulary. It has optional values, the
  three stations and a record with one value per station. It also has the sum
  and mean of a list of durations.
- `Entities` (entities.dfy) models the car record with its timestamp
  getters. It also models the station metrics record as a class whose
  methods update its fields in place.
- `BottleneckDetection` (bottleneck_detector.dfy) models the threshold
  detector.
- `SimResource` (resource.dfy) models the capacity-limited FIFO machine pool
  the engine borrows from its simulation library. Only the behaviour the
  engine relies on is included.
- `CarJourney` (journey.dfy) holds the engine's vocabulary:
  - the configuration, and the sampled draws as inputs;
  - event keys and their order;
  - the phases of a car's journey and the stamps a car carries in each phase.
- `EngineState` (engine_state.dfy) holds the engine state as a value and
  the agreement between the journeys and the station records.
- `EngineSteps` (steps.dfy) holds the step each kind of event takes, the
  choice of the next event, the engine invariant and the proofs that every
  step keeps it.
- `Simulation` (simulation.dfy) holds the `PaintShop` class. Its fields are
  the clock, the processes and the counters. Its methods perform each event
  in place, and each method's contract is the corresponding step.
  `RunUntil` is the event loop itself. The module also defines the
  reference run `RunFrom`: the engine, the station records and the queue
  histories, stepped event by event in key order up to the horizon. The
  class's `RunUntil` and `Run` are proved to end in exactly that state.

Modelling decisions:

- **Cars are values.** A car is a datatype, and each journey holds its car.
  A stamp replaces the journey's car with an updated copy. The list of
  completed cars holds the copy taken when the car exits, which is final,
  because an exited car is never stamped again.
- **Time** is `real`. Exact arithmetic stands in for the source's floats.
- **Random draws** become a `Samples` input:
  - the n-th arrival interval;
  - the service time of car `id` at each station.
  `SamplesFit` constrains every draw to its configured range.
- **Pending events** are kept per process, as the source's generator-based
  processes keep them:
  - the arrival loop's wake-up;
  - each car's wake-up;
  - the stations' pending release events.
  The loop resumes the event with the least key: earlier time first, then
  process start-ups, then scheduling order.
- **Machine pools** follow the library's request/release protocol exactly:
  - A request joins the back of the queue. A granting pass then admits the
    head of the queue if a machine is free.
  - A release frees the machine at once. The next granting pass runs when
    the release event is processed, which is still at the same time.
  - So a queue-length snapshot taken right after a release still counts the
    car that is about to be handed the machine.
- **The provisional cleaning start.** When a car's journey starts, it already
  stamps its cleaning start (with its arrival time) before it is admitted.
  Admission overwrites that stamp.

## Model

| member | source | states |
|---|---|---|
| `Entities.NewCar` | src/entities.py:8-30 | A new car stores the given id and arrival time. All six station stamps and the exit start absent, and so does every getter. |
| `Entities.Car.TotalSystemTime` | src/entities.py:32-36 | Absent exactly while the exit is unset. Otherwise arrival plus the result equals the exit time. |
| `Entities.Car.CleaningWaitTime` | src/entities.py:38-42 | Absent exactly while the cleaning start is unset. Otherwise arrival plus the result equals the cleaning start. |
| `Entities.Car.PrimerWaitTime` | src/entities.py:44-48 | Absent exactly while the primer start is unset. Otherwise the cleaning end plus the result equals the primer start. |
| `Entities.Car.PaintingWaitTime` | src/entities.py:50-54 | Absent exactly while the painting start is unset. Otherwise the primer end plus the result equals the painting start. |
| `Entities.SystemTimeDecomposes` | src/entities.py:32-54 | For a car with every stamp set in journey order, each wait is non-negative. Its time in the shop is then the three waits plus the three processing times. |
| `Entities.MaxLengthIsMaximum` | src/entities.py:98-103 | The running maximum of a queue history is 0 or a recorded length, and no recorded length exceeds it. |
| `Entities.Station.constructor` | src/entities.py:65-88 | A new station keeps its name and machine count. Every counter is 0 and every list is empty. |
| `Entities.Station.AddWaitTime` | src/entities.py:90-92 | Appends exactly one wait, and only the wait list may change. |
| `Entities.Station.AddProcessingTime` | src/entities.py:94-96 | Appends exactly one processing time, and only that list may change. |
| `Entities.Station.UpdateQueue` | src/entities.py:98-103 | Sets the current length and raises the maximum to the new length if it is larger. Appends exactly one (time, length) entry and keeps earlier entries. Keeps the record well formed: the current length is the last recorded one and the maximum is the running maximum of the history. |
| `Entities.Station.AvgWaitTime` | src/entities.py:105-109 | 0 for no waits. Otherwise the result times the count is the sum of the waits. |
| `Entities.Station.AvgProcessingTime` | src/entities.py:111-115 | 0 for no processing times. Otherwise the result times the count is their sum. |
| `Entities.Station.Utilization` | src/entities.py:117-124 | 0 for a zero duration. Otherwise the result times (machines × duration) is 100 × the busy time. |
| `Entities.UtilizationBounds` | src/entities.py:117-124 | Utilization is never negative. It is at most 100 exactly when the busy time fits in the machine time available. |
| `BottleneckDetection.BottleneckDetector.constructor` | src/bottleneck_detector.py:10-18 | The detector keeps the given threshold (3 by default) and starts with no alerts. |
| `BottleneckDetection.BottleneckDetector.CheckBottleneck` | src/bottleneck_detector.py:20-36 | True exactly when the queue is strictly longer than the threshold. As a function it changes nothing. |
| `BottleneckDetection.BottleneckDetector.ResetAlerts` | src/bottleneck_detector.py:38-40 | Leaves the alert history empty, and only that field may change, so the threshold is kept. |
| `BottleneckDetection.CheckIgnoresStationAndTime` | src/bottleneck_detector.py:20-36 | The answer is the same whichever station name and time are passed. |
| `BottleneckDetection.CheckMonotone` | src/bottleneck_detector.py:33 | A check that holds for a queue length also holds for every longer queue. |
| `BottleneckDetection.DefaultDetectorAlertsAboveThree` | src/bottleneck_detector.py:10-17 | A detector built without a threshold has threshold 3. It alerts on 4 waiting cars and not on 3. |
| `SimResource.NewResource` | src/simulation.py:25-27 | A new pool has the given machines, no holder and no waiting car. |
| `SimResource.Request` | src/simulation.py:103-105 | The requester joins the queue. A machine is granted exactly when one is free, and it goes to the head of the queue: the requester itself only if nobody was waiting. The pool stays well formed. |
| `SimResource.TriggerPut` | src/simulation.py:103-105 | A granting pass admits the head of the queue exactly when a machine is free, and otherwise changes nothing. |
| `SimResource.Release` | src/simulation.py:103-122 | Leaving the station frees exactly the leaving car's machine. The queue is untouched and the pool stays well formed. |
| `SimResource.AdmittedIsPrefixOfRequested` | src/simulation.py:25-27 | In a well-formed pool the cars admitted so far are exactly the first requests, in request order. |
| `CarJourney.DefaultConfigIsValid` | config.py:15-37 | The shipped settings give every station a machine and ordered service ranges, and they space arrivals by a positive minimum. |
| `CarJourney.KeyLeIsTotalOrder` | src/simulation.py:221-225 | The order of pending events (time, then start-ups, then scheduling order) is a total order. |
| `CarJourney.WaitAtIsStartMinusPrevEnd` | src/entities.py:38-54 | Once a station's start is stamped, the car's wait getter for it is that start minus the stamp the wait is measured from. |
| `CarJourney.ExitedCarIsFinished` | src/simulation.py:98-181 | A car that has left carries every stamp in journey order. Each stage took a time within its configured range, and the exit is no later than the clock. |
| `EngineState.WakeGranted` | src/simulation.py:105 | Only the granted car's pending event changes, and it resumes now. No car's record, phase or service time changes. |
| `EngineState.NoRecordsOk` | src/entities.py:84-88 | Empty station records agree with an empty shop. |
| `EngineState.RecordsWait` | src/simulation.py:109-110 | Adding the admitted car's non-negative wait keeps the station records in agreement with the journeys. |
| `EngineState.RecordsFinish` | src/simulation.py:118-120 | Adding one in-range processing time to the list and to the busy time keeps the records in agreement. |
| `EngineState.CompletedExit` | src/simulation.py:179-181 | A car leaving after painting joins the completed cars, and they stay exactly the cars of the exited journeys. |
| `EngineSteps.QueueLengths` | src/simulation.py:189-191 | Each station's snapshot is the length of its pool's queue. |
| `EngineSteps.AlertCount` | src/simulation.py:198-209 | One snapshot raises at most 3 alerts. |
| `EngineSteps.AlertCountMeaning` | src/simulation.py:198-209 | A snapshot raises no alert exactly when no queue is above the threshold, and 3 exactly when all are. It raises at least one whenever some queue is above it. |
| `EngineSteps.AdvanceKeeps` | src/simulation.py:225 | Moving the clock to the next event keeps the engine invariant. A pending release event pins the clock. |
| `EngineSteps.LaunchKeeps` | src/simulation.py:221 | Scheduling the arrival loop's start keeps the engine invariant. |
| `EngineSteps.StartGeneratorKeeps` | src/simulation.py:76-78 | The arrival loop's first wait keeps the invariant and uses up arrival budget. |
| `EngineSteps.GeneratorWakeKeeps` | src/simulation.py:76-92 | An arrival-loop wake-up keeps the invariant, uses up budget and moves no car through its phases. |
| `EngineSteps.NewCarKeeps` | src/simulation.py:86-92 | A car created before the cutoff gets the next id and holds no machine. Cars stay in arrival order. |
| `EngineSteps.StartJourneyKeeps` | src/simulation.py:98-105 | A car starting its journey keeps the invariant and moves exactly one car past arrival. |
| `EngineSteps.BeganWait` | src/simulation.py:106-110 | The wait recorded at admission is the car's own wait getter for that station, and it is non-negative. |
| `EngineSteps.BeginServiceKeeps` | src/simulation.py:105-116 | An admission keeps the invariant and moves exactly one car out of the queue. The recorded wait equals the getter. |
| `EngineSteps.FinishExitKeeps` | src/simulation.py:170-181 | An end of painting keeps the invariant. The car exits, joins the completed cars and leaves the system count. |
| `EngineSteps.FinishMoveKeeps` | src/simulation.py:116-132 | An end of cleaning or primer keeps the invariant, and the car queues at the next station. |
| `EngineSteps.FinishSplit` | src/simulation.py:118-132 | An end of service is: the release, then either the exit, or the queue snapshot with its alerts followed by the request at the next station. |
| `EngineSteps.FinishServiceKeeps` | src/simulation.py:116-181 | Any end of service keeps the invariant and moves exactly one car past service. Its duration lies in the station's range. |
| `EngineSteps.ReleaseKeeps` | src/simulation.py:103-122 | Processing a release event keeps the invariant and hands the machine to the head of the queue. |
| `EngineSteps.SnapshotAlerts` | src/simulation.py:194-209 | A queue snapshot adds to the recorded lengths above the threshold exactly the alerts it raises. |
| `EngineSteps.EarliestUpToIsLeast` | src/simulation.py:225 | The scan over the first n cars finds nothing exactly when none of its candidates is pending. What it finds has a key no greater than any candidate's. |
| `EngineSteps.EarliestIsNext` | src/simulation.py:225 | The reference choice is absent exactly when nothing is pending, and otherwise it is the event with the least key. |
| `EngineSteps.AlertsFollowSnapshots` | src/simulation.py:116-152 | Any event step raises exactly as many alerts as the queue-length entries above the threshold that it records. |
| `EngineSteps.NextIsLeast` | src/simulation.py:225 | The event handled next has the least key of all pending events. |
| `EngineSteps.StepKeeps` | src/simulation.py:71-183 | Handling the next event, of any kind, has these effects: <br>• the invariant holds afterwards;<br>• the clock moves to the event's time and never back;<br>• the run comes closer to its end;<br>• the alert and car counters never decrease;<br>• a stopped arrival loop stays stopped and creates no car. |
| `EngineSteps.RecordsStep` | src/simulation.py:109-120 | After any event, the station records still agree with the journeys: <br>• one wait per car admitted;<br>• one processing time per car finished;<br>• busy time equal to their sum. |
| `EngineSteps.CarsNumberedInArrivalOrder` | src/simulation.py:81-87 | Cars are numbered 1, 2, 3, ... in arrival order, and every car arrived before the cutoff. |
| `EngineSteps.CarsConserved` | src/simulation.py:91 | Cars created = cars completed + cars in the system, and the count in the system is never negative. |
| `EngineSteps.CompletedCarsFinished` | src/simulation.py:106-179 | Every completed car went through its stations in order and left when painting ended. Each stage took exactly its drawn duration, which lies within the configured range. |
| `EngineSteps.MachinesRespected` | src/simulation.py:25-27 | No station serves more cars than it has machines, and machines are granted in request order. A car waits only while every machine is held or is about to be handed over. |
| `Simulation.SystemTimes` | src/simulation.py:246 | Each completed car's time in the shop, by its own getter: arrival plus the time equals the exit. |
| `Simulation.InitialEngineOk` | src/simulation.py:14-37 | The engine before a run satisfies the engine invariant. |
| `Simulation.StopsAtHorizon` | src/simulation.py:225 | When the loop stops, no pending event comes before the horizon. |
| `Simulation.PendingNotBefore` | src/simulation.py:225 | No pending event is earlier than the time of a key that none precedes. |
| `Simulation.AverageSystemTimeAtLeastMinimum` | src/simulation.py:241-246 | The mean time in the shop of the completed cars is at least the three shortest services back to back. |
| `Simulation.ShopStepOk` | src/simulation.py:71-209 | A step of the whole shop keeps the invariant and the agreement of records and queue histories with the engine. Its engine part is a valid step. |
| `Simulation.RunFrom` | src/simulation.py:225 | The reference run steps the next event while it comes before the horizon. It ends with nothing pending before the horizon and the clock no later than it. The clock and counters never go back and the invariant holds. |
| `Simulation.Simulated` | src/simulation.py:211-225 | The reference full run: launch, run to the horizon, clock set to 2000. Every event still pending lies at or after 2000, and the invariant holds. |
| `Simulation.GeneratorGoesFirst` | src/simulation.py:76-78 | With no car and no release pending, an arrival-loop wake-up before the horizon is the run's next event. |
| `Simulation.FreshRunCreatesCar` | src/simulation.py:76-92 | When the first interval ends before the cutoff and the horizon, a full run from a fresh shop creates at least one car. |
| `Simulation.PaintShop.constructor` | src/simulation.py:14-37 | The shop starts with three named, empty stations that have the configured machines, and a detector with the configured threshold. Nothing is created or scheduled, and the invariant holds. |
| `Simulation.PaintShop.NextEvent` | src/simulation.py:225 | Finds a pending event with the least key, or reports that nothing is pending. The event found is the reference choice `Earliest`. |
| `Simulation.PaintShop.StartGenerator` | src/simulation.py:76-78 | The arrival loop draws its first interval and sleeps on it. |
| `Simulation.PaintShop.GeneratorWake` | src/simulation.py:76-92 | At or after the cutoff the loop stops for good. Before it, the loop creates the next car and then sleeps on a new interval. |
| `Simulation.PaintShop.StartJourney` | src/simulation.py:98-105 | The car stamps its provisional cleaning start and requests a cleaning machine. |
| `Simulation.PaintShop.BeginService` | src/simulation.py:105-116 | The admitted car stamps its start and sleeps for its drawn duration. Its station's record gains exactly the car's wait. |
| `Simulation.PaintShop.UpdateQueueStatus` | src/simulation.py:185-209 | Each station record gains one (now, queue length) entry and keeps its running maximum. The alert count rises by the number of queues above the threshold, and nothing else changes. The alert count stays equal to the number of recorded entries above the threshold. |
| `Simulation.PaintShop.RecordQueues` | src/simulation.py:189-196 | Each station record takes its pool's current queue length at the current time: each history gains exactly that entry, and the busy-machine count and last-change time are unchanged. |
| `Simulation.PaintShop.RaiseAlerts` | src/simulation.py:198-209 | The alert count rises by one per station whose queue is above the threshold. |
| `Simulation.PaintShop.RecordService` | src/simulation.py:118-120 | The station records one processing time and adds it to its busy time. No other record changes. |
| `Simulation.PaintShop.FinishService` | src/simulation.py:116-125 | Performs the end-of-service step. The station record gains the processing time and the busy time. The queue histories gain the snapshot after cleaning or primer and nothing after painting. |
| `Simulation.PaintShop.LeaveShop` | src/simulation.py:172-181 | After painting: the car stamps its end and exit, and gives its machine back. It then joins the completed cars and leaves the system count. |
| `Simulation.PaintShop.MoveOn` | src/simulation.py:118-132 | After cleaning or primer: the machine is given back, the queue status is taken and the car requests the next station. Each queue history gains exactly the queue length seen after the release, and the station records are left well formed. |
| `Simulation.PaintShop.EndService` | src/simulation.py:118-122 | The car stamps its end, frees its machine, and a release event is scheduled now. |
| `Simulation.PaintShop.RequestMachine` | src/simulation.py:130-132 | The car requests a machine at the next station. The car granted, if any, resumes now. |
| `Simulation.PaintShop.ProcessRelease` | src/simulation.py:122 | The release event's granting pass hands the freed machine to the head of the queue. |
| `Simulation.PaintShop.Dispatch` | src/simulation.py:71-183 | Resumes the process the event belongs to. The engine takes exactly that event's step. The records and the queue histories gain exactly what the step records. |
| `Simulation.PaintShop.HandleEvent` | src/simulation.py:71-183 | Handling the next event takes exactly its step on the engine, the station records and the queue histories. It keeps the invariant and the record agreement. The clock and counters are monotone and the run comes closer to its end. |
| `Simulation.PaintShop.Launch` | src/simulation.py:221 | The arrival loop is created to start at once, and the end of the run is scheduled at time 2000. |
| `Simulation.PaintShop.StopAt` | src/simulation.py:225 | The clock stands at the horizon, and every event still pending lies at or after it. |
| `Simulation.PaintShop.Step` | src/simulation.py:225 | One turn of the event loop. The whole shop takes exactly the reference step `ShopStep` for the event, the run comes closer to its end and the next event is the reference choice. |
| `Simulation.PaintShop.RunUntil` | src/simulation.py:225 | The shop ends in exactly the state of the reference run `RunFrom` to the horizon. It terminates, keeps the invariant and leaves no pending event before the horizon. |
| `Simulation.PaintShop.Run` | src/simulation.py:211-233 | A full run ends in exactly the reference state `Simulated`: launched, run to the horizon, clock at time 2000. It keeps the invariant and returns the results. |
| `Simulation.PaintShop.GetResults` | src/simulation.py:235-259 | The results report: <br>• the number of completed cars;<br>• a mean time in the shop that is 0 with no cars, and otherwise times the count gives the sum of exit − arrival and is at least the shortest possible;<br>• the three stations, the alert count, the cars and the configured simulation time;<br>• an alert count equal to the recorded queue lengths above the threshold. |
| `Simulation.PaintShop.AveragesInRange` | src/entities.py:105-115 | Once a station has served a car, its average processing time lies in the configured service range. Its average wait is never negative. |
| `Simulation.PaintShop.StationRecordsAgree` | src/simulation.py:109-120 | At every station: <br>• the busy time is the sum of the processing times;<br>• there are never more processing times than waits;<br>• every wait is non-negative;<br>• every processing time is in range. |

## Left out

- Logging (src/simulation.py:39-69) and the log file (src/simulation.py:33,
  231): console and file output that no engine state depends on.
- src/metrics.py and main.py: formatting, percentage display and file
  writing.
- The random draws (config.py:56-70) are calls into a library the model
  cannot see. They are replaced by the `Samples` input, constrained to the
  configured ranges.
- Floating point: times are exact reals.
- The simulation library beyond timeouts, process start-ups and the FIFO
  machine pool.
- `Station.num_busy` and `last_queue_change_time` (src/entities.py:75, 82) are
  carried as fields but never written, as in the source.
- A bound of 100% on utilization is not stated. The report
  (src/metrics.py:39-77) calls `get_utilization` with the 480-minute
  `simulation_time` that `get_results` returns. The run goes on to 2000, so
  that percentage can exceed 100. A bound against the elapsed clock
  (busy time at most machines × now) is not proved either.
- The shop is not proved empty at the horizon, which nothing in the code
  guarantees. Conservation of cars is proved instead.
- Simulation.PaintShop.constructor and `CarJourney.ValidConfig` demand a
  strictly positive minimum arrival interval. With a zero interval the
  arrival loop could create cars forever at one instant. The run would then
  not terminate, and the model's proof of termination needs this bound. The
  shipped minimum is 8 (config.py:15).
- Simulation.PaintShop.constructor and `CarJourney.ValidConfig` also demand
  non-negative minimum service times. A negative draw would make the
  simulation library's timeout raise an error, and the model does not
  represent that error.
- Entities.Car.PrimerWaitTime: requires the cleaning end to be stamped
  whenever the primer start is. In the source the subtraction raises an
  error otherwise, which the model does not represent. The engine invariant
  proves this case never arises.
- Entities.Car.PaintingWaitTime: requires the primer end to be stamped
  whenever the painting start is, for the same reason.
- Entities.Station.Utilization: requires a machine when the duration is
  non-zero. The source would divide by zero there.
- Simulation.PaintShop.Run: the result dictionary is a `Results` datatype
  that holds the station objects by reference.
