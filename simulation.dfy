// The paint-shop simulation object: the three station records, the
// bottleneck detector, the machine pools, the arrival loop, the car processes
// and the event loop that runs them in time order.
//
// Every suspended process waits on exactly one event, so the pending events
// are kept per process: the arrival loop's wake-up, each car's wake-up, and
// the release events of the stations. The event loop resumes the one with the
// least key (time, start-ups first, then scheduling order). Each handler
// updates the object in place and is specified by the step of module
// EngineSteps it performs, plus what it writes into the station records.
module Simulation {
  import opened Base
  import opened Entities
  import opened BottleneckDetection
  import opened SimResource
  import opened CarJourney
  import opened EngineState
  import opened EngineSteps

  /** The summary a run produces. */
  datatype Results = Results(
    totalCars: nat,
    avgSystemTime: real,
    cleaningStation: Station,
    primerStation: Station,
    paintingStation: Station,
    alertCount: nat,
    carsCompleted: seq<Car>,
    simulationTime: real)

  /** Each completed car's time from arrival to exit, by its own getter. */
  function SystemTimes(cs: seq<Car>): (r: seq<real>)
    requires forall m :: 0 <= m < |cs| ==> cs[m].exitTime.Some?
    ensures |r| == |cs|
    ensures forall m :: 0 <= m < |cs| ==> cs[m].arrivalTime + r[m] == cs[m].exitTime.value
  {
    seq(|cs|, m requires 0 <= m < |cs| => cs[m].TotalSystemTime().value)
  }

  /** The least time a car can spend in the shop: the three shortest services
      back to back. */
  function MinSystemTime(cfg: Config): real
  {
    cfg.serviceMin.cleaning + cfg.serviceMin.primer + cfg.serviceMin.painting
  }

  /** The engine before a run: clock at 0, nothing created, nothing
      scheduled, every pool empty with the configured machines. */
  function InitialEngine(cfg: Config): Engine
    requires ValidConfig(cfg)
  {
    Engine(0.0, 0, GenIdle, None, 0, [], [],
           PerStation(NewResource(cfg.machines.cleaning), NewResource(cfg.machines.primer),
                      NewResource(cfg.machines.painting)),
           [], 0, 0, 0)
  }

  lemma InitialEngineOk(cfg: Config, s: Samples)
    requires ValidConfig(cfg) && SamplesFit(cfg, s)
    ensures EngineOk(cfg, s, InitialEngine(cfg))
  {
    var e := InitialEngine(cfg);
    forall k ensures ResourceOk(e.resources.Get(k), cfg.machines.Get(k), 0) && WorkConserving(e.resources.Get(k), [], k) {
      assert StationConfigOk(cfg, k);
    }
  }

  /** No pending event comes before a key that is no later than one nothing
      comes before. */
  lemma NoneBeforeEarlier(e: Engine, a: Key, b: Key)
    requires KeyLe(a, b) && NoneBefore(e, b)
    ensures NoneBefore(e, a)
  {
    forall m | 0 <= m < |e.journeys| && e.journeys[m].wake.Some? ensures KeyLe(a, e.journeys[m].wake.value) {
      KeyLeIsTotalOrder(a, b, e.journeys[m].wake.value);
    }
    if e.genWake.Some? {
      KeyLeIsTotalOrder(a, b, e.genWake.value);
    }
    if e.releases != [] {
      KeyLeIsTotalOrder(a, b, e.releases[0].key);
    }
  }

  /** The event loop stops with nothing before the horizon: either nothing
      is pending, or the next event does not come before the horizon. */
  lemma StopsAtHorizon(e: Engine, horizon: Key, next: Option<Target>, key: Key)
    requires next.None? ==> NothingPending(e)
    requires next.Some? ==> IsNext(e, next.value) && key == KeyOf(e, next.value) && KeyLe(horizon, key)
    ensures NoneBefore(e, horizon)
  {
    if next.Some? {
      KeyLeIsTotalOrder(horizon, key, key);
      NoneBeforeEarlier(e, horizon, key);
    }
  }

  /** When no pending event comes before key, none is earlier than key's
      time. */
  lemma PendingNotBefore(e: Engine, key: Key)
    requires NoneBefore(e, key)
    ensures forall t :: Pending(e, t) ==> key.time <= KeyOf(e, t).time
  {
    forall t | Pending(e, t) ensures key.time <= KeyOf(e, t).time {
      assert KeyLe(key, KeyOf(e, t)) by {
        match t
        case GeneratorEvent =>
        case CarEvent(m) =>
        case ReleaseEvent =>
      }
    }
  }

  /** A completed car spends at least the three shortest services in the
      shop, so the average time in the shop is at least that too. */
  lemma AverageSystemTimeAtLeastMinimum(cfg: Config, s: Samples, e: Engine)
    requires EngineOk(cfg, s, e)
    ensures forall m :: 0 <= m < |e.carsCompleted| ==> e.carsCompleted[m].exitTime.Some?
    ensures e.carsCompleted != [] ==> MinSystemTime(cfg) <= Mean(SystemTimes(e.carsCompleted))
  {
    CompletedCarsFinished(cfg, s, e);
    var cs := e.carsCompleted;
    var ts := SystemTimes(cs);
    forall m | 0 <= m < |ts| ensures MinSystemTime(cfg) <= ts[m] {
      var c := cs[m];
      assert EndOf(c, Cleaning).value - StartOf(c, Cleaning).value >= cfg.serviceMin.Get(Cleaning);
      assert EndOf(c, Primer).value - StartOf(c, Primer).value >= cfg.serviceMin.Get(Primer);
      assert EndOf(c, Painting).value - StartOf(c, Painting).value >= cfg.serviceMin.Get(Painting);
    }
    if cs != [] {
      MeanAtLeast(ts, MinSystemTime(cfg));
    }
  }

  /** The waits, processing times and busy time a station has recorded. */
  ghost function LogOf(st: Station): StationLog
    reads st`waitTimes, st`processingTimes, st`totalBusyTime
  {
    StationLog(st.waitTimes, st.processingTimes, st.totalBusyTime)
  }

  /** The rest of what a station record holds besides its log; its current
      and peak queue lengths follow from the history (Station.Valid). */
  ghost function TrackOf(st: Station): Tracking
    reads st`queueLengthHistory, st`numBusy, st`lastQueueChangeTime
  {
    Tracking(st.queueLengthHistory, st.numBusy, st.lastQueueChangeTime)
  }

  // ---------------------------------------------------------------------
  // The run as a sequence of event steps

  /** Everything handling events changes: the engine, and each station's
      log and the rest of its record. */
  datatype Shop = Shop(engine: Engine, logs: PerStation<StationLog>, tracks: PerStation<Tracking>)

  /** The engine keeps its invariant, the station logs agree with the
      journeys, and every alert raised is a recorded queue length above the
      threshold. */
  ghost predicate ShopOk(cfg: Config, s: Samples, w: Shop)
  {
    && EngineOk(cfg, s, w.engine) && RecordsOk(cfg, w.engine.journeys, w.logs)
    && w.engine.alertCount == RecordedAlerts(w.tracks, cfg.bottleneckThreshold)
  }

  /** Handling the next event t: the engine takes its step, and the station
      records gain what LogStep and TrackStep say. */
  ghost function ShopStep(cfg: Config, s: Samples, w: Shop, t: Target): Shop
    requires ShopOk(cfg, s, w) && IsNext(w.engine, t)
  {
    RecordsStep(cfg, s, w.engine, t, w.logs);
    Shop(EventStep(cfg, s, w.engine, t), LogStep(w.engine, t, w.logs), TrackStep(w.engine, t, w.tracks))
  }

  /** Every event step keeps the shop consistent, moves the clock to the
      event's time and brings the run closer to its end (StepOk). */
  lemma ShopStepOk(cfg: Config, s: Samples, w: Shop, t: Target)
    requires ShopOk(cfg, s, w) && IsNext(w.engine, t)
    ensures ShopOk(cfg, s, ShopStep(cfg, s, w, t))
    ensures StepOk(cfg, s, w.engine, ShopStep(cfg, s, w, t).engine, KeyOf(w.engine, t))
  {
    StepKeeps(cfg, s, w.engine, t);
    RecordsStep(cfg, s, w.engine, t, w.logs);
    AlertsFollowSnapshots(cfg, s, w.engine, t, w.tracks);
  }

  /** The event loop from w: while the earliest pending event comes before
      the horizon, it is handled. The run stops with nothing pending before
      the horizon, keeps every invariant, never moves the clock back or past
      the horizon, and never lowers the car and alert counters. */
  ghost function RunFrom(cfg: Config, s: Samples, w: Shop, horizon: Key): (r: Shop)
    requires ShopOk(cfg, s, w)
    ensures ShopOk(cfg, s, r) && NoneBefore(r.engine, horizon)
    ensures w.engine.now <= r.engine.now
    ensures w.engine.now <= horizon.time ==> r.engine.now <= horizon.time
    ensures w.engine.carCounter <= r.engine.carCounter && w.engine.alertCount <= r.engine.alertCount
    decreases GenBudget(cfg, w.engine), Work(w.engine)
  {
    EarliestIsNext(w.engine);
    var next := Earliest(w.engine);
    if next.None? || KeyLe(horizon, KeyOf(w.engine, next.value)) then
      StopsAtHorizon(w.engine, horizon, next, if next.None? then horizon else KeyOf(w.engine, next.value));
      w
    else
      ShopStepOk(cfg, s, w, next.value);
      RunFrom(cfg, s, ShopStep(cfg, s, w, next.value), horizon)
  }

  /** The shop once the run is launched: the arrival loop's start-up is
      scheduled now, and the end of the run takes the scheduling number after
      it. */
  function Launched(w: Shop): Shop
  {
    w.(engine := LaunchStep(w.engine).(nextEid := w.engine.nextEid + 2))
  }

  /** The end of the run: time 2000, scheduled right after the arrival
      loop's start-up. */
  function HorizonOf(w: Shop): Key
  {
    Key(RunHorizon, true, w.engine.nextEid + 1)
  }

  lemma LaunchedOk(cfg: Config, s: Samples, w: Shop)
    requires ShopOk(cfg, s, w) && w.engine.genState.GenIdle?
    ensures ShopOk(cfg, s, Launched(w))
  {
    LaunchKeeps(cfg, s, w.engine);
    SkipEidKeeps(cfg, s, LaunchStep(w.engine));
  }

  /** A whole run from w: it is launched, events are handled in order while
      they come before the horizon, and the clock then stands at the
      horizon. */
  ghost function Simulated(cfg: Config, s: Samples, w: Shop): (r: Shop)
    requires ShopOk(cfg, s, w) && w.engine.genState.GenIdle? && w.engine.now <= RunHorizon
    ensures ShopOk(cfg, s, r) && r.engine.now == RunHorizon
    ensures forall t :: Pending(r.engine, t) ==> RunHorizon <= KeyOf(r.engine, t).time
    ensures w.engine.carCounter <= r.engine.carCounter && w.engine.alertCount <= r.engine.alertCount
  {
    LaunchedOk(cfg, s, w);
    var r := RunFrom(cfg, s, Launched(w), HorizonOf(w));
    AdvanceKeeps(cfg, s, r.engine, HorizonOf(w), RunHorizon);
    PendingNotBefore(r.engine, HorizonOf(w));
    r.(engine := r.engine.(now := RunHorizon))
  }

  /** With no car journey and no release pending, an arrival-loop wake-up
      before the horizon is the run's next event. */
  lemma GeneratorGoesFirst(cfg: Config, s: Samples, w: Shop, h: Key)
    requires ShopOk(cfg, s, w) && w.engine.journeys == [] && w.engine.releases == []
    requires w.engine.genWake.Some? && w.engine.genWake.value.time < h.time
    ensures IsNext(w.engine, GeneratorEvent) && ShopOk(cfg, s, ShopStep(cfg, s, w, GeneratorEvent))
    ensures RunFrom(cfg, s, w, h) == RunFrom(cfg, s, ShopStep(cfg, s, w, GeneratorEvent), h)
  {
    EarliestIsNext(w.engine);
    assert Earliest(w.engine) == Some(GeneratorEvent);
    ShopStepOk(cfg, s, w, GeneratorEvent);
  }

  /** A run of a fresh shop is never empty when the first arrival comes
      before both the acceptance cutoff and the end of the run: the arrival
      loop starts at time 0, sleeps one interval and then creates car 1. */
  lemma FreshRunCreatesCar(cfg: Config, s: Samples, w: Shop)
    requires ShopOk(cfg, s, w) && w.engine == InitialEngine(cfg)
    requires s.arrivalInterval(0) < cfg.newCarAcceptanceTime && s.arrivalInterval(0) < RunHorizon
    ensures 1 <= Simulated(cfg, s, w).engine.carCounter
  {
    var h := HorizonOf(w);
    LaunchedOk(cfg, s, w);
    var w1 := Launched(w);
    GeneratorGoesFirst(cfg, s, w1, h);
    var w2 := ShopStep(cfg, s, w1, GeneratorEvent);
    assert w2.engine == StartGeneratorStep(s, w1.engine);
    GeneratorGoesFirst(cfg, s, w2, h);
    var w3 := ShopStep(cfg, s, w2, GeneratorEvent);
    assert w3.engine == GeneratorWakeStep(cfg, s, w2.engine);
  }

  class PaintShop {
    const cfg: Config
    const samples: Samples
    const cleaningStation: Station
    const primerStation: Station
    const paintingStation: Station
    const bottleneckDetector: BottleneckDetector

    /** The simulation clock. */
    var now: real
    /** Scheduling counter: the next event scheduled gets this number. */
    var nextEid: nat
    var genState: GenState
    var genWake: Option<Key>
    /** How many arrival intervals have been drawn. */
    var intervalsDrawn: nat
    /** journeys[i] is the process of the car with id i + 1. */
    var journeys: seq<Journey>
    var releases: seq<PendingRelease>
    var resources: PerStation<Resource>
    var carsCompleted: seq<Car>
    var carsInSystem: int
    var carCounter: nat
    var alertCount: nat

    /** The engine part of the object as a value. */
    ghost function Snap(): Engine
      reads this
    {
      Engine(now, nextEid, genState, genWake, intervalsDrawn, journeys, releases, resources,
             carsCompleted, carsInSystem, carCounter, alertCount)
    }

    function StationOf(k: StationId): Station
    {
      match k
      case Cleaning => cleaningStation
      case Primer => primerStation
      case Painting => paintingStation
    }

    /** Three distinct station records, each well formed, with the configured
        machines and in agreement with the journeys; the detector uses the
        configured threshold; and the engine keeps its invariant. */
    ghost predicate Valid()
      reads this, cleaningStation, primerStation, paintingStation, bottleneckDetector
    {
      && StationsOk() && EngineInv() && RecordsOk(cfg, journeys, Logs())
      && alertCount == RecordedAlerts(Tracks(), cfg.bottleneckThreshold)
    }

    /** Three distinct station records, each well formed and with the
        configured machines, and a detector with the configured threshold. */
    ghost predicate StationsOk()
      reads cleaningStation`currentQueueLength, cleaningStation`maxQueueLength, cleaningStation`queueLengthHistory
      reads primerStation`currentQueueLength, primerStation`maxQueueLength, primerStation`queueLengthHistory
      reads paintingStation`currentQueueLength, paintingStation`maxQueueLength, paintingStation`queueLengthHistory
      reads bottleneckDetector`threshold
    {
      && cleaningStation != primerStation && primerStation != paintingStation
      && cleaningStation != paintingStation
      && bottleneckDetector.threshold == cfg.bottleneckThreshold
      && (forall k :: StationOf(k).Valid() && StationOf(k).numMachines == cfg.machines.Get(k))
    }

    /** The engine part keeps its invariant. */
    ghost predicate EngineInv()
      reads this
    {
      EngineOk(cfg, samples, Snap())
    }

    /** The accumulated data of the three station records. */
    ghost function Logs(): PerStation<StationLog>
      reads cleaningStation`waitTimes, cleaningStation`processingTimes, cleaningStation`totalBusyTime
      reads primerStation`waitTimes, primerStation`processingTimes, primerStation`totalBusyTime
      reads paintingStation`waitTimes, paintingStation`processingTimes, paintingStation`totalBusyTime
    {
      PerStation(LogOf(cleaningStation), LogOf(primerStation), LogOf(paintingStation))
    }

    /** The queue histories and the unused fields of the three station
        records. */
    ghost function Tracks(): PerStation<Tracking>
      reads cleaningStation`queueLengthHistory, cleaningStation`numBusy, cleaningStation`lastQueueChangeTime
      reads primerStation`queueLengthHistory, primerStation`numBusy, primerStation`lastQueueChangeTime
      reads paintingStation`queueLengthHistory, paintingStation`numBusy, paintingStation`lastQueueChangeTime
    {
      PerStation(TrackOf(cleaningStation), TrackOf(primerStation), TrackOf(paintingStation))
    }

    /** Everything handling events changes, as a value. */
    ghost function ShopOf(): Shop
      reads this, cleaningStation, primerStation, paintingStation
    {
      Shop(Snap(), Logs(), Tracks())
    }

    /** The shop as set up before a run: three empty stations with their
        machines, a detector with the configured threshold, nothing created
        and nothing scheduled. */
    constructor (cfg: Config, samples: Samples)
      requires ValidConfig(cfg) && SamplesFit(cfg, samples)
      ensures Valid()
      ensures this.cfg == cfg && this.samples == samples
      ensures Snap() == InitialEngine(cfg)
      ensures fresh(cleaningStation) && fresh(primerStation) && fresh(paintingStation)
      ensures forall k ::
        && StationOf(k).name == StationName(k)
        && StationOf(k).waitTimes == [] && StationOf(k).processingTimes == []
        && StationOf(k).queueLengthHistory == [] && StationOf(k).totalBusyTime == 0.0
    {
      this.cfg := cfg;
      this.samples := samples;
      cleaningStation := new Station("Cleaning", cfg.machines.cleaning);
      primerStation := new Station("Primer", cfg.machines.primer);
      paintingStation := new Station("Painting", cfg.machines.painting);
      resources := PerStation(
        NewResource(cfg.machines.cleaning),
        NewResource(cfg.machines.primer),
        NewResource(cfg.machines.painting));
      carsCompleted := [];
      carsInSystem := 0;
      carCounter := 0;
      bottleneckDetector := new BottleneckDetector(cfg.bottleneckThreshold);
      alertCount := 0;
      now := 0.0;
      genState := GenIdle;
      genWake := None;
      nextEid := 0;
      intervalsDrawn := 0;
      journeys := [];
      releases := [];
      new;
      forall k ensures
        && StationOf(k).name == StationName(k) && StationOf(k).numMachines == cfg.machines.Get(k)
        && StationOf(k).Valid() && StationOf(k).waitTimes == [] && StationOf(k).processingTimes == []
        && StationOf(k).queueLengthHistory == [] && StationOf(k).totalBusyTime == 0.0
      {
        match k
        case Cleaning =>
        case Primer =>
        case Painting =>
      }
      InitialEngineOk(cfg, samples);
      assert Snap() == InitialEngine(cfg);
      NoRecordsOk(cfg);
      assert Logs() == PerStation(NoLog, NoLog, NoLog);
    }

    // -------------------------------------------------------------------
    // Choosing the next event

    /** Finds the pending event with the least key, if any, and its key: the
        event the loop picks (Earliest), which is the next event. */
    method NextEvent() returns (next: Option<Target>, key: Key)
      requires Valid()
      ensures Valid()
      ensures next == Earliest(Snap())
      ensures next.None? <==> NothingPending(Snap())
      ensures next.Some? ==> IsNext(Snap(), next.value) && key == KeyOf(Snap(), next.value)
    {
      next := None;
      key := Key(0.0, false, 0);
      if genWake.Some? {
        next, key := Some(GeneratorEvent), genWake.value;
      }
      if releases != [] && (next.None? || !KeyLe(key, releases[0].key)) {
        next, key := Some(ReleaseEvent), releases[0].key;
      }
      var i := 0;
      while i < |journeys|
        invariant 0 <= i <= |journeys|
        invariant next == EarliestUpTo(Snap(), i)
        invariant next.Some? ==> key == KeyOf(Snap(), next.value)
      {
        var w := journeys[i];
        if w.wake.Some? && (next.None? || !KeyLe(key, w.wake.value)) {
          next, key := Some(CarEvent(i)), w.wake.value;
        }
        i := i + 1;
      }
      EarliestIsNext(Snap());
    }

    // -------------------------------------------------------------------
    // The arrival loop

    /** The arrival loop's process starts: it draws its first interval and
        sleeps on it. */
    method StartGenerator()
      requires genWake.Some?
      modifies this
      ensures Snap() == StartGeneratorStep(samples, old(Snap()))
    {
      now := genWake.value.time;
      var interval := samples.arrivalInterval(intervalsDrawn);
      genState := GenSleeping;
      genWake := Some(Key(now + interval, false, nextEid));
      intervalsDrawn := intervalsDrawn + 1;
      nextEid := nextEid + 1;
    }

    /** The arrival loop wakes from its interval. At or after the acceptance
        cutoff it stops for good. Before it, it numbers the next car, stamps
        its arrival, counts it in the system, starts the car's journey process
        and sleeps for the next interval. */
    method GeneratorWake()
      requires genWake.Some?
      modifies this
      ensures Snap() == GeneratorWakeStep(cfg, samples, old(Snap()))
    {
      now := genWake.value.time;
      if now >= cfg.newCarAcceptanceTime {
        genState := GenStopped;
        genWake := None;
      } else {
        carCounter := carCounter + 1;
        var car := NewCar(carCounter, now);
        carsInSystem := carsInSystem + 1;
        journeys := journeys + [Journey(car, Arrived, 0.0, Some(Key(now, true, nextEid)))];
        nextEid := nextEid + 1;
        var interval := samples.arrivalInterval(intervalsDrawn);
        intervalsDrawn := intervalsDrawn + 1;
        genWake := Some(Key(now + interval, false, nextEid));
        nextEid := nextEid + 1;
      }
    }

    // -------------------------------------------------------------------
    // A car's journey

    /** A car's journey starts: it joins the cleaning queue with a provisional
        cleaning start and requests a cleaning machine; the car that request's
        granting pass admits, if any, resumes now. */
    method StartJourney(i: nat)
      requires i < |journeys| && journeys[i].wake.Some?
      modifies this
      ensures Snap() == StartJourneyStep(old(Snap()), i)
    {
      var j := journeys[i];
      now := j.wake.value.time;
      var car := j.car.(cleaningStartTime := Some(now));
      journeys := journeys[i := Journey(car, Queued(Cleaning), j.service, None)];
      var p := Request(resources.cleaning, i + 1);
      journeys := WakeGranted(journeys, p.1, now, nextEid);
      resources := resources.Set(Cleaning, p.0);
      if p.1.Some? {
        nextEid := nextEid + 1;
      }
    }

    /** Car i was granted a machine at its station k: it stamps its start,
        records its wait there (from the end of the previous station, or its
        arrival before cleaning) and sleeps for the service time drawn for
        it. */
    method BeginService(i: nat)
      requires i < |journeys| && journeys[i].phase.Queued? && journeys[i].wake.Some?
      requires PrevEnd(journeys[i].car, journeys[i].phase.at).Some?
      requires cleaningStation != primerStation && primerStation != paintingStation
      requires cleaningStation != paintingStation
      modifies this, StationOf(journeys[i].phase.at)`waitTimes
      ensures Snap() == BeginServiceStep(samples, old(Snap()), i)
      ensures var k := old(journeys[i].phase.at);
        var w := WaitFrom(old(journeys[i].car), k, old(journeys[i].wake.value.time));
        Logs() == old(Logs()).Set(k, old(Logs()).Get(k).(waits := old(Logs()).Get(k).waits + [w]))
    {
      var j := journeys[i];
      var k := j.phase.at;
      now := j.wake.value.time;
      var car := WithStart(j.car, k, now);
      var waitTime := now - PrevEnd(j.car, k).value;
      StationOf(k).AddWaitTime(waitTime);
      var d := Duration(samples, k, car.carId);
      journeys := journeys[i := Journey(car, InService(k), d, Some(Key(now + d, false, nextEid)))];
      nextEid := nextEid + 1;
    }

    /** Snapshots the three queue lengths into the station records at the
        current time and counts one alert per station whose queue is above the
        detector's threshold. */
    method UpdateQueueStatus()
      requires cleaningStation != primerStation && primerStation != paintingStation
      requires cleaningStation != paintingStation
      requires forall k :: StationOf(k).Valid()
      modifies this`alertCount
      modifies cleaningStation`currentQueueLength, cleaningStation`maxQueueLength, cleaningStation`queueLengthHistory
      modifies primerStation`currentQueueLength, primerStation`maxQueueLength, primerStation`queueLengthHistory
      modifies paintingStation`currentQueueLength, paintingStation`maxQueueLength, paintingStation`queueLengthHistory
      ensures Snap() == old(Snap()).(alertCount := old(alertCount) + AlertCount(bottleneckDetector.threshold, QueueLengths(resources)))
      ensures Logs() == old(Logs())
      ensures Tracks() == Snapshot(old(Tracks()), now, QueueLengths(resources))
      ensures forall k ::
        && StationOf(k).Valid()
        && StationOf(k).currentQueueLength == |resources.Get(k).queue|
        && StationOf(k).queueLengthHistory == old(StationOf(k).queueLengthHistory) + [(now, |resources.Get(k).queue|)]
    {
      RecordQueues();
      RaiseAlerts();
    }

    /** Each station record takes its resource's queue length at the current
        time. */
    method RecordQueues()
      requires cleaningStation != primerStation && primerStation != paintingStation
      requires cleaningStation != paintingStation
      requires forall k :: StationOf(k).Valid()
      modifies cleaningStation`currentQueueLength, cleaningStation`maxQueueLength, cleaningStation`queueLengthHistory
      modifies primerStation`currentQueueLength, primerStation`maxQueueLength, primerStation`queueLengthHistory
      modifies paintingStation`currentQueueLength, paintingStation`maxQueueLength, paintingStation`queueLengthHistory
      ensures forall k ::
        && StationOf(k).Valid()
        && StationOf(k).currentQueueLength == |resources.Get(k).queue|
        && StationOf(k).queueLengthHistory == old(StationOf(k).queueLengthHistory) + [(now, |resources.Get(k).queue|)]
      ensures Tracks() == Snapshot(old(Tracks()), now, QueueLengths(resources))
    {
      assert StationOf(Cleaning).Valid() && StationOf(Primer).Valid() && StationOf(Painting).Valid();
      cleaningStation.UpdateQueue(|resources.cleaning.queue|, now);
      primerStation.UpdateQueue(|resources.primer.queue|, now);
      paintingStation.UpdateQueue(|resources.painting.queue|, now);
      forall k ensures
        && StationOf(k).Valid()
        && StationOf(k).currentQueueLength == |resources.Get(k).queue|
        && StationOf(k).queueLengthHistory == old(StationOf(k).queueLengthHistory) + [(now, |resources.Get(k).queue|)]
      {
        match k
        case Cleaning =>
        case Primer =>
        case Painting =>
      }
    }

    /** One alert per station whose queue is above the detector's threshold. */
    method RaiseAlerts()
      modifies this`alertCount
      ensures alertCount == old(alertCount) + AlertCount(bottleneckDetector.threshold, QueueLengths(resources))
    {
      if bottleneckDetector.CheckBottleneck("Cleaning", |resources.cleaning.queue|, now) {
        alertCount := alertCount + 1;
      }
      if bottleneckDetector.CheckBottleneck("Primer", |resources.primer.queue|, now) {
        alertCount := alertCount + 1;
      }
      if bottleneckDetector.CheckBottleneck("Painting", |resources.painting.queue|, now) {
        alertCount := alertCount + 1;
      }
    }

    /** Station k records one processing time and adds it to its busy time;
        no other record changes. */
    method RecordService(k: StationId, d: real)
      requires cleaningStation != primerStation && primerStation != paintingStation
      requires cleaningStation != paintingStation
      modifies StationOf(k)`processingTimes, StationOf(k)`totalBusyTime
      ensures Logs() == old(Logs()).Set(k, old(Logs()).Get(k).(procs := old(Logs()).Get(k).procs + [d],
                                                                busy := old(Logs()).Get(k).busy + d))
    {
      var station := StationOf(k);
      station.AddProcessingTime(d);
      station.totalBusyTime := station.totalBusyTime + d;
    }

    /** Car i's service ends: it stamps the end, records the processing time
        and adds it to the busy time, and gives its machine back. After
        painting it stamps its exit, joins the completed cars and leaves the
        system count. After cleaning and primer the queue status is taken and
        the car requests a machine at the next station. */
    method FinishService(i: nat)
      requires i < |journeys| && journeys[i].phase.InService? && journeys[i].wake.Some?
      requires StationsOk()
      modifies this, cleaningStation, primerStation, paintingStation
      ensures StationsOk()
      ensures Snap() == FinishServiceStep(cfg, old(Snap()), i)
      ensures Tracks() == TrackStep(old(Snap()), CarEvent(i), old(Tracks()))
      ensures var k := old(journeys[i].phase.at);
        var d := old(journeys[i].service);
        Logs() == old(Logs()).Set(k, old(Logs()).Get(k).(procs := old(Logs()).Get(k).procs + [d],
                                                          busy := old(Logs()).Get(k).busy + d))
    {
      var k := journeys[i].phase.at;
      RecordService(k, journeys[i].service);
      if NextStation(k).None? {
        LeaveShop(i);
      } else {
        MoveOn(i);
      }
    }

    /** After painting: the car stamps its end and exit, gives its machine
        back, joins the completed cars and leaves the system count. */
    method LeaveShop(i: nat)
      requires i < |journeys| && journeys[i].phase.InService? && journeys[i].wake.Some?
      requires NextStation(journeys[i].phase.at).None?
      modifies this
      ensures Snap() == FinishServiceStep(cfg, old(Snap()), i)
    {
      FinishSplit(cfg, Snap(), i, journeys[i].phase.at, journeys[i].wake.value.time);
      EndService(i);
      carsCompleted, carsInSystem := carsCompleted + [journeys[i].car], carsInSystem - 1;
    }

    /** After cleaning or primer: the car stamps its end and gives its machine
        back, the queue status is taken, and the car requests a machine at the
        next station; the car that request's granting pass admits, if any,
        resumes now. */
    method MoveOn(i: nat)
      requires i < |journeys| && journeys[i].phase.InService? && journeys[i].wake.Some?
      requires NextStation(journeys[i].phase.at).Some?
      requires StationsOk()
      modifies this`now, this`journeys, this`resources, this`releases, this`nextEid, this`alertCount
      modifies cleaningStation`currentQueueLength, cleaningStation`maxQueueLength, cleaningStation`queueLengthHistory
      modifies primerStation`currentQueueLength, primerStation`maxQueueLength, primerStation`queueLengthHistory
      modifies paintingStation`currentQueueLength, paintingStation`maxQueueLength, paintingStation`queueLengthHistory
      ensures StationsOk() && Logs() == old(Logs())
      ensures Snap() == FinishServiceStep(cfg, old(Snap()), i)
      ensures var k := old(journeys[i].phase.at);
        var t := old(journeys[i].wake.value.time);
        Tracks() == Snapshot(old(Tracks()), t, QueueLengths(EndStep(old(Snap()), i, k, t).resources))
    {
      var k := journeys[i].phase.at;
      FinishSplit(cfg, Snap(), i, k, journeys[i].wake.value.time);
      EndService(i);
      UpdateQueueStatus();
      RequestMachine(i, NextStation(k).value);
    }

    /** Car i's service at its station ends now: it stamps its end, gives its
        machine back and the release event is scheduled. */
    method EndService(i: nat)
      requires i < |journeys| && journeys[i].phase.InService? && journeys[i].wake.Some?
      modifies this`now, this`journeys, this`resources, this`releases, this`nextEid
      ensures Snap() == EndStep(old(Snap()), i, old(journeys[i].phase.at), old(journeys[i].wake.value.time))
    {
      var j := journeys[i];
      var k := j.phase.at;
      var t := j.wake.value.time;
      now, journeys, resources, releases, nextEid :=
        t, journeys[i := AfterService(j, k, t)], resources.Set(k, Release(resources.Get(k), i + 1)),
        releases + [PendingRelease(Key(t, false, nextEid), k)], nextEid + 1;
    }

    /** Car i requests a machine at station k; the car the granting pass
        admits, if any, resumes now. */
    method RequestMachine(i: nat, k: StationId)
      modifies this`journeys, this`resources, this`nextEid
      ensures Snap() == RequestStep(old(Snap()), i, k)
    {
      var p := Request(resources.Get(k), i + 1);
      journeys, resources := WakeGranted(journeys, p.1, now, nextEid), resources.Set(k, p.0);
      if p.1.Some? {
        nextEid := nextEid + 1;
      }
    }

    /** The first pending release event is processed: its station's granting
        pass admits the head of the queue if a machine is free, and that car
        resumes now. */
    method ProcessRelease()
      requires releases != []
      modifies this
      ensures Snap() == ReleaseStep(old(Snap()))
    {
      var k := releases[0].at;
      var p := TriggerPut(resources.Get(k));
      journeys := WakeGranted(journeys, p.1, now, nextEid);
      resources := resources.Set(k, p.0);
      releases := releases[1..];
      if p.1.Some? {
        nextEid := nextEid + 1;
      }
    }

    // -------------------------------------------------------------------
    // The event loop

    /** Resumes the process event t wakes: the arrival loop, a car's journey
        at its current phase, or a station's granting pass. */
    method Dispatch(t: Target)
      requires Pending(Snap(), t) && LogReady(Snap(), t) && StationsOk()
      modifies this, cleaningStation, primerStation, paintingStation
      ensures StationsOk()
      ensures Snap() == EventStep(cfg, samples, old(Snap()), t)
      ensures Logs() == LogStep(old(Snap()), t, old(Logs()))
      ensures Tracks() == TrackStep(old(Snap()), t, old(Tracks()))
    {
      match t
      case GeneratorEvent =>
        if genState.GenStarting? {
          StartGenerator();
        } else {
          GeneratorWake();
        }
      case CarEvent(i) =>
        if journeys[i].phase.Arrived? {
          StartJourney(i);
        } else if journeys[i].phase.Queued? {
          BeginService(i);
        } else if journeys[i].phase.InService? {
          FinishService(i);
        }
      case ReleaseEvent =>
        ProcessRelease();
    }

    /** Handles the next event: the engine takes the step of EventStep, the
        station logs gain what LogStep says and the rest of the station
        records what TrackStep says; the invariant is kept and the run comes
        closer to its end. */
    method HandleEvent(t: Target)
      requires Valid() && IsNext(Snap(), t)
      modifies this, cleaningStation, primerStation, paintingStation
      ensures Valid()
      ensures Snap() == EventStep(cfg, samples, old(Snap()), t)
      ensures LogReady(old(Snap()), t) && Logs() == LogStep(old(Snap()), t, old(Logs()))
      ensures Tracks() == TrackStep(old(Snap()), t, old(Tracks()))
      ensures StepOk(cfg, samples, old(Snap()), Snap(), old(KeyOf(Snap(), t)))
    {
      ghost var e := Snap();
      StepKeeps(cfg, samples, e, t);
      RecordsStep(cfg, samples, e, t, Logs());
      AlertsFollowSnapshots(cfg, samples, e, t, Tracks());
      Dispatch(t);
    }

    /** The arrival loop's process is created: it starts at once, ahead of
        anything else scheduled now. The end of the run is then scheduled at
        the horizon, which takes the next scheduling number. */
    method Launch() returns (horizon: Key)
      requires Valid() && genState.GenIdle?
      modifies this
      ensures Valid()
      ensures Snap() == LaunchStep(old(Snap())).(nextEid := old(nextEid) + 2)
      ensures Logs() == old(Logs()) && Tracks() == old(Tracks())
      ensures horizon == Key(RunHorizon, true, old(nextEid) + 1)
    {
      LaunchKeeps(cfg, samples, Snap());
      SkipEidKeeps(cfg, samples, LaunchStep(Snap()));
      genState, genWake := GenStarting, Some(Key(now, true, nextEid));
      nextEid := nextEid + 1;
      horizon := Key(RunHorizon, true, nextEid);
      nextEid := nextEid + 1;
    }

    /** The end of the run: the clock moves to the horizon, which no pending
        event precedes; every event still pending lies at or after it. */
    method StopAt(horizon: Key)
      requires Valid() && horizon.time == RunHorizon && now <= RunHorizon && NoneBefore(Snap(), horizon)
      modifies this`now
      ensures Valid() && Snap() == old(Snap()).(now := RunHorizon)
      ensures Logs() == old(Logs()) && Tracks() == old(Tracks())
      ensures forall t :: Pending(Snap(), t) ==> RunHorizon <= KeyOf(Snap(), t).time
    {
      AdvanceKeeps(cfg, samples, Snap(), horizon, RunHorizon);
      PendingNotBefore(Snap(), horizon);
      now := RunHorizon;
    }

    /** One turn of the event loop: the next event is handled, which takes
        the whole shop one ShopStep, and the event after it, if any, is found
        with its key. */
    method Step(t: Target) returns (next: Option<Target>, key: Key)
      requires Valid() && IsNext(Snap(), t)
      modifies this, cleaningStation, primerStation, paintingStation
      ensures Valid() && Closer(cfg, Snap(), old(Snap()))
      ensures ShopOf() == ShopStep(cfg, samples, old(ShopOf()), t)
      ensures next == Earliest(Snap()) && (next.Some? ==> key == KeyOf(Snap(), next.value))
    {
      HandleEvent(t);
      next, key := NextEvent();
    }

    /** Handles events in time order while the next one comes before the
        horizon: the shop ends as the reference run RunFrom says, with no
        pending event before the horizon. */
    method RunUntil(horizon: Key)
      requires Valid() && horizon.time == RunHorizon && now <= RunHorizon
      modifies this, cleaningStation, primerStation, paintingStation
      ensures Valid() && ShopOf() == RunFrom(cfg, samples, old(ShopOf()), horizon)
      ensures now <= RunHorizon && NoneBefore(Snap(), horizon)
    {
      ghost var w0 := ShopOf();
      var next, key := NextEvent();
      while next.Some? && !KeyLe(horizon, key)
        invariant Valid()
        invariant next == Earliest(Snap()) && (next.Some? ==> key == KeyOf(Snap(), next.value))
        invariant RunFrom(cfg, samples, ShopOf(), horizon) == RunFrom(cfg, samples, w0, horizon)
        decreases GenBudget(cfg, Snap()), Work(Snap())
      {
        EarliestIsNext(Snap());
        next, key := Step(next.value);
      }
    }

    /** A run: the arrival loop's process is started, the end of the run is
        scheduled at the horizon, events are handled in order while they come
        before it, and the clock then stands at the horizon; the shop ends as
        the reference run Simulated says. Every event still pending lies at
        or after the horizon. */
    method Run() returns (r: Results)
      requires Valid() && genState.GenIdle? && now == 0.0
      modifies this, cleaningStation, primerStation, paintingStation
      ensures Valid() && ShopOf() == Simulated(cfg, samples, old(ShopOf()))
      ensures now == RunHorizon
      ensures forall t :: Pending(Snap(), t) ==> RunHorizon <= KeyOf(Snap(), t).time
      ensures r == GetResults()
    {
      ghost var w := ShopOf();
      var horizon := Launch();
      assert ShopOf() == Launched(w) && horizon == HorizonOf(w);
      RunUntil(horizon);
      ghost var w2 := ShopOf();
      assert w2 == RunFrom(cfg, samples, Launched(w), HorizonOf(w));
      StopAt(horizon);
      assert ShopOf() == w2.(engine := w2.engine.(now := RunHorizon));
      r := GetResults();
    }

    /** The summary of a run: the number of completed cars, their average
        time in the shop (0 when none completed, otherwise at least the three
        shortest services back to back), the three station records, the
        alert count, the completed cars and the configured simulation time. */
    function GetResults(): (r: Results)
      reads this, cleaningStation, primerStation, paintingStation, bottleneckDetector
      requires Valid()
      ensures forall m :: 0 <= m < |carsCompleted| ==> carsCompleted[m].exitTime.Some?
      ensures r.totalCars == |carsCompleted| && r.carsCompleted == carsCompleted
      ensures carsCompleted == [] ==> r.avgSystemTime == 0.0
      ensures carsCompleted != [] ==>
        && r.avgSystemTime * (|carsCompleted| as real) == Sum(SystemTimes(carsCompleted))
        && MinSystemTime(cfg) <= r.avgSystemTime
      ensures r.cleaningStation == cleaningStation && r.primerStation == primerStation
      ensures r.paintingStation == paintingStation
      ensures r.alertCount == alertCount && r.simulationTime == cfg.simulationTime
      ensures r.alertCount == RecordedAlerts(Tracks(), cfg.bottleneckThreshold)
    {
      AverageSystemTimeAtLeastMinimum(cfg, samples, Snap());
      var totalCars := |carsCompleted|;
      var avg := if totalCars == 0 then 0.0 else Sum(SystemTimes(carsCompleted)) / (totalCars as real);
      Results(totalCars, avg, cleaningStation, primerStation, paintingStation, alertCount, carsCompleted,
              cfg.simulationTime)
    }

    // -------------------------------------------------------------------
    // What the station records promise

    /** At every station the busy time is the sum of the processing times,
        there are never more processing times than waits, every wait is
        non-negative and every processing time lies in the configured range. */
    lemma StationRecordsAgree()
      requires Valid()
      ensures forall k ::
        && StationOf(k).totalBusyTime == Sum(StationOf(k).processingTimes)
        && |StationOf(k).processingTimes| <= |StationOf(k).waitTimes|
        && (forall m :: 0 <= m < |StationOf(k).waitTimes| ==> StationOf(k).waitTimes[m] >= 0.0)
        && (forall m :: 0 <= m < |StationOf(k).processingTimes| ==>
              cfg.serviceMin.Get(k) <= StationOf(k).processingTimes[m] <= cfg.serviceMax.Get(k))
    {
      forall k ensures
        && StationOf(k).totalBusyTime == Sum(StationOf(k).processingTimes)
        && |StationOf(k).processingTimes| <= |StationOf(k).waitTimes|
        && (forall m :: 0 <= m < |StationOf(k).waitTimes| ==> StationOf(k).waitTimes[m] >= 0.0)
        && (forall m :: 0 <= m < |StationOf(k).processingTimes| ==>
              cfg.serviceMin.Get(k) <= StationOf(k).processingTimes[m] <= cfg.serviceMax.Get(k))
      {
        assert Logs().Get(k) == LogOf(StationOf(k)) by {
          match k
          case Cleaning =>
          case Primer =>
          case Painting =>
        }
        assert RecordOk(k, cfg, journeys, Logs().Get(k));
        CountPastAntitone(journeys, Ord(Queued(k)), Ord(InService(k)));
      }
    }

    /** Once a station has served a car its average processing time lies in
        the configured range, and its average wait is never negative. */
    lemma AveragesInRange()
      requires Valid()
      ensures forall k :: StationOf(k).processingTimes != [] ==>
        cfg.serviceMin.Get(k) <= StationOf(k).AvgProcessingTime() <= cfg.serviceMax.Get(k)
      ensures forall k :: 0.0 <= StationOf(k).AvgWaitTime()
    {
      StationRecordsAgree();
      forall k ensures StationOf(k).processingTimes != [] ==>
        cfg.serviceMin.Get(k) <= StationOf(k).AvgProcessingTime() <= cfg.serviceMax.Get(k)
      {
        if StationOf(k).processingTimes != [] {
          MeanWithin(StationOf(k).processingTimes, cfg.serviceMin.Get(k), cfg.serviceMax.Get(k));
        }
      }
      forall k ensures 0.0 <= StationOf(k).AvgWaitTime() {
        if StationOf(k).waitTimes != [] {
          MeanAtLeast(StationOf(k).waitTimes, 0.0);
        }
      }
    }
  }
}
