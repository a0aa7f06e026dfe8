// The engine's own state as a value, what each kind of event does to it, and
// the proofs that every event keeps the engine consistent and brings the run
// closer to its end. The engine class in module Simulation performs these
// steps in place and is specified by them.
module EngineSteps {
  import opened Base
  import opened Entities
  import opened SimResource
  import opened CarJourney
  import opened EngineState

  /** Everything the engine tracks besides the station records: the clock,
      the scheduling counter, the arrival loop, the car processes, the pending
      release events, the three machine pools and the counters. */
  datatype Engine = Engine(
    now: real,
    nextEid: nat,
    genState: GenState,
    genWake: Option<Key>,
    intervalsDrawn: nat,
    journeys: seq<Journey>,
    releases: seq<PendingRelease>,
    resources: PerStation<Resource>,
    carsCompleted: seq<Car>,
    carsInSystem: int,
    carCounter: nat,
    alertCount: nat)

  /** Cars are numbered in the order they arrived. */
  ghost predicate ArrivalOrder(js: seq<Journey>)
  {
    forall a, b :: 0 <= a < b < |js| ==> ArrivalOf(js, a) <= ArrivalOf(js, b)
  }

  /** The arrival time of car a + 1. */
  function ArrivalOf(js: seq<Journey>, a: nat): real
    requires a < |js|
  {
    js[a].car.arrivalTime
  }

  /** The arrival loop has a pending wake-up exactly while it is starting or
      sleeping, never in the past; its start-up is due now. */
  ghost predicate GenOk(e: Engine)
  {
    && ((e.genState.GenIdle? || e.genState.GenStopped?) <==> e.genWake.None?)
    && (e.genWake.Some? ==> e.now <= e.genWake.value.time)
    && (e.genState.GenStarting? ==> e.genWake.value.time == e.now)
  }

  /** The invariant the engine keeps between two events. */
  ghost predicate EngineOk(cfg: Config, s: Samples, e: Engine)
  {
    && ValidConfig(cfg) && SamplesFit(cfg, s)
    && GenOk(e)
    && e.carCounter == |e.journeys|
    && ArrivalOrder(e.journeys)
    && CarsOk(cfg, s, e.now, e.journeys, e.resources)
    && ReleasesOk(e.releases, e.now, e.nextEid)
    && Conserving(e.resources, e.releases)
    && CompletedOk(e.carsCompleted, e.journeys)
    && e.carsInSystem == e.carCounter - |e.carsCompleted|
  }

  /** No pending event of e comes before key. */
  ghost predicate NoneBefore(e: Engine, key: Key)
  {
    && (e.genWake.Some? ==> KeyLe(key, e.genWake.value))
    && (forall m :: 0 <= m < |e.journeys| && e.journeys[m].wake.Some? ==> KeyLe(key, e.journeys[m].wake.value))
    && (e.releases != [] ==> KeyLe(key, e.releases[0].key))
  }

  // ---------------------------------------------------------------------
  // Termination measures

  /** The arrival loop's remaining budget: two per car it can still create. */
  function GenBudget(cfg: Config, e: Engine): nat
  {
    if cfg.arrivalIntervalMin <= 0.0 || e.genWake.None? then 0
    else
      var left := ArrivalsLeft(cfg.newCarAcceptanceTime, cfg.arrivalIntervalMin, e.genWake.value.time);
      match e.genState
      case GenSleeping => 2 * left + 1
      case GenStarting => 2 * left + 2
      case GenIdle => 0
      case GenStopped => 0
  }

  /** Events the existing cars and pending releases still cause. */
  function Work(e: Engine): nat
  {
    WorkOf(e.journeys) + |e.releases|
  }

  // ---------------------------------------------------------------------
  // Queue-status snapshots

  /** The number of cars waiting for a machine at each station. */
  function QueueLengths(res: PerStation<Resource>): (q: PerStation<int>)
    ensures forall k :: q.Get(k) == |res.Get(k).queue|
  {
    PerStation(|res.cleaning.queue|, |res.primer.queue|, |res.painting.queue|)
  }

  function Flag(b: bool): nat
  {
    if b then 1 else 0
  }

  /** The alerts one queue-status snapshot raises: one per station whose
      queue is longer than the threshold. */
  function AlertCount(threshold: int, lengths: PerStation<int>): (n: nat)
    ensures n <= 3
  {
    Flag(lengths.cleaning > threshold) + Flag(lengths.primer > threshold) + Flag(lengths.painting > threshold)
  }

  /** A snapshot raises no alert exactly when no queue is above the
      threshold, three exactly when all are, and at least one whenever some
      queue is. */
  lemma AlertCountMeaning(threshold: int, lengths: PerStation<int>)
    ensures AlertCount(threshold, lengths) == 0 <==> forall k :: lengths.Get(k) <= threshold
    ensures AlertCount(threshold, lengths) == 3 <==> forall k :: lengths.Get(k) > threshold
    ensures forall k :: lengths.Get(k) > threshold ==> AlertCount(threshold, lengths) >= 1
  {
    var n := AlertCount(threshold, lengths);
    assert lengths.Get(Cleaning) == lengths.cleaning && lengths.Get(Primer) == lengths.primer;
    assert lengths.Get(Painting) == lengths.painting;
    if n == 0 {
      forall k ensures lengths.Get(k) <= threshold {
      }
    }
    if n == 3 {
      forall k ensures lengths.Get(k) > threshold {
      }
    }
  }

  /** The part of a station record besides its log: the queue-length
      history, and the busy-machine count and last queue change time, which
      are set up and never written afterwards. */
  datatype Tracking = Tracking(history: seq<(real, int)>, numBusy: int, lastQueueChangeTime: real)

  /** One queue-status snapshot at time t: every station's history gains the
      entry (t, its queue length); nothing else changes. */
  function Snapshot(tr: PerStation<Tracking>, t: real, q: PerStation<int>): (r: PerStation<Tracking>)
    ensures forall k :: r.Get(k) == tr.Get(k).(history := tr.Get(k).history + [(t, q.Get(k))])
  {
    PerStation(tr.cleaning.(history := tr.cleaning.history + [(t, q.cleaning)]),
               tr.primer.(history := tr.primer.history + [(t, q.primer)]),
               tr.painting.(history := tr.painting.history + [(t, q.painting)]))
  }

  /** How many entries of a queue history are above the threshold. */
  function Above(h: seq<(real, int)>, threshold: int): nat
  {
    if h == [] then 0 else Above(h[..|h| - 1], threshold) + Flag(h[|h| - 1].1 > threshold)
  }

  /** How many recorded queue lengths, over the three stations, are above the
      threshold. */
  function RecordedAlerts(tr: PerStation<Tracking>, threshold: int): nat
  {
    Above(tr.cleaning.history, threshold) + Above(tr.primer.history, threshold)
      + Above(tr.painting.history, threshold)
  }

  /** A snapshot adds to the recorded lengths above the threshold exactly
      the alerts it raises. */
  lemma SnapshotAlerts(tr: PerStation<Tracking>, t: real, q: PerStation<int>, threshold: int)
    ensures RecordedAlerts(Snapshot(tr, t, q), threshold) == RecordedAlerts(tr, threshold) + AlertCount(threshold, q)
  {
    var r := Snapshot(tr, t, q);
    assert r.cleaning.history[..|r.cleaning.history| - 1] == tr.cleaning.history;
    assert r.primer.history[..|r.primer.history| - 1] == tr.primer.history;
    assert r.painting.history[..|r.painting.history| - 1] == tr.painting.history;
  }

  // ---------------------------------------------------------------------
  // The steps

  /** The run begins: the arrival loop's start-up is scheduled now, ahead of
      ordinary events. */
  function LaunchStep(e: Engine): Engine
  {
    e.(genState := GenStarting, genWake := Some(Key(e.now, true, e.nextEid)), nextEid := e.nextEid + 1)
  }

  /** The arrival loop starts: it draws its first interval and sleeps. */
  function StartGeneratorStep(s: Samples, e: Engine): Engine
    requires e.genWake.Some?
  {
    var t := e.genWake.value.time;
    e.(now := t, genState := GenSleeping,
       genWake := Some(Key(t + s.arrivalInterval(e.intervalsDrawn), false, e.nextEid)),
       intervalsDrawn := e.intervalsDrawn + 1, nextEid := e.nextEid + 1)
  }

  /** The arrival loop wakes up. At or after the acceptance cutoff it stops
      for good. Before it, it numbers a new car, stamps its arrival, counts it
      in the system, schedules the start of its journey now and sleeps for the
      next interval. */
  function GeneratorWakeStep(cfg: Config, s: Samples, e: Engine): Engine
    requires e.genWake.Some?
  {
    var t := e.genWake.value.time;
    if t >= cfg.newCarAcceptanceTime then
      e.(now := t, genState := GenStopped, genWake := None)
    else
      var id := e.carCounter + 1;
      e.(now := t, carCounter := id, carsInSystem := e.carsInSystem + 1,
         journeys := e.journeys + [Journey(NewCar(id, t), Arrived, 0.0, Some(Key(t, true, e.nextEid)))],
         genWake := Some(Key(t + s.arrivalInterval(e.intervalsDrawn), false, e.nextEid + 1)),
         intervalsDrawn := e.intervalsDrawn + 1, nextEid := e.nextEid + 2)
  }

  /** Car i's journey starts: it stamps a provisional cleaning start and
      requests a cleaning machine. */
  function StartJourneyStep(e: Engine, i: nat): Engine
    requires i < |e.journeys| && e.journeys[i].wake.Some?
  {
    var j := e.journeys[i];
    var t := j.wake.value.time;
    var js1 := e.journeys[i := Started(j, t)];
    var p := Request(e.resources.cleaning, i + 1);
    e.(now := t, journeys := WakeGranted(js1, p.1, t, e.nextEid),
       resources := e.resources.Set(Cleaning, p.0), nextEid := e.nextEid + Flag(p.1.Some?))
  }

  /** Car i, granted a machine at its station, stamps its start and sleeps
      for the service time drawn for it. */
  function BeginServiceStep(s: Samples, e: Engine, i: nat): Engine
    requires i < |e.journeys| && e.journeys[i].phase.Queued? && e.journeys[i].wake.Some?
  {
    var j := e.journeys[i];
    var t := j.wake.value.time;
    e.(now := t, journeys := e.journeys[i := Began(s, j, j.phase.at, t, e.nextEid)], nextEid := e.nextEid + 1)
  }

  /** Car i's service ends: it stamps the end and releases its machine, which
      schedules a release event now. After painting the car exits: its exit is
      stamped, it joins the completed cars and leaves the system count. After
      cleaning and primer the queue lengths are snapshotted, every station
      above the threshold raises an alert, and the car requests a machine at
      the next station. */
  function FinishServiceStep(cfg: Config, e: Engine, i: nat): Engine
    requires i < |e.journeys| && e.journeys[i].phase.InService? && e.journeys[i].wake.Some?
  {
    FinishAt(cfg, e, i, e.journeys[i].phase.at, e.journeys[i].wake.value.time)
  }

  /** Car i's service at station k ends at time t. */
  function FinishAt(cfg: Config, e: Engine, i: nat, k: StationId, t: real): Engine
    requires i < |e.journeys|
  {
    var j := e.journeys[i];
    var j' := AfterService(j, k, t);
    var res1 := e.resources.Set(k, Release(e.resources.Get(k), i + 1));
    var e1 := e.(now := t, journeys := e.journeys[i := j'], resources := res1,
                 releases := e.releases + [PendingRelease(Key(t, false, e.nextEid), k)], nextEid := e.nextEid + 1);
    match NextStation(k)
    case None =>
      e1.(carsCompleted := e.carsCompleted + [j'.car], carsInSystem := e.carsInSystem - 1)
    case Some(k2) =>
      var p := Request(res1.Get(k2), i + 1);
      e1.(alertCount := e.alertCount + AlertCount(cfg.bottleneckThreshold, QueueLengths(res1)),
          journeys := WakeGranted(e1.journeys, p.1, t, e1.nextEid), resources := res1.Set(k2, p.0),
          nextEid := e1.nextEid + Flag(p.1.Some?))
  }

  /** The first release event is processed: its station's granting pass
      admits the head of the queue if a machine is free. */
  function ReleaseStep(e: Engine): Engine
    requires e.releases != []
  {
    var k := e.releases[0].at;
    var p := TriggerPut(e.resources.Get(k));
    e.(journeys := WakeGranted(e.journeys, p.1, e.now, e.nextEid), resources := e.resources.Set(k, p.0),
       releases := e.releases[1..], nextEid := e.nextEid + Flag(p.1.Some?))
  }

  // ---------------------------------------------------------------------
  // Each step keeps the invariant

  /** Advancing the clock to the next event keeps the invariant; release
      events, being due now, pin the clock. */
  lemma AdvanceKeeps(cfg: Config, s: Samples, e: Engine, key: Key, t: real)
    requires EngineOk(cfg, s, e) && NoneBefore(e, key) && key.time == t && e.now <= t
    ensures EngineOk(cfg, s, e.(now := t))
    ensures e.releases != [] ==> t == e.now
  {
    if e.releases != [] {
      assert KeyLe(key, e.releases[0].key);
    }
    forall m | 0 <= m < |e.journeys| && e.journeys[m].wake.Some? ensures t <= e.journeys[m].wake.value.time {
      assert KeyLe(key, e.journeys[m].wake.value);
    }
    CarsOkLater(cfg, s, e.now, t, e.journeys, e.resources);
  }

  /** Starting the run schedules the arrival loop and nothing else. */
  lemma LaunchKeeps(cfg: Config, s: Samples, e: Engine)
    requires EngineOk(cfg, s, e) && e.genState.GenIdle?
    ensures EngineOk(cfg, s, LaunchStep(e))
  {
  }

  /** Taking a scheduling number for an event outside the engine (the end of
      the run) keeps the invariant. */
  lemma SkipEidKeeps(cfg: Config, s: Samples, e: Engine)
    requires EngineOk(cfg, s, e)
    ensures EngineOk(cfg, s, e.(nextEid := e.nextEid + 1))
  {
  }

  lemma StartGeneratorKeeps(cfg: Config, s: Samples, e: Engine)
    requires EngineOk(cfg, s, e) && e.genState.GenStarting? && NoneBefore(e, e.genWake.value)
    ensures EngineOk(cfg, s, StartGeneratorStep(s, e))
    ensures GenBudget(cfg, StartGeneratorStep(s, e)) < GenBudget(cfg, e)
  {
    var t := e.genWake.value.time;
    AdvanceKeeps(cfg, s, e, e.genWake.value, t);
    var iv := s.arrivalInterval(e.intervalsDrawn);
    assert cfg.arrivalIntervalMin <= iv;
    ArrivalsLeftAntitone(cfg.newCarAcceptanceTime, cfg.arrivalIntervalMin, t, t + iv);
  }

  /** A car created now holds nothing and is numbered after the existing ones. */
  lemma NewCarKeeps(cfg: Config, s: Samples, e: Engine, t: real, eid: nat)
    requires EngineOk(cfg, s, e) && e.now == t && t < cfg.newCarAcceptanceTime
    ensures var j := Journey(NewCar(e.carCounter + 1, t), Arrived, 0.0, Some(Key(t, true, eid)));
      && CarsOk(cfg, s, t, e.journeys + [j], e.resources)
      && ArrivalOrder(e.journeys + [j])
      && CompletedOk(e.carsCompleted, e.journeys + [j])
      && SameCounts(e.journeys, e.journeys + [j])
  {
    var js := e.journeys;
    var j := Journey(NewCar(e.carCounter + 1, t), Arrived, 0.0, Some(Key(t, true, eid)));
    assert JourneyCore(|js|, j, cfg, s, t);
    CarsOkNewCar(cfg, s, t, js, e.resources, j);
    NewJourneyCounts(js, j);
    var js' := js + [j];
    forall a, b | 0 <= a < b < |js'| ensures ArrivalOf(js', a) <= ArrivalOf(js', b) {
      assert JourneyOk(a, js[a], cfg, s, t, e.resources);
      if b < |js| {
        assert ArrivalOf(js, a) <= ArrivalOf(js, b);
      }
    }
    forall m | 0 <= m < |e.carsCompleted|
      ensures js'[e.carsCompleted[m].carId - 1] == js[e.carsCompleted[m].carId - 1]
    {
    }
  }

  lemma GeneratorWakeKeeps(cfg: Config, s: Samples, e: Engine)
    requires EngineOk(cfg, s, e) && e.genState.GenSleeping? && NoneBefore(e, e.genWake.value)
    ensures EngineOk(cfg, s, GeneratorWakeStep(cfg, s, e))
    ensures GenBudget(cfg, GeneratorWakeStep(cfg, s, e)) < GenBudget(cfg, e)
    ensures SameCounts(e.journeys, GeneratorWakeStep(cfg, s, e).journeys)
  {
    var t := e.genWake.value.time;
    AdvanceKeeps(cfg, s, e, e.genWake.value, t);
    var e1 := e.(now := t);
    if t < cfg.newCarAcceptanceTime {
      NewCarKeeps(cfg, s, e1, t, e.nextEid);
      var iv := s.arrivalInterval(e.intervalsDrawn);
      assert cfg.arrivalIntervalMin <= iv;
      ArrivalsLeftDecreases(cfg.newCarAcceptanceTime, cfg.arrivalIntervalMin, t, t + iv);
    }
  }

  /** Changing journeys without changing any arrival time keeps the cars in
      arrival order. */
  lemma ArrivalOrderKept(js: seq<Journey>, js': seq<Journey>)
    requires ArrivalOrder(js) && |js'| == |js|
    requires forall m :: 0 <= m < |js| ==> js'[m].car.arrivalTime == js[m].car.arrivalTime
    ensures ArrivalOrder(js')
  {
    forall a, b | 0 <= a < b < |js'| ensures ArrivalOf(js', a) <= ArrivalOf(js', b) {
      assert ArrivalOf(js, a) <= ArrivalOf(js, b);
    }
  }

  /** The stamps of a car in any phase make all its wait getters defined. */
  lemma StampsGiveWaits(c: Car, ph: Phase, service: real, s: Samples, now: real)
    requires StampsOk(c, ph, service, s, now)
    ensures WaitsDefined(c)
  {
  }


  /** The invariant of a state in which the cars, machines, release events,
      completed cars or counters changed, from the invariant before and the
      facts about the parts that changed. */
  lemma Assemble(cfg: Config, s: Samples, e: Engine, e': Engine)
    requires EngineOk(cfg, s, e)
    requires e'.now == e.now && e'.genState == e.genState && e'.genWake == e.genWake
    requires e'.carCounter == e.carCounter && |e'.journeys| == |e.journeys|
    requires ArrivalOrder(e'.journeys) && CarsOk(cfg, s, e.now, e'.journeys, e'.resources)
    requires ReleasesOk(e'.releases, e.now, e'.nextEid) && Conserving(e'.resources, e'.releases)
    requires CompletedOk(e'.carsCompleted, e'.journeys) && e'.carsInSystem == e.carCounter - |e'.carsCompleted|
    ensures EngineOk(cfg, s, e')
  {
  }

  /** What a car's start changes: its journey, the cleaning pool and the car
      that pool admits. */
  lemma StartParts(cfg: Config, s: Samples, t: real, js: seq<Journey>, res: PerStation<Resource>,
                   rs: seq<PendingRelease>, cs: seq<Car>, i: nat, eid: nat)
    requires CarsOk(cfg, s, t, js, res) && ArrivalOrder(js) && CompletedOk(cs, js) && Conserving(res, rs)
    requires i < |js| && js[i].phase == Arrived && js[i].wake.Some? && js[i].wake.value.time == t
    ensures var p := Request(res.cleaning, i + 1);
      var js' := WakeGranted(js[i := Started(js[i], t)], p.1, t, eid);
      var res' := res.Set(Cleaning, p.0);
      && CarsOk(cfg, s, t, js', res') && ArrivalOrder(js') && CompletedOk(cs, js') && Conserving(res', rs)
      && OneMorePast(js, js', Ord(Arrived)) && WorkOf(js') + 2 == WorkOf(js)
  {
    StartKeepsCars(cfg, s, t, js, res, i, eid);
    var j1 := Started(js[i], t);
    var js1 := js[i := j1];
    AdvanceCounts(js, i, j1);
    CompletedKept(cs, js, i, j1);
    RequestConserves(res, rs, Cleaning, i + 1);
    var p := Request(res.cleaning, i + 1);
    GrantedCounts(js1, p.1, t, eid);
    CompletedGranted(cs, js1, p.1, t, eid);
    ArrivalOrderKept(js, WakeGranted(js1, p.1, t, eid));
  }

  lemma StartJourneyKeeps(cfg: Config, s: Samples, e: Engine, i: nat)
    requires EngineOk(cfg, s, e)
    requires i < |e.journeys| && e.journeys[i].phase.Arrived? && e.journeys[i].wake.Some?
    requires NoneBefore(e, e.journeys[i].wake.value)
    ensures var e' := StartJourneyStep(e, i);
      && EngineOk(cfg, s, e')
      && Work(e') < Work(e) && GenBudget(cfg, e') == GenBudget(cfg, e)
      && OneMorePast(e.journeys, e'.journeys, Ord(Arrived))
  {
    var js := e.journeys;
    var key := js[i].wake.value;
    var t := key.time;
    assert JourneyOk(i, e.journeys[i], cfg, s, e.now, e.resources);
    AdvanceKeeps(cfg, s, e, key, t);
    StartParts(cfg, s, t, js, e.resources, e.releases, e.carsCompleted, i, e.nextEid);
    var p := Request(e.resources.cleaning, i + 1);
    var eid := e.nextEid + Flag(p.1.Some?);
    assert ReleasesOk(e.releases, t, eid);
    Assemble(cfg, s, e.(now := t), StartJourneyStep(e, i));
  }

  /** What the start of a car's service changes: its journey only. */
  lemma BeginParts(cfg: Config, s: Samples, t: real, js: seq<Journey>, res: PerStation<Resource>,
                   cs: seq<Car>, i: nat, k: StationId, eid: nat)
    requires ValidConfig(cfg) && SamplesFit(cfg, s)
    requires CarsOk(cfg, s, t, js, res) && ArrivalOrder(js) && CompletedOk(cs, js)
    requires i < |js| && js[i].phase == Queued(k) && js[i].wake.Some? && js[i].wake.value.time == t
    ensures var js' := js[i := Began(s, js[i], k, t, eid)];
      && CarsOk(cfg, s, t, js', res) && ArrivalOrder(js') && CompletedOk(cs, js')
      && OneMorePast(js, js', Ord(Queued(k))) && WorkOf(js') + 2 == WorkOf(js)
  {
    BeginKeepsCars(cfg, s, t, js, res, i, k, eid);
    var j' := Began(s, js[i], k, t, eid);
    AdvanceCounts(js, i, j');
    CompletedKept(cs, js, i, j');
    ArrivalOrderKept(js, js[i := j']);
  }

  /** The wait recorded when a car's service at station k starts: the time
      since it left the previous stage, or since its provisional cleaning
      start. */
  lemma BeganWait(cfg: Config, s: Samples, t: real, j: Journey, i: nat, k: StationId, eid: nat)
    requires JourneyCore(i, j, cfg, s, t) && j.phase == Queued(k)
    ensures var c' := Began(s, j, k, t, eid).car;
      && PrevEnd(j.car, k).Some? && PrevEnd(j.car, k).value <= t
      && WaitsDefined(c') && WaitAt(c', k) == Some(t - PrevEnd(j.car, k).value)
  {
    var c' := Began(s, j, k, t, eid).car;
    StampsGiveWaits(j.car, j.phase, j.service, s, t);
    assert PrevEnd(c', k) == PrevEnd(j.car, k) && StartOf(c', k) == Some(t);
    WaitAtIsStartMinusPrevEnd(c', k);
  }

  lemma BeginServiceKeeps(cfg: Config, s: Samples, e: Engine, i: nat)
    requires EngineOk(cfg, s, e)
    requires i < |e.journeys| && e.journeys[i].phase.Queued? && e.journeys[i].wake.Some?
    requires NoneBefore(e, e.journeys[i].wake.value)
    ensures var e' := BeginServiceStep(s, e, i);
      var k := e.journeys[i].phase.at;
      var c := e.journeys[i].car;
      && EngineOk(cfg, s, e')
      && Work(e') < Work(e) && GenBudget(cfg, e') == GenBudget(cfg, e)
      && OneMorePast(e.journeys, e'.journeys, Ord(Queued(k)))
      && PrevEnd(c, k).Some? && PrevEnd(c, k).value <= e'.now
      && WaitsDefined(e'.journeys[i].car)
      && WaitAt(e'.journeys[i].car, k) == Some(e'.now - PrevEnd(c, k).value)
  {
    var js := e.journeys;
    var j := js[i];
    var k := j.phase.at;
    var key := j.wake.value;
    var t := key.time;
    assert JourneyOk(i, e.journeys[i], cfg, s, e.now, e.resources);
    AdvanceKeeps(cfg, s, e, key, t);
    BeginParts(cfg, s, t, js, e.resources, e.carsCompleted, i, k, e.nextEid);
    assert JourneyOk(i, j, cfg, s, t, e.resources);
    BeganWait(cfg, s, t, j, i, k, e.nextEid);
    assert ReleasesOk(e.releases, t, e.nextEid + 1);
    Assemble(cfg, s, e.(now := t), BeginServiceStep(s, e, i));
  }

  /** What every end of service changes: the car's journey, the slot it gives
      back and the release event that will hand the slot over. */
  lemma FinishParts(cfg: Config, s: Samples, t: real, js: seq<Journey>, res: PerStation<Resource>,
                    rs: seq<PendingRelease>, i: nat, k: StationId, eid: nat)
    requires ValidConfig(cfg) && SamplesFit(cfg, s)
    requires CarsOk(cfg, s, t, js, res) && ArrivalOrder(js) && Conserving(res, rs) && ReleasesOk(rs, t, eid)
    requires i < |js| && js[i].phase == InService(k) && js[i].wake.Some? && js[i].wake.value.time == t
    ensures var j' := AfterService(js[i], k, t);
      var res1 := res.Set(k, Release(res.Get(k), i + 1));
      var rs1 := rs + [PendingRelease(Key(t, false, eid), k)];
      && JourneyCore(i, j', cfg, s, t) && j'.car.carId == i + 1
      && cfg.serviceMin.Get(k) <= js[i].service <= cfg.serviceMax.Get(k)
      && (forall m :: 0 <= m < |js| && m != i ==> JourneyOk(m, js[m], cfg, s, t, res1))
      && (forall k' :: Absent(res1.Get(k'), i + 1))
      && (forall k' :: ResourceOk(res1.Get(k'), cfg.machines.Get(k'), |js|))
      && Conserving(res1, rs1) && ReleasesOk(rs1, t, eid + 1)
      && ArrivalOrder(js[i := j'])
      && OneMorePast(js, js[i := j'], Ord(InService(k))) && WorkOf(js[i := j']) + 2 == WorkOf(js)
  {
    LeaveKeepsCars(cfg, s, t, js, res, i, k);
    var j' := AfterService(js[i], k, t);
    ReleaseConserves(res, rs, k, i + 1, Key(t, false, eid));
    ReleasesAppend(rs, t, eid, k);
    AdvanceCounts(js, i, j');
    ArrivalOrderKept(js, js[i := j']);
  }

  /** A car leaving after painting joins the completed cars. */
  lemma ExitParts(cfg: Config, s: Samples, t: real, js: seq<Journey>, res: PerStation<Resource>,
                  cs: seq<Car>, i: nat, j': Journey)
    requires i < |js| && js[i].phase == InService(Painting) && j'.phase == Exited
    requires JourneyCore(i, j', cfg, s, t) && j'.car.carId == i + 1
    requires forall m :: 0 <= m < |js| && m != i ==> JourneyOk(m, js[m], cfg, s, t, res)
    requires forall k' :: Absent(res.Get(k'), i + 1)
    requires forall k' :: ResourceOk(res.Get(k'), cfg.machines.Get(k'), |js|)
    requires CompletedOk(cs, js)
    ensures CarsOk(cfg, s, t, js[i := j'], res) && CompletedOk(cs + [j'.car], js[i := j'])
  {
    ExitKeepsCars(cfg, s, t, js, res, i, j');
    CompletedExit(cs, js, i, j');
  }

  /** A car moving on after cleaning or primer requests a machine at the
      next station k2. */
  lemma MoveParts(cfg: Config, s: Samples, t: real, js: seq<Journey>, res: PerStation<Resource>,
                  rs: seq<PendingRelease>, cs: seq<Car>, i: nat, j': Journey, k2: StationId, eid: nat)
    requires i < |js| && js[i].phase.InService? && j'.phase == Queued(k2) && j'.wake.None?
    requires JourneyCore(i, j', cfg, s, t)
    requires forall m :: 0 <= m < |js| && m != i ==> JourneyOk(m, js[m], cfg, s, t, res)
    requires forall k' :: Absent(res.Get(k'), i + 1)
    requires forall k' :: ResourceOk(res.Get(k'), cfg.machines.Get(k'), |js|)
    requires CompletedOk(cs, js) && Conserving(res, rs) && ArrivalOrder(js[i := j'])
    ensures var p := Request(res.Get(k2), i + 1);
      var js' := WakeGranted(js[i := j'], p.1, t, eid);
      var res' := res.Set(k2, p.0);
      && CarsOk(cfg, s, t, js', res') && ArrivalOrder(js') && CompletedOk(cs, js') && Conserving(res', rs)
      && SameCounts(js[i := j'], js') && WorkOf(js') == WorkOf(js[i := j'])
  {
    var js1 := js[i := j'];
    forall m | 0 <= m < |js1| && m != i ensures JourneyOk(m, js1[m], cfg, s, t, res) {
      assert js1[m] == js[m];
    }
    EnqueueKeepsCars(cfg, s, t, js1, res, k2, i, eid);
    RequestConserves(res, rs, k2, i + 1);
    var p := Request(res.Get(k2), i + 1);
    CompletedKept(cs, js, i, j');
    CompletedGranted(cs, js1, p.1, t, eid);
    GrantedCounts(js1, p.1, t, eid);
    ArrivalOrderKept(js1, WakeGranted(js1, p.1, t, eid));
  }

  /** A car's service ends after painting: it leaves the shop. */
  lemma FinishExitKeeps(cfg: Config, s: Samples, e: Engine, i: nat, t: real, k: StationId)
    requires EngineOk(cfg, s, e)
    requires i < |e.journeys| && e.journeys[i].phase == InService(k) && e.journeys[i].wake.Some?
    requires e.journeys[i].wake.value.time == t
    requires NextStation(k).None?
    requires NoneBefore(e, e.journeys[i].wake.value)
    ensures var e' := FinishAt(cfg, e, i, k, t);
      && EngineOk(cfg, s, e')
      && Work(e') < Work(e)
      && OneMorePast(e.journeys, e'.journeys, Ord(InService(k)))
      && cfg.serviceMin.Get(k) <= e.journeys[i].service <= cfg.serviceMax.Get(k)
  {
    var js := e.journeys;
    var j := js[i];
    var key := j.wake.value;
    assert JourneyOk(i, e.journeys[i], cfg, s, e.now, e.resources);
    AdvanceKeeps(cfg, s, e, key, t);
    FinishParts(cfg, s, t, js, e.resources, e.releases, i, k, e.nextEid);
    var j' := AfterService(j, k, t);
    var js1 := js[i := j'];
    var res1 := e.resources.Set(k, Release(e.resources.Get(k), i + 1));
    var rs1 := e.releases + [PendingRelease(Key(t, false, e.nextEid), k)];
    ExitParts(cfg, s, t, js, res1, e.carsCompleted, i, j');
    var e' := FinishAt(cfg, e, i, k, t);
    assert e'.journeys == js1 && e'.resources == res1 && e'.releases == rs1;
    assert e'.carsCompleted == e.carsCompleted + [j'.car] && e'.carsInSystem == e.carsInSystem - 1;
    Assemble(cfg, s, e.(now := t), e');
  }

  /** An end of service sets the clock itself, so the clock before it does
      not matter. */
  lemma FinishAtFromAnyClock(cfg: Config, e: Engine, i: nat, k: StationId, t: real)
    requires i < |e.journeys|
    ensures FinishAt(cfg, e.(now := t), i, k, t) == FinishAt(cfg, e, i, k, t)
  {
  }

  /** Car i's service at station k ends at time t: it stamps its end, its
      slot goes back to the station and the release event is scheduled. */
  function EndStep(e: Engine, i: nat, k: StationId, t: real): Engine
    requires i < |e.journeys|
  {
    e.(now := t, journeys := e.journeys[i := AfterService(e.journeys[i], k, t)],
       resources := e.resources.Set(k, Release(e.resources.Get(k), i + 1)),
       releases := e.releases + [PendingRelease(Key(t, false, e.nextEid), k)], nextEid := e.nextEid + 1)
  }

  /** Car i requests a machine at station k now; the car the granting pass
      admits, if any, resumes now. */
  function RequestStep(e: Engine, i: nat, k: StationId): Engine
  {
    var p := Request(e.resources.Get(k), i + 1);
    e.(journeys := WakeGranted(e.journeys, p.1, e.now, e.nextEid), resources := e.resources.Set(k, p.0),
       nextEid := e.nextEid + Flag(p.1.Some?))
  }

  /** An end of service is the release, then after painting the exit, and
      before it the queue snapshot and the request at the next station. */
  lemma FinishSplit(cfg: Config, e: Engine, i: nat, k: StationId, t: real)
    requires i < |e.journeys|
    ensures var e1 := EndStep(e, i, k, t);
      FinishAt(cfg, e, i, k, t) == match NextStation(k)
        case None => e1.(carsCompleted := e.carsCompleted + [e1.journeys[i].car], carsInSystem := e.carsInSystem - 1)
        case Some(k2) =>
          RequestStep(e1.(alertCount := e1.alertCount + AlertCount(cfg.bottleneckThreshold, QueueLengths(e1.resources))), i, k2)
  {
  }

  /** The state after a car moves on from cleaning or primer, field by field. */
  lemma FinishMoveShape(cfg: Config, e: Engine, i: nat, k: StationId, t: real)
    requires i < |e.journeys|
    requires NextStation(k).Some?
    ensures var j := e.journeys[i];
      var k2 := NextStation(k).value;
      var res1 := e.resources.Set(k, Release(e.resources.Get(k), i + 1));
      var p := Request(res1.Get(k2), i + 1);
      var e' := FinishAt(cfg, e, i, k, t);
      && e'.now == t && e'.genState == e.genState && e'.genWake == e.genWake && e'.carCounter == e.carCounter
      && e'.carsCompleted == e.carsCompleted && e'.carsInSystem == e.carsInSystem
      && e'.journeys == WakeGranted(e.journeys[i := AfterService(j, k, t)], p.1, t, e.nextEid + 1)
      && e'.resources == res1.Set(k2, p.0)
      && e'.releases == e.releases + [PendingRelease(Key(t, false, e.nextEid), k)]
      && e'.nextEid == e.nextEid + 1 + Flag(p.1.Some?)
  {
  }

  /** Everything an end of service before painting changes: the car's
      journey, the slot it gives back, the release event, the request at the
      next station k2 and the car that request admits. */
  lemma FinishMoveParts(cfg: Config, s: Samples, t: real, js: seq<Journey>, res: PerStation<Resource>,
                        rs: seq<PendingRelease>, cs: seq<Car>, i: nat, k: StationId, k2: StationId, eid: nat)
    requires ValidConfig(cfg) && SamplesFit(cfg, s)
    requires CarsOk(cfg, s, t, js, res) && ArrivalOrder(js) && Conserving(res, rs) && ReleasesOk(rs, t, eid)
    requires CompletedOk(cs, js)
    requires i < |js| && js[i].phase == InService(k) && js[i].wake.Some? && js[i].wake.value.time == t
    requires NextStation(k) == Some(k2)
    ensures var res1 := res.Set(k, Release(res.Get(k), i + 1));
      var rs1 := rs + [PendingRelease(Key(t, false, eid), k)];
      var p := Request(res1.Get(k2), i + 1);
      var js' := WakeGranted(js[i := AfterService(js[i], k, t)], p.1, t, eid + 1);
      var res' := res1.Set(k2, p.0);
      && CarsOk(cfg, s, t, js', res') && ArrivalOrder(js') && CompletedOk(cs, js')
      && Conserving(res', rs1) && ReleasesOk(rs1, t, eid + 1 + Flag(p.1.Some?))
      && OneMorePast(js, js', Ord(InService(k))) && WorkOf(js') + 2 == WorkOf(js)
      && cfg.serviceMin.Get(k) <= js[i].service <= cfg.serviceMax.Get(k)
  {
    FinishParts(cfg, s, t, js, res, rs, i, k, eid);
    var j' := AfterService(js[i], k, t);
    var res1 := res.Set(k, Release(res.Get(k), i + 1));
    var rs1 := rs + [PendingRelease(Key(t, false, eid), k)];
    MoveParts(cfg, s, t, js, res1, rs1, cs, i, j', k2, eid + 1);
  }

  /** A car's service ends after cleaning or primer: it queues for the next
      station. */
  lemma FinishMoveKeeps(cfg: Config, s: Samples, e: Engine, i: nat, t: real, k: StationId)
    requires EngineOk(cfg, s, e)
    requires i < |e.journeys| && e.journeys[i].phase == InService(k) && e.journeys[i].wake.Some?
    requires e.journeys[i].wake.value.time == t
    requires NextStation(k).Some? && e.now == t
    ensures var e' := FinishAt(cfg, e, i, k, t);
      && EngineOk(cfg, s, e')
      && Work(e') < Work(e)
      && OneMorePast(e.journeys, e'.journeys, Ord(InService(k)))
      && cfg.serviceMin.Get(k) <= e.journeys[i].service <= cfg.serviceMax.Get(k)
  {
    FinishMoveAt(cfg, s, e, i, t, k);
    FinishMoveCounts(cfg, e, i, t, k);
    Assemble(cfg, s, e, FinishAt(cfg, e, i, k, t));
  }

  /** The same at the level of the engine: the state after a car moves on
      keeps every component of the engine invariant. */
  lemma FinishMoveAt(cfg: Config, s: Samples, e: Engine, i: nat, t: real, k: StationId)
    requires ValidConfig(cfg) && SamplesFit(cfg, s)
    requires CarsOk(cfg, s, t, e.journeys, e.resources) && ArrivalOrder(e.journeys)
    requires Conserving(e.resources, e.releases) && ReleasesOk(e.releases, t, e.nextEid)
    requires CompletedOk(e.carsCompleted, e.journeys)
    requires i < |e.journeys| && e.journeys[i].phase == InService(k) && e.journeys[i].wake.Some?
    requires e.journeys[i].wake.value.time == t && NextStation(k).Some?
    ensures var e' := FinishAt(cfg, e, i, k, t);
      && e'.now == t && e'.genState == e.genState && e'.genWake == e.genWake && e'.carCounter == e.carCounter
      && e'.carsCompleted == e.carsCompleted && e'.carsInSystem == e.carsInSystem
      && |e'.journeys| == |e.journeys|
      && ArrivalOrder(e'.journeys) && CarsOk(cfg, s, t, e'.journeys, e'.resources)
      && ReleasesOk(e'.releases, t, e'.nextEid) && Conserving(e'.resources, e'.releases)
      && CompletedOk(e'.carsCompleted, e'.journeys)
      && cfg.serviceMin.Get(k) <= e.journeys[i].service <= cfg.serviceMax.Get(k)
  {
    var k2 := NextStation(k).value;
    var res1 := e.resources.Set(k, Release(e.resources.Get(k), i + 1));
    var p := Request(res1.Get(k2), i + 1);
    FinishMoveParts(cfg, s, t, e.journeys, e.resources, e.releases, e.carsCompleted, i, k, k2, e.nextEid);
    FinishMoveShape(cfg, e, i, k, t);
    var e' := FinishAt(cfg, e, i, k, t);
    assert e'.journeys == WakeGranted(e.journeys[i := AfterService(e.journeys[i], k, t)], p.1, t, e.nextEid + 1);
    assert e'.resources == res1.Set(k2, p.0);
    assert e'.releases == e.releases + [PendingRelease(Key(t, false, e.nextEid), k)];
    assert e'.nextEid == e.nextEid + 1 + Flag(p.1.Some?);
  }

  /** A car moving on leaves one car fewer in service at its station and
      less work pending. */
  lemma FinishMoveCounts(cfg: Config, e: Engine, i: nat, t: real, k: StationId)
    requires i < |e.journeys| && e.journeys[i].phase == InService(k) && NextStation(k).Some?
    ensures var e' := FinishAt(cfg, e, i, k, t);
      && OneMorePast(e.journeys, e'.journeys, Ord(InService(k))) && Work(e') < Work(e)
  {
    var k2 := NextStation(k).value;
    var js1 := e.journeys[i := AfterService(e.journeys[i], k, t)];
    var res1 := e.resources.Set(k, Release(e.resources.Get(k), i + 1));
    var p := Request(res1.Get(k2), i + 1);
    AdvanceCounts(e.journeys, i, AfterService(e.journeys[i], k, t));
    GrantedCounts(js1, p.1, t, e.nextEid + 1);
    FinishMoveShape(cfg, e, i, k, t);
  }

  lemma FinishServiceKeeps(cfg: Config, s: Samples, e: Engine, i: nat)
    requires EngineOk(cfg, s, e)
    requires i < |e.journeys| && e.journeys[i].phase.InService? && e.journeys[i].wake.Some?
    requires NoneBefore(e, e.journeys[i].wake.value)
    ensures var e' := FinishServiceStep(cfg, e, i);
      var k := e.journeys[i].phase.at;
      && EngineOk(cfg, s, e')
      && Work(e') < Work(e) && GenBudget(cfg, e') == GenBudget(cfg, e)
      && OneMorePast(e.journeys, e'.journeys, Ord(InService(k)))
      && cfg.serviceMin.Get(k) <= e.journeys[i].service <= cfg.serviceMax.Get(k)
  {
    var t := e.journeys[i].wake.value.time;
    var k := e.journeys[i].phase.at;
    if NextStation(k).None? {
      FinishExitKeeps(cfg, s, e, i, t, k);
    } else {
      assert JourneyOk(i, e.journeys[i], cfg, s, e.now, e.resources);
      AdvanceKeeps(cfg, s, e, e.journeys[i].wake.value, t);
      var e0 := e.(now := t);
      FinishMoveKeeps(cfg, s, e0, i, t, k);
      FinishAtFromAnyClock(cfg, e, i, k, t);
    }
  }

  /** An end of service moves exactly one car past service at its station,
      and the service it ends was drawn within that station's bounds. */
  lemma FinishServiceCounts(cfg: Config, s: Samples, e: Engine, i: nat)
    requires EngineOk(cfg, s, e)
    requires i < |e.journeys| && e.journeys[i].phase.InService? && e.journeys[i].wake.Some?
    requires NoneBefore(e, e.journeys[i].wake.value)
    ensures var k := e.journeys[i].phase.at;
      && OneMorePast(e.journeys, FinishServiceStep(cfg, e, i).journeys, Ord(InService(k)))
      && cfg.serviceMin.Get(k) <= e.journeys[i].service <= cfg.serviceMax.Get(k)
  {
    FinishServiceKeeps(cfg, s, e, i);
  }

  /** What a release event changes: the station's pool, the car it admits
      and the queue of release events. */
  lemma ReleaseParts(cfg: Config, s: Samples, now: real, js: seq<Journey>, res: PerStation<Resource>,
                     rs: seq<PendingRelease>, cs: seq<Car>, eid: nat)
    requires CarsOk(cfg, s, now, js, res) && ArrivalOrder(js) && CompletedOk(cs, js)
    requires Conserving(res, rs) && ReleasesOk(rs, now, eid) && rs != []
    ensures var k := rs[0].at;
      var p := TriggerPut(res.Get(k));
      var js' := WakeGranted(js, p.1, now, eid);
      var res' := res.Set(k, p.0);
      && CarsOk(cfg, s, now, js', res') && ArrivalOrder(js') && CompletedOk(cs, js')
      && Conserving(res', rs[1..]) && ReleasesOk(rs[1..], now, eid + Flag(p.1.Some?))
      && SameCounts(js, js') && WorkOf(js') == WorkOf(js)
  {
    var k := rs[0].at;
    GrantKeepsCars(cfg, s, now, js, res, k, eid);
    PopConserves(res, rs);
    var p := TriggerPut(res.Get(k));
    ReleasesPop(rs, now, eid, eid + Flag(p.1.Some?));
    GrantedCounts(js, p.1, now, eid);
    CompletedGranted(cs, js, p.1, now, eid);
    ArrivalOrderKept(js, WakeGranted(js, p.1, now, eid));
  }

  lemma ReleaseKeeps(cfg: Config, s: Samples, e: Engine)
    requires EngineOk(cfg, s, e) && e.releases != [] && NoneBefore(e, e.releases[0].key)
    ensures var e' := ReleaseStep(e);
      && EngineOk(cfg, s, e')
      && Work(e') < Work(e) && GenBudget(cfg, e') == GenBudget(cfg, e)
      && SameCounts(e.journeys, e'.journeys)
  {
    var k := e.releases[0].at;
    ReleaseParts(cfg, s, e.now, e.journeys, e.resources, e.releases, e.carsCompleted, e.nextEid);
    var p := TriggerPut(e.resources.Get(k));
    Assemble(cfg, s, e, ReleaseStep(e));
  }

  // ---------------------------------------------------------------------
  // The event loop's choice

  /** Which pending event the loop handles: the arrival loop's, car i's, or
      the first release event. */
  datatype Target = GeneratorEvent | CarEvent(index: nat) | ReleaseEvent

  predicate Pending(e: Engine, t: Target)
  {
    match t
    case GeneratorEvent => e.genWake.Some?
    case CarEvent(i) => i < |e.journeys| && e.journeys[i].wake.Some?
    case ReleaseEvent => e.releases != []
  }

  function KeyOf(e: Engine, t: Target): Key
    requires Pending(e, t)
  {
    match t
    case GeneratorEvent => e.genWake.value
    case CarEvent(i) => e.journeys[i].wake.value
    case ReleaseEvent => e.releases[0].key
  }

  predicate NothingPending(e: Engine)
  {
    && e.genWake.None? && e.releases == []
    && forall m :: 0 <= m < |e.journeys| ==> e.journeys[m].wake.None?
  }

  /** t is pending and no pending event comes before it. */
  ghost predicate IsNext(e: Engine, t: Target)
  {
    Pending(e, t) && NoneBefore(e, KeyOf(e, t))
  }

  /** The event the loop picks among the arrival loop's wake-up, the first
      release event and the wake-ups of cars 1..n: the one with the least key,
      and on equal keys the first in that order. */
  function EarliestUpTo(e: Engine, n: nat): (r: Option<Target>)
    requires n <= |e.journeys|
    ensures r.Some? ==> Pending(e, r.value) && (r.value.CarEvent? ==> r.value.index < n)
  {
    if n == 0 then
      if e.releases != [] && (e.genWake.None? || !KeyLe(e.genWake.value, e.releases[0].key)) then Some(ReleaseEvent)
      else if e.genWake.Some? then Some(GeneratorEvent)
      else None
    else
      var r := EarliestUpTo(e, n - 1);
      var w := e.journeys[n - 1].wake;
      if w.Some? && (r.None? || !KeyLe(KeyOf(e, r.value), w.value)) then Some(CarEvent(n - 1)) else r
  }

  /** The event the loop handles next, if any. */
  function Earliest(e: Engine): Option<Target>
  {
    EarliestUpTo(e, |e.journeys|)
  }

  /** The pick among the first n cars is pending exactly when something
      among them is, and no candidate comes before it. */
  lemma {:induction false} EarliestUpToIsLeast(e: Engine, n: nat)
    requires n <= |e.journeys|
    ensures EarliestUpTo(e, n).None? <==>
      e.genWake.None? && e.releases == [] && forall m :: 0 <= m < n ==> e.journeys[m].wake.None?
    ensures EarliestUpTo(e, n).Some? ==>
      var key := KeyOf(e, EarliestUpTo(e, n).value);
      && (e.genWake.Some? ==> KeyLe(key, e.genWake.value))
      && (e.releases != [] ==> KeyLe(key, e.releases[0].key))
      && forall m :: 0 <= m < n && e.journeys[m].wake.Some? ==> KeyLe(key, e.journeys[m].wake.value)
  {
    if n == 0 {
      if e.releases != [] && e.genWake.Some? {
        KeyLeIsTotalOrder(e.genWake.value, e.releases[0].key, e.releases[0].key);
      }
    } else {
      EarliestUpToIsLeast(e, n - 1);
      var r := EarliestUpTo(e, n - 1);
      var w := e.journeys[n - 1].wake;
      if w.Some? && r.Some? {
        var a := KeyOf(e, r.value);
        KeyLeIsTotalOrder(a, w.value, w.value);
        if !KeyLe(a, w.value) {
          forall c: Key | KeyLe(a, c) ensures KeyLe(w.value, c) {
            KeyLeIsTotalOrder(w.value, a, c);
          }
        }
      }
    }
  }

  /** The loop's pick is the next event, and there is none exactly when
      nothing is pending. */
  lemma EarliestIsNext(e: Engine)
    ensures Earliest(e).None? <==> NothingPending(e)
    ensures Earliest(e).Some? ==> IsNext(e, Earliest(e).value)
  {
    EarliestUpToIsLeast(e, |e.journeys|);
  }

  /** The next event is at the least pending time. */
  lemma NextIsLeast(e: Engine, t: Target)
    requires IsNext(e, t)
    ensures forall t' :: Pending(e, t') ==> KeyLe(KeyOf(e, t), KeyOf(e, t'))
  {
    forall t' | Pending(e, t') ensures KeyLe(KeyOf(e, t), KeyOf(e, t')) {
      match t'
      case GeneratorEvent =>
      case CarEvent(m) =>
      case ReleaseEvent =>
    }
  }

  /** What handling event t does to the engine. */
  function EventStep(cfg: Config, s: Samples, e: Engine, t: Target): Engine
    requires Pending(e, t)
  {
    match t
    case GeneratorEvent =>
      if e.genState.GenStarting? then StartGeneratorStep(s, e) else GeneratorWakeStep(cfg, s, e)
    case CarEvent(i) =>
      (match e.journeys[i].phase
       case Arrived => StartJourneyStep(e, i)
       case Queued(_) => BeginServiceStep(s, e, i)
       case InService(_) => FinishServiceStep(cfg, e, i)
       case Exited => e)
    case ReleaseEvent => ReleaseStep(e)
  }

  /** The order in which the run comes to its end: the arrival loop's budget
      shrinks, or it stays and the work left to the cars shrinks. */
  ghost predicate Closer(cfg: Config, e': Engine, e: Engine)
  {
    GenBudget(cfg, e') < GenBudget(cfg, e) || (GenBudget(cfg, e') == GenBudget(cfg, e) && Work(e') < Work(e))
  }

  /** Handling the event with the given key took e to e': the invariant
      holds, the clock moved to the event's time and never back, the run came
      closer to its end, the alert and car counters did not go down, and a
      stopped arrival loop stayed stopped and created no car. */
  ghost predicate StepOk(cfg: Config, s: Samples, e: Engine, e': Engine, key: Key)
  {
    && EngineOk(cfg, s, e')
    && e'.now == key.time && e.now <= e'.now
    && Closer(cfg, e', e)
    && e.alertCount <= e'.alertCount && e.carCounter <= e'.carCounter
    && (e.genState.GenStopped? ==> e'.genState.GenStopped? && e'.carCounter == e.carCounter)
  }

  lemma GeneratorEventKeeps(cfg: Config, s: Samples, e: Engine)
    requires EngineOk(cfg, s, e) && IsNext(e, GeneratorEvent)
    ensures StepOk(cfg, s, e, EventStep(cfg, s, e, GeneratorEvent), e.genWake.value)
  {
    if e.genState.GenStarting? {
      StartGeneratorKeeps(cfg, s, e);
      assert EventStep(cfg, s, e, GeneratorEvent) == StartGeneratorStep(s, e);
    } else {
      GeneratorWakeKeeps(cfg, s, e);
      assert EventStep(cfg, s, e, GeneratorEvent) == GeneratorWakeStep(cfg, s, e);
    }
  }

  lemma CarStartKeeps(cfg: Config, s: Samples, e: Engine, i: nat)
    requires EngineOk(cfg, s, e) && IsNext(e, CarEvent(i)) && e.journeys[i].phase.Arrived?
    ensures StepOk(cfg, s, e, EventStep(cfg, s, e, CarEvent(i)), e.journeys[i].wake.value)
  {
    assert JourneyOk(i, e.journeys[i], cfg, s, e.now, e.resources);
    StartJourneyKeeps(cfg, s, e, i);
    assert EventStep(cfg, s, e, CarEvent(i)) == StartJourneyStep(e, i);
  }

  lemma CarBeginKeeps(cfg: Config, s: Samples, e: Engine, i: nat)
    requires EngineOk(cfg, s, e) && IsNext(e, CarEvent(i)) && e.journeys[i].phase.Queued?
    ensures StepOk(cfg, s, e, EventStep(cfg, s, e, CarEvent(i)), e.journeys[i].wake.value)
  {
    assert JourneyOk(i, e.journeys[i], cfg, s, e.now, e.resources);
    BeginServiceKeeps(cfg, s, e, i);
    assert EventStep(cfg, s, e, CarEvent(i)) == BeginServiceStep(s, e, i);
  }

  lemma CarFinishKeeps(cfg: Config, s: Samples, e: Engine, i: nat)
    requires EngineOk(cfg, s, e) && IsNext(e, CarEvent(i)) && e.journeys[i].phase.InService?
    ensures StepOk(cfg, s, e, EventStep(cfg, s, e, CarEvent(i)), e.journeys[i].wake.value)
  {
    assert JourneyOk(i, e.journeys[i], cfg, s, e.now, e.resources);
    FinishServiceKeeps(cfg, s, e, i);
    assert EventStep(cfg, s, e, CarEvent(i)) == FinishServiceStep(cfg, e, i);
  }

  lemma ReleaseEventKeeps(cfg: Config, s: Samples, e: Engine)
    requires EngineOk(cfg, s, e) && IsNext(e, ReleaseEvent)
    ensures StepOk(cfg, s, e, EventStep(cfg, s, e, ReleaseEvent), e.releases[0].key)
  {
    ReleaseKeeps(cfg, s, e);
    assert EventStep(cfg, s, e, ReleaseEvent) == ReleaseStep(e);
  }

  /** Handling the next event, whatever it is, keeps the invariant and brings
      the run closer to its end (see StepOk). */
  lemma StepKeeps(cfg: Config, s: Samples, e: Engine, t: Target)
    requires EngineOk(cfg, s, e) && IsNext(e, t)
    ensures StepOk(cfg, s, e, EventStep(cfg, s, e, t), KeyOf(e, t))
  {
    match t
    case GeneratorEvent =>
      GeneratorEventKeeps(cfg, s, e);
    case CarEvent(i) =>
      assert JourneyOk(i, e.journeys[i], cfg, s, e.now, e.resources);
      var ph := e.journeys[i].phase;
      if ph.Arrived? {
        CarStartKeeps(cfg, s, e, i);
      } else if ph.Queued? {
        CarBeginKeeps(cfg, s, e, i);
      } else {
        CarFinishKeeps(cfg, s, e, i);
      }
    case ReleaseEvent =>
      ReleaseEventKeeps(cfg, s, e);
  }

  /** Car i's wait at station k when it is admitted at time t: from the end
      of the previous station (its arrival, before cleaning) to t. */
  function WaitFrom(c: Car, k: StationId, t: real): real
    requires PrevEnd(c, k).Some?
  {
    t - PrevEnd(c, k).value
  }

  /** The wait of a car admitted by event t is defined: it has left the
      previous station (or, before cleaning, arrived). */
  predicate LogReady(e: Engine, t: Target)
    requires Pending(e, t)
  {
    t.CarEvent? && e.journeys[t.index].phase.Queued? ==>
      PrevEnd(e.journeys[t.index].car, e.journeys[t.index].phase.at).Some?
  }

  /** What the station records gain when event t is handled: a wait when a
      car is admitted, a processing time (added to the busy time too) when a
      car's service ends, nothing otherwise. */
  ghost function LogStep(e: Engine, t: Target, logs: PerStation<StationLog>): PerStation<StationLog>
    requires Pending(e, t) && LogReady(e, t)
  {
    match t
    case CarEvent(i) =>
      var j := e.journeys[i];
      (match j.phase
       case Queued(k) =>
         logs.Set(k, logs.Get(k).(waits := logs.Get(k).waits + [WaitFrom(j.car, k, j.wake.value.time)]))
       case InService(k) =>
         logs.Set(k, logs.Get(k).(procs := logs.Get(k).procs + [j.service], busy := logs.Get(k).busy + j.service))
       case _ => logs)
    case _ => logs
  }

  /** What the rest of the station records gain when event t is handled:
      when a car's service at cleaning or primer ends, a snapshot of the three
      queue lengths taken right after its machine is given back; nothing
      otherwise. */
  ghost function TrackStep(e: Engine, t: Target, tr: PerStation<Tracking>): PerStation<Tracking>
    requires Pending(e, t)
  {
    match t
    case CarEvent(i) =>
      var j := e.journeys[i];
      (match j.phase
       case InService(k) =>
         if NextStation(k).Some? then
           Snapshot(tr, j.wake.value.time, QueueLengths(EndStep(e, i, k, j.wake.value.time).resources))
         else tr
       case _ => tr)
    case _ => tr
  }

  /** The alerts an event raises are exactly the queue lengths above the
      threshold that it records. */
  lemma AlertsFollowSnapshots(cfg: Config, s: Samples, e: Engine, t: Target, tr: PerStation<Tracking>)
    requires Pending(e, t)
    ensures EventStep(cfg, s, e, t).alertCount + RecordedAlerts(tr, cfg.bottleneckThreshold)
         == e.alertCount + RecordedAlerts(TrackStep(e, t, tr), cfg.bottleneckThreshold)
  {
    match t
    case GeneratorEvent =>
    case ReleaseEvent =>
    case CarEvent(i) =>
      var j := e.journeys[i];
      match j.phase
      case Arrived =>
      case Queued(k) =>
      case Exited =>
      case InService(k) =>
        var at := j.wake.value.time;
        FinishSplit(cfg, e, i, k, at);
        if NextStation(k).Some? {
          SnapshotAlerts(tr, at, QueueLengths(EndStep(e, i, k, at).resources), cfg.bottleneckThreshold);
        }
  }

  /** The start of a car's journey leaves the station records as they are
      and in agreement with the journeys. */
  lemma RecordsStart(cfg: Config, s: Samples, e: Engine, i: nat, logs: PerStation<StationLog>)
    requires EngineOk(cfg, s, e) && IsNext(e, CarEvent(i)) && RecordsOk(cfg, e.journeys, logs)
    requires e.journeys[i].phase.Arrived?
    ensures LogReady(e, CarEvent(i))
    ensures RecordsOk(cfg, EventStep(cfg, s, e, CarEvent(i)).journeys, LogStep(e, CarEvent(i), logs))
  {
    StartJourneyKeeps(cfg, s, e, i);
    RecordsKept(cfg, e.journeys, StartJourneyStep(e, i).journeys, logs);
  }

  /** The admission of a car keeps the station records in agreement with the
      journeys once its wait is recorded. */
  lemma RecordsBegin(cfg: Config, s: Samples, e: Engine, i: nat, logs: PerStation<StationLog>)
    requires EngineOk(cfg, s, e) && IsNext(e, CarEvent(i)) && RecordsOk(cfg, e.journeys, logs)
    requires e.journeys[i].phase.Queued?
    ensures LogReady(e, CarEvent(i))
    ensures RecordsOk(cfg, EventStep(cfg, s, e, CarEvent(i)).journeys, LogStep(e, CarEvent(i), logs))
  {
    var j := e.journeys[i];
    BeginServiceKeeps(cfg, s, e, i);
    RecordsWait(cfg, e.journeys, BeginServiceStep(s, e, i).journeys, logs, j.phase.at,
                WaitFrom(j.car, j.phase.at, j.wake.value.time));
  }

  /** The end of a car's service keeps the station records in agreement with
      the journeys once its processing time is recorded. */
  lemma RecordsFinishStep(cfg: Config, s: Samples, e: Engine, i: nat, logs: PerStation<StationLog>)
    requires EngineOk(cfg, s, e) && IsNext(e, CarEvent(i)) && RecordsOk(cfg, e.journeys, logs)
    requires e.journeys[i].phase.InService?
    ensures LogReady(e, CarEvent(i))
    ensures RecordsOk(cfg, EventStep(cfg, s, e, CarEvent(i)).journeys, LogStep(e, CarEvent(i), logs))
  {
    var j := e.journeys[i];
    FinishServiceCounts(cfg, s, e, i);
    RecordsFinish(cfg, e.journeys, FinishServiceStep(cfg, e, i).journeys, logs, j.phase.at, j.service);
  }

  /** A car's event keeps the station records in agreement with the journeys. */
  lemma RecordsCarStep(cfg: Config, s: Samples, e: Engine, i: nat, logs: PerStation<StationLog>)
    requires EngineOk(cfg, s, e) && IsNext(e, CarEvent(i)) && RecordsOk(cfg, e.journeys, logs)
    ensures LogReady(e, CarEvent(i))
    ensures RecordsOk(cfg, EventStep(cfg, s, e, CarEvent(i)).journeys, LogStep(e, CarEvent(i), logs))
  {
    match e.journeys[i].phase
    case Arrived =>
      RecordsStart(cfg, s, e, i, logs);
    case Queued(k) =>
      RecordsBegin(cfg, s, e, i, logs);
    case InService(k) =>
      RecordsFinishStep(cfg, s, e, i, logs);
    case Exited =>
  }

  /** Handling the next event keeps the station records in agreement with
      the journeys. */
  lemma RecordsStep(cfg: Config, s: Samples, e: Engine, t: Target, logs: PerStation<StationLog>)
    requires EngineOk(cfg, s, e) && IsNext(e, t) && RecordsOk(cfg, e.journeys, logs)
    ensures LogReady(e, t)
    ensures RecordsOk(cfg, EventStep(cfg, s, e, t).journeys, LogStep(e, t, logs))
  {
    match t
    case GeneratorEvent =>
      if e.genState.GenSleeping? {
        GeneratorWakeKeeps(cfg, s, e);
        RecordsKept(cfg, e.journeys, GeneratorWakeStep(cfg, s, e).journeys, logs);
      }
    case CarEvent(i) =>
      RecordsCarStep(cfg, s, e, i, logs);
    case ReleaseEvent =>
      ReleaseKeeps(cfg, s, e);
      RecordsKept(cfg, e.journeys, ReleaseStep(e).journeys, logs);
  }

  // ---------------------------------------------------------------------
  // What the invariant gives

  /** Cars are numbered 1, 2, 3, ... in the order they arrived, and every car
      arrived before the acceptance cutoff. */
  lemma CarsNumberedInArrivalOrder(cfg: Config, s: Samples, e: Engine)
    requires EngineOk(cfg, s, e)
    ensures e.carCounter == |e.journeys|
    ensures forall m :: 0 <= m < |e.journeys| ==>
      e.journeys[m].car.carId == m + 1 && e.journeys[m].car.arrivalTime < cfg.newCarAcceptanceTime
    ensures forall a, b :: 0 <= a < b < |e.journeys| ==> e.journeys[a].car.arrivalTime <= e.journeys[b].car.arrivalTime
  {
    forall m | 0 <= m < |e.journeys|
      ensures e.journeys[m].car.carId == m + 1 && e.journeys[m].car.arrivalTime < cfg.newCarAcceptanceTime
    {
      assert JourneyOk(m, e.journeys[m], cfg, s, e.now, e.resources);
    }
    forall a, b | 0 <= a < b < |e.journeys| ensures e.journeys[a].car.arrivalTime <= e.journeys[b].car.arrivalTime {
      assert ArrivalOf(e.journeys, a) <= ArrivalOf(e.journeys, b);
    }
  }

  /** Every car created has either completed or is still in the shop, and the
      number in the shop is never negative. */
  lemma CarsConserved(cfg: Config, s: Samples, e: Engine)
    requires EngineOk(cfg, s, e)
    ensures e.carCounter == |e.carsCompleted| + e.carsInSystem
    ensures 0 <= e.carsInSystem <= e.carCounter
  {
    assert |e.carsCompleted| == CountPast(e.journeys, Ord(InService(Painting)));
  }

  /** Every completed car went through the three stations in order and left
      when painting ended, no later than now; at each station its time in
      service is exactly the duration drawn for it, which lies in the
      configured range. */
  lemma CompletedCarsFinished(cfg: Config, s: Samples, e: Engine)
    requires EngineOk(cfg, s, e)
    ensures forall m :: 0 <= m < |e.carsCompleted| ==>
      && e.carsCompleted[m].Finished() && e.carsCompleted[m].exitTime.value <= e.now
      && (forall k ::
            && EndOf(e.carsCompleted[m], k).value - StartOf(e.carsCompleted[m], k).value
                 == Duration(s, k, e.carsCompleted[m].carId)
            && cfg.serviceMin.Get(k) <= Duration(s, k, e.carsCompleted[m].carId) <= cfg.serviceMax.Get(k))
  {
    forall m | 0 <= m < |e.carsCompleted|
      ensures && e.carsCompleted[m].Finished() && e.carsCompleted[m].exitTime.value <= e.now
              && (forall k ::
                    && EndOf(e.carsCompleted[m], k).value - StartOf(e.carsCompleted[m], k).value
                         == Duration(s, k, e.carsCompleted[m].carId)
                    && cfg.serviceMin.Get(k) <= Duration(s, k, e.carsCompleted[m].carId) <= cfg.serviceMax.Get(k))
    {
      var c := e.carsCompleted[m];
      var j := e.journeys[c.carId - 1];
      assert JourneyOk(c.carId - 1, j, cfg, s, e.now, e.resources);
      ExitedCarIsFinished(c, j.service, s, cfg, e.now);
      forall k ensures EndOf(c, k).value - StartOf(c, k).value == Duration(s, k, c.carId) {
        assert Done(c, k, s);
      }
    }
  }

  /** No station holds more cars than it has machines, slots are granted in
      the order they were requested, and nobody waits at a station while one
      of its machines is idle unless a release event of that station is about
      to hand the machine over. */
  lemma MachinesRespected(cfg: Config, s: Samples, e: Engine)
    requires EngineOk(cfg, s, e)
    ensures forall k ::
      && |e.resources.Get(k).users| <= cfg.machines.Get(k)
      && e.resources.Get(k).admitted == e.resources.Get(k).requested[..|e.resources.Get(k).admitted|]
      && (e.resources.Get(k).queue != [] ==>
            cfg.machines.Get(k) <= |e.resources.Get(k).users| + ReleasesFor(e.releases, k))
  {
    forall k ensures
      && |e.resources.Get(k).users| <= cfg.machines.Get(k)
      && e.resources.Get(k).admitted == e.resources.Get(k).requested[..|e.resources.Get(k).admitted|]
      && (e.resources.Get(k).queue != [] ==>
            cfg.machines.Get(k) <= |e.resources.Get(k).users| + ReleasesFor(e.releases, k))
    {
      assert ResourceOk(e.resources.Get(k), cfg.machines.Get(k), |e.journeys|);
      assert WorkConserving(e.resources.Get(k), e.releases, k);
      AdmittedIsPrefixOfRequested(e.resources.Get(k));
    }
  }
}
