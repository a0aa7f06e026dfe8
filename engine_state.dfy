// What the engine's state must look like between two events, stated on
// values, and how each step of a car's journey keeps it so. The engine class
// in module Simulation calls these lemmas after every event it handles.
module EngineState {
  import opened Base
  import opened Entities
  import opened SimResource
  import opened CarJourney

  /** The arrival loop: not created yet, created and about to start, sleeping
      on its interval, or stopped for good after the cutoff. */
  datatype GenState = GenIdle | GenStarting | GenSleeping | GenStopped

  /** A release event of a station; processing it runs a granting pass. */
  datatype PendingRelease = PendingRelease(key: Key, at: StationId)

  // ---------------------------------------------------------------------
  // Cars and machine slots

  /** Car `id`'s place at station k's resource: waiting in the queue exactly
      while queued and not yet granted, holding a slot exactly while granted
      or in service. */
  ghost predicate Placed(id: nat, j: Journey, r: Resource, k: StationId)
  {
    && (id in r.queue <==> j.phase == Queued(k) && j.wake.None?)
    && (id in r.users <==> (j.phase == Queued(k) && j.wake.Some?) || j.phase == InService(k))
  }

  /** Car i's record, phase and pending event agree with each other and with
      the clock. */
  ghost predicate JourneyCore(i: nat, j: Journey, cfg: Config, s: Samples, now: real)
  {
    && j.car.carId == i + 1
    && j.car.arrivalTime <= now && j.car.arrivalTime < cfg.newCarAcceptanceTime
    && StampsOk(j.car, j.phase, j.service, s, now)
    && WakeOk(j, now)
  }

  ghost predicate JourneyOk(i: nat, j: Journey, cfg: Config, s: Samples, now: real, res: PerStation<Resource>)
  {
    && JourneyCore(i, j, cfg, s, now)
    && (forall k :: Placed(i + 1, j, res.Get(k), k))
  }

  /** A resource is well formed, has the configured machines and only holds
      ids of existing cars. */
  ghost predicate ResourceOk(r: Resource, capacity: nat, n: nat)
  {
    && Valid(r) && r.capacity == capacity
    && (forall x :: x in r.users ==> 1 <= x <= n)
    && (forall x :: x in r.queue ==> 1 <= x <= n)
  }

  ghost predicate CarsOk(cfg: Config, s: Samples, now: real, js: seq<Journey>, res: PerStation<Resource>)
  {
    && (forall i {:trigger JourneyOk(i, js[i], cfg, s, now, res)} :: 0 <= i < |js| ==> JourneyOk(i, js[i], cfg, s, now, res))
    && (forall k :: ResourceOk(res.Get(k), cfg.machines.Get(k), |js|))
  }

  /** The granted request's event fires at once: car g resumes at `now`. */
  function WakeGranted(js: seq<Journey>, g: Option<nat>, now: real, eid: nat): (js': seq<Journey>)
    ensures |js'| == |js|
    ensures forall m :: 0 <= m < |js| ==>
      && js'[m].car == js[m].car && js'[m].phase == js[m].phase && js'[m].service == js[m].service
      && js'[m].wake == (if g == Some(m + 1) then Some(Key(now, false, eid)) else js[m].wake)
  {
    if g.Some? && 1 <= g.value <= |js| then js[g.value - 1 := js[g.value - 1].(wake := Some(Key(now, false, eid)))]
    else js
  }

  lemma CarsOkLater(cfg: Config, s: Samples, now: real, now': real, js: seq<Journey>, res: PerStation<Resource>)
    requires CarsOk(cfg, s, now, js, res) && now <= now'
    requires forall m :: 0 <= m < |js| && js[m].wake.Some? ==> now' <= js[m].wake.value.time
    ensures CarsOk(cfg, s, now', js, res)
  {
    forall m | 0 <= m < |js| ensures JourneyOk(m, js[m], cfg, s, now', res) {
      assert JourneyOk(m, js[m], cfg, s, now, res);
    }
  }

  /** A new car that has just arrived holds and waits for nothing. */
  lemma CarsOkNewCar(cfg: Config, s: Samples, now: real, js: seq<Journey>, res: PerStation<Resource>, j: Journey)
    requires CarsOk(cfg, s, now, js, res)
    requires j.phase == Arrived && JourneyCore(|js|, j, cfg, s, now)
    ensures CarsOk(cfg, s, now, js + [j], res)
  {
    var js' := js + [j];
    forall k ensures ResourceOk(res.Get(k), cfg.machines.Get(k), |js'|) {
      assert ResourceOk(res.Get(k), cfg.machines.Get(k), |js|);
    }
    forall m | 0 <= m < |js'| ensures JourneyOk(m, js'[m], cfg, s, now, res) {
      if m < |js| {
        assert js'[m] == js[m];
      } else {
        forall k ensures Placed(m + 1, js'[m], res.Get(k), k) {
          assert ResourceOk(res.Get(k), cfg.machines.Get(k), |js|);
        }
      }
    }
  }

  /** Car j's wake-up after a granting pass that admitted g: set to now for
      the admitted car, unchanged for every other. */
  function WakeIfGranted(j: Journey, id: nat, g: Option<nat>, now: real, eid: nat): Journey
  {
    if g == Some(id) then j.(wake := Some(Key(now, false, eid))) else j
  }

  /** After car c's request at station k, every car is still placed right
      there: c waits or is admitted, and the car admitted resumes. */
  lemma PlacedAfterRequest(id: nat, j: Journey, r: Resource, k: StationId, c: nat, now: real, eid: nat)
    requires Valid(r) && Absent(r, c)
    requires id == c ==> j.phase == Queued(k) && j.wake.None?
    requires id != c ==> Placed(id, j, r, k)
    ensures var p := Request(r, c);
      Placed(id, WakeIfGranted(j, id, p.1, now, eid), p.0, k)
  {
    var p := Request(r, c);
    assert forall x :: x in p.0.queue <==> (x in r.queue || x == c) && p.1 != Some(x);
  }

  /** A granting pass at station k keeps every car placed right there. */
  lemma PlacedAfterGrant(id: nat, j: Journey, r: Resource, k: StationId, now: real, eid: nat)
    requires Valid(r) && Placed(id, j, r, k)
    ensures var p := TriggerPut(r);
      Placed(id, WakeIfGranted(j, id, p.1, now, eid), p.0, k)
  {
    var p := TriggerPut(r);
    if p.1 == Some(id) {
      assert r.queue[0] in r.queue;
    }
  }

  /** Waking a car queued at station k does not move it at another station. */
  lemma PlacedWakeElsewhere(id: nat, j: Journey, r: Resource, k: StationId, k': StationId, w: Option<Key>)
    requires k' != k && j.phase == Queued(k) && Placed(id, j, r, k')
    ensures Placed(id, j.(wake := w), r, k')
  {
  }

  /** A release by car c at station k keeps every other car placed there. */
  lemma PlacedAfterRelease(id: nat, j: Journey, r: Resource, k: StationId, c: nat)
    requires Valid(r) && id != c && Placed(id, j, r, k)
    ensures Placed(id, j, Release(r, c), k)
  {
  }

  /** A granted car's journey is still consistent: only its wake-up changed,
      to now. */
  lemma CoreAfterWake(m: nat, j: Journey, cfg: Config, s: Samples, now: real, eid: nat)
    requires JourneyCore(m, j, cfg, s, now) && j.phase.Queued?
    ensures JourneyCore(m, j.(wake := Some(Key(now, false, eid))), cfg, s, now)
  {
  }

  /** The requesting car after its own request at station k: waiting, or
      admitted and resumed now. */
  lemma RequestKeepsRequester(m: nat, j: Journey, cfg: Config, s: Samples, now: real, res: PerStation<Resource>,
                              k: StationId, eid: nat)
    requires Valid(res.Get(k)) && j.phase == Queued(k) && j.wake.None? && JourneyCore(m, j, cfg, s, now)
    requires forall k' :: Absent(res.Get(k'), m + 1)
    ensures var p := Request(res.Get(k), m + 1);
      JourneyOk(m, WakeIfGranted(j, m + 1, p.1, now, eid), cfg, s, now, res.Set(k, p.0))
  {
    var r := res.Get(k);
    var p := Request(r, m + 1);
    var j' := WakeIfGranted(j, m + 1, p.1, now, eid);
    PlacedAfterRequest(m + 1, j, r, k, m + 1, now, eid);
    if p.1 == Some(m + 1) {
      CoreAfterWake(m, j, cfg, s, now, eid);
    }
    forall k' ensures Placed(m + 1, j', res.Set(k, p.0).Get(k'), k') {
      if k' != k {
        assert Absent(res.Get(k'), m + 1);
      }
    }
  }

  /** Any other car after car c's request at station k: still consistent,
      and resumed now if it is the car admitted. */
  lemma RequestKeepsOther(m: nat, j: Journey, cfg: Config, s: Samples, now: real, res: PerStation<Resource>,
                          k: StationId, c: nat, eid: nat)
    requires Valid(res.Get(k)) && Absent(res.Get(k), c) && m + 1 != c
    requires JourneyOk(m, j, cfg, s, now, res)
    ensures var p := Request(res.Get(k), c);
      JourneyOk(m, WakeIfGranted(j, m + 1, p.1, now, eid), cfg, s, now, res.Set(k, p.0))
  {
    var r := res.Get(k);
    var p := Request(r, c);
    var j' := WakeIfGranted(j, m + 1, p.1, now, eid);
    assert Placed(m + 1, j, r, k);
    PlacedAfterRequest(m + 1, j, r, k, c, now, eid);
    if p.1 == Some(m + 1) {
      assert j.phase == Queued(k);
      CoreAfterWake(m, j, cfg, s, now, eid);
    }
    forall k' | k' != k ensures Placed(m + 1, j', res.Get(k'), k') {
      assert Placed(m + 1, j, res.Get(k'), k');
      if p.1 == Some(m + 1) {
        PlacedWakeElsewhere(m + 1, j, res.Get(k'), k, k', j'.wake);
      }
    }
    forall k' ensures Placed(m + 1, j', res.Set(k, p.0).Get(k'), k') {
    }
  }

  /** Car i, just set to queue at station k and found at no station, requests
      a machine there; whichever car the granting pass admits resumes now. */
  lemma EnqueueKeepsCars(cfg: Config, s: Samples, now: real, js: seq<Journey>, res: PerStation<Resource>,
                         k: StationId, i: nat, eid: nat)
    requires i < |js| && js[i].phase == Queued(k) && js[i].wake.None?
    requires JourneyCore(i, js[i], cfg, s, now)
    requires forall m :: 0 <= m < |js| && m != i ==> JourneyOk(m, js[m], cfg, s, now, res)
    requires forall k' :: Absent(res.Get(k'), i + 1)
    requires forall k' :: ResourceOk(res.Get(k'), cfg.machines.Get(k'), |js|)
    ensures Valid(res.Get(k)) && Absent(res.Get(k), i + 1)
    ensures var p := Request(res.Get(k), i + 1);
      && (p.1.Some? ==> 1 <= p.1.value <= |js| && js[p.1.value - 1].phase == Queued(k))
      && CarsOk(cfg, s, now, WakeGranted(js, p.1, now, eid), res.Set(k, p.0))
  {
    var r := res.Get(k);
    assert ResourceOk(r, cfg.machines.Get(k), |js|);
    assert Absent(r, i + 1);
    var p := Request(r, i + 1);
    if p.1.Some? && p.1.value != i + 1 {
      assert JourneyOk(p.1.value - 1, js[p.1.value - 1], cfg, s, now, res);
      assert Placed(p.1.value, js[p.1.value - 1], r, k);
    }
    var js' := WakeGranted(js, p.1, now, eid);
    var res' := res.Set(k, p.0);
    forall m | 0 <= m < |js'| ensures JourneyOk(m, js'[m], cfg, s, now, res') {
      assert js'[m] == WakeIfGranted(js[m], m + 1, p.1, now, eid);
      if m == i {
        RequestKeepsRequester(m, js[m], cfg, s, now, res, k, eid);
      } else {
        RequestKeepsOther(m, js[m], cfg, s, now, res, k, i + 1, eid);
      }
    }
    forall k' ensures ResourceOk(res'.Get(k'), cfg.machines.Get(k'), |js'|) {
      assert ResourceOk(res.Get(k'), cfg.machines.Get(k'), |js|);
    }
  }

  /** A car's journey once it starts: queued for cleaning, with a provisional
      cleaning start stamped when it joins the queue. */
  function Started(j: Journey, now: real): Journey
  {
    Journey(j.car.(cleaningStartTime := Some(now)), Queued(Cleaning), j.service, None)
  }

  /** A car's journey once its service at station k begins at `now`: the
      start is stamped and it sleeps for the service time drawn for it. */
  function Began(s: Samples, j: Journey, k: StationId, now: real, eid: nat): Journey
  {
    var c := WithStart(j.car, k, now);
    var d := Duration(s, k, c.carId);
    Journey(c, InService(k), d, Some(Key(now + d, false, eid)))
  }

  /** A started car enters the cleaning queue with its provisional cleaning
      start and requests a cleaning machine. */
  lemma StartKeepsCars(cfg: Config, s: Samples, now: real, js: seq<Journey>, res: PerStation<Resource>,
                       i: nat, eid: nat)
    requires CarsOk(cfg, s, now, js, res)
    requires i < |js| && js[i].phase == Arrived && js[i].wake.Some? && js[i].wake.value.time == now
    ensures var js1 := js[i := Started(js[i], now)];
      && Valid(res.cleaning) && i + 1 !in res.cleaning.users && i + 1 !in res.cleaning.queue
      && var p := Request(res.cleaning, i + 1);
      && (p.1.Some? ==> 1 <= p.1.value <= |js1| && js1[p.1.value - 1].phase == Queued(Cleaning))
      && CarsOk(cfg, s, now, WakeGranted(js1, p.1, now, eid), res.Set(Cleaning, p.0))
  {
    var js1 := js[i := Started(js[i], now)];
    assert JourneyOk(i, js[i], cfg, s, now, res);
    forall k' ensures i + 1 !in res.Get(k').users && i + 1 !in res.Get(k').queue {
      assert Placed(i + 1, js[i], res.Get(k'), k');
    }
    forall m | 0 <= m < |js1| && m != i ensures JourneyOk(m, js1[m], cfg, s, now, res) {
      assert js1[m] == js[m];
    }
    EnqueueKeepsCars(cfg, s, now, js1, res, Cleaning, i, eid);
  }

  /** A granted car starts its service: it keeps its slot and sleeps for the
      service time it drew. */
  lemma BeginKeepsCars(cfg: Config, s: Samples, now: real, js: seq<Journey>, res: PerStation<Resource>,
                       i: nat, k: StationId, eid: nat)
    requires CarsOk(cfg, s, now, js, res) && ValidConfig(cfg) && SamplesFit(cfg, s)
    requires i < |js| && js[i].phase == Queued(k) && js[i].wake.Some? && js[i].wake.value.time == now
    ensures CarsOk(cfg, s, now, js[i := Began(s, js[i], k, now, eid)], res)
  {
    var c := WithStart(js[i].car, k, now);
    var d := Duration(s, k, c.carId);
    var js' := js[i := Began(s, js[i], k, now, eid)];
    assert JourneyOk(i, js[i], cfg, s, now, res);
    assert d >= 0.0 by {
      assert cfg.serviceMin.Get(k) <= d;
      assert StationConfigOk(cfg, k);
    }
    forall k' ensures Placed(i + 1, js'[i], res.Get(k'), k') {
      assert Placed(i + 1, js[i], res.Get(k'), k');
    }
    forall m | 0 <= m < |js'| ensures JourneyOk(m, js'[m], cfg, s, now, res) {
      if m != i {
        assert js'[m] == js[m];
      }
    }
  }

  /** A car's journey once its service at station k ends at `now`: the end
      is stamped, and the car either queues for the next station or, after
      painting, exits with the exit time stamped. */
  function AfterService(j: Journey, k: StationId, now: real): (j': Journey)
    ensures j'.wake.None? && j'.service == j.service
    ensures NextStation(k).None? <==> j'.phase == Exited
    ensures NextStation(k).Some? ==> j'.phase == Queued(NextStation(k).value)
    ensures Ord(j'.phase) == Ord(InService(k)) + 1
  {
    var c := WithEnd(j.car, k, now);
    match NextStation(k)
    case None => Journey(c.(exitTime := Some(now)), Exited, j.service, None)
    case Some(k2) => Journey(c, Queued(k2), j.service, None)
  }

  /** A car finishing its service at station k gives its slot back and moves
      on, queued for the next station or exited, and is found at no station
      until it requests again. */
  lemma LeaveKeepsCars(cfg: Config, s: Samples, now: real, js: seq<Journey>, res: PerStation<Resource>,
                       i: nat, k: StationId)
    requires CarsOk(cfg, s, now, js, res) && ValidConfig(cfg) && SamplesFit(cfg, s)
    requires i < |js| && js[i].phase == InService(k) && js[i].wake.Some? && js[i].wake.value.time == now
    ensures Valid(res.Get(k)) && i + 1 in res.Get(k).users
    ensures var j := AfterService(js[i], k, now);
      var res1 := res.Set(k, Release(res.Get(k), i + 1));
      && JourneyCore(i, j, cfg, s, now)
      && cfg.serviceMin.Get(k) <= js[i].service <= cfg.serviceMax.Get(k)
      && (forall m :: 0 <= m < |js| && m != i ==> JourneyOk(m, js[m], cfg, s, now, res1))
      && (forall k' :: Absent(res1.Get(k'), i + 1))
      && (forall k' :: ResourceOk(res1.Get(k'), cfg.machines.Get(k'), |js|))
  {
    assert JourneyOk(i, js[i], cfg, s, now, res);
    assert Placed(i + 1, js[i], res.Get(k), k);
    assert ResourceOk(res.Get(k), cfg.machines.Get(k), |js|);
    assert StationConfigOk(cfg, k);
    var res1 := res.Set(k, Release(res.Get(k), i + 1));
    forall k' ensures Absent(res1.Get(k'), i + 1) {
      assert Placed(i + 1, js[i], res.Get(k'), k');
    }
    forall k' ensures ResourceOk(res1.Get(k'), cfg.machines.Get(k'), |js|) {
      assert ResourceOk(res.Get(k'), cfg.machines.Get(k'), |js|);
    }
    forall m | 0 <= m < |js| && m != i ensures JourneyOk(m, js[m], cfg, s, now, res1) {
      assert JourneyOk(m, js[m], cfg, s, now, res);
      PlacedAfterRelease(m + 1, js[m], res.Get(k), k, i + 1);
      forall k' | k' != k ensures Placed(m + 1, js[m], res1.Get(k'), k') {
        assert Placed(m + 1, js[m], res.Get(k'), k');
      }
    }
  }

  /** A car leaving the paint shop after painting is found at no station, so
      the journeys stay consistent with the resources. */
  lemma ExitKeepsCars(cfg: Config, s: Samples, now: real, js: seq<Journey>, res: PerStation<Resource>,
                      i: nat, j: Journey)
    requires i < |js| && j.phase == Exited && JourneyCore(i, j, cfg, s, now)
    requires forall m :: 0 <= m < |js| && m != i ==> JourneyOk(m, js[m], cfg, s, now, res)
    requires forall k' :: Absent(res.Get(k'), i + 1)
    requires forall k' :: ResourceOk(res.Get(k'), cfg.machines.Get(k'), |js|)
    ensures CarsOk(cfg, s, now, js[i := j], res)
  {
  }

  /** One car after a granting pass at station k: still consistent, and
      resumed now if it is the car admitted. */
  lemma GrantKeepsCar(m: nat, j: Journey, cfg: Config, s: Samples, now: real, res: PerStation<Resource>,
                      k: StationId, eid: nat)
    requires Valid(res.Get(k)) && JourneyOk(m, j, cfg, s, now, res)
    ensures var p := TriggerPut(res.Get(k));
      JourneyOk(m, WakeIfGranted(j, m + 1, p.1, now, eid), cfg, s, now, res.Set(k, p.0))
  {
    var r := res.Get(k);
    var p := TriggerPut(r);
    var j' := WakeIfGranted(j, m + 1, p.1, now, eid);
    assert Placed(m + 1, j, r, k);
    PlacedAfterGrant(m + 1, j, r, k, now, eid);
    if p.1 == Some(m + 1) {
      assert r.queue[0] in r.queue;
      CoreAfterWake(m, j, cfg, s, now, eid);
    }
    forall k' | k' != k ensures Placed(m + 1, j', res.Get(k'), k') {
      assert Placed(m + 1, j, res.Get(k'), k');
      if p.1 == Some(m + 1) {
        PlacedWakeElsewhere(m + 1, j, res.Get(k'), k, k', j'.wake);
      }
    }
    forall k' ensures Placed(m + 1, j', res.Set(k, p.0).Get(k'), k') {
    }
  }

  /** A release event's granting pass admits the head of the queue, if a slot
      is free; that car resumes now. */
  lemma GrantKeepsCars(cfg: Config, s: Samples, now: real, js: seq<Journey>, res: PerStation<Resource>,
                       k: StationId, eid: nat)
    requires CarsOk(cfg, s, now, js, res)
    ensures Valid(res.Get(k))
    ensures var p := TriggerPut(res.Get(k));
      && (p.1.Some? ==> 1 <= p.1.value <= |js| && js[p.1.value - 1].phase == Queued(k))
      && CarsOk(cfg, s, now, WakeGranted(js, p.1, now, eid), res.Set(k, p.0))
  {
    var r := res.Get(k);
    assert ResourceOk(r, cfg.machines.Get(k), |js|);
    var p := TriggerPut(r);
    if p.1.Some? {
      assert r.queue[0] in r.queue;
      assert JourneyOk(p.1.value - 1, js[p.1.value - 1], cfg, s, now, res);
      assert Placed(p.1.value, js[p.1.value - 1], r, k);
    }
    var js' := WakeGranted(js, p.1, now, eid);
    var res' := res.Set(k, p.0);
    forall m | 0 <= m < |js'| ensures JourneyOk(m, js'[m], cfg, s, now, res') {
      assert js'[m] == WakeIfGranted(js[m], m + 1, p.1, now, eid);
      GrantKeepsCar(m, js[m], cfg, s, now, res, k, eid);
    }
    forall k' ensures ResourceOk(res'.Get(k'), cfg.machines.Get(k'), |js'|) {
      assert ResourceOk(res.Get(k'), cfg.machines.Get(k'), |js|);
    }
  }

  // ---------------------------------------------------------------------
  // Release events and work conservation

  /** Release events are all due now and ordered by scheduling. */
  ghost predicate ReleasesOk(rs: seq<PendingRelease>, now: real, nextEid: nat)
  {
    && (forall m :: 0 <= m < |rs| ==> rs[m].key.time == now && !rs[m].key.urgent && rs[m].key.eid < nextEid)
    && (forall a, b :: 0 <= a < b < |rs| ==> EidOf(rs, a) < EidOf(rs, b))
  }

  /** The scheduling number of the release event at position m. */
  function EidOf(rs: seq<PendingRelease>, m: nat): nat
    requires m < |rs|
  {
    rs[m].key.eid
  }

  /** A release event scheduled now, with the next scheduling number, goes
      to the end of the pending ones. */
  lemma ReleasesAppend(rs: seq<PendingRelease>, now: real, eid: nat, k: StationId)
    requires ReleasesOk(rs, now, eid)
    ensures ReleasesOk(rs + [PendingRelease(Key(now, false, eid), k)], now, eid + 1)
  {
    var rs' := rs + [PendingRelease(Key(now, false, eid), k)];
    forall a, b | 0 <= a < b < |rs'| ensures EidOf(rs', a) < EidOf(rs', b) {
      if b < |rs| {
        assert EidOf(rs, a) < EidOf(rs, b);
      }
    }
  }

  /** Processing the first release event leaves the others in order. */
  lemma ReleasesPop(rs: seq<PendingRelease>, now: real, eid: nat, eid': nat)
    requires ReleasesOk(rs, now, eid) && rs != [] && eid <= eid'
    ensures ReleasesOk(rs[1..], now, eid')
  {
    forall a, b | 0 <= a < b < |rs| - 1 ensures EidOf(rs[1..], a) < EidOf(rs[1..], b) {
      assert EidOf(rs, a + 1) < EidOf(rs, b + 1);
    }
  }

  /** How many pending release events belong to station k. */
  function ReleasesFor(rs: seq<PendingRelease>, k: StationId): (n: nat)
    ensures n <= |rs|
  {
    if rs == [] then 0 else (if rs[0].at == k then 1 else 0) + ReleasesFor(rs[1..], k)
  }

  lemma {:induction false} ReleasesForAppend(rs: seq<PendingRelease>, x: PendingRelease, k: StationId)
    ensures ReleasesFor(rs + [x], k) == ReleasesFor(rs, k) + (if x.at == k then 1 else 0)
  {
    if rs != [] {
      assert (rs + [x])[1..] == rs[1..] + [x];
      ReleasesForAppend(rs[1..], x, k);
    }
  }

  /** Nobody waits at a station while one of its machines is idle, except
      until a pending release of that station runs its granting pass: every
      free slot is matched by a pending release event. */
  ghost predicate WorkConserving(r: Resource, rs: seq<PendingRelease>, k: StationId)
  {
    r.queue != [] ==> r.capacity <= |r.users| + ReleasesFor(rs, k)
  }

  ghost predicate Conserving(res: PerStation<Resource>, rs: seq<PendingRelease>)
  {
    forall k :: WorkConserving(res.Get(k), rs, k)
  }

  /** A request's granting pass fills a free slot, so waiting still implies
      every slot is taken or about to be handed over. */
  lemma RequestConserves(res: PerStation<Resource>, rs: seq<PendingRelease>, k: StationId, c: nat)
    requires Conserving(res, rs)
    requires Valid(res.Get(k)) && c !in res.Get(k).users && c !in res.Get(k).queue
    ensures Conserving(res.Set(k, Request(res.Get(k), c).0), rs)
  {
    var r := res.Get(k);
    var p := Request(r, c);
    assert WorkConserving(r, rs, k);
    if p.1.Some? && r.queue == [] {
      assert p.0.queue == [];
    }
    forall k' ensures WorkConserving(res.Set(k, p.0).Get(k'), rs, k') {
      assert WorkConserving(res.Get(k'), rs, k');
    }
  }

  /** A release frees a slot and schedules the release event that will hand it over. */
  lemma ReleaseConserves(res: PerStation<Resource>, rs: seq<PendingRelease>, k: StationId, c: nat, key: Key)
    requires Conserving(res, rs)
    requires Valid(res.Get(k)) && c in res.Get(k).users
    ensures Conserving(res.Set(k, Release(res.Get(k), c)), rs + [PendingRelease(key, k)])
  {
    var rs' := rs + [PendingRelease(key, k)];
    forall k' ensures WorkConserving(res.Set(k, Release(res.Get(k), c)).Get(k'), rs', k') {
      assert WorkConserving(res.Get(k'), rs, k');
      ReleasesForAppend(rs, PendingRelease(key, k), k');
    }
  }

  /** Processing the first release event runs its station's granting pass. */
  lemma PopConserves(res: PerStation<Resource>, rs: seq<PendingRelease>)
    requires Conserving(res, rs) && rs != [] && Valid(res.Get(rs[0].at))
    ensures Conserving(res.Set(rs[0].at, TriggerPut(res.Get(rs[0].at)).0), rs[1..])
  {
    var k := rs[0].at;
    forall k' ensures WorkConserving(res.Set(k, TriggerPut(res.Get(k)).0).Get(k'), rs[1..], k') {
      assert WorkConserving(res.Get(k'), rs, k');
    }
  }

  /** Admitting a waiting car does not change who waits elsewhere. */
  lemma ConservingWake(res: PerStation<Resource>, rs: seq<PendingRelease>, k: StationId, r': Resource)
    requires Conserving(res, rs) && WorkConserving(r', rs, k)
    ensures Conserving(res.Set(k, r'), rs)
  {
    forall k' ensures WorkConserving(res.Set(k, r').Get(k'), rs, k') {
      assert WorkConserving(res.Get(k'), rs, k');
    }
  }

  // ---------------------------------------------------------------------
  // Station records and completed cars

  /** Every journey is past exactly the same phases in js and js'. */
  ghost predicate SameCounts(js: seq<Journey>, js': seq<Journey>)
  {
    forall o :: CountPast(js', o) == CountPast(js, o)
  }

  /** One journey in js' has gone one phase past phase number o; nothing else moved. */
  ghost predicate OneMorePast(js: seq<Journey>, js': seq<Journey>, o: nat)
  {
    forall o' :: CountPast(js', o') == CountPast(js, o') + (if o' == o then 1 else 0)
  }

  /** What a station record accumulates: the waits, the processing times
      and the busy time. */
  datatype StationLog = StationLog(waits: seq<real>, procs: seq<real>, busy: real)

  /** A station's record agrees with the journeys: one wait per car that
      started there, one processing time per car that finished there, busy
      time is their sum, waits are non-negative and processing times lie in
      the configured range. */
  ghost predicate RecordOk(k: StationId, cfg: Config, js: seq<Journey>, log: StationLog)
  {
    && log.busy == Sum(log.procs)
    && |log.waits| == CountPast(js, Ord(Queued(k)))
    && |log.procs| == CountPast(js, Ord(InService(k)))
    && (forall m :: 0 <= m < |log.waits| ==> log.waits[m] >= 0.0)
    && (forall m :: 0 <= m < |log.procs| ==> cfg.serviceMin.Get(k) <= log.procs[m] <= cfg.serviceMax.Get(k))
  }

  /** All three station records agree with the journeys. */
  ghost predicate RecordsOk(cfg: Config, js: seq<Journey>, logs: PerStation<StationLog>)
  {
    forall k :: RecordOk(k, cfg, js, logs.Get(k))
  }
  /** A station record with nothing recorded yet. */
  const NoLog := StationLog([], [], 0.0)

  /** Before any car exists, empty records agree with the journeys. */
  lemma NoRecordsOk(cfg: Config)
    ensures RecordsOk(cfg, [], PerStation(NoLog, NoLog, NoLog))
  {
    forall k ensures RecordOk(k, cfg, [], PerStation(NoLog, NoLog, NoLog).Get(k)) {
      assert CountPast([], Ord(Queued(k))) == 0;
    }
  }


  /** A step that moved no car into a queue or a service, at most starting
      a journey, keeps the records in agreement. */
  lemma RecordsKept(cfg: Config, js: seq<Journey>, js': seq<Journey>, logs: PerStation<StationLog>)
    requires RecordsOk(cfg, js, logs)
    requires SameCounts(js, js') || OneMorePast(js, js', Ord(Arrived))
    ensures RecordsOk(cfg, js', logs)
  {
    forall k ensures RecordOk(k, cfg, js', logs.Get(k)) {
      assert RecordOk(k, cfg, js, logs.Get(k));
      assert CountPast(js', Ord(Queued(k))) == CountPast(js, Ord(Queued(k)));
      assert CountPast(js', Ord(InService(k))) == CountPast(js, Ord(InService(k)));
    }
  }

  /** A car that starts its service at station k adds its wait w to k's
      record; the other records stay as they are. */
  lemma RecordsWait(cfg: Config, js: seq<Journey>, js': seq<Journey>, logs: PerStation<StationLog>,
                    k: StationId, w: real)
    requires RecordsOk(cfg, js, logs) && OneMorePast(js, js', Ord(Queued(k))) && w >= 0.0
    ensures RecordsOk(cfg, js', logs.Set(k, logs.Get(k).(waits := logs.Get(k).waits + [w])))
  {
    var log := logs.Get(k);
    var logs' := logs.Set(k, log.(waits := log.waits + [w]));
    forall k' ensures RecordOk(k', cfg, js', logs'.Get(k')) {
      assert RecordOk(k', cfg, js, logs.Get(k'));
      if k' == k {
        var w' := log.waits + [w];
        forall m | 0 <= m < |w'| ensures w'[m] >= 0.0 {
          if m < |log.waits| { assert w'[m] == log.waits[m]; }
        }
      } else {
        assert CountPast(js', Ord(Queued(k'))) == CountPast(js, Ord(Queued(k')));
        assert CountPast(js', Ord(InService(k'))) == CountPast(js, Ord(InService(k')));
      }
    }
  }

  /** A car that ends its service time d at station k adds d to k's
      processing times and to its busy time; the other records stay as they
      are. */
  lemma RecordsFinish(cfg: Config, js: seq<Journey>, js': seq<Journey>, logs: PerStation<StationLog>,
                      k: StationId, d: real)
    requires RecordsOk(cfg, js, logs) && OneMorePast(js, js', Ord(InService(k)))
    requires cfg.serviceMin.Get(k) <= d <= cfg.serviceMax.Get(k)
    ensures RecordsOk(cfg, js', logs.Set(k, logs.Get(k).(procs := logs.Get(k).procs + [d], busy := logs.Get(k).busy + d)))
  {
    var log := logs.Get(k);
    var logs' := logs.Set(k, log.(procs := log.procs + [d], busy := log.busy + d));
    forall k' ensures RecordOk(k', cfg, js', logs'.Get(k')) {
      assert RecordOk(k', cfg, js, logs.Get(k'));
      if k' == k {
        SumAppend(log.procs, d);
        var p' := log.procs + [d];
        forall m | 0 <= m < |p'| ensures cfg.serviceMin.Get(k) <= p'[m] <= cfg.serviceMax.Get(k) {
          if m < |log.procs| { assert p'[m] == log.procs[m]; }
        }
      } else {
        assert CountPast(js', Ord(Queued(k'))) == CountPast(js, Ord(Queued(k')));
        assert CountPast(js', Ord(InService(k'))) == CountPast(js, Ord(InService(k')));
      }
    }
  }

  /** The completed cars are the cars of the exited journeys, one per exit. */
  ghost predicate CompletedOk(cs: seq<Car>, js: seq<Journey>)
  {
    && |cs| == CountPast(js, Ord(InService(Painting)))
    && (forall m :: 0 <= m < |cs| ==>
          && 1 <= cs[m].carId <= |js|
          && js[cs[m].carId - 1].phase == Exited
          && js[cs[m].carId - 1].car == cs[m])
  }

  /** Changing a journey that has not exited, into one that has not exited
      either, keeps the completed list right. */
  lemma CompletedKept(cs: seq<Car>, js: seq<Journey>, i: nat, j: Journey)
    requires CompletedOk(cs, js) && i < |js|
    requires js[i].phase != Exited && j.phase != Exited
    ensures CompletedOk(cs, js[i := j])
  {
    CountPastUpdate(js, i, j, Ord(InService(Painting)));
  }

  lemma CompletedGranted(cs: seq<Car>, js: seq<Journey>, g: Option<nat>, now: real, eid: nat)
    requires CompletedOk(cs, js) && (g.Some? ==> 1 <= g.value <= |js| && js[g.value - 1].phase != Exited)
    ensures CompletedOk(cs, WakeGranted(js, g, now, eid))
  {
    if g.Some? {
      CompletedKept(cs, js, g.value - 1, js[g.value - 1].(wake := Some(Key(now, false, eid))));
    }
  }

  lemma CompletedExit(cs: seq<Car>, js: seq<Journey>, i: nat, j: Journey)
    requires CompletedOk(cs, js) && i < |js|
    requires js[i].phase == InService(Painting) && j.phase == Exited && j.car.carId == i + 1
    ensures CompletedOk(cs + [j.car], js[i := j])
  {
    CountPastUpdate(js, i, j, Ord(InService(Painting)));
  }

  // ---------------------------------------------------------------------
  // Counting

  /** Moving one journey a single phase forward adds one to the count of
      journeys past its old phase and leaves every other count alone. */
  lemma AdvanceCounts(js: seq<Journey>, i: nat, j: Journey)
    requires i < |js| && Ord(j.phase) == Ord(js[i].phase) + 1
    ensures forall o :: CountPast(js[i := j], o) == CountPast(js, o) + (if o == Ord(js[i].phase) then 1 else 0)
    ensures WorkOf(js[i := j]) + 2 == WorkOf(js)
  {
    forall o ensures CountPast(js[i := j], o) == CountPast(js, o) + (if o == Ord(js[i].phase) then 1 else 0) {
      CountPastUpdate(js, i, j, o);
    }
    WorkOfUpdate(js, i, j);
  }

  lemma NewJourneyCounts(js: seq<Journey>, j: Journey)
    requires j.phase == Arrived
    ensures forall o :: CountPast(js + [j], o) == CountPast(js, o)
    ensures WorkOf(js + [j]) == WorkOf(js) + Remaining(Arrived)
  {
    forall o ensures CountPast(js + [j], o) == CountPast(js, o) {
      CountPastAppend(js, j, o);
    }
    WorkOfAppend(js, j);
  }

  /** Waking a granted car changes no phase, so no count. */
  lemma GrantedCounts(js: seq<Journey>, g: Option<nat>, now: real, eid: nat)
    ensures forall o :: CountPast(WakeGranted(js, g, now, eid), o) == CountPast(js, o)
    ensures WorkOf(WakeGranted(js, g, now, eid)) == WorkOf(js)
  {
    if g.Some? && 1 <= g.value <= |js| {
      var i := g.value - 1;
      var j := js[i].(wake := Some(Key(now, false, eid)));
      forall o ensures CountPast(js[i := j], o) == CountPast(js, o) {
        CountPastUpdate(js, i, j, o);
      }
      WorkOfUpdate(js, i, j);
    }
  }
}
