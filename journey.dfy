// Vocabulary of the engine: configuration, the sampled inputs that replace
// the random draws, event keys and their order, the phases of a car's
// journey, and what a car's timestamps look like in each phase.
module CarJourney {
  import opened Base
  import opened Entities

  /** The configuration constants the engine reads. */
  datatype Config = Config(
    simulationTime: real,
    newCarAcceptanceTime: real,
    arrivalIntervalMin: real,
    arrivalIntervalMax: real,
    machines: PerStation<nat>,
    serviceMin: PerStation<real>,
    serviceMax: PerStation<real>,
    bottleneckThreshold: int)

  /** The shipped settings: an 8-hour shift, a car every 8 to 12 minutes,
      1/2/1 machines taking 15-20, 25-35 and 30-40 minutes, alert above 3. */
  const DefaultConfig: Config := Config(
    480.0, 480.0, 8.0, 12.0,
    PerStation(1, 2, 1),
    PerStation(15.0, 25.0, 30.0),
    PerStation(20.0, 35.0, 40.0),
    3)

  /** The time the run is allowed to reach so that cars still in the shop
      can finish. */
  const RunHorizon: real := 2000.0

  ghost predicate StationConfigOk(cfg: Config, k: StationId)
  {
    cfg.machines.Get(k) >= 1 && 0.0 <= cfg.serviceMin.Get(k) <= cfg.serviceMax.Get(k)
  }

  /** Every station has a machine, ranges are ordered, and arrivals are
      spaced by a positive minimum. */
  ghost predicate ValidConfig(cfg: Config)
  {
    && 0.0 < cfg.arrivalIntervalMin <= cfg.arrivalIntervalMax
    && StationConfigOk(cfg, Cleaning)
    && StationConfigOk(cfg, Primer)
    && StationConfigOk(cfg, Painting)
  }

  lemma DefaultConfigIsValid()
    ensures ValidConfig(DefaultConfig)
  {
  }

  /** The values the random draws would have produced: the n-th arrival
      interval, and the service time of car `id` at each station. */
  datatype Samples = Samples(arrivalInterval: nat -> real, serviceTime: PerStation<int -> real>)

  function Duration(s: Samples, k: StationId, id: int): real
  {
    s.serviceTime.Get(k)(id)
  }

  /** Every draw lies in its configured range, as uniform sampling guarantees. */
  ghost predicate SamplesFit(cfg: Config, s: Samples)
  {
    && (forall n: nat :: cfg.arrivalIntervalMin <= s.arrivalInterval(n) <= cfg.arrivalIntervalMax)
    && (forall k: StationId, id: int ::
          cfg.serviceMin.Get(k) <= Duration(s, k, id) <= cfg.serviceMax.Get(k))
  }

  function StationName(k: StationId): string
  {
    match k
    case Cleaning => "Cleaning"
    case Primer => "Primer"
    case Painting => "Painting"
  }

  function StationIndex(k: StationId): nat
  {
    match k
    case Cleaning => 0
    case Primer => 1
    case Painting => 2
  }

  function NextStation(k: StationId): Option<StationId>
  {
    match k
    case Cleaning => Some(Primer)
    case Primer => Some(Painting)
    case Painting => None
  }

  /** The position of a pending event in the event loop's order: earlier time
      first, then process start-ups (urgent) before everything else, then the
      order in which the events were scheduled. */
  datatype Key = Key(time: real, urgent: bool, eid: nat)

  predicate KeyLe(a: Key, b: Key)
  {
    || a.time < b.time
    || (a.time == b.time && a.urgent && !b.urgent)
    || (a.time == b.time && a.urgent == b.urgent && a.eid <= b.eid)
  }

  lemma KeyLeIsTotalOrder(a: Key, b: Key, c: Key)
    ensures KeyLe(a, a)
    ensures KeyLe(a, b) || KeyLe(b, a)
    ensures KeyLe(a, b) && KeyLe(b, a) ==> a == b
    ensures KeyLe(a, b) && KeyLe(b, c) ==> KeyLe(a, c)
  {
  }

  /** Where a car is on its way through the shop. */
  datatype Phase = Arrived | Queued(at: StationId) | InService(at: StationId) | Exited

  /** Phases in journey order, 0 to 7. */
  function Ord(p: Phase): nat
  {
    match p
    case Arrived => 0
    case Queued(k) => 2 * StationIndex(k) + 1
    case InService(k) => 2 * StationIndex(k) + 2
    case Exited => 7
  }

  /** One car's process: its record, its phase, the service time it drew for
      the station it is in, and the event it is suspended on, if any. */
  datatype Journey = Journey(car: Car, phase: Phase, service: real, wake: Option<Key>)

  function StartOf(c: Car, k: StationId): Option<real>
  {
    match k
    case Cleaning => c.cleaningStartTime
    case Primer => c.primerStartTime
    case Painting => c.paintingStartTime
  }

  function EndOf(c: Car, k: StationId): Option<real>
  {
    match k
    case Cleaning => c.cleaningEndTime
    case Primer => c.primerEndTime
    case Painting => c.paintingEndTime
  }

  /** The stamp a station's wait is measured from. */
  function PrevEnd(c: Car, k: StationId): Option<real>
  {
    match k
    case Cleaning => Some(c.arrivalTime)
    case Primer => c.cleaningEndTime
    case Painting => c.primerEndTime
  }

  function WithStart(c: Car, k: StationId, t: real): (c': Car)
    ensures StartOf(c', k) == Some(t) && EndOf(c', k) == EndOf(c, k)
    ensures forall k' :: k' != k ==> StartOf(c', k') == StartOf(c, k') && EndOf(c', k') == EndOf(c, k')
    ensures c'.carId == c.carId && c'.arrivalTime == c.arrivalTime && c'.exitTime == c.exitTime
  {
    match k
    case Cleaning => c.(cleaningStartTime := Some(t))
    case Primer => c.(primerStartTime := Some(t))
    case Painting => c.(paintingStartTime := Some(t))
  }

  function WithEnd(c: Car, k: StationId, t: real): (c': Car)
    ensures EndOf(c', k) == Some(t) && StartOf(c', k) == StartOf(c, k)
    ensures forall k' :: k' != k ==> StartOf(c', k') == StartOf(c, k') && EndOf(c', k') == EndOf(c, k')
    ensures c'.carId == c.carId && c'.arrivalTime == c.arrivalTime && c'.exitTime == c.exitTime
  {
    match k
    case Cleaning => c.(cleaningEndTime := Some(t))
    case Primer => c.(primerEndTime := Some(t))
    case Painting => c.(paintingEndTime := Some(t))
  }

  /** Every wait getter of the car can be evaluated: a later station is never
      started before the previous one has ended. */
  predicate WaitsDefined(c: Car)
  {
    && (c.primerStartTime.Some? ==> c.cleaningEndTime.Some?)
    && (c.paintingStartTime.Some? ==> c.primerEndTime.Some?)
  }

  /** The car's own wait getter for station k. */
  function WaitAt(c: Car, k: StationId): Option<real>
    requires WaitsDefined(c)
  {
    match k
    case Cleaning => c.CleaningWaitTime()
    case Primer => c.PrimerWaitTime()
    case Painting => c.PaintingWaitTime()
  }

  /** Once a station's start is stamped, the car's wait getter for it is the
      start minus the stamp the wait is measured from. */
  lemma WaitAtIsStartMinusPrevEnd(c: Car, k: StationId)
    requires WaitsDefined(c) && StartOf(c, k).Some? && PrevEnd(c, k).Some?
    ensures WaitAt(c, k) == Some(StartOf(c, k).value - PrevEnd(c, k).value)
  {
  }

  /** Station k has been passed: its start and end are stamped, after the
      stamp its wait is measured from, and the end is the start plus the
      service time drawn for this car. */
  ghost predicate Done(c: Car, k: StationId, s: Samples)
  {
    && StartOf(c, k).Some? && EndOf(c, k).Some? && PrevEnd(c, k).Some?
    && PrevEnd(c, k).value <= StartOf(c, k).value <= EndOf(c, k).value
    && EndOf(c, k).value == StartOf(c, k).value + Duration(s, k, c.carId)
  }

  ghost predicate Untouched(c: Car, k: StationId)
  {
    StartOf(c, k).None? && EndOf(c, k).None?
  }

  ghost predicate DoneBefore(c: Car, k: StationId, s: Samples)
  {
    match k
    case Cleaning => true
    case Primer => Done(c, Cleaning, s)
    case Painting => Done(c, Cleaning, s) && Done(c, Primer, s)
  }

  ghost predicate UntouchedAfter(c: Car, k: StationId)
  {
    match k
    case Cleaning => Untouched(c, Primer) && Untouched(c, Painting)
    case Primer => Untouched(c, Painting)
    case Painting => true
  }

  /** The stamps a car carries in each phase. While queued for cleaning the
      car already carries a provisional cleaning start equal to its arrival. */
  ghost predicate StampsOk(c: Car, ph: Phase, service: real, s: Samples, now: real)
  {
    match ph
    case Arrived =>
      Untouched(c, Cleaning) && UntouchedAfter(c, Cleaning) && c.exitTime.None?
    case Queued(k) =>
      && DoneBefore(c, k, s) && UntouchedAfter(c, k) && c.exitTime.None?
      && (if k == Cleaning then StartOf(c, k) == Some(c.arrivalTime) && EndOf(c, k).None?
          else Untouched(c, k))
      && PrevEnd(c, k).Some? && PrevEnd(c, k).value <= now
    case InService(k) =>
      && DoneBefore(c, k, s) && UntouchedAfter(c, k) && c.exitTime.None?
      && StartOf(c, k).Some? && EndOf(c, k).None? && PrevEnd(c, k).Some?
      && PrevEnd(c, k).value <= StartOf(c, k).value <= now
      && service == Duration(s, k, c.carId)
    case Exited =>
      && Done(c, Cleaning, s) && Done(c, Primer, s) && Done(c, Painting, s)
      && c.exitTime == EndOf(c, Painting) && c.exitTime.value <= now
  }

  /** The event a car is suspended on: its start-up at its arrival time, or
      the end of its service; none once it has left. A car queued for a
      station has an event exactly when its request has been granted. */
  ghost predicate WakeOk(j: Journey, now: real)
  {
    && (j.wake.Some? ==> j.wake.value.time >= now)
    && (j.phase.Arrived? ==> j.wake.Some? && j.wake.value.time == j.car.arrivalTime)
    && (j.phase.InService? ==>
          && j.wake.Some? && StartOf(j.car, j.phase.at).Some?
          && j.wake.value.time == StartOf(j.car, j.phase.at).value + j.service)
    && (j.phase.Exited? ==> j.wake.None?)
  }

  /** A finished journey's car went through every station in order, each
      stage taking the time drawn for it, which lies in the configured range. */
  lemma {:induction false} ExitedCarIsFinished(c: Car, service: real, s: Samples, cfg: Config, now: real)
    requires StampsOk(c, Exited, service, s, now) && SamplesFit(cfg, s)
    ensures c.Finished()
    ensures forall k ::
              && EndOf(c, k).Some? && StartOf(c, k).Some?
              && cfg.serviceMin.Get(k) <= EndOf(c, k).value - StartOf(c, k).value <= cfg.serviceMax.Get(k)
    ensures c.exitTime.value <= now
  {
    forall k
      ensures && EndOf(c, k).Some? && StartOf(c, k).Some?
              && cfg.serviceMin.Get(k) <= EndOf(c, k).value - StartOf(c, k).value <= cfg.serviceMax.Get(k)
    {
      assert Done(c, k, s);
      assert cfg.serviceMin.Get(k) <= Duration(s, k, c.carId) <= cfg.serviceMax.Get(k);
    }
  }

  // ---------------------------------------------------------------------
  // Counting over the journeys

  /** How many journeys have gone past phase number o. */
  function CountPast(js: seq<Journey>, o: nat): (n: nat)
    ensures n <= |js|
  {
    if js == [] then 0
    else CountPast(js[..|js| - 1], o) + (if Ord(js[|js| - 1].phase) > o then 1 else 0)
  }

  lemma CountPastAppend(js: seq<Journey>, j: Journey, o: nat)
    ensures CountPast(js + [j], o) == CountPast(js, o) + (if Ord(j.phase) > o then 1 else 0)
  {
    assert (js + [j])[..|js|] == js;
  }

  /** Replacing one journey changes each count by that journey's own change. */
  lemma {:induction false} CountPastUpdate(js: seq<Journey>, i: nat, j: Journey, o: nat)
    requires i < |js|
    ensures CountPast(js[i := j], o)
         == CountPast(js, o) - (if Ord(js[i].phase) > o then 1 else 0) + (if Ord(j.phase) > o then 1 else 0)
  {
    var n := |js| - 1;
    if i == n {
      assert js[i := j][..n] == js[..n];
    } else {
      assert js[i := j][..n] == js[..n][i := j];
      CountPastUpdate(js[..n], i, j, o);
    }
  }

  /** When every journey is past phase o, all of them are counted. */
  lemma {:induction false} CountPastAll(js: seq<Journey>, o: nat)
    requires forall m :: 0 <= m < |js| ==> Ord(js[m].phase) > o
    ensures CountPast(js, o) == |js|
  {
    if js != [] {
      var p := js[..|js| - 1];
      forall m | 0 <= m < |p| ensures Ord(p[m].phase) > o {
        assert p[m] == js[m];
      }
      CountPastAll(p, o);
    }
  }

  /** A journey past a later phase is past every earlier one. */
  lemma {:induction false} CountPastAntitone(js: seq<Journey>, o: nat, o': nat)
    requires o <= o'
    ensures CountPast(js, o') <= CountPast(js, o)
  {
    if js != [] {
      CountPastAntitone(js[..|js| - 1], o, o');
    }
  }

  /** Events a phase has still to go through: two per remaining phase. */
  function Remaining(p: Phase): nat
  {
    2 * (7 - Ord(p))
  }

  function WorkOf(js: seq<Journey>): nat
  {
    if js == [] then 0 else WorkOf(js[..|js| - 1]) + Remaining(js[|js| - 1].phase)
  }

  lemma WorkOfAppend(js: seq<Journey>, j: Journey)
    ensures WorkOf(js + [j]) == WorkOf(js) + Remaining(j.phase)
  {
    assert (js + [j])[..|js|] == js;
  }

  lemma {:induction false} WorkOfUpdate(js: seq<Journey>, i: nat, j: Journey)
    requires i < |js|
    ensures WorkOf(js[i := j]) == WorkOf(js) - Remaining(js[i].phase) + Remaining(j.phase)
  {
    var n := |js| - 1;
    if i == n {
      assert js[i := j][..n] == js[..n];
    } else {
      assert js[i := j][..n] == js[..n][i := j];
      WorkOfUpdate(js[..n], i, j);
    }
  }

  /** An upper bound on the cars the arrival loop can still create when its
      next wake-up is at time t: wake-ups are at least `gap` apart and none
      at or after the cutoff creates a car. */
  function ArrivalsLeft(cutoff: real, gap: real, t: real): nat
    requires gap > 0.0
  {
    if t >= cutoff then 0 else ((cutoff - t) / gap).Floor as nat + 1
  }

  lemma DivMonotone(a: real, b: real, g: real)
    requires g > 0.0 && a <= b
    ensures a / g <= b / g
  {
    assert b / g - a / g == (b - a) / g;
  }

  lemma DivShift(a: real, g: real)
    requires g > 0.0
    ensures (a - g) / g == a / g - 1.0
  {
    assert g / g == 1.0;
    assert a / g - g / g == (a - g) / g;
  }

  lemma ArrivalsLeftAntitone(cutoff: real, gap: real, t: real, t': real)
    requires gap > 0.0 && t <= t'
    ensures ArrivalsLeft(cutoff, gap, t') <= ArrivalsLeft(cutoff, gap, t)
  {
    if t' < cutoff {
      DivMonotone(cutoff - t', cutoff - t, gap);
    }
  }

  lemma ArrivalsLeftDecreases(cutoff: real, gap: real, t: real, t': real)
    requires gap > 0.0 && t < cutoff && t + gap <= t'
    ensures ArrivalsLeft(cutoff, gap, t') < ArrivalsLeft(cutoff, gap, t)
  {
    if t' < cutoff {
      var x := (cutoff - t) / gap;
      var x' := (cutoff - t') / gap;
      DivMonotone(cutoff - t', cutoff - t - gap, gap);
      DivShift(cutoff - t, gap);
    }
  }
}
