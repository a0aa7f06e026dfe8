// The two passive records of the paint shop: a car body with its timestamps
// and a station's metrics.
module Entities {
  import opened Base

  /** One car body. Every timestamp except the arrival starts absent (None)
      and is stamped by the car's journey through the stations. */
  datatype Car = Car(
    carId: int,
    arrivalTime: real,
    cleaningStartTime: Option<real>,
    cleaningEndTime: Option<real>,
    primerStartTime: Option<real>,
    primerEndTime: Option<real>,
    paintingStartTime: Option<real>,
    paintingEndTime: Option<real>,
    exitTime: Option<real>)
  {
    /** Time from arrival to exit; absent until the exit is stamped. */
    function TotalSystemTime(): (r: Option<real>)
      ensures r.Some? <==> exitTime.Some?
      ensures r.Some? ==> arrivalTime + r.value == exitTime.value
    {
      if exitTime.None? then None else Some(exitTime.value - arrivalTime)
    }

    /** Time between arrival and the start of cleaning; absent until that start is stamped. */
    function CleaningWaitTime(): (r: Option<real>)
      ensures r.Some? <==> cleaningStartTime.Some?
      ensures r.Some? ==> arrivalTime + r.value == cleaningStartTime.value
    {
      if cleaningStartTime.None? then None else Some(cleaningStartTime.value - arrivalTime)
    }

    /** Time between the end of cleaning and the start of primer; absent until
        the primer start is stamped. Subtracting an absent cleaning end raises
        in the source, hence the precondition. */
    function PrimerWaitTime(): (r: Option<real>)
      requires primerStartTime.Some? ==> cleaningEndTime.Some?
      ensures r.Some? <==> primerStartTime.Some?
      ensures r.Some? ==> cleaningEndTime.value + r.value == primerStartTime.value
    {
      if primerStartTime.None? then None else Some(primerStartTime.value - cleaningEndTime.value)
    }

    /** Time between the end of primer and the start of painting; absent until
        the painting start is stamped. */
    function PaintingWaitTime(): (r: Option<real>)
      requires paintingStartTime.Some? ==> primerEndTime.Some?
      ensures r.Some? <==> paintingStartTime.Some?
      ensures r.Some? ==> primerEndTime.value + r.value == paintingStartTime.value
    {
      if paintingStartTime.None? then None else Some(paintingStartTime.value - primerEndTime.value)
    }

    /** Every stamp is set and they follow the journey's order:
        arrival <= cleaning start <= cleaning end <= primer start <= primer end
        <= painting start <= painting end == exit. */
    ghost predicate Finished()
    {
      && cleaningStartTime.Some? && cleaningEndTime.Some?
      && primerStartTime.Some? && primerEndTime.Some?
      && paintingStartTime.Some? && paintingEndTime.Some? && exitTime.Some?
      && arrivalTime <= cleaningStartTime.value <= cleaningEndTime.value
      && cleaningEndTime.value <= primerStartTime.value <= primerEndTime.value
      && primerEndTime.value <= paintingStartTime.value <= paintingEndTime.value
      && exitTime.value == paintingEndTime.value
    }
  }

  /** A car as created on arrival. */
  function NewCar(carId: int, arrivalTime: real): (c: Car)
    ensures c.carId == carId && c.arrivalTime == arrivalTime
    ensures c.cleaningStartTime.None? && c.cleaningEndTime.None?
    ensures c.primerStartTime.None? && c.primerEndTime.None?
    ensures c.paintingStartTime.None? && c.paintingEndTime.None?
    ensures c.exitTime.None?
    ensures c.TotalSystemTime().None? && c.CleaningWaitTime().None?
    ensures c.PrimerWaitTime().None? && c.PaintingWaitTime().None?
  {
    Car(carId, arrivalTime, None, None, None, None, None, None, None)
  }

  /** For a car that went through all stations, the time in the system is the
      three waits plus the three processing times, and every wait is
      non-negative. */
  lemma SystemTimeDecomposes(c: Car)
    requires c.Finished()
    ensures c.TotalSystemTime().Some? && c.CleaningWaitTime().Some?
    ensures c.PrimerWaitTime().Some? && c.PaintingWaitTime().Some?
    ensures c.CleaningWaitTime().value >= 0.0 && c.PrimerWaitTime().value >= 0.0
    ensures c.PaintingWaitTime().value >= 0.0
    ensures c.TotalSystemTime().value
         == c.CleaningWaitTime().value + (c.cleaningEndTime.value - c.cleaningStartTime.value)
          + c.PrimerWaitTime().value + (c.primerEndTime.value - c.primerStartTime.value)
          + c.PaintingWaitTime().value + (c.paintingEndTime.value - c.paintingStartTime.value)
  {
  }

  /** Largest recorded queue length, and 0 when nothing was recorded. */
  function MaxLength(h: seq<(real, int)>): int
  {
    if h == [] then 0
    else
      var m := MaxLength(h[..|h| - 1]);
      if h[|h| - 1].1 > m then h[|h| - 1].1 else m
  }

  /** The length recorded last, or the initial 0. */
  function LastLength(h: seq<(real, int)>): int
  {
    if h == [] then 0 else h[|h| - 1].1
  }

  /** MaxLength is the maximum of 0 and every recorded length. */
  lemma {:induction false} MaxLengthIsMaximum(h: seq<(real, int)>)
    ensures MaxLength(h) >= 0
    ensures forall i :: 0 <= i < |h| ==> h[i].1 <= MaxLength(h)
    ensures MaxLength(h) == 0 || exists i :: 0 <= i < |h| && h[i].1 == MaxLength(h)
  {
    if h != [] {
      var p := h[..|h| - 1];
      MaxLengthIsMaximum(p);
      forall i | 0 <= i < |h| ensures h[i].1 <= MaxLength(h) {
        if i < |p| { assert h[i] == p[i]; }
      }
      if MaxLength(h) != 0 && MaxLength(h) != h[|h| - 1].1 {
        var i :| 0 <= i < |p| && p[i].1 == MaxLength(p);
        assert h[i] == p[i];
      }
    }
  }

  /** A station's metrics record. The source updates it in place: the engine
      appends waits and processing times, records queue lengths and adds to the
      busy time. */
  class Station {
    const name: string
    const numMachines: int
    var numBusy: int
    var totalBusyTime: real
    var currentQueueLength: int
    var maxQueueLength: int
    var queueLengthHistory: seq<(real, int)>
    var lastQueueChangeTime: real
    var waitTimes: seq<real>
    var processingTimes: seq<real>

    /** The current length is the last one recorded and the maximum is the
        running maximum of every recorded length (and 0). */
    ghost predicate Valid()
      reads this`currentQueueLength, this`maxQueueLength, this`queueLengthHistory
    {
      && currentQueueLength == LastLength(queueLengthHistory)
      && maxQueueLength == MaxLength(queueLengthHistory)
    }

    constructor (name: string, numMachines: int)
      ensures Valid()
      ensures this.name == name && this.numMachines == numMachines
      ensures numBusy == 0 && totalBusyTime == 0.0
      ensures currentQueueLength == 0 && maxQueueLength == 0
      ensures queueLengthHistory == [] && lastQueueChangeTime == 0.0
      ensures waitTimes == [] && processingTimes == []
    {
      this.name := name;
      this.numMachines := numMachines;
      numBusy := 0;
      totalBusyTime := 0.0;
      currentQueueLength := 0;
      maxQueueLength := 0;
      queueLengthHistory := [];
      lastQueueChangeTime := 0.0;
      waitTimes := [];
      processingTimes := [];
    }

    /** Records one car's wait; nothing else changes. */
    method AddWaitTime(waitTime: real)
      modifies this`waitTimes
      ensures waitTimes == old(waitTimes) + [waitTime]
    {
      waitTimes := waitTimes + [waitTime];
    }

    /** Records one car's processing time; nothing else changes. */
    method AddProcessingTime(processingTime: real)
      modifies this`processingTimes
      ensures processingTimes == old(processingTimes) + [processingTime]
    {
      processingTimes := processingTimes + [processingTime];
    }

    /** Sets the current queue length, raises the maximum if needed and appends
        one (time, length) entry to the history. */
    method UpdateQueue(newLength: int, currentTime: real)
      requires Valid()
      modifies this`currentQueueLength, this`maxQueueLength, this`queueLengthHistory
      ensures Valid()
      ensures currentQueueLength == newLength
      ensures maxQueueLength == if newLength > old(maxQueueLength) then newLength else old(maxQueueLength)
      ensures maxQueueLength >= newLength && maxQueueLength >= old(maxQueueLength)
      ensures queueLengthHistory == old(queueLengthHistory) + [(currentTime, newLength)]
    {
      currentQueueLength := newLength;
      if newLength > maxQueueLength {
        maxQueueLength := newLength;
      }
      queueLengthHistory := queueLengthHistory + [(currentTime, newLength)];
      assert queueLengthHistory[..|queueLengthHistory| - 1] == old(queueLengthHistory);
    }

    /** Mean recorded wait, 0 when no car has waited here yet. */
    function AvgWaitTime(): (r: real)
      reads this
      ensures waitTimes == [] ==> r == 0.0
      ensures waitTimes != [] ==> r * (|waitTimes| as real) == Sum(waitTimes)
    {
      Mean(waitTimes)
    }

    /** Mean recorded processing time, 0 when no car was processed here yet. */
    function AvgProcessingTime(): (r: real)
      reads this
      ensures processingTimes == [] ==> r == 0.0
      ensures processingTimes != [] ==> r * (|processingTimes| as real) == Sum(processingTimes)
    {
      Mean(processingTimes)
    }

    /** Busy time as a percentage of the machine time available over
        totalSimulationTime; 0 for a zero duration. With no machines the source
        divides by zero, hence the precondition. */
    function Utilization(totalSimulationTime: real): (r: real)
      reads this
      requires totalSimulationTime == 0.0 || numMachines != 0
      ensures totalSimulationTime == 0.0 ==> r == 0.0
      ensures totalSimulationTime != 0.0 ==>
        r * ((numMachines as real) * totalSimulationTime) == totalBusyTime * 100.0
    {
      if totalSimulationTime == 0.0 then 0.0
      else (totalBusyTime / ((numMachines as real) * totalSimulationTime)) * 100.0
    }
  }

  /** Utilization is a percentage exactly when the busy time fits in the
      machine time available, and it is never negative. */
  lemma UtilizationBounds(s: Station, totalSimulationTime: real)
    requires s.numMachines > 0 && totalSimulationTime > 0.0 && s.totalBusyTime >= 0.0
    ensures 0.0 <= s.Utilization(totalSimulationTime)
    ensures s.Utilization(totalSimulationTime) <= 100.0
        <==> s.totalBusyTime <= (s.numMachines as real) * totalSimulationTime
  {
    var cap := (s.numMachines as real) * totalSimulationTime;
    var u := s.Utilization(totalSimulationTime);
    assert cap > 0.0;
    assert u * cap == s.totalBusyTime * 100.0;
    if u <= 100.0 {
      assert u * cap <= 100.0 * cap;
    } else {
      assert u * cap > 100.0 * cap;
    }
  }
}
