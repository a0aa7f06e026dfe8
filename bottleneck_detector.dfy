// The bottleneck detector: a threshold check on an instantaneous queue length.
module BottleneckDetection {

  /** The threshold the detector uses when none is given. */
  const DefaultThreshold: int := 3

  class BottleneckDetector {
    var threshold: int
    /** Per-station alert history; set up and cleared, but never written by a
        check, so it suppresses nothing. */
    var alerts: map<string, real>

    constructor (threshold: int := DefaultThreshold)
      ensures this.threshold == threshold && alerts == map[]
    {
      this.threshold := threshold;
      alerts := map[];
    }

    /** A bottleneck is a queue strictly longer than the threshold. The station
        name and the time take no part in the answer, and being a function the
        check changes nothing, so a queue above the threshold is reported on
        every call. */
    function CheckBottleneck(stationName: string, currentQueueLength: int, currentTime: real): (r: bool)
      reads this
      ensures r <==> currentQueueLength > threshold
    {
      currentQueueLength > threshold
    }

    /** Clears the alert history and keeps the threshold. */
    method ResetAlerts()
      modifies this`alerts
      ensures alerts == map[]
    {
      alerts := map[];
    }
  }

  /** The answer does not depend on which station asks or when. */
  lemma CheckIgnoresStationAndTime(d: BottleneckDetector, name1: string, name2: string,
                                   q: int, time1: real, time2: real)
    ensures d.CheckBottleneck(name1, q, time1) == d.CheckBottleneck(name2, q, time2)
  {
  }

  /** A longer queue is at least as much a bottleneck. */
  lemma CheckMonotone(d: BottleneckDetector, name: string, q: int, q': int, time: real)
    requires q <= q' && d.CheckBottleneck(name, q, time)
    ensures d.CheckBottleneck(name, q', time)
  {
  }

  /** A detector built without an explicit threshold alerts on queues of four
      or more cars and on nothing shorter. */
  method DefaultDetectorAlertsAboveThree() returns (d: BottleneckDetector)
    ensures d.threshold == 3 && d.alerts == map[]
    ensures d.CheckBottleneck("Cleaning", 4, 0.0) && !d.CheckBottleneck("Cleaning", 3, 0.0)
  {
    d := new BottleneckDetector();
  }
}
