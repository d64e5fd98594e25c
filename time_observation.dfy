/**
 * A started-but-not-yet-recorded timing measurement and the timer it
 * reports to.  Clock readings are explicit `now` arguments (nanoseconds).
 */
module TimeObservations {

  /** A registered timer, reduced to the durations recorded on it. */
  class Timer {
    var samples: seq<int>

    /** A timer just registered with the backend has recorded nothing. */
    constructor ()
      ensures samples == []
    {
      samples := [];
    }
  }

  class TimeObservation {
    const timer: Timer
    const startTime: int

    /** Stores the timer and the start instant; records nothing. */
    constructor (timer: Timer, startTime: int)
      ensures this.timer == timer && this.startTime == startTime
      ensures timer.samples == old(timer.samples)
    {
      this.timer := timer;
      this.startTime := startTime;
    }

    /**
     * Records one sample, the time elapsed since the start, on this
     * observation's own timer.  Nothing prevents a second call, which
     * records a second sample.
     */
    method Close(now: int)
      modifies timer
      ensures timer.samples == old(timer.samples) + [now - startTime]
    {
      timer.samples := timer.samples + [now - startTime];
    }
  }
}
