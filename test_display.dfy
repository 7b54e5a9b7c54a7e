/**
 * Model of the static timespec_substract of facelockedloop/test-display.c, the camera/display test program.
 * It measures the run time between two CLOCK_MONOTONIC readings; only
 * `*diff` is written, so it is an out-parameter here.
 */
module TestDisplay {
  import opened TimeUtils

  /**
   * diff := end - start, borrowing one second when the nanosecond fields
   * would go negative. Unlike the header's timespec_substract there is no
   * absolute value and no flag.
   */
  method TimespecSubstract(start: Timespec, end: Timespec) returns (diff: Timespec)
    ensures Nanos(diff) == Nanos(end) - Nanos(start)
    ensures diff.sec == end.sec - start.sec - 1 <==> end.nsec < start.nsec
    ensures end.nsec >= start.nsec ==> diff == Timespec(end.sec - start.sec, end.nsec - start.nsec)
    ensures NormalTimespec(start) && NormalTimespec(end) ==> NormalTimespec(diff)
    ensures NormalTimespec(start) && NormalTimespec(end) && Nanos(start) <= Nanos(end) ==>
              diff.sec >= 0
  {
    if end.nsec - start.nsec < 0 {
      diff := Timespec(end.sec - start.sec - 1, 1000000000 + end.nsec - start.nsec);
    } else {
      diff := Timespec(end.sec - start.sec, end.nsec - start.nsec);
    }
  }
}
