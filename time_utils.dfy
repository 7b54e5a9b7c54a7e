/**
 * Model of include/time_utils.h: arithmetic on `struct timespec`
 * (seconds + nanoseconds) and `struct timeval` (seconds + microseconds).
 *
 * The C helpers take a pointer `r` to the result. Where `*r` is only written
 * (zero, subtract) the model returns it as an out-parameter; where `*r` is
 * read and written (add) it is an in/out pair of parameters. Every C helper
 * reads all of its inputs before the field it overwrites could matter, so this
 * value semantics agrees with the C code even when `r` aliases an input.
 */
module TimeUtils {

  const NanosPerSecond: int := 1000000000
  const MicrosPerSecond: int := 1000000
  const MillisPerSecond: int := 1000
  const NanosPerMicro: int := 1000
  const NanosPerMilli: int := 1000000
  const MicrosPerMilli: int := 1000

  /** Results of type `unsigned long` (64 bits) are taken modulo this. */
  const ULongModulus: int := 0x1_0000_0000_0000_0000

  datatype Timespec = Timespec(sec: int, nsec: int)
  datatype Timeval = Timeval(sec: int, usec: int)

  /** The total value of a timespec, in nanoseconds. */
  function Nanos(t: Timespec): int
  {
    t.sec * NanosPerSecond + t.nsec
  }

  /** The total value of a timeval, in microseconds. */
  function Micros(t: Timeval): int
  {
    t.sec * MicrosPerSecond + t.usec
  }

  /** The sub-second field lies in [0, one second). */
  predicate NormalTimespec(t: Timespec)
  {
    0 <= t.nsec < NanosPerSecond
  }

  predicate NormalTimeval(t: Timeval)
  {
    0 <= t.usec < MicrosPerSecond
  }

  function Abs(x: int): int
  {
    if x < 0 then -x else x
  }

  /** C's `/` for a positive divisor: the quotient is truncated toward zero. */
  function TruncDiv(a: int, b: int): int
    requires b > 0
  {
    if a >= 0 then a / b else -((-a) / b)
  }

  /** C's conversion of a signed result to `unsigned long`. */
  function ToULong(x: int): (u: int)
    ensures 0 <= u < ULongModulus
    ensures 0 <= x < ULongModulus ==> u == x
  {
    x % ULongModulus
  }

  // ---------------------------------------------------------------- timeval

  /** timeval_zero: both fields of `*r` become 0. */
  method TimevalZero() returns (r: Timeval)
    ensures Micros(r) == 0 && NormalTimeval(r)
  {
    r := Timeval(0, 0);
  }

  /**
   * timeval_subtract: `*r` becomes t1 - t2 when t1 has the larger seconds
   * field and t2 - t1 otherwise, with a single borrow; the flag reports a
   * negative result.
   */
  method TimevalSubtract(t1: Timeval, t2: Timeval) returns (r: Timeval, negative: bool)
    ensures Micros(r) == if t1.sec > t2.sec then Micros(t1) - Micros(t2) else Micros(t2) - Micros(t1)
    ensures NormalTimeval(t1) && NormalTimeval(t2) ==> NormalTimeval(r)
    ensures NormalTimeval(t1) && NormalTimeval(t2) ==> (negative <==> Micros(r) < 0)
    ensures NormalTimeval(t1) && NormalTimeval(t2) ==>
              (negative <==> t1.sec == t2.sec && t1.usec > t2.usec)
    ensures NormalTimeval(t1) && NormalTimeval(t2) && !negative ==>
              Micros(r) == Abs(Micros(t1) - Micros(t2))
  {
    if t1.sec > t2.sec {
      r := Timeval(t1.sec - t2.sec, t1.usec - t2.usec);
    } else {
      r := Timeval(t2.sec - t1.sec, t2.usec - t1.usec);
    }
    if r.usec < 0 {
      r := r.(sec := r.sec - 1, usec := r.usec + MicrosPerSecond);
    }
    negative := r.sec < 0;
  }

  /** timeval_add: `*r` grows by exactly `*t`, with a single carry. */
  method TimevalAdd(r: Timeval, t: Timeval) returns (sum: Timeval)
    ensures Micros(sum) == Micros(r) + Micros(t)
    ensures NormalTimeval(r) && NormalTimeval(t) ==> NormalTimeval(sum)
  {
    sum := Timeval(r.sec + t.sec, r.usec + t.usec);
    if sum.usec >= MicrosPerSecond {
      sum := sum.(sec := sum.sec + 1, usec := sum.usec - MicrosPerSecond);
    }
  }

  /** The first `timespec_usecs` of the header, which takes a timeval. */
  function TimevalUsecs(t: Timeval): (u: int)
    ensures 0 <= u < ULongModulus
    ensures 0 <= Micros(t) < ULongModulus ==> u == Micros(t)
  {
    ToULong(t.sec * MicrosPerSecond + t.usec)
  }

  /** timeval_msecs: whole milliseconds of a normalised timeval. */
  function TimevalMsecs(t: Timeval): (m: int)
    ensures 0 <= m < ULongModulus
    ensures NormalTimeval(t) && 0 <= Micros(t) / MicrosPerMilli < ULongModulus ==>
              m == Micros(t) / MicrosPerMilli
  {
    ToULong(t.sec * MillisPerSecond + TruncDiv(t.usec, MicrosPerMilli))
  }

  // --------------------------------------------------------------- timespec

  /** timespec_zero: both fields of `*r` become 0. */
  method TimespecZero() returns (r: Timespec)
    ensures Nanos(r) == 0 && NormalTimespec(r)
  {
    r := Timespec(0, 0);
  }

  /**
   * timespec_substract: `*r` becomes t1 - t2 when t1 has the larger seconds
   * field and t2 - t1 otherwise, with a single borrow; the flag reports a
   * negative result.
   */
  method TimespecSubstract(t1: Timespec, t2: Timespec) returns (r: Timespec, negative: bool)
    ensures Nanos(r) == if t1.sec > t2.sec then Nanos(t1) - Nanos(t2) else Nanos(t2) - Nanos(t1)
    ensures NormalTimespec(t1) && NormalTimespec(t2) ==> NormalTimespec(r)
    ensures NormalTimespec(t1) && NormalTimespec(t2) ==> (negative <==> Nanos(r) < 0)
    ensures NormalTimespec(t1) && NormalTimespec(t2) ==>
              (negative <==> t1.sec == t2.sec && t1.nsec > t2.nsec)
    ensures NormalTimespec(t1) && NormalTimespec(t2) && !negative ==>
              Nanos(r) == Abs(Nanos(t1) - Nanos(t2))
  {
    if t1.sec > t2.sec {
      r := Timespec(t1.sec - t2.sec, t1.nsec - t2.nsec);
    } else {
      r := Timespec(t2.sec - t1.sec, t2.nsec - t1.nsec);
    }
    if r.nsec < 0 {
      r := r.(sec := r.sec - 1, nsec := r.nsec + NanosPerSecond);
    }
    negative := r.sec < 0;
  }

  /** timespec_add: `*r` grows by exactly `*t`, with a single carry. */
  method TimespecAdd(r: Timespec, t: Timespec) returns (sum: Timespec)
    ensures Nanos(sum) == Nanos(r) + Nanos(t)
    ensures NormalTimespec(r) && NormalTimespec(t) ==> NormalTimespec(sum)
  {
    sum := Timespec(r.sec + t.sec, r.nsec + t.nsec);
    if sum.nsec >= NanosPerSecond {
      sum := sum.(sec := sum.sec + 1, nsec := sum.nsec - NanosPerSecond);
    }
  }

  /** The second `timespec_usecs`: whole microseconds of a normalised timespec. */
  function TimespecUsecs(t: Timespec): (u: int)
    ensures 0 <= u < ULongModulus
    ensures NormalTimespec(t) && 0 <= Nanos(t) / NanosPerMicro < ULongModulus ==>
              u == Nanos(t) / NanosPerMicro
  {
    ToULong(t.sec * MicrosPerSecond + TruncDiv(t.nsec, NanosPerMicro))
  }

  /** timespec_msecs: whole milliseconds of a normalised timespec. */
  function TimespecMsecs(t: Timespec): (m: int)
    ensures 0 <= m < ULongModulus
    ensures NormalTimespec(t) && 0 <= Nanos(t) / NanosPerMilli < ULongModulus ==>
              m == Nanos(t) / NanosPerMilli
  {
    ToULong(t.sec * MillisPerSecond + TruncDiv(t.nsec, NanosPerMilli))
  }

  /** The two conversions agree: milliseconds are microseconds floored by 1000. */
  lemma {:induction false} MsecsAreUsecsOverThousand(t: Timespec)
    requires NormalTimespec(t) && 0 <= Nanos(t) / NanosPerMicro < ULongModulus
    ensures TimespecMsecs(t) == TimespecUsecs(t) / MicrosPerMilli
  {
  }
}
