/** Seconds-and-nanoseconds deadlines. Clock readings are parameters; 64-bit overflow of the seconds is not modelled. */
module Timespec {

  const NANOS: int := 1_000_000_000

  datatype Spec = Spec(sec: int, nsec: int)

  predicate Normal(t: Spec)
  {
    0 <= t.nsec < NANOS
  }

  type Time = t: Spec | Normal(t) witness Spec(0, 0)

  /** Nanoseconds since the epoch of the clock. */
  function Total(t: Spec): int
  {
    t.sec * NANOS + t.nsec
  }

  /** The carrier's field-by-field test that a deadline has passed; on normalised times it compares nanoseconds. */
  predicate Due(now: Spec, deadline: Spec): (due: bool)
    ensures Normal(now) && Normal(deadline) ==> (due <==> Total(now) >= Total(deadline))
  {
    now.sec > deadline.sec || (now.sec == deadline.sec && now.nsec >= deadline.nsec)
  }

  /** `to_realtime`: move `abs` from the clock that reads `nm` to the real-time clock that reads `nr`. The result is
      always exact; the single carry or borrow normalises it exactly when the raw nanoseconds are within one second
      of the normal range, which normalised inputs ensure. */
  method ToRealtime(abs: Spec, realtime: bool, nm: Spec, nr: Spec) returns (out: Spec)
    ensures Total(out) == if realtime then Total(abs) else Total(abs) - Total(nm) + Total(nr)
    ensures Normal(out) <==> if realtime then Normal(abs) else -NANOS <= nr.nsec + abs.nsec - nm.nsec < 2 * NANOS
    ensures Normal(abs) && Normal(nm) && Normal(nr) ==> Normal(out)
  {
    if realtime {
      return abs;
    }
    var ds, dn := abs.sec - nm.sec, abs.nsec - nm.nsec;
    var sec, nsec := nr.sec + ds, nr.nsec + dn;
    if nsec >= NANOS {
      sec, nsec := sec + 1, nsec - NANOS;
    } else if nsec < 0 {
      sec, nsec := sec - 1, nsec + NANOS;
    }
    out := Spec(sec, nsec);
  }

  /** The deadline of a `poll` with a finite timeout, exactly `ms` milliseconds after `now`. */
  method PollDeadline(now: Time, ms: nat) returns (out: Time)
    ensures Total(out) == Total(now) + ms * 1_000_000
  {
    var sec, nsec := now.sec + ms / 1000, now.nsec + ms % 1000 * 1_000_000;
    if nsec >= NANOS {
      sec, nsec := sec + 1, nsec - NANOS;
    }
    out := Spec(sec, nsec);
  }
}
