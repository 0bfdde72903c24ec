/**
 What the carrier's calls and switches get done, from every reachable state and in terms of the mutexes, the fibers and
 their waits: locks are taken and given back, a blocked fiber retries until its mutex is free, waits give their mutex up
 and are ended by what they wait for.
 */
module CarrierCalls {
  import opened Timespec
  import opened Carrier

  function After(nmutex: nat, labels: seq<Label>): State
  {
    Exec(Init(nmutex), labels)
  }

  lemma {:induction false} Reaches(nmutex: nat, labels: seq<Label>, l: Label)
    ensures Inv(After(nmutex, labels)) && Inv(After(nmutex, labels + [l]))
    ensures After(nmutex, labels + [l]) == Step(After(nmutex, labels), l)
  {
    Always(nmutex, labels);
    Always(nmutex, labels + [l]);
    assert (labels + [l])[..|labels|] == labels;
  }

  /** Fiber f is on the processor, in application code. */
  predicate Calling(s: State, f: nat)
  {
    s.cur == f < |s.fibers| && s.fibers[f].pc == App
  }

  /** Fiber f has become x, and the processor is with cur. */
  function Became(s: State, f: nat, x: Fiber, cur: int): State
    requires f < |s.fibers|
  {
    s.(fibers := s.fibers[f := x], cur := cur)
  }

  /** Its last wait to end was ended by its deadline. */
  predicate TimedOut(x: Fiber)
  {
    |x.ends| > 0 && x.ends[|x.ends| - 1].Expired?
  }

  // ---------- Mutexes ----------

  /** An unlock by the holder frees the mutex, and changes nothing else. */
  lemma {:induction false} UnlockFrees(nmutex: nat, labels: seq<Label>, f: nat, m: nat)
    requires var s := After(nmutex, labels); Calling(s, f) && Holds(s, f, m)
    ensures var s, s' := After(nmutex, labels), After(nmutex, labels + [Unlock(m)]);
      && m < |s.locked| && !s'.locked[m] && (forall g: nat :: !Holds(s', g, m))
      && s' == Became(s, f, s.fibers[f].(held := s.fibers[f].held - {m}), f).(locked := s.locked[m := false])
  {
    Reaches(nmutex, labels, Unlock(m));
    hide FibersOk;
  }

  /** A lock call on a free mutex returns with it; on one that is taken, the fiber yields and stays runnable. */
  lemma {:induction false} LockTakesOrYields(nmutex: nat, labels: seq<Label>, f: nat, m: nat)
    requires var s := After(nmutex, labels); Calling(s, f) && m < |s.locked|
    ensures var s, s' := After(nmutex, labels), After(nmutex, labels + [Lock(m)]);
      if s.locked[m] then s' == Became(s, f, s.fibers[f].(state := Run, pc := Locking(m)), -1)
      else s' == Became(s, f, s.fibers[f].(held := s.fibers[f].held + {m}), f).(locked := s.locked[m := true])
  {
    Reaches(nmutex, labels, Lock(m));
    hide Inv;
  }

  /** The fiber is in a lock call on m, or its wait has ended and it is to lock m again. */
  predicate WantsLock(x: Fiber, m: nat)
  {
    x.state.Run? && (x.pc == Locking(m) || ((x.pc.Waiting? || x.pc.Relocking?) && x.pc.m == m))
  }

  /** When it is switched to and the mutex is free, it returns to application code with it, and a wait reports whether
      it timed out; if the mutex is taken, it yields again. */
  lemma {:induction false} SwitchTakesOrYields(nmutex: nat, labels: seq<Label>, f: nat, m: nat)
    requires var s := After(nmutex, labels); s.cur == -1 && f < |s.fibers| && WantsLock(s.fibers[f], m)
    ensures var s, s' := After(nmutex, labels), After(nmutex, labels + [Resume(f)]);
      && m < |s.locked| && f < |s'.fibers|
      && s' == Became(s, f, s'.fibers[f], s'.cur).(locked := s'.locked)
      && var x, y := s.fibers[f], s'.fibers[f];
      if s.locked[m] then
        && s'.cur == -1 && s'.locked == s.locked && WantsLock(y, m) && y.held == x.held && y.rets == x.rets
        && (x.pc.Waiting? ==> !y.hasDeadline)
      else
        && s'.cur == f && y.pc == App && y.held == x.held + {m} && s'.locked == s.locked[m := true]
        && y.rets == x.rets + (if x.pc.Locking? then [] else [TimedOut(x)]) && (x.pc.Waiting? ==> !y.hasDeadline)
  {
    Reaches(nmutex, labels, Resume(f));
    var s := After(nmutex, labels);
    assert FiberOk(s.fibers[f]) && CurOk(s, f);
    hide MutexOk, After, Inv, FiberOk, HistoryOk;
  }

  /** Step l switches to fiber f while m is free. */
  predicate GetsTurn(s: State, l: Label, f: nat, m: nat)
  {
    l == Resume(f) && s.cur == -1 && m < |s.locked| && !s.locked[m]
  }

  lemma {:induction false} StaysBlocked(s: State, l: Label, f: nat, m: nat)
    requires Inv(s) && f < |s.fibers| && s.fibers[f].pc == Locking(m) && !GetsTurn(s, l, f, m)
    ensures f < |Step(s, l).fibers| && Step(s, l).fibers[f] == s.fibers[f]
  {
    assert FiberOk(s.fibers[f]) && CurOk(s, f) && (s.cur != -1 ==> CurOk(s, s.cur));
    hide FiberOk, MutexOk;
  }

  lemma {:induction false} BlockedIsRunnable(nmutex: nat, labels: seq<Label>, f: nat, m: nat)
    requires var s := After(nmutex, labels); f < |s.fibers| && s.fibers[f].pc == Locking(m)
    ensures After(nmutex, labels).fibers[f].state == Run
  {
    Always(nmutex, labels);
    assert FiberOk(After(nmutex, labels).fibers[f]);
  }

  /** Over every run: a fiber in a lock call stays in it, runnable, until it is switched to while the mutex is free. */
  lemma {:induction false} BlockedRetries(nmutex: nat, labels: seq<Label>, more: seq<Label>, f: nat, m: nat)
    requires var s := After(nmutex, labels); f < |s.fibers| && s.fibers[f].pc == Locking(m)
    requires forall k :: 0 <= k < |more| ==> !GetsTurn(After(nmutex, labels + more[..k]), more[k], f, m)
    ensures var s, s' := After(nmutex, labels), After(nmutex, labels + more);
      f < |s'.fibers| && s'.fibers[f] == s.fibers[f] && s.fibers[f].state == Run
    decreases |more|
  {
    hide *;
    BlockedIsRunnable(nmutex, labels, f, m);
    if |more| == 0 {
      assert labels + more == labels;
    } else {
      var front, l := more[..|more| - 1], more[|more| - 1];
      forall k | 0 <= k < |front| ensures !GetsTurn(After(nmutex, labels + front[..k]), front[k], f, m) {
        assert front[..k] == more[..k];
      }
      BlockedRetries(nmutex, labels, front, f, m);
      Reaches(nmutex, labels + front, l);
      assert labels + more == labels + front + [l];
      StaysBlocked(After(nmutex, labels + front), l, f, m);
    }
  }

  // ---------- Waits ----------

  /** The fiber has begun a wait with deadline d. */
  predicate Began(x: Fiber, y: Fiber, d: Deadline)
  {
    && y.waits == x.waits + [d] && y.ends == x.ends && y.rets == x.rets && y.held == x.held
    && (y.hasDeadline <==> d.At?) && (d.At? ==> y.deadline == d.t && !y.timedOut)
  }

  /** A condition wait by the holder is begun on its condition with the mutex still held; */
  lemma {:induction false} CondWaitBegins(nmutex: nat, labels: seq<Label>, f: nat, c: nat, m: nat, d: Deadline)
    requires var s := After(nmutex, labels); Calling(s, f) && Holds(s, f, m)
    ensures var s, s' := After(nmutex, labels), After(nmutex, labels + [CondWait(c, m, d)]);
      && f < |s'.fibers| && s' == Became(s, f, s'.fibers[f], f)
      && Began(s.fibers[f], s'.fibers[f], d)
      && s'.fibers[f].state == WaitCond && s'.fibers[f].cond == On(c) && s'.fibers[f].pc == Leaving(c, m)
  {
    Reaches(nmutex, labels, CondWait(c, m, d));
    hide FibersOk;
  }

  /** it gives the mutex up, */
  lemma {:induction false} CondWaitGivesUp(nmutex: nat, labels: seq<Label>, f: nat)
    requires var s := After(nmutex, labels); f < |s.fibers| && s.fibers[f].pc.Leaving?
    ensures var s, s' := After(nmutex, labels), After(nmutex, labels + [Release]);
      var x := s.fibers[f];
      && x.pc.m < |s.locked| && !s'.locked[x.pc.m] && (forall g: nat :: !Holds(s', g, x.pc.m))
      && s' == Became(s, f, x.(pc := Parking(x.pc.c, x.pc.m), held := x.held - {x.pc.m}), f).(locked := s'.locked)
      && s'.locked == s.locked[x.pc.m := false]
  {
    Reaches(nmutex, labels, Release);
    var s := After(nmutex, labels);
    assert CurOk(s, f) && Holds(s, f, s.fibers[f].pc.m);
    hide FiberOk;
  }

  /** and parks. */
  lemma {:induction false} CondWaitParks(nmutex: nat, labels: seq<Label>, f: nat)
    requires var s := After(nmutex, labels); f < |s.fibers| && s.fibers[f].pc.Parking?
    ensures var s, s' := After(nmutex, labels), After(nmutex, labels + [Park]);
      s' == Became(s, f, s.fibers[f].(pc := Waiting(s.fibers[f].pc.c, s.fibers[f].pc.m)), -1)
  {
    Reaches(nmutex, labels, Park);
    assert CurOk(After(nmutex, labels), f);
    hide FiberOk;
  }

  /** A poll is begun with its descriptor armed for the fiber; an offload parks it, and a thread function that returns
      is done. */
  lemma {:induction false} OtherCallsPark(nmutex: nat, labels: seq<Label>, f: nat, fd: nat, d: Deadline)
    requires Calling(After(nmutex, labels), f)
    ensures var s, s' := After(nmutex, labels), After(nmutex, labels + [IoWait(fd, d)]);
      && f < |s'.fibers| && s' == Became(s, f, s'.fibers[f], -1).(epoll := s.epoll[fd := Reg(f, true)])
      && Began(s.fibers[f], s'.fibers[f], d)
      && s'.fibers[f].state == WaitIo && s'.fibers[f].fd == fd && s'.fibers[f].pc == Polling(d.At?)
    ensures var s := After(nmutex, labels);
      && After(nmutex, labels + [Offload]) == Became(s, f, s.fibers[f].(state := WaitOff, pc := Offloading), -1)
      && After(nmutex, labels + [Finish]) == Became(s, f, s.fibers[f].(state := Done), -1)
  {
    Reaches(nmutex, labels, IoWait(fd, d));
    Reaches(nmutex, labels, Offload);
    Reaches(nmutex, labels, Finish);
    hide Inv, After;
  }

  /** A poll, an offload or application code goes on when it is switched to; the poll reports whether it timed out. */
  lemma {:induction false} SwitchReturns(nmutex: nat, labels: seq<Label>, f: nat)
    requires var s := After(nmutex, labels); s.cur == -1 && f < |s.fibers|
    requires var x := After(nmutex, labels).fibers[f];
      (x.state.New? || x.state.Run?) && (x.pc.App? || x.pc.Offloading? || x.pc.Polling?)
    ensures var s, s' := After(nmutex, labels), After(nmutex, labels + [Resume(f)]);
      && f < |s'.fibers| && s' == Became(s, f, s'.fibers[f], f) && s'.fibers[f].pc == App
      && s'.fibers[f].held == s.fibers[f].held && (s.fibers[f].pc.Polling? ==> !s'.fibers[f].hasDeadline)
      && s'.fibers[f].rets == s.fibers[f].rets
           + if s.fibers[f].pc.Polling? then [TimedOut(s.fibers[f])] else []
  {
    Reaches(nmutex, labels, Resume(f));
    var s := After(nmutex, labels);
    assert FiberOk(s.fibers[f]);
    assert s.fibers[f := s.fibers[f]] == s.fibers;
    hide MutexOk, After, Inv, FiberOk;
  }

  // ---------- The carrier ----------

  /** A waiter whose deadline has come is timed out by the clock that was read; a completed offload makes its fiber
      runnable. */
  lemma {:induction false} CarrierEnds(nmutex: nat, labels: seq<Label>, f: nat)
    requires f < |After(nmutex, labels).fibers|
    ensures var s, s' := After(nmutex, labels), After(nmutex, labels + [Expire(f)]);
      var x := s.fibers[f];
      s.cur == -1 && (x.state.WaitCond? || x.state.WaitIo?) && x.hasDeadline && Total(s.clock) >= Total(x.deadline) ==>
        && f < |s'.fibers| && s'.fibers == s.fibers[f := s'.fibers[f]]
        && s'.fibers[f]
             == x.(state := Run, cond := NoCond, timedOut := true, ends := x.ends + [Expired(s.clock)])
    ensures var s, s' := After(nmutex, labels), After(nmutex, labels + [Completed(f)]);
      s.fibers[f].state.WaitOff? ==> s' == Became(s, f, s.fibers[f].(state := Run), s.cur)
  {
    Reaches(nmutex, labels, Expire(f));
    Reaches(nmutex, labels, Completed(f));
    hide Inv, After;
  }

  /** The event of a descriptor makes the poll's fiber runnable and a signal the fibers of its condition; both leave the
      fiber's other fields, but a signalled fiber waits on nothing. */
  lemma {:induction false} CarrierWakes(nmutex: nat, labels: seq<Label>, f: nat, fd: nat, c: nat)
    requires f < |After(nmutex, labels).fibers|
    ensures var s, s' := After(nmutex, labels), After(nmutex, labels + [IoReady(fd)]);
      s.fibers[f].state.WaitIo? && fd in s.epoll && s.epoll[fd] == Reg(f, true) ==>
        s' == Became(s, f, s.fibers[f].(state := Run, ends := s.fibers[f].ends + [Woken]), s.cur).(
          epoll := s.epoll[fd := Reg(f, false)])
    ensures var s, s' := After(nmutex, labels), After(nmutex, labels + [Wake(c)]);
      && f < |s'.fibers|
      && s'.fibers[f] == if s.fibers[f].state.WaitCond? && s.fibers[f].cond == On(c)
                         then s.fibers[f].(state := Run, cond := NoCond, ends := s.fibers[f].ends + [Woken])
                         else s.fibers[f]
  {
    Reaches(nmutex, labels, IoReady(fd));
    Reaches(nmutex, labels, Wake(c));
    hide Inv, After;
  }

  /** A new thread joins the table, runnable and with nothing held; the clock reads what it is given. */
  lemma {:induction false} CarrierAdmits(nmutex: nat, labels: seq<Label>, t: Time)
    ensures var s, s' := After(nmutex, labels), After(nmutex, labels + [Spawn]);
      && s' == s.(fibers := s.fibers + [s'.fibers[|s.fibers|]]) && s'.fibers[|s.fibers|].state == New
      && s'.fibers[|s.fibers|].pc == App && s'.fibers[|s.fibers|].held == {} && s'.fibers[|s.fibers|].waits == []
    ensures After(nmutex, labels + [Clock(t)]) == After(nmutex, labels).(clock := t)
  {
    Reaches(nmutex, labels, Spawn);
    Reaches(nmutex, labels, Clock(t));
    hide Inv, After;
  }
}
