/** The carrier's program: the fiber table, the mutexes, the blocking calls and the scheduler's passes. */
module CarrierRuntime {
  import opened Timespec
  import opened Carrier
  import opened CarrierCalls

  class Runtime {
    const fibs: array<Fiber>
    const locked: array<bool>
    var nfib: nat
    var cur: int
    var clock: Time
    /** The descriptors registered with `epfd`. */
    var epoll: map<nat, Reg>
    /** The steps taken so far. */
    ghost var trace: seq<Label>

    ghost function View(): State
      requires nfib <= fibs.Length
      reads this, fibs, locked
    {
      State(fibs[..nfib], cur, locked[..], clock, epoll)
    }

    predicate Runnable(x: Fiber)
    {
      x.state.New? || x.state.Run?
    }

    /** The state is the one the specification reaches by the steps in `trace`. */
    ghost predicate Valid()
      reads this, fibs, locked
    {
      nfib <= fibs.Length && View() == Exec(Init(locked.Length), trace)
    }

    /** The method that says so took exactly step l. */
    twostate predicate Took(l: Label)
      requires old(nfib) <= fibs.Length
      reads this, fibs, locked
    {
      Valid() && trace == old(trace) + [l] && View() == Step(old(View()), l)
    }

    constructor (capacity: nat, nmutex: nat)
      ensures Valid() && trace == [] && fibs.Length == capacity
      ensures locked.Length == nmutex && fresh(fibs) && fresh(locked)
    {
      fibs := new Fiber[capacity](_ => FRESH);
      locked := new bool[nmutex](_ => false);
      nfib, cur, clock, epoll, trace := 0, -1, Spec(0, 0), map[], [];
      new;
      assert locked[..] == seq(nmutex, _ => false);
    }

    /** Record that the fields have moved by step l. */
    ghost method Note(l: Label, before: State)
      requires nfib <= fibs.Length && before == Exec(Init(locked.Length), trace) && View() == Step(before, l)
      modifies this`trace
      ensures Valid() && trace == old(trace) + [l]
    {
      trace := trace + [l];
      assert trace[..|trace| - 1] == old(trace);
    }

    /** Intake of a new fiber. */
    method Intake()
      requires Valid() && nfib < fibs.Length
      modifies this`nfib, this`trace, fibs
      ensures Took(Spawn) && nfib == old(nfib) + 1
    {
      ghost var before := View();
      fibs[nfib] := FRESH;
      nfib := nfib + 1;
      assert fibs[..nfib] == before.fibers + [FRESH];
      Note(Spawn, before);
    }

    /** The loop of `wake_fibers` over the table. */
    method WakeLoop(c: nat)
      requires nfib <= fibs.Length
      modifies fibs
      ensures fibs[..nfib] == WakeAll(old(fibs[..nfib]), c)
    {
      var i := 0;
      while i < nfib
        invariant 0 <= i <= nfib
        invariant forall k :: 0 <= k < nfib ==> fibs[k] == if k < i then Woke(old(fibs[k]), c) else old(fibs[k])
      {
        if fibs[i].state.WaitCond? && fibs[i].cond == On(c) {
          fibs[i] := fibs[i].(state := Run, cond := NoCond, ends := fibs[i].ends + [Woken]);
        }
        i := i + 1;
      }
    }

    /** `wake_fibers`. */
    method WakeFibers(c: nat)
      requires Valid()
      modifies this`trace, fibs
      ensures Took(Wake(c)) && nfib == old(nfib)
    {
      ghost var before := View();
      hide WakeAll;
      WakeLoop(c);
      Note(Wake(c), before);
    }

    /** A readiness event for descriptor fd, if it has one to come: the kernel disarms it, the carrier readies the
        fiber in its event data. */
    method Ready(fd: nat)
      requires Valid()
      modifies this`epoll, this`trace, fibs
      ensures Took(IoReady(fd))
    {
      ghost var before := View();
      if fd in epoll && epoll[fd].armed {
        var f := epoll[fd].fiber;
        epoll := epoll[fd := Reg(f, false)];
        if f < nfib && fibs[f].state.WaitIo? {
          fibs[f] := fibs[f].(state := Run, ends := fibs[f].ends + [Woken]);
        }
      }
      Note(IoReady(fd), before);
    }

    /** A completed offload. */
    method OffloadDone(f: nat)
      requires Valid() && f < nfib
      modifies this`trace, fibs
      ensures Took(Completed(f))
    {
      ghost var before := View();
      if fibs[f].state.WaitOff? {
        fibs[f] := fibs[f].(state := Run);
      }
      Note(Completed(f), before);
    }

    method ReadClock(now: Time)
      requires Valid()
      modifies this`clock, this`trace
      ensures Took(Clock(now)) && clock == now
    {
      ghost var before := View();
      clock := now;
      Note(Clock(now), before);
    }

    method ExpireOne(f: nat)
      requires Valid() && f < nfib && cur == -1
      requires (fibs[f].state.WaitCond? || fibs[f].state.WaitIo?) && fibs[f].hasDeadline
      modifies this`epoll, this`trace, fibs
      ensures Took(Expire(f))
      ensures fibs[f] == if Overdue(old(fibs[f]), clock) then Ended(old(fibs[f]), Expired(clock)) else old(fibs[f])
      ensures forall k :: 0 <= k < nfib && k != f ==> fibs[k] == old(fibs[k])
    {
      ghost var before := View();
      var t := fibs[f].deadline;
      if clock.sec > t.sec || (clock.sec == t.sec && clock.nsec >= t.nsec) {
        if fibs[f].state.WaitIo? {
          epoll := epoll - {fibs[f].fd};
        }
        fibs[f] := fibs[f].(timedOut := true, state := Run, cond := NoCond, ends := fibs[f].ends + [Expired(clock)]);
      }
      Note(Expire(f), before);
    }

    /** The deadline pass at one fiber; `any`: the clock has been read in this pass. */
    method LookAtDeadline(f: nat, any: bool, now: Time) returns (read: bool)
      requires Valid() && f < nfib && cur == -1 && (any ==> clock == now)
      modifies this`clock, this`epoll, this`trace, fibs
      ensures Valid() && old(trace) <= trace && (read ==> clock == now)
      ensures fibs[f] == if Overdue(old(fibs[f]), now) then Ended(old(fibs[f]), Expired(now)) else old(fibs[f])
      ensures forall k :: 0 <= k < nfib && k != f ==> fibs[k] == old(fibs[k])
    {
      read := any;
      if (fibs[f].state.WaitCond? || fibs[f].state.WaitIo?) && fibs[f].hasDeadline {
        if !any {
          ReadClock(now);
          read := true;
        }
        ExpireOne(f);
      }
    }

    /** The deadline pass: the clock is read once, when the first candidate is met. Every overdue waiter is timed
        out, nobody else changes. */
    method DeadlinePass(now: Time)
      requires Valid() && cur == -1
      modifies this`clock, this`epoll, this`trace, fibs
      ensures Valid() && old(trace) <= trace
      ensures forall k :: 0 <= k < nfib ==>
        fibs[k] == if Overdue(old(fibs[k]), now) then Ended(old(fibs[k]), Expired(now)) else old(fibs[k])
    {
      assert nfib <= fibs.Length;
      hide Valid;
      var any := false;
      var i := 0;
      while i < nfib
        invariant 0 <= i <= nfib <= fibs.Length && Valid() && old(trace) <= trace
        invariant any ==> clock == now
        invariant forall k :: 0 <= k < nfib ==>
          fibs[k] == if k < i && Overdue(old(fibs[k]), now) then Ended(old(fibs[k]), Expired(now)) else old(fibs[k])
      {
        any := LookAtDeadline(i, any, now);
        i := i + 1;
      }
    }

    /** Fiber f, which held the mutexes `held`, has taken m if it was free; if not, it has yielded, and will retry. */
    twostate predicate TookOrYielded(f: int, m: nat, retry: Pc, held: set<nat>)
      requires m < locked.Length && 0 <= f < fibs.Length
      reads this, fibs, locked
    {
      if old(locked[m]) then
        && cur == -1 && locked[..] == old(locked[..])
        && fibs[f].held == held && fibs[f].state == Run && fibs[f].pc == retry
      else cur == f && locked[..] == old(locked[..])[m := true] && fibs[f].held == held + {m} && fibs[f].pc == App
    }

    /** One pass of `pthread_mutex_lock`'s loop: take the mutex, or yield and stay runnable. */
    method TryMutex(m: nat, retry: Pc)
      requires 0 <= cur < nfib <= fibs.Length && m < locked.Length
      modifies this`cur, fibs, locked
      ensures View() == TryLock(old(View()), old(cur), m, retry)
      ensures TookOrYielded(old(cur), m, retry, old(fibs[cur].held))
    {
      var x := fibs[cur];
      if locked[m] {
        fibs[cur] := x.(state := Run, pc := retry);
        cur := -1;
      } else {
        locked[m] := true;
        fibs[cur] := x.(pc := App, held := x.held + {m},
                        rets := if retry.Relocking? then x.rets + [retry.to] else x.rets);
      }
    }

    method MutexLock(m: nat)
      requires Valid() && 0 <= cur < nfib && fibs[cur].pc.App? && m < locked.Length
      modifies this`cur, this`trace, fibs, locked
      ensures Took(Lock(m)) && (cur == -1 || cur == old(cur))
      ensures TookOrYielded(old(cur), m, Locking(m), old(fibs[cur].held))
    {
      ghost var before := View();
      TryMutex(m, Locking(m));
      Note(Lock(m), before);
    }

    method MutexUnlock(m: nat)
      requires Valid() && 0 <= cur < nfib && fibs[cur].pc.App? && m < locked.Length && m in fibs[cur].held
      modifies this`trace, fibs, locked
      ensures Took(Unlock(m))
      ensures locked[..] == old(locked[..])[m := false]
      ensures fibs[..nfib] == old(fibs[..nfib])[cur := old(fibs[cur]).(held := old(fibs[cur].held) - {m})]
    {
      ghost var before := View();
      locked[m] := false;
      fibs[cur] := fibs[cur].(held := fibs[cur].held - {m});
      Note(Unlock(m), before);
    }

    /** The fields `fiber_cond_wait` sets before it unlocks. */
    method EnterWait(c: nat, m: nat, d: Deadline)
      requires Valid() && 0 <= cur < nfib && fibs[cur].pc.App? && m < locked.Length && m in fibs[cur].held
      modifies this`trace, fibs
      ensures Took(CondWait(c, m, d)) && fibs[cur].pc == Leaving(c, m) && Began(old(fibs[cur]), fibs[cur], d)
      ensures forall k :: 0 <= k < nfib && k != old(cur) ==> fibs[k] == old(fibs[k])
    {
      ghost var before := View();
      var x := fibs[cur].(cond := On(c), timedOut := false, waits := fibs[cur].waits + [d], pc := Leaving(c, m));
      match d {
        case At(t) => x := x.(deadline := t, hasDeadline := true);
        case Never => x := x.(hasDeadline := false);
      }
      fibs[cur] := x.(state := WaitCond);
      Note(CondWait(c, m, d), before);
    }

    method LeaveMutex()
      requires Valid() && 0 <= cur < nfib && fibs[cur].pc.Leaving? && fibs[cur].pc.m < locked.Length
      modifies this`trace, fibs, locked
      ensures locked[..] == old(locked[..])[old(fibs[cur].pc.m) := false]
      ensures fibs[cur].held == old(fibs[cur].held) - {old(fibs[cur].pc.m)} && fibs[cur].waits == old(fibs[cur].waits)
      ensures Took(Release) && fibs[cur].pc == Parking(old(fibs[cur].pc.c), old(fibs[cur].pc.m))
      ensures forall k :: 0 <= k < nfib && k != old(cur) ==> fibs[k] == old(fibs[k])
    {
      ghost var before := View();
      var x := fibs[cur];
      locked[x.pc.m] := false;
      fibs[cur] := x.(pc := Parking(x.pc.c, x.pc.m), held := x.held - {x.pc.m});
      Note(Release, before);
    }

    method ParkWaiter()
      requires Valid() && 0 <= cur < nfib && fibs[cur].pc.Parking?
      modifies this`cur, this`trace, fibs
      ensures fibs[old(cur)] == old(fibs[cur]).(pc := Waiting(old(fibs[cur]).pc.c, old(fibs[cur]).pc.m))
      ensures Took(Park) && cur == -1 && (forall k :: 0 <= k < nfib && k != old(cur) ==> fibs[k] == old(fibs[k]))
    {
      ghost var before := View();
      fibs[cur] := fibs[cur].(pc := Waiting(fibs[cur].pc.c, fibs[cur].pc.m));
      cur := -1;
      Note(Park, before);
    }

    /** `fiber_cond_wait` up to the switch. */
    method FiberCondWait(c: nat, m: nat, d: Deadline)
      requires Valid() && 0 <= cur < nfib && fibs[cur].pc.App? && m < locked.Length && m in fibs[cur].held
      modifies this`cur, this`trace, fibs, locked
      ensures Valid() && trace == old(trace) + [CondWait(c, m, d), Release, Park]
      ensures View() == Step(Step(Step(old(View()), CondWait(c, m, d)), Release), Park)
      ensures cur == -1 && forall k :: 0 <= k < nfib && k != old(cur) ==> fibs[k] == old(fibs[k])
      ensures locked[..] == old(locked[..])[m := false] && fibs[old(cur)].held == old(fibs[cur].held) - {m}
      ensures fibs[old(cur)].pc == Waiting(c, m) && fibs[old(cur)].waits == old(fibs[cur].waits) + [d]
    {
      hide Step, Exec;
      EnterWait(c, m, d);
      LeaveMutex();
      ParkWaiter();
      assert trace == old(trace) + [CondWait(c, m, d)] + [Release] + [Park];
    }

    /** `yield_io` and `yield_io_to`: arm the descriptor, anew or for the first time, and park. */
    method YieldIo(fd: nat, d: Deadline)
      requires Valid() && 0 <= cur < nfib && fibs[cur].pc.App?
      modifies this`cur, this`epoll, this`trace, fibs
      ensures Took(IoWait(fd, d)) && cur == -1 && epoll == old(epoll)[fd := Reg(old(cur), true)]
      ensures Began(old(fibs[cur]), fibs[old(cur)], d) && fibs[old(cur)].state == WaitIo && fibs[old(cur)].fd == fd
    {
      ghost var before := View();
      epoll := epoll[fd := Reg(cur, true)];
      var x := fibs[cur].(fd := fd, state := WaitIo, pc := Polling(d.At?), waits := fibs[cur].waits + [d]);
      match d {
        case At(t) => x := x.(timedOut := false, deadline := t, hasDeadline := true);
        case Never => x := x.(hasDeadline := false);
      }
      fibs[cur] := x;
      cur := -1;
      Note(IoWait(fd, d), before);
    }

    method YieldOff()
      requires Valid() && 0 <= cur < nfib && fibs[cur].pc.App?
      modifies this`cur, this`trace, fibs
      ensures Took(Offload) && cur == -1 && fibs[old(cur)] == old(fibs[cur]).(state := WaitOff, pc := Offloading)
    {
      ghost var before := View();
      fibs[cur] := fibs[cur].(state := WaitOff, pc := Offloading);
      cur := -1;
      Note(Offload, before);
    }

    method Exit()
      requires Valid() && 0 <= cur < nfib && fibs[cur].pc.App?
      modifies this`cur, this`trace, fibs
      ensures Took(Finish) && cur == -1 && forall k :: 0 <= k < nfib && k != old(cur) ==> fibs[k] == old(fibs[k])
    {
      ghost var before := View();
      fibs[cur] := fibs[cur].(state := Done);
      cur := -1;
      assert View() == Step(before, Finish);
      hide Step, Exec;
      Note(Finish, before);
    }

    /** Where a fiber that wants a mutex is when it has to yield again. */
    static function Retry(x: Fiber): Pc
    {
      if x.pc.Waiting? then Relocking(x.pc.c, x.pc.m, x.timedOut) else x.pc
    }

    /** Switch to fiber f: what it does after its switch returns, up to application code or the next yield. */
    method Switch(f: nat)
      requires Valid() && cur == -1 && f < nfib && (fibs[f].state.New? || fibs[f].state.Run?)
      modifies this`cur, this`trace, fibs, locked
      ensures Took(Resume(f))
      ensures var pc := old(fibs[f].pc);
        if pc.Locking? || pc.Relocking? || pc.Waiting? then
          pc.m < locked.Length && TookOrYielded(f, pc.m, Retry(old(fibs[f])), old(fibs[f].held))
        else cur == f && locked[..] == old(locked[..]) && fibs[f].held == old(fibs[f].held) && fibs[f].pc == App
    {
      ghost var before := View();
      SwitchInv(f);
      var x := fibs[f];
      cur := f;
      match x.pc {
        case Locking(m) => TryMutex(m, x.pc);
        case Relocking(c, m, to) => TryMutex(m, x.pc);
        case Waiting(c, m) =>
          var to := x.timedOut;
          fibs[f] := x.(hasDeadline := false);
          TryMutex(m, Relocking(c, m, to));
        case Polling(timed) =>
          fibs[f] := x.(pc := App, hasDeadline := false, rets := x.rets + [timed && x.timedOut]);
        case Offloading =>
          fibs[f] := x.(pc := App);
        case App =>
        case _ => assert false;
      }
      Note(Resume(f), before);
    }

    lemma SwitchInv(f: nat)
      requires Valid() && cur == -1 && f < nfib
      ensures !fibs[f].pc.Leaving? && !fibs[f].pc.Parking?
      ensures InWait(fibs[f].pc) || fibs[f].pc.Locking? ==> fibs[f].pc.m < locked.Length
    {
      Always(locked.Length, trace);
      assert CurOk(View(), f);
    }

    /** The running fiber is in application code, or the carrier is back. */
    ghost predicate Between()
      reads this, fibs, locked
    {
      Valid() && (cur == -1 || (0 <= cur < nfib && fibs[cur].pc.App?))
    }

    /** The fibers other than f that were runnable still are. */
    twostate predicate OthersRunnable(f: int)
      requires old(nfib) == nfib <= fibs.Length
      reads this, fibs
    {
      forall k: nat :: k < nfib && k != f && Runnable(old(fibs[k])) ==> Runnable(fibs[k])
    }

    twostate lemma TookLeavesRunnable(l: Label)
      requires old(nfib) == nfib <= fibs.Length && Running(old(View())) && Took(l) && !l.Spawn? && !l.Resume?
      ensures OthersRunnable(old(cur))
    {
      forall k: nat | k < nfib && k != old(cur) && Runnable(old(fibs[k])) ensures Runnable(fibs[k]) {
        assert old(View()).fibers[k] == old(fibs[k]) && View().fibers[k] == fibs[k];
      }
    }

    /** What a call leaves: the same fiber running or the carrier, and everybody else who was runnable. */
    twostate predicate CallDone()
      requires old(nfib) == nfib <= fibs.Length
      reads this, fibs, locked
    {
      Between() && (cur == -1 || cur == old(cur)) && old(trace) <= trace && OthersRunnable(old(cur))
    }

    twostate lemma TookCall(l: Label)
      requires old(nfib) == nfib <= fibs.Length && old(Between()) && old(cur) != -1 && Took(l)
      requires !l.CondWait? && !l.Spawn? && !l.Resume? && (cur == -1 || cur == old(cur))
      ensures CallDone()
    {
      Always(locked.Length, old(trace));
      hide Step, Inv;
      TookLeavesRunnable(l);
    }

    twostate lemma ParkedCall()
      requires old(nfib) == nfib <= fibs.Length && Valid() && cur == -1 && old(trace) <= trace
      requires forall k :: 0 <= k < nfib && k != old(cur) ==> fibs[k] == old(fibs[k])
      ensures CallDone()
    {
    }

    /** One call of the application; those that break a client rule are not made. */
    method Perform(l: Label)
      requires Between() && cur != -1
      modifies this`cur, this`epoll, this`trace, fibs, locked
      ensures CallDone()
    {
      assert CallDone();
      hide Step, CallDone, OthersRunnable, View;
      match l {
        case Lock(m) => if m < locked.Length { MutexLock(m); TookCall(l); }
        case Unlock(m) => if m < locked.Length && m in fibs[cur].held { MutexUnlock(m); TookCall(l); }
        case CondWait(c, m, d) => if m < locked.Length && m in fibs[cur].held { FiberCondWait(c, m, d); ParkedCall(); }
        case Wake(c) => WakeFibers(c); TookCall(l);
        case IoWait(fd, d) => YieldIo(fd, d); TookCall(l);
        case Offload => YieldOff(); TookCall(l);
        case _ =>
      }
    }

    twostate lemma SwitchLeavesRunnable(f: nat)
      requires old(nfib) == nfib <= fibs.Length && f < nfib && Took(Resume(f))
      ensures OthersRunnable(f)
    {
      forall k: nat | k < nfib && k != f && Runnable(old(fibs[k])) ensures Runnable(fibs[k]) {
        assert old(View()).fibers[k] == old(fibs[k]) && View().fibers[k] == fibs[k];
      }
    }

    /** The application's calls up to its next yield, or its return. */
    method RunCalls(calls: seq<Label>)
      requires Between() && cur != -1
      modifies this`cur, this`epoll, this`trace, fibs, locked
      ensures Valid() && cur == -1 && old(trace) <= trace && OthersRunnable(old(cur))
    {
      hide View;
      var i := 0;
      while i < |calls| && cur != -1
        invariant CallDone()
      {
        Perform(calls[i]);
        i := i + 1;
      }
      if cur != -1 {
        Exit();
      }
    }

    /** Run fiber f: what the application calls until it yields; when the calls are used up the thread function
        returns. */
    method RunFiber(f: nat, calls: seq<Label>)
      requires Valid() && cur == -1 && f < nfib && Runnable(fibs[f])
      modifies this`cur, this`epoll, this`trace, fibs, locked
      ensures Valid() && cur == -1 && old(trace) + [Resume(f)] <= trace && OthersRunnable(f)
    {
      ghost var before := View();
      Always(locked.Length, trace);
      Switch(f);
      SwitchedBetween(before, f);
      SwitchLeavesRunnable(f);
      hide Took;
      assert old(trace) + [Resume(f)] == trace;
      if cur != -1 {
        RunCalls(calls);
      }
    }

    /** The run pass: every runnable fiber once, in table order. `calls[i]`: what fiber i does in this turn. */
    method RunPass(calls: seq<seq<Label>>)
      requires Valid() && cur == -1 && |calls| == nfib
      modifies this`cur, this`epoll, this`trace, fibs, locked
      ensures Valid() && cur == -1 && old(trace) <= trace
      ensures forall k :: 0 <= k < nfib && Runnable(old(fibs[k])) ==> Resume(k) in trace[|old(trace)|..]
    {
      hide Took;
      for i := 0 to nfib
        invariant Valid() && cur == -1 && old(trace) <= trace
        invariant forall k :: 0 <= k < nfib && Runnable(old(fibs[k])) ==>
            if k < i then Resume(k) in trace[|old(trace)|..] else Runnable(fibs[k])
      {
        ghost var was := trace;
        if fibs[i].state.New? || fibs[i].state.Run? {
          RunFiber(i, calls[i]);
          assert trace[|was|] == Resume(i);
        }
        assert trace[|old(trace)|..] == was[|old(trace)|..] + trace[|was|..];
      }
    }

    /** One turn of the scheduler's loop: intake, readiness (`ready`: the descriptors `epoll_wait` reports),
        completions, cross-thread wake-ups, deadlines, run. */
    method Turn(incoming: nat, ready: seq<nat>, done: seq<nat>, wakes: seq<nat>, now: Time, calls: seq<seq<Label>>)
      requires Valid() && cur == -1 && nfib + incoming <= fibs.Length && |calls| == nfib + incoming
      requires forall k :: 0 <= k < |done| ==> done[k] < nfib + incoming
      modifies this, fibs, locked
      ensures Valid() && cur == -1 && old(trace) <= trace && nfib == old(nfib) + incoming
    {
      hide Valid;
      for i := 0 to incoming
        invariant Valid() && cur == -1 && old(trace) <= trace && nfib == old(nfib) + i
      {
        Intake();
      }
      for i := 0 to |ready|
        invariant Valid() && cur == -1 && old(trace) <= trace && nfib == old(nfib) + incoming
      {
        Ready(ready[i]);
      }
      for i := 0 to |done|
        invariant Valid() && cur == -1 && old(trace) <= trace && nfib == old(nfib) + incoming
      {
        OffloadDone(done[i]);
      }
      for i := 0 to |wakes|
        invariant Valid() && cur == -1 && old(trace) <= trace && nfib == old(nfib) + incoming
      {
        WakeFibers(wakes[i]);
      }
      DeadlinePass(now);
      RunPass(calls);
    }

    lemma SwitchedBetween(before: State, f: nat)
      requires Valid() && Inv(before) && before.cur == -1 && f < |before.fibers| && View() == Step(before, Resume(f))
      ensures Between()
    {
      hide FiberOk, MutexOk;
      assert CurOk(before, f);
      assert -1 <= cur < nfib;
      assert cur != -1 ==> fibs[cur] == View().fibers[cur];
    }
  }
}
