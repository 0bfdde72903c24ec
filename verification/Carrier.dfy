/**
 The preload runtime's carrier thread as a specification: fibers that run one at a time, mutexes taken by trying and
 yielding, condition waits and polls with deadlines, and the one-shot epoll set behind the polls. A step is one runtime
 call of the running fiber (a condition wait is three: enter, unlock, park), one switch to a fiber, or one action of the
 carrier. Wake-ups and I/O readiness may come at any step, so also between the unlock and the park of a condition wait.
 */
module Carrier {
  import opened Timespec

  datatype FState = New | Run | WaitIo | WaitOff | WaitCond | Done

  /** Where the fiber is: in application code, or inside one of the blocking calls. */
  datatype Pc =
    | App | Offloading | Locking(m: nat) | Polling(timed: bool)
    | Leaving(c: nat, m: nat) | Parking(c: nat, m: nat) | Waiting(c: nat, m: nat) | Relocking(c: nat, m: nat, to: bool)

  datatype Cond = NoCond | On(c: nat)

  datatype Deadline = Never | At(t: Time)

  datatype End = Woken | Expired(clock: Time)

  /** `fd` is what the fiber polls or polled last; `held` are the mutexes it has locked. The history: the deadline of
      each condition wait or poll it began, how each ended, and what each returned (true: timed out). */
  datatype Fiber = Fiber(
    state: FState, pc: Pc, cond: Cond, fd: nat, deadline: Time, hasDeadline: bool, timedOut: bool, held: set<nat>,
    waits: seq<Deadline>, ends: seq<End>, rets: seq<bool>)

  /** A descriptor's registration with epoll: whose event it is, and whether it is still to come. */
  datatype Reg = Reg(fiber: nat, armed: bool)

  /** `cur`: the running fiber, -1 while the carrier itself runs. `clock`: the carrier's last reading. `epoll` has an
      entry for each registered descriptor. */
  datatype State = State(fibers: seq<Fiber>, cur: int, locked: seq<bool>, clock: Time, epoll: map<nat, Reg>)

  datatype Label =
    | Spawn | Clock(t: Time) | IoReady(fd: nat) | Completed(f: nat) | Wake(c: nat) | Expire(f: nat) | Resume(f: nat)
    | Lock(m: nat) | Unlock(m: nat) | CondWait(c: nat, m: nat, d: Deadline) | Release | Park
    | IoWait(fd: nat, d: Deadline) | Offload | Finish

  const FRESH: Fiber := Fiber(New, App, NoCond, 0, Spec(0, 0), false, false, {}, [], [], [])

  function Init(nmutex: nat): State
  {
    State([], -1, seq(nmutex, _ => false), Spec(0, 0), map[])
  }

  // ---------- Steps ----------

  predicate Running(s: State)
  {
    0 <= s.cur < |s.fibers|
  }

  function Put(s: State, f: nat, x: Fiber): State
    requires f < |s.fibers|
  {
    s.(fibers := s.fibers[f := x])
  }

  /** Try to take `m`; back in application code when it was free, otherwise yield, staying runnable. */
  function TryLock(s: State, f: nat, m: nat, retry: Pc): State
    requires f < |s.fibers| && m < |s.locked|
  {
    var x := s.fibers[f];
    if s.locked[m] then Put(s, f, x.(state := Run, pc := retry)).(cur := -1)
    else
      var rets := if retry.Relocking? then x.rets + [retry.to] else x.rets;
      Put(s, f, x.(pc := App, held := x.held + {m}, rets := rets)).(locked := s.locked[m := true])
  }

  /** Enter a wait with an optional deadline. */
  function Waits(x: Fiber, d: Deadline): Fiber
  {
    match d
    case Never => x.(waits := x.waits + [d], hasDeadline := false)
    case At(t) => x.(waits := x.waits + [d], hasDeadline := true, deadline := t, timedOut := false)
  }

  function EnterCond(x: Fiber, c: nat, m: nat, d: Deadline): Fiber
  {
    Waits(x, d).(state := WaitCond, pc := Leaving(c, m), cond := On(c), timedOut := false)
  }

  function EnterIo(x: Fiber, fd: nat, d: Deadline): Fiber
  {
    Waits(x, d).(state := WaitIo, pc := Polling(d.At?), fd := fd)
  }

  /** A wait ends: by a wake-up or readiness, or by its deadline. */
  function Ended(x: Fiber, e: End): Fiber
  {
    x.(state := Run, cond := if x.state.WaitIo? && e.Woken? then x.cond else NoCond,
       timedOut := x.timedOut || e.Expired?, ends := x.ends + [e])
  }

  predicate IsOn(x: Fiber, c: nat)
  {
    x.state.WaitCond? && x.cond == On(c)
  }

  predicate Overdue(x: Fiber, clock: Time)
  {
    (x.state.WaitCond? || x.state.WaitIo?) && x.hasDeadline && Due(clock, x.deadline)
  }

  function Woke(x: Fiber, c: nat): Fiber
  {
    if IsOn(x, c) then Ended(x, Woken) else x
  }

  function WakeAll(fs: seq<Fiber>, c: nat): (r: seq<Fiber>)
    ensures |r| == |fs| && forall i :: 0 <= i < |fs| ==> r[i] == Woke(fs[i], c)
  {
    seq(|fs|, i requires 0 <= i < |fs| => Woke(fs[i], c))
  }

  /** Continue a fiber after it was switched to, up to application code or its next yield. */
  function Continue(s: State, f: nat): State
    requires f < |s.fibers|
  {
    var x := s.fibers[f];
    var s1 := s.(cur := f);
    match x.pc
    case Locking(m) => if m < |s.locked| then TryLock(s1, f, m, x.pc) else s
    case Relocking(c, m, to) => if m < |s.locked| then TryLock(s1, f, m, x.pc) else s
    case Waiting(c, m) =>
      if m < |s.locked| then TryLock(Put(s1, f, x.(hasDeadline := false)), f, m, Relocking(c, m, x.timedOut)) else s
    case Polling(timed) =>
      Put(s1, f, x.(pc := App, hasDeadline := false, rets := x.rets + [timed && x.timedOut]))
    case Offloading => Put(s1, f, x.(pc := App))
    case App => s1
    case _ => s
  }

  /** Arm a descriptor for fiber f, whoever it was armed for before. */
  function Register(s: State, fd: nat, f: nat): State
  {
    s.(epoll := s.epoll[fd := Reg(f, true)])
  }

  /** The event of a descriptor disarms it and ends the poll of the fiber it was armed for. */
  function Fired(s: State, fd: nat): State
    requires fd in s.epoll
  {
    var f := s.epoll[fd].fiber;
    var s1 := s.(epoll := s.epoll[fd := s.epoll[fd].(armed := false)]);
    if f < |s.fibers| && s.fibers[f].state.WaitIo? then Put(s1, f, Ended(s.fibers[f], Woken)) else s1
  }

  /** A deadline ends a wait; for a poll the descriptor's registration goes with it. */
  function Lapsed(s: State, f: nat): State
    requires f < |s.fibers|
  {
    var x := s.fibers[f];
    Put(if x.state.WaitIo? then s.(epoll := s.epoll - {x.fd}) else s, f, Ended(x, Expired(s.clock)))
  }

  /** A call of the running fiber. Calls that break a client rule (unlocking or waiting with a mutex it does not
      hold) have no effect. */
  function Call(s: State, l: Label): State
    requires Running(s)
  {
    var x := s.fibers[s.cur];
    match (l, x.pc)
    case (Release, Leaving(c, m)) =>
      if m < |s.locked| then
        Put(s, s.cur, x.(pc := Parking(c, m), held := x.held - {m})).(locked := s.locked[m := false])
      else s
    case (Park, Parking(c, m)) => Put(s, s.cur, x.(pc := Waiting(c, m))).(cur := -1)
    case (Lock(m), App) => if m < |s.locked| then TryLock(s, s.cur, m, Locking(m)) else s
    case (Unlock(m), App) =>
      if m < |s.locked| && m in x.held then
        Put(s, s.cur, x.(held := x.held - {m})).(locked := s.locked[m := false])
      else s
    case (CondWait(c, m, d), App) =>
      if m < |s.locked| && m in x.held then Put(s, s.cur, EnterCond(x, c, m, d)) else s
    case (IoWait(fd, d), App) => Put(Register(s, fd, s.cur), s.cur, EnterIo(x, fd, d)).(cur := -1)
    case (Offload, App) => Put(s, s.cur, x.(state := WaitOff, pc := Offloading)).(cur := -1)
    case (Finish, App) => Put(s, s.cur, x.(state := Done)).(cur := -1)
    case _ => s
  }

  function Step(s: State, l: Label): State
  {
    match l
    case Wake(c) => s.(fibers := WakeAll(s.fibers, c))
    case IoReady(fd) => if fd in s.epoll && s.epoll[fd].armed then Fired(s, fd) else s
    case Completed(f) =>
      if f < |s.fibers| && s.fibers[f].state.WaitOff? then Put(s, f, s.fibers[f].(state := Run)) else s
    case Spawn => s.(fibers := s.fibers + [FRESH])
    case Clock(t) => s.(clock := t)
    case Expire(f) =>
      if f < |s.fibers| && s.cur == -1 && Overdue(s.fibers[f], s.clock) then Lapsed(s, f) else s
    case Resume(f) =>
      if f < |s.fibers| && s.cur == -1 && (s.fibers[f].state.New? || s.fibers[f].state.Run?) then Continue(s, f) else s
    case _ => if Running(s) then Call(s, l) else s
  }

  function Exec(s: State, labels: seq<Label>): State
    decreases |labels|
  {
    if |labels| == 0 then s else Step(Exec(s, labels[..|labels| - 1]), labels[|labels| - 1])
  }

  // ---------- The invariant ----------

  /** Inside a condition wait, up to the return. */
  predicate InWait(pc: Pc)
  {
    pc.Leaving? || pc.Parking? || pc.Waiting? || pc.Relocking?
  }

  /** Begun and neither woken nor timed out. */
  predicate Open(x: Fiber)
  {
    |x.ends| < |x.waits|
  }

  ghost predicate PcOk(x: Fiber)
  {
    match x.pc
    case App => x.state.New? || x.state.Run? || x.state.Done?
    case Offloading => x.state.WaitOff? || x.state.Run?
    case Locking(m) => x.state.Run?
    case Relocking(c, m, to) => x.state.Run?
    case Polling(timed) => x.state.WaitIo? || x.state.Run?
    case Leaving(c, m) => (x.state.WaitCond? && x.cond == On(c)) || x.state.Run?
    case Parking(c, m) => (x.state.WaitCond? && x.cond == On(c)) || x.state.Run?
    case Waiting(c, m) => (x.state.WaitCond? && x.cond == On(c)) || x.state.Run?
  }

  /** Which end the wait came to, as the fiber will report it. */
  predicate Verdict(x: Fiber): (b: bool)
  {
    match x.pc
    case Relocking(c, m, to) => to
    case Polling(timed) => timed && x.timedOut
    case _ => x.timedOut
  }

  ghost predicate Justified(d: Deadline, e: End)
  {
    e.Expired? ==> d.At? && Total(e.clock) >= Total(d.t)
  }

  ghost predicate HistoryOk(x: Fiber)
  {
    && |x.waits| == |x.ends| + (if x.state.WaitCond? || x.state.WaitIo? then 1 else 0)
    && |x.waits| == |x.rets| + (if InWait(x.pc) || x.pc.Polling? then 1 else 0)
    && (forall k :: 0 <= k < |x.ends| ==> Justified(x.waits[k], x.ends[k]))
    && (forall k :: 0 <= k < |x.rets| ==> k < |x.ends| && x.rets[k] == x.ends[k].Expired?)
  }

  /** A wait in progress carries its own deadline; one that has ended knows how. */
  ghost predicate WaitOk(x: Fiber)
    requires HistoryOk(x)
  {
    && (x.state.WaitCond? || x.state.WaitIo? ==>
          x.waits[|x.ends|] == (if x.hasDeadline then At(x.deadline) else Never)
          && (x.state.WaitCond? || x.hasDeadline ==> !x.timedOut)
          && (x.state.WaitIo? ==> x.pc == Polling(x.hasDeadline)))
    && (x.state.Run? && (InWait(x.pc) || x.pc.Polling?) ==> Verdict(x) == x.ends[|x.ends| - 1].Expired?)
  }

  ghost predicate FiberOk(x: Fiber)
  {
    PcOk(x) && HistoryOk(x) && WaitOk(x)
  }

  /** Between the entry of a condition wait and its park only the running fiber is; it still holds the mutex until
      the release. */
  ghost predicate CurOk(s: State, f: nat)
    requires f < |s.fibers|
  {
    var x := s.fibers[f];
    && (x.pc.Leaving? ==> x.pc.m in x.held)
    && (x.pc.Leaving? || x.pc.Parking? ==> s.cur == f)
    && (s.cur == f ==> x.pc.App? || x.pc.Leaving? || x.pc.Parking?)
    && (s.cur == f && x.pc.App? ==> !x.state.Done?)
    && (InWait(x.pc) || x.pc.Locking? ==> x.pc.m < |s.locked|)
  }

  /** Fiber f holds mutex m. */
  ghost predicate Holds(s: State, f: nat, m: nat)
  {
    f < |s.fibers| && m in s.fibers[f].held
  }

  ghost predicate MutexOk(s: State)
  {
    && (forall f: nat, m: nat :: Holds(s, f, m) ==> m < |s.locked| && s.locked[m])
    && (forall f: nat, g: nat, m: nat :: Holds(s, f, m) && Holds(s, g, m) ==> f == g)
    && (forall m: nat :: m < |s.locked| && s.locked[m] ==> exists f: nat :: Holds(s, f, m))
  }

  ghost predicate FibersOk(s: State)
  {
    && -1 <= s.cur < |s.fibers|
    && (forall f: nat :: f < |s.fibers| ==> FiberOk(s.fibers[f]) && CurOk(s, f))
  }

  ghost predicate Inv(s: State)
  {
    FibersOk(s) && MutexOk(s)
  }

  // ---------- Every step keeps it ----------

  /** One fiber changes, keeping what it holds. */
  lemma {:induction false} PutKeepsMutex(s: State, f: nat, x: Fiber, cur: int)
    requires f < |s.fibers| && MutexOk(s) && x.held == s.fibers[f].held
    ensures MutexOk(Put(s, f, x).(cur := cur))
  {
    var s' := Put(s, f, x).(cur := cur);
    assert forall g: nat, m: nat :: Holds(s', g, m) <==> Holds(s, g, m);
  }

  lemma {:induction false} TakeKeepsMutex(s: State, s': State, f: nat, m: nat)
    requires f < |s.fibers| == |s'.fibers| && MutexOk(s) && m < |s.locked|
    requires !s.locked[m] && s'.locked == s.locked[m := true]
    requires forall g: nat :: g < |s.fibers| ==> s'.fibers[g].held == s.fibers[g].held + if g == f then {m} else {}
    ensures MutexOk(s')
  {
    assert forall g: nat, k: nat :: Holds(s', g, k) <==> Holds(s, g, k) || (g == f && k == m);
    assert Holds(s', f, m);
  }

  lemma {:induction false} DropKeepsMutex(s: State, s': State, f: nat, m: nat)
    requires f < |s.fibers| == |s'.fibers| && MutexOk(s) && m < |s.locked|
    requires Holds(s, f, m) && s'.locked == s.locked[m := false]
    requires forall g: nat :: g < |s.fibers| ==> s'.fibers[g].held == s.fibers[g].held - if g == f then {m} else {}
    ensures MutexOk(s')
  {
    assert forall g: nat, k: nat :: Holds(s', g, k) <==> Holds(s, g, k) && !(g == f && k == m);
  }

  /** One fiber changes. */
  lemma {:induction false} PutKeepsFibers(s: State, s': State, f: nat)
    requires FibersOk(s) && f < |s.fibers| == |s'.fibers| && |s.locked| == |s'.locked|
    requires forall g: nat :: g < |s.fibers| && g != f ==> s'.fibers[g] == s.fibers[g]
    requires FiberOk(s'.fibers[f]) && CurOk(s', f)
    requires s'.cur == s.cur || (s'.cur == -1 && s.cur == f) || (s'.cur == f && s.cur == -1)
    requires s.cur != f && s.cur != -1 ==> !s'.fibers[f].pc.Leaving? && !s'.fibers[f].pc.Parking?
    ensures FibersOk(s')
  {
    forall g: nat | g < |s'.fibers| ensures FiberOk(s'.fibers[g]) && CurOk(s', g) {
      assert FiberOk(s.fibers[g]) && CurOk(s, g);
    }
  }

  lemma {:induction false} EndedOk(x: Fiber, e: End)
    requires FiberOk(x) && (x.state.WaitCond? || x.state.WaitIo?)
    requires e.Expired? ==> x.hasDeadline && Total(e.clock) >= Total(x.deadline)
    ensures FiberOk(Ended(x, e))
  {
  }

  /** The form of a fiber that got the mutex, apart from holding it. */
  function Got(y: Fiber, retry: Pc): Fiber
  {
    y.(pc := App, rets := if retry.Relocking? then y.rets + [retry.to] else y.rets)
  }

  /** Trying a lock, with fiber f in the form y it has when it tries: it yields, */
  lemma {:induction false} BusyKeeps(s: State, y: Fiber, f: nat, m: nat, retry: Pc)
    requires Inv(s) && f < |s.fibers| && m < |s.locked| && (s.cur == -1 || s.cur == f) && s.locked[m]
    requires y.held == s.fibers[f].held && (retry == Locking(m) || (retry.Relocking? && retry.m == m))
    requires FiberOk(y.(state := Run, pc := retry))
    ensures Inv(TryLock(Put(s, f, y).(cur := f), f, m, retry))
  {
    hide FiberOk;
    var z := y.(state := Run, pc := retry);
    assert TryLock(Put(s, f, y).(cur := f), f, m, retry) == Put(s, f, z).(cur := -1);
    PutKeepsMutex(s, f, z, -1);
    PutKeepsFibers(s, Put(s, f, z).(cur := -1), f);
  }

  /** or takes it. */
  lemma {:induction false} TakeKeeps(s: State, y: Fiber, f: nat, m: nat, retry: Pc)
    requires Inv(s) && f < |s.fibers| && m < |s.locked| && (s.cur == -1 || s.cur == f) && !s.locked[m]
    requires y.held == s.fibers[f].held && (retry == Locking(m) || (retry.Relocking? && retry.m == m))
    requires FiberOk(Got(y, retry)) && !y.state.Done?
    ensures Inv(TryLock(Put(s, f, y).(cur := f), f, m, retry))
  {
    var z := Got(y, retry).(held := y.held + {m});
    assert FiberOk(z);
    hide FiberOk;
    var s' := TryLock(Put(s, f, y).(cur := f), f, m, retry);
    assert s' == Put(s, f, z).(cur := f, locked := s.locked[m := true]);
    TakeKeepsMutex(s, s', f, m);
    PutKeepsFibers(s, s', f);
  }

  lemma {:induction false} TryLockKeeps(s: State, y: Fiber, f: nat, m: nat, retry: Pc)
    requires Inv(s) && f < |s.fibers| && m < |s.locked| && (s.cur == -1 || s.cur == f)
    requires y.held == s.fibers[f].held && (retry == Locking(m) || (retry.Relocking? && retry.m == m))
    requires FiberOk(y.(state := Run, pc := retry)) && FiberOk(Got(y, retry)) && !y.state.Done?
    ensures Inv(TryLock(Put(s, f, y).(cur := f), f, m, retry))
  {
    if s.locked[m] {
      BusyKeeps(s, y, f, m, retry);
    } else {
      TakeKeeps(s, y, f, m, retry);
    }
  }

  /** One fiber changes and the mutexes do not. */
  lemma {:induction false} PutKeeps(s: State, f: nat, x: Fiber, cur: int)
    requires Inv(s) && f < |s.fibers| && x.held == s.fibers[f].held
    requires FiberOk(x) && CurOk(Put(s, f, x).(cur := cur), f)
    requires cur == s.cur || (cur == -1 && s.cur == f) || (cur == f && s.cur == -1)
    requires s.cur != f && s.cur != -1 ==> !x.pc.Leaving? && !x.pc.Parking?
    ensures Inv(Put(s, f, x).(cur := cur))
  {
    hide FiberOk;
    PutKeepsMutex(s, f, x, cur);
    PutKeepsFibers(s, Put(s, f, x).(cur := cur), f);
  }

  lemma {:induction false} RetriedOk(x: Fiber)
    requires FiberOk(x) && x.state.Run?
    ensures x.pc.Locking? || x.pc.Relocking? ==> FiberOk(x.(state := Run)) && FiberOk(Got(x, x.pc))
    ensures x.pc.Waiting? ==>
      var y, retry := x.(hasDeadline := false), Relocking(x.pc.c, x.pc.m, x.timedOut);
      FiberOk(y.(state := Run, pc := retry)) && FiberOk(Got(y, retry))
  {
  }

  lemma {:induction false} ResumedOk(x: Fiber)
    requires FiberOk(x) && x.state.Run?
    ensures x.pc.Polling? ==> FiberOk(x.(pc := App, hasDeadline := false, rets := x.rets + [x.pc.timed && x.timedOut]))
    ensures x.pc.Offloading? ==> FiberOk(x.(pc := App))
  {
  }

  lemma {:induction false} ContinueKeeps(s: State, f: nat)
    requires Inv(s) && f < |s.fibers| && s.cur == -1 && (s.fibers[f].state.New? || s.fibers[f].state.Run?)
    ensures Inv(Continue(s, f))
  {
    var x := s.fibers[f];
    assert FiberOk(x) && CurOk(s, f);
    assert x.pc.App? || x.state.Run?;
    if x.state.Run? {
      RetriedOk(x);
      ResumedOk(x);
    }
    assert Put(s, f, x) == s;
    hide FiberOk, Inv, TryLock, Got;
    match x.pc
    case Locking(m) => TryLockKeeps(s, x, f, m, x.pc);
    case Relocking(c, m, to) => TryLockKeeps(s, x, f, m, x.pc);
    case Waiting(c, m) => TryLockKeeps(s, x.(hasDeadline := false), f, m, Relocking(c, m, x.timedOut));
    case Polling(timed) => PutKeeps(s, f,
        x.(pc := App, hasDeadline := false, rets := x.rets + [timed && x.timedOut]), f);
    case Offloading => PutKeeps(s, f, x.(pc := App), f);
    case App => PutKeeps(s, f, x, f);
    case _ =>
  }

  lemma {:induction false} DropKeeps(s: State, f: nat, x: Fiber, m: nat)
    requires Inv(s) && s.cur == f < |s.fibers| && Holds(s, f, m) && x.held == s.fibers[f].held - {m}
    requires FiberOk(x) && CurOk(Put(s, f, x), f)
    ensures m < |s.locked| && Inv(Put(s, f, x).(locked := s.locked[m := false]))
  {
    hide FiberOk;
    var s' := Put(s, f, x).(locked := s.locked[m := false]);
    DropKeepsMutex(s, s', f, m);
    PutKeepsFibers(s, s', f);
  }

  /** The invariant does not depend on what is registered. */
  lemma {:induction false} EpollIsApart(s: State, epoll: map<nat, Reg>)
    requires Inv(s)
    ensures Inv(s.(epoll := epoll))
  {
    var s' := s.(epoll := epoll);
    assert forall f: nat :: f < |s.fibers| ==> CurOk(s, f) == CurOk(s', f);
    assert forall f: nat, m: nat :: Holds(s', f, m) <==> Holds(s, f, m);
  }

  /** The forms a running fiber takes on. */
  lemma {:induction false} EnteredOk(x: Fiber, c: nat, m: nat, d: Deadline)
    requires FiberOk(x) && x.pc.App? && !x.state.Done?
    ensures FiberOk(EnterCond(x, c, m, d)) && forall fd :: FiberOk(EnterIo(x, fd, d))
  {
  }

  lemma {:induction false} MovedOk(x: Fiber, m: nat)
    requires FiberOk(x) && !x.state.Done?
    ensures x.pc.App? ==> FiberOk(x.(held := x.held - {m})) && FiberOk(x.(state := Done))
    ensures x.pc.App? ==> FiberOk(x.(state := WaitOff, pc := Offloading))
    ensures x.pc.App? ==> FiberOk(x.(state := Run, pc := Locking(m))) && FiberOk(Got(x, Locking(m)))
    ensures x.pc.Leaving? ==> FiberOk(x.(pc := Parking(x.pc.c, x.pc.m), held := x.held - {m}))
    ensures x.pc.Parking? ==> FiberOk(x.(pc := Waiting(x.pc.c, x.pc.m)))
  {
  }

  lemma {:induction false} LockCallKeeps(s: State, l: Label)
    requires Inv(s) && Running(s) && s.fibers[s.cur].pc.App? && (l.Lock? || l.Unlock?)
    ensures Inv(Call(s, l))
  {
    var x := s.fibers[s.cur];
    assert FiberOk(x) && CurOk(s, s.cur);
    assert Put(s, s.cur, x) == s;
    MovedOk(x, l.m);
    hide FiberOk, Inv, TryLock, Got;
    if l.Lock? {
      if l.m < |s.locked| {
        TryLockKeeps(s, x, s.cur, l.m, Locking(l.m));
      }
    } else if l.m < |s.locked| && l.m in x.held {
      DropKeeps(s, s.cur, x.(held := x.held - {l.m}), l.m);
    }
  }

  lemma {:induction false} CondWaitKeeps(s: State, c: nat, m: nat, d: Deadline)
    requires Inv(s) && Running(s) && s.fibers[s.cur].pc.App?
    ensures Inv(Call(s, CondWait(c, m, d)))
  {
    var x := s.fibers[s.cur];
    assert FiberOk(x) && CurOk(s, s.cur);
    EnteredOk(x, c, m, d);
    hide FiberOk, Inv;
    if m < |s.locked| && m in x.held {
      PutKeeps(s, s.cur, EnterCond(x, c, m, d), s.cur);
    }
  }

  lemma {:induction false} IoWaitKeeps(s: State, fd: nat, d: Deadline)
    requires Inv(s) && Running(s) && s.fibers[s.cur].pc.App?
    ensures Inv(Call(s, IoWait(fd, d)))
  {
    var x := s.fibers[s.cur];
    assert FiberOk(x) && CurOk(s, s.cur);
    EnteredOk(x, 0, 0, d);
    EpollIsApart(s, s.epoll[fd := Reg(s.cur, true)]);
    assert CurOk(Register(s, fd, s.cur), s.cur);
    hide FiberOk, Inv;
    PutKeeps(Register(s, fd, s.cur), s.cur, EnterIo(x, fd, d), -1);
  }

  lemma {:induction false} BlockingCallKeeps(s: State, l: Label)
    requires Inv(s) && Running(s) && s.fibers[s.cur].pc.App? && !l.Lock? && !l.Unlock?
    ensures Inv(Call(s, l))
  {
    var x := s.fibers[s.cur];
    assert FiberOk(x) && CurOk(s, s.cur);
    MovedOk(x, 0);
    hide FiberOk, Inv;
    match l
    case CondWait(c, m, d) => CondWaitKeeps(s, c, m, d);
    case IoWait(fd, d) => IoWaitKeeps(s, fd, d);
    case Offload => PutKeeps(s, s.cur, x.(state := WaitOff, pc := Offloading), -1);
    case Finish => PutKeeps(s, s.cur, x.(state := Done), -1);
    case _ =>
  }

  lemma {:induction false} LeaveKeeps(s: State, l: Label)
    requires Inv(s) && Running(s) && (s.fibers[s.cur].pc.Leaving? || s.fibers[s.cur].pc.Parking?)
    ensures Inv(Call(s, l))
  {
    var x := s.fibers[s.cur];
    assert FiberOk(x) && CurOk(s, s.cur);
    MovedOk(x, x.pc.m);
    hide FiberOk, Inv;
    if l.Release? && x.pc.Leaving? {
      DropKeeps(s, s.cur, x.(pc := Parking(x.pc.c, x.pc.m), held := x.held - {x.pc.m}), x.pc.m);
    } else if l.Park? && x.pc.Parking? {
      PutKeeps(s, s.cur, x.(pc := Waiting(x.pc.c, x.pc.m)), -1);
    }
  }

  lemma {:induction false} CallKeeps(s: State, l: Label)
    requires Inv(s) && Running(s)
    ensures Inv(Call(s, l))
  {
    assert CurOk(s, s.cur);
    hide Inv, Call;
    if !s.fibers[s.cur].pc.App? {
      LeaveKeeps(s, l);
    } else if l.Lock? || l.Unlock? {
      LockCallKeeps(s, l);
    } else {
      BlockingCallKeeps(s, l);
    }
  }

  lemma {:induction false} WakeKeeps(s: State, c: nat)
    requires Inv(s)
    ensures Inv(Step(s, Wake(c)))
  {
    var s' := Step(s, Wake(c));
    forall f: nat | f < |s.fibers|
      ensures FiberOk(s'.fibers[f]) && CurOk(s', f) && s'.fibers[f].held == s.fibers[f].held
    {
      assert FiberOk(s.fibers[f]) && CurOk(s, f);
      if IsOn(s.fibers[f], c) {
        EndedOk(s.fibers[f], Woken);
      }
    }
    assert forall f: nat, m: nat :: Holds(s', f, m) <==> Holds(s, f, m);
  }

  lemma {:induction false} SpawnKeeps(s: State)
    requires Inv(s)
    ensures Inv(Step(s, Spawn))
  {
    var s' := Step(s, Spawn);
    forall f: nat | f < |s'.fibers| ensures FiberOk(s'.fibers[f]) && CurOk(s', f) {
      assert f < |s.fibers| ==> FiberOk(s.fibers[f]) && CurOk(s, f);
    }
    assert forall f: nat, m: nat :: Holds(s', f, m) <==> Holds(s, f, m);
  }

  lemma {:induction false} ClockKeeps(s: State, t: Time)
    requires Inv(s)
    ensures Inv(Step(s, Clock(t)))
  {
    var s' := Step(s, Clock(t));
    assert forall f: nat :: f < |s.fibers| ==> CurOk(s, f) == CurOk(s', f);
    assert forall f: nat, m: nat :: Holds(s', f, m) <==> Holds(s, f, m);
  }

  lemma {:induction false} EndKeeps(s: State, f: nat, e: End)
    requires Inv(s) && f < |s.fibers| && (s.fibers[f].state.WaitCond? || s.fibers[f].state.WaitIo?)
    requires e.Expired? ==> s.fibers[f].hasDeadline && Total(e.clock) >= Total(s.fibers[f].deadline)
    ensures Inv(Put(s, f, Ended(s.fibers[f], e)))
  {
    var x := s.fibers[f];
    assert FiberOk(x) && CurOk(s, f);
    EndedOk(x, e);
    PutKeeps(s, f, Ended(x, e), s.cur);
  }

  lemma {:induction false} FiredKeeps(s: State, fd: nat)
    requires Inv(s) && fd in s.epoll
    ensures Inv(Fired(s, fd))
  {
    var f, epoll := s.epoll[fd].fiber, s.epoll[fd := s.epoll[fd].(armed := false)];
    EpollIsApart(s, epoll);
    hide Inv, Ended;
    if f < |s.fibers| && s.fibers[f].state.WaitIo? {
      EndKeeps(s.(epoll := epoll), f, Woken);
    }
  }

  lemma {:induction false} LapsedKeeps(s: State, f: nat)
    requires Inv(s) && f < |s.fibers| && Overdue(s.fibers[f], s.clock)
    ensures Inv(Lapsed(s, f))
  {
    var x := s.fibers[f];
    var s1 := if x.state.WaitIo? then s.(epoll := s.epoll - {x.fd}) else s;
    EpollIsApart(s, s1.epoll);
    hide Inv, Ended;
    EndKeeps(s1, f, Expired(s.clock));
  }

  lemma {:induction false} CompletedKeeps(s: State, f: nat)
    requires Inv(s) && f < |s.fibers| && s.fibers[f].state.WaitOff?
    ensures Inv(Put(s, f, s.fibers[f].(state := Run)))
  {
    assert FiberOk(s.fibers[f]) && CurOk(s, f);
    PutKeeps(s, f, s.fibers[f].(state := Run), s.cur);
  }

  lemma {:induction false} StepKeeps(s: State, l: Label)
    requires Inv(s)
    ensures Inv(Step(s, l))
  {
    assert -1 <= s.cur < |s.fibers|;
    hide Inv, Call, Continue, Ended, Fired, Lapsed;
    match l
    case Wake(c) => WakeKeeps(s, c);
    case IoReady(fd) => if fd in s.epoll && s.epoll[fd].armed { FiredKeeps(s, fd); }
    case Completed(f) => if f < |s.fibers| && s.fibers[f].state.WaitOff? { CompletedKeeps(s, f); }
    case Spawn => SpawnKeeps(s);
    case Clock(t) => ClockKeeps(s, t);
    case Expire(f) =>
      if f < |s.fibers| && s.cur == -1 && Overdue(s.fibers[f], s.clock) {
        LapsedKeeps(s, f);
      }
    case Resume(f) =>
      if f < |s.fibers| && s.cur == -1 && (s.fibers[f].state.New? || s.fibers[f].state.Run?) {
        ContinueKeeps(s, f);
      }
    case _ => if Running(s) { CallKeeps(s, l); }
  }

  lemma {:induction false} ExecKeeps(s: State, labels: seq<Label>)
    requires Inv(s)
    ensures Inv(Exec(s, labels))
    decreases |labels|
  {
    if |labels| > 0 {
      ExecKeeps(s, labels[..|labels| - 1]);
      StepKeeps(Exec(s, labels[..|labels| - 1]), labels[|labels| - 1]);
    }
  }

  lemma {:induction false} InitOk(nmutex: nat)
    ensures Inv(Init(nmutex))
  {
    assert forall f: nat, m: nat :: !Holds(Init(nmutex), f, m);
  }

  lemma {:induction false} Always(nmutex: nat, labels: seq<Label>)
    ensures Inv(Exec(Init(nmutex), labels))
  {
    InitOk(nmutex);
    ExecKeeps(Init(nmutex), labels);
  }

  // ---------- Theorems: for every schedule ----------

  /** Two fibers never hold the same mutex, and a mutex is taken exactly when some fiber holds it. */
  lemma {:induction false} MutualExclusion(nmutex: nat, labels: seq<Label>, f: nat, g: nat, m: nat)
    ensures var s := Exec(Init(nmutex), labels);
      && (Holds(s, f, m) && Holds(s, g, m) ==> f == g)
      && (m < |s.locked| ==> (s.locked[m] <==> exists h: nat :: Holds(s, h, m)))
  {
    Always(nmutex, labels);
    var s := Exec(Init(nmutex), labels);
    if m < |s.locked| && s.locked[m] {
      assert exists h: nat :: Holds(s, h, m);
    }
  }

  /** Each wait ends at most once: the k-th end belongs to the k-th wait. It is a time-out only if that wait had a
      deadline and the clock had reached it, and the k-th return reports a time-out exactly when the k-th end was
      one. */
  lemma {:induction false} WaitsEndOnce(nmutex: nat, labels: seq<Label>, f: nat)
    ensures var s := Exec(Init(nmutex), labels);
      f < |s.fibers| ==>
        var x := s.fibers[f];
        && |x.rets| <= |x.ends| <= |x.waits| <= |x.rets| + 1
        && (forall k :: 0 <= k < |x.ends| && x.ends[k].Expired? ==>
            x.waits[k].At? && Total(x.ends[k].clock) >= Total(x.waits[k].t))
        && (forall k :: 0 <= k < |x.rets| ==> (x.rets[k] <==> x.ends[k].Expired?))
  {
    Always(nmutex, labels);
    var s := Exec(Init(nmutex), labels);
    if f < |s.fibers| {
      var x := s.fibers[f];
      assert FiberOk(x);
      if |x.rets| > 0 {
        var last := |x.rets| - 1;
        assert x.rets[last] == x.ends[last].Expired?;
      }
      forall k | 0 <= k < |x.ends| && x.ends[k].Expired?
        ensures x.waits[k].At? && Total(x.ends[k].clock) >= Total(x.waits[k].t)
      {
        assert Justified(x.waits[k], x.ends[k]);
      }
    }
  }

  /** A signal on c misses nobody: every fiber inside a wait on c that has not ended yet, parked or not, is woken.
      Others are left alone. */
  lemma {:induction false} SignalMissesNobody(nmutex: nat, labels: seq<Label>, c: nat, f: nat)
    ensures var s := Exec(Init(nmutex), labels);
      f < |s.fibers| ==>
        var x, y := s.fibers[f], Step(s, Wake(c)).fibers[f];
        if InWait(x.pc) && x.pc.c == c && Open(x) then
          y.state.Run? && y.pc == x.pc && y.ends == x.ends + [Woken] && y.waits == x.waits
        else y == x
  {
    Always(nmutex, labels);
    var s := Exec(Init(nmutex), labels);
    if f < |s.fibers| {
      assert FiberOk(s.fibers[f]);
    }
  }

  /** Only the fiber's own resumption ends its call. */
  lemma {:induction false} OthersDoNotReturn(s: State, l: Label, f: nat)
    requires Inv(s) && f < |s.fibers| && InWait(s.fibers[f].pc) && l != Resume(f)
    ensures InWait(Step(s, l).fibers[f].pc)
  {
    hide FiberOk, MutexOk;
    assert CurOk(s, f) && (s.cur != -1 ==> CurOk(s, s.cur));
  }

  lemma {:induction false} ResumeReturnsHolding(s: State, f: nat)
    requires Inv(s) && f < |s.fibers| && InWait(s.fibers[f].pc)
    ensures var s' := Step(s, Resume(f));
      || InWait(s'.fibers[f].pc)
      || (Holds(s', f, s.fibers[f].pc.m) && s'.cur == f && s'.fibers[f].pc.App? && !Open(s'.fibers[f]))
  {
    assert FiberOk(s.fibers[f]) && CurOk(s, f);
  }

  /** A wait returns only with the mutex it was entered with, and after it has ended. */
  lemma {:induction false} ReturnsHolding(nmutex: nat, labels: seq<Label>, l: Label, f: nat)
    ensures var s := Exec(Init(nmutex), labels);
      var s' := Step(s, l);
      f < |s.fibers| && InWait(s.fibers[f].pc) && !InWait(s'.fibers[f].pc) ==>
        Holds(s', f, s.fibers[f].pc.m) && s'.cur == f && s'.fibers[f].pc.App? && !Open(s'.fibers[f])
  {
    Always(nmutex, labels);
    var s := Exec(Init(nmutex), labels);
    if f < |s.fibers| && InWait(s.fibers[f].pc) {
      hide Inv, Step, Holds;
      if l == Resume(f) {
        ResumeReturnsHolding(s, f);
      } else {
        OthersDoNotReturn(s, l, f);
      }
    }
  }

  /** Woken while entering or inside a wait, and not resumed yet. */
  ghost predicate WokenInWait(s: State, f: nat)
  {
    && f < |s.fibers| && s.fibers[f].state.Run?
    && (s.fibers[f].pc.Leaving? || s.fibers[f].pc.Parking? || s.fibers[f].pc.Waiting?)
  }

  lemma {:induction false} StaysRunnable(s: State, l: Label, f: nat)
    requires Inv(s) && WokenInWait(s, f) && l != Resume(f)
    ensures WokenInWait(Step(s, l), f) && Step(s, l).fibers[f].ends == s.fibers[f].ends
  {
    hide FiberOk, MutexOk;
    assert CurOk(s, f) && (s.cur != -1 ==> CurOk(s, s.cur));
  }

  /** A wake-up is not lost by what happens before the fiber runs again, its own unlock and park included: the fiber
      stays runnable until the carrier resumes it. */
  lemma {:induction false} WakeupIsNotLost(nmutex: nat, labels: seq<Label>, more: seq<Label>, f: nat)
    requires forall k :: 0 <= k < |more| ==> more[k] != Resume(f)
    ensures var s := Exec(Init(nmutex), labels);
      WokenInWait(s, f) ==> WokenInWait(Exec(s, more), f) && Exec(s, more).fibers[f].ends == s.fibers[f].ends
    decreases |more|
  {
    if |more| > 0 {
      var s := Exec(Init(nmutex), labels);
      var front := more[..|more| - 1];
      WakeupIsNotLost(nmutex, labels, front, f);
      Always(nmutex, labels);
      ExecKeeps(s, front);
      if WokenInWait(s, f) {
        StaysRunnable(Exec(s, front), more[|more| - 1], f);
      }
    }
  }
}
