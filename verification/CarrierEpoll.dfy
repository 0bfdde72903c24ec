/**
 The events behind the carrier's polls. A descriptor has one one-shot registration, which names one fiber; a poll takes
 it over from whoever has it, and an expiring poll removes it whoever has it. So the registrations are exact only as
 long as no two fibers poll one descriptor at a time.
 */
module CarrierEpoll {
  import opened Timespec
  import opened Carrier

  /** Fiber f is parked in a poll of fd. */
  predicate PollsOn(s: State, f: nat, fd: nat)
  {
    f < |s.fibers| && s.fibers[f].state.WaitIo? && s.fibers[f].fd == fd
  }

  /** The event of fd is still to come and will ready fiber f. */
  predicate ArmedFor(s: State, fd: nat, f: nat)
  {
    fd in s.epoll && s.epoll[fd] == Reg(f, true)
  }

  /** No event is on its way to a fiber that does not wait for it. */
  ghost predicate NoStray(s: State)
  {
    forall fd: nat, f: nat :: ArmedFor(s, fd, f) ==> PollsOn(s, f, fd)
  }

  /** No two fibers poll one descriptor. */
  ghost predicate Apart(s: State)
  {
    forall f: nat, g: nat, fd: nat :: PollsOn(s, f, fd) && PollsOn(s, g, fd) ==> f == g
  }

  /** Every poll has its event still to come. */
  ghost predicate Covered(s: State)
  {
    forall f: nat, fd: nat :: PollsOn(s, f, fd) ==> ArmedFor(s, fd, f)
  }

  // ---------- What the steps do to polls and registrations ----------

  /** The polling fibers and the registrations are the same. */
  ghost predicate SamePolls(s: State, s': State)
  {
    && s'.epoll == s.epoll
    && (forall f: nat, fd: nat :: PollsOn(s', f, fd) ==> PollsOn(s, f, fd))
    && (forall f: nat, fd: nat :: PollsOn(s, f, fd) ==> PollsOn(s', f, fd) && s'.fibers[f] == s.fibers[f])
  }

  /** One fiber changes, polling neither before nor after. */
  lemma {:induction false} BystanderMoves(s: State, s': State, f: nat)
    requires s'.epoll == s.epoll && f < |s.fibers| == |s'.fibers|
    requires forall g: nat :: g < |s.fibers| && g != f ==> s'.fibers[g] == s.fibers[g]
    requires !s.fibers[f].state.WaitIo? && !s'.fibers[f].state.WaitIo?
    ensures SamePolls(s, s')
  {
  }

  lemma {:induction false} ResumeLeavesPolls(s: State, f: nat)
    requires f < |s.fibers| && (s.fibers[f].state.New? || s.fibers[f].state.Run?)
    ensures SamePolls(s, Continue(s, f))
  {
    BystanderMoves(s, Continue(s, f), f);
  }

  lemma {:induction false} CallLeavesPolls(s: State, l: Label)
    requires Inv(s) && Running(s) && !l.IoWait?
    ensures SamePolls(s, Call(s, l))
  {
    assert FiberOk(s.fibers[s.cur]) && CurOk(s, s.cur);
    assert !s.fibers[s.cur].state.WaitIo?;
    hide Inv, FiberOk, CurOk, SamePolls;
    BystanderMoves(s, Call(s, l), s.cur);
  }

  /** Only readiness, deadlines and polls concern them. */
  lemma {:induction false} OthersLeavePolls(s: State, l: Label)
    requires Inv(s) && !l.IoReady? && !l.Expire? && !l.IoWait?
    ensures SamePolls(s, Step(s, l))
  {
    hide Inv, Call, Continue;
    match l
    case Resume(f) =>
      if f < |s.fibers| && s.cur == -1 && (s.fibers[f].state.New? || s.fibers[f].state.Run?) {
        ResumeLeavesPolls(s, f);
      }
    case Wake(c) =>
    case Completed(f) =>
    case Spawn =>
    case Clock(t) =>
    case _ => if Running(s) { CallLeavesPolls(s, l); }
  }

  lemma {:induction false} PollStarts(s: State, fd: nat, d: Deadline)
    requires Inv(s)
    ensures var s' := Step(s, IoWait(fd, d));
      || s' == s
      || (&& Running(s) && s'.epoll == s.epoll[fd := Reg(s.cur, true)] && !s.fibers[s.cur].state.WaitIo?
          && forall f: nat, e: nat :: PollsOn(s', f, e) <==> PollsOn(s, f, e) || (f == s.cur && e == fd))
  {
    if Running(s) {
      assert FiberOk(s.fibers[s.cur]);
    }
    hide FiberOk, MutexOk, CurOk;
  }

  // ---------- Every run ----------

  lemma {:induction false} NoStrayKept(s: State, l: Label)
    requires Inv(s) && NoStray(s)
    ensures NoStray(Step(s, l))
  {
    if l.IoWait? {
      PollStarts(s, l.fd, l.d);
      assert Running(s) ==> forall fd: nat :: !PollsOn(s, s.cur, fd);
    } else if !l.IoReady? && !l.Expire? {
      OthersLeavePolls(s, l);
    } else if l.IoReady? && l.fd in s.epoll {
      assert s.epoll[l.fd].armed ==> ArmedFor(s, l.fd, s.epoll[l.fd].fiber);
    }
    hide Inv, Call, Continue;
    forall fd: nat, f: nat | ArmedFor(Step(s, l), fd, f) ensures PollsOn(Step(s, l), f, fd) {
      assert ArmedFor(s, fd, f) ==> PollsOn(s, f, fd);
    }
  }

  /** A poll's event stays armed as long as no other fiber polls the descriptor as well. */
  lemma {:induction false} CoveredKept(s: State, l: Label)
    requires Inv(s) && Covered(s) && Apart(Step(s, l))
    ensures Covered(Step(s, l))
  {
    var s' := Step(s, l);
    forall f: nat, fd: nat | PollsOn(s', f, fd) ensures ArmedFor(s', fd, f) {
      assert PollsOn(s, f, fd) ==> ArmedFor(s, fd, f);
      if l.IoWait? {
        PollStarts(s, l.fd, l.d);
        assert s' == s || PollsOn(s', s.cur, l.fd);
      } else if !l.IoReady? && !l.Expire? {
        OthersLeavePolls(s, l);
      } else if l.Expire? && l.f < |s.fibers| {
        assert PollsOn(s, l.f, fd) ==> ArmedFor(s, fd, l.f);
      }
      hide Inv, Continue, Call;
    }
  }

  lemma {:induction false} NoStrayAlways(nmutex: nat, labels: seq<Label>)
    ensures NoStray(Exec(Init(nmutex), labels))
    decreases |labels|
  {
    if |labels| > 0 {
      var front := labels[..|labels| - 1];
      NoStrayAlways(nmutex, front);
      Always(nmutex, front);
      NoStrayKept(Exec(Init(nmutex), front), labels[|labels| - 1]);
    }
  }

  /** The state after the first k steps. */
  function After(nmutex: nat, labels: seq<Label>, k: nat): State
    requires k <= |labels|
  {
    Exec(Init(nmutex), labels[..k])
  }

  lemma {:induction false} CoveredIfApart(nmutex: nat, labels: seq<Label>, n: nat)
    requires n <= |labels| && forall k: nat :: k <= n ==> Apart(After(nmutex, labels, k))
    ensures Covered(After(nmutex, labels, n))
  {
    if n > 0 {
      CoveredIfApart(nmutex, labels, n - 1);
      Always(nmutex, labels[..n - 1]);
      assert labels[..n][..n - 1] == labels[..n - 1] && Apart(After(nmutex, labels, n));
      CoveredKept(After(nmutex, labels, n - 1), labels[n - 1]);
    }
  }

  // ---------- Theorems ----------

  /** A readiness event resumes exactly one poll, the one its descriptor was armed for; without one armed nothing
      changes. */
  lemma {:induction false} EventEndsItsPoll(nmutex: nat, labels: seq<Label>, fd: nat, f: nat)
    ensures var s := Exec(Init(nmutex), labels);
      f < |s.fibers| ==>
        var x, y := s.fibers[f], Step(s, IoReady(fd)).fibers[f];
        if ArmedFor(s, fd, f) then
          x.state.WaitIo? && x.fd == fd && y.state.Run? && y.ends == x.ends + [Woken] && y.waits == x.waits
        else y == x
  {
    NoStrayAlways(nmutex, labels);
    var s := Exec(Init(nmutex), labels);
    assert ArmedFor(s, fd, f) ==> PollsOn(s, f, fd);
  }

  /** Throughout a run every poll has its event to come if and only if no two fibers ever poll one descriptor at the
      same time. */
  lemma {:induction false} CoveredIffApart(nmutex: nat, labels: seq<Label>)
    ensures (forall k: nat :: k <= |labels| ==> Covered(After(nmutex, labels, k)))
      <==> (forall k: nat :: k <= |labels| ==> Apart(After(nmutex, labels, k)))
  {
    if forall k: nat :: k <= |labels| ==> Apart(After(nmutex, labels, k)) {
      forall k: nat | k <= |labels| ensures Covered(After(nmutex, labels, k)) {
        CoveredIfApart(nmutex, labels, k);
      }
    }
    forall k: nat | k <= |labels| && Covered(After(nmutex, labels, k)) ensures Apart(After(nmutex, labels, k)) {
    }
  }

  /** Parked in a poll without a deadline, with no event to come. */
  predicate Stranded(s: State, f: nat)
  {
    f < |s.fibers| && s.fibers[f].state.WaitIo? && !s.fibers[f].hasDeadline && !ArmedFor(s, s.fibers[f].fd, f)
  }

  lemma {:induction false} StrandedKept(s: State, l: Label, f: nat)
    requires Inv(s) && NoStray(s) && Stranded(s, f)
    ensures Stranded(Step(s, l), f) && Step(s, l).fibers[f] == s.fibers[f]
  {
    var fd := s.fibers[f].fd;
    assert PollsOn(s, f, fd);
    if l.IoWait? {
      PollStarts(s, l.fd, l.d);
    } else if !l.IoReady? && !l.Expire? {
      OthersLeavePolls(s, l);
      assert PollsOn(Step(s, l), f, fd);
    } else if l.IoReady? {
      assert ArmedFor(s, l.fd, f) ==> PollsOn(s, f, l.fd);
    }
    hide Inv, NoStray, Call, Continue;
  }

  lemma {:induction false} KeptOver(s: State, more: seq<Label>)
    requires Inv(s) && NoStray(s)
    ensures Inv(Exec(s, more)) && NoStray(Exec(s, more))
    decreases |more|
  {
    if |more| > 0 {
      KeptOver(s, more[..|more| - 1]);
      StepKeeps(Exec(s, more[..|more| - 1]), more[|more| - 1]);
      NoStrayKept(Exec(s, more[..|more| - 1]), more[|more| - 1]);
    }
  }

  lemma {:induction false} StrandedForGood(nmutex: nat, labels: seq<Label>, more: seq<Label>, f: nat)
    requires Stranded(Exec(Init(nmutex), labels), f)
    ensures var s := Exec(Init(nmutex), labels);
      Stranded(Exec(s, more), f) && Exec(s, more).fibers[f] == s.fibers[f]
    decreases |more|
  {
    if |more| > 0 {
      var front, s := more[..|more| - 1], Exec(Init(nmutex), labels);
      StrandedForGood(nmutex, labels, front, f);
      Always(nmutex, labels);
      NoStrayAlways(nmutex, labels);
      KeptOver(s, front);
      StrandedKept(Exec(s, front), more[|more| - 1], f);
    }
  }

  lemma {:induction false} OneMore(s: State, labels: seq<Label>, l: Label)
    ensures Exec(s, labels + [l]) == Step(Exec(s, labels), l)
  {
    assert (labels + [l])[..|labels|] == labels;
  }

  /** Nobody but the running fiber has moved. */
  ghost predicate OnlyCurrent(s: State, s': State)
  {
    |s'.fibers| == |s.fibers| && forall g: nat :: g < |s.fibers| && g != s.cur ==> s'.fibers[g] == s.fibers[g]
  }

  lemma {:induction false} YieldsBack(s: State) returns (l: Label)
    requires Running(s) && (s.fibers[s.cur].pc.App? || s.fibers[s.cur].pc.Parking?)
    ensures Step(s, l).cur == -1 && OnlyCurrent(s, Step(s, l))
  {
    l := if s.fibers[s.cur].pc.App? then Finish else Park;
  }

  lemma {:induction false} LetsGo(s: State)
    requires Running(s) && s.fibers[s.cur].pc.Leaving? && s.fibers[s.cur].pc.m < |s.locked|
    ensures var s' := Step(s, Release);
      s'.cur == s.cur && OnlyCurrent(s, s') && s'.fibers[s.cur].pc.Parking?
  {
  }

  /** The running fiber can give the carrier back. */
  lemma {:induction false} CarrierGetsBack(s: State) returns (calls: seq<Label>)
    requires Inv(s)
    ensures Exec(s, calls).cur == -1 && OnlyCurrent(s, Exec(s, calls))
  {
    calls := [];
    assert -1 <= s.cur < |s.fibers|;
    if s.cur != -1 {
      assert CurOk(s, s.cur);
      hide Inv, CurOk, Step;
      OneMore(s, [], Release);
      if s.fibers[s.cur].pc.Leaving? {
        LetsGo(s);
        calls := [] + [Release];
      }
      var l := YieldsBack(Exec(s, calls));
      OneMore(s, calls, l);
      calls := calls + [l];
    }
  }

  /** The poll that fiber f is parked in ends in the course of the steps `more`. */
  predicate PollEnds(s: State, more: seq<Label>, f: nat)
    requires f < |s.fibers|
  {
    f < |Exec(s, more).fibers| && |Exec(s, more).fibers[f].ends| > |s.fibers[f].ends|
  }

  lemma {:induction false} DeadlineEnds(s: State, f: nat) returns (more: seq<Label>)
    requires Inv(s) && f < |s.fibers| && s.fibers[f].state.WaitIo? && s.fibers[f].hasDeadline
    ensures PollEnds(s, more, f)
  {
    var x := s.fibers[f];
    assert s.cur != f by { assert FiberOk(x) && CurOk(s, f); }
    var calls := CarrierGetsBack(s);
    hide Inv, Exec;
    OneMore(s, calls, Clock(x.deadline));
    OneMore(s, calls + [Clock(x.deadline)], Expire(f));
    more := calls + [Clock(x.deadline)] + [Expire(f)];
  }

  lemma {:induction false} EventEnds(s: State, f: nat) returns (more: seq<Label>)
    requires f < |s.fibers| && s.fibers[f].state.WaitIo? && ArmedFor(s, s.fibers[f].fd, f)
    ensures PollEnds(s, more, f)
  {
    var l := IoReady(s.fibers[f].fd);
    more := [] + [l];
    OneMore(s, [], l);
    assert Exec(s, []) == s;
    hide Exec;
  }

  /** A parked poll can still end if and only if it is not stranded: there is a way on that ends it, or there is
      none at all, whatever the fibers, the devices and the kernel do. */
  lemma {:induction false} EndsIffNotStranded(nmutex: nat, labels: seq<Label>, f: nat)
    ensures var s := Exec(Init(nmutex), labels);
      f < |s.fibers| && s.fibers[f].state.WaitIo? ==> ((exists more :: PollEnds(s, more, f)) <==> !Stranded(s, f))
  {
    var s := Exec(Init(nmutex), labels);
    Always(nmutex, labels);
    hide Inv, Exec, Step;
    if f < |s.fibers| && s.fibers[f].state.WaitIo? {
      if Stranded(s, f) {
        forall more ensures !PollEnds(s, more, f) {
          StrandedForGood(nmutex, labels, more, f);
        }
      } else if s.fibers[f].hasDeadline {
        var more := DeadlineEnds(s, f);
      } else {
        var more := EventEnds(s, f);
      }
    }
  }

  /** Two fibers that poll one descriptor: the second poll takes the event away from the first, */
  lemma {:induction false} SecondPollStrands(nmutex: nat, fd: nat) returns (labels: seq<Label>)
    ensures Stranded(Exec(Init(nmutex), labels), 0)
  {
    labels := [Spawn, Spawn, Resume(0), IoWait(fd, Never), Resume(1), IoWait(fd, Never)];
    RunOf(Init(nmutex), labels);
  }

  /** and when the first has a deadline, its expiry removes the second one's. */
  lemma {:induction false} ExpiryStrands(nmutex: nat, fd: nat, t: Time) returns (labels: seq<Label>)
    ensures Stranded(Exec(Init(nmutex), labels), 1)
  {
    var first := [Spawn, Spawn, Resume(0), IoWait(fd, At(t)), Resume(1), IoWait(fd, Never)];
    RunOf(Init(nmutex), first);
    OneMore(Init(nmutex), first, Clock(t));
    OneMore(Init(nmutex), first + [Clock(t)], Expire(0));
    labels := first + [Clock(t)] + [Expire(0)];
  }

  lemma {:induction false} RunOf(s: State, l: seq<Label>)
    requires |l| == 6
    ensures Exec(s, l) == Step(Step(Step(Step(Step(Step(s, l[0]), l[1]), l[2]), l[3]), l[4]), l[5])
  {
    hide Step;
    OneMore(s, [], l[0]);
    OneMore(s, [l[0]], l[1]);
    OneMore(s, l[..2], l[2]);
    OneMore(s, l[..3], l[3]);
    OneMore(s, l[..4], l[4]);
    OneMore(s, l[..5], l[5]);
    assert [] + [l[0]] == [l[0]] && [l[0]] + [l[1]] == l[..2] && l[..2] + [l[2]] == l[..3];
    assert l[..3] + [l[3]] == l[..4] && l[..4] + [l[4]] == l[..5] && l[..5] + [l[5]] == l;
  }
}
