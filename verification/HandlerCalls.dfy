/**
 What the calls of a handler get done, from every reachable state: the handler lock is taken when it is free and given
 back by the write, a call that would block is a pause, and a request that comes in is counted and answered.
 */
module HandlerCalls {
  import opened HandlerLock

  function After(cfg: Config, labels: seq<Label>): State
  {
    Exec(cfg, Init(cfg), labels)
  }

  lemma {:induction false} Reaches(cfg: Config, labels: seq<Label>, l: Label)
    ensures After(cfg, labels + [l]) == Step(cfg, After(cfg, labels), l)
  {
    Then(cfg, labels, l);
  }

  /** Handler f is running, and is at pc. */
  predicate RunsAt(s: State, f: nat, pc: Pc)
  {
    s.cur == f < |s.conns| && s.conns[f] == pc
  }

  predicate ParkedAt(s: State, f: nat, pc: Pc)
  {
    s.cur == -1 && f < |s.conns| && s.conns[f] == pc
  }

  /** Handler f has gone on to pc, and runs on or yields. */
  function Went(s: State, f: nat, pc: Pc, runs: bool): State
    requires f < |s.conns|
  {
    s.(conns := s.conns[f := pc], cur := if runs then f else -1)
  }

  /** Another handler has the handler lock. */
  predicate Barred(cfg: Config, s: State, f: nat)
  {
    cfg.enforce && s.owner != -1 && s.owner != f
  }

  // ---------- The handler lock ----------

  /** A read under enforcement takes the lock if it is free or its own, and otherwise spins. */
  lemma {:induction false} ReadTakesOrSpins(cfg: Config, labels: seq<Label>, f: nat, g: nat, r: Io)
    requires RunsAt(After(cfg, labels), f, Read(g))
    ensures var s, s' := After(cfg, labels), After(cfg, labels + [Go(r)]);
      if Barred(cfg, s, f) then s' == Went(s, f, Spin(g), false)
      else s' == Went(s, f, Recv(g), true).(owner := if cfg.enforce then f else s.owner)
  {
    Reaches(cfg, labels, Go(r));
    hide After;
  }

  /** A spinning handler that is switched to takes the lock if it is free by then, and otherwise spins on. */
  lemma {:induction false} SpinnerRetries(cfg: Config, labels: seq<Label>, f: nat, g: nat, r: Io)
    requires ParkedAt(After(cfg, labels), f, Spin(g))
    ensures var s, s' := After(cfg, labels), After(cfg, labels + [Resume(f)] + [Go(r)]);
      if Barred(cfg, s, f) then s' == s
      else s' == Went(s, f, Recv(g), true).(owner := if cfg.enforce then f else s.owner)
  {
    Reaches(cfg, labels, Resume(f));
    var s := After(cfg, labels);
    assert After(cfg, labels + [Resume(f)]) == Went(s, f, Read(g), true);
    ReadTakesOrSpins(cfg, labels + [Resume(f)], f, g, r);
    hide After;
    assert s.conns[f := Read(g)][f := Spin(g)] == s.conns;
    assert s.conns[f := Read(g)][f := Recv(g)] == s.conns[f := Recv(g)];
  }

  /** The write gives the lock back: after it, no handler that is not in its section is barred by this one. */
  lemma {:induction false} WriteFrees(cfg: Config, labels: seq<Label>, f: nat, p: nat, r: Io)
    requires RunsAt(After(cfg, labels), f, Send(p))
    ensures var s, s' := After(cfg, labels), After(cfg, labels + [Go(r)]);
      && s' == Went(s, f, Write(p), true).(owner := s'.owner)
      && (cfg.enforce ==> s'.owner != f) && (s.owner != f || !cfg.enforce ==> s'.owner == s.owner)
      && (cfg.enforce && s.owner == f ==> s'.owner == -1)
  {
    Reaches(cfg, labels, Go(r));
    hide After;
  }

  // ---------- Results of system calls ----------

  /** A read that delivers bytes brings the request forward; end of file or an error ends the handler; one that would
      block parks it. */
  lemma {:induction false} ReadResult(cfg: Config, labels: seq<Label>, f: nat, g: nat, r: Io)
    requires RunsAt(After(cfg, labels), f, Recv(g)) && (r.Got? ==> 0 < r.n && g + r.n <= cfg.req)
    ensures var s, s' := After(cfg, labels), After(cfg, labels + [Go(r)]);
      match r
      case Again => s' == Went(s, f, RecvWait(g), false)
      case Fail => s' == Went(s, f, Gone, false)
      case Got(n) => s' == Went(s, f, if g + n == cfg.req then Enter else Read(g + n), true)
  {
    Reaches(cfg, labels, Go(r));
    hide After;
  }

  lemma {:induction false} WriteResult(cfg: Config, labels: seq<Label>, f: nat, p: nat, r: Io)
    requires RunsAt(After(cfg, labels), f, Write(p)) && (r.Got? ==> 0 < r.n && p + r.n <= cfg.req)
    ensures var s, s' := After(cfg, labels), After(cfg, labels + [Go(r)]);
      match r
      case Again => s' == Went(s, f, WriteWait(p), false)
      case Fail => s' == Went(s, f, Gone, false)
      case Got(n) => s' == Went(s, f, if p + n == cfg.req then Read(0) else Send(p + n), true)
  {
    Reaches(cfg, labels, Go(r));
    hide After;
  }

  lemma {:induction false} OthersLeave(cfg: Config, s: State, l: Label, f: nat)
    requires f < |s.conns| && s.cur != f && l != Resume(f)
    ensures Step(cfg, s, l).cur != f && f < |Step(cfg, s, l).conns| && Step(cfg, s, l).conns[f] == s.conns[f]
  {
  }

  /** Whatever the others do, a handler that has yielded stays where it is until it is switched to; */
  lemma {:induction false} StaysParked(cfg: Config, labels: seq<Label>, more: seq<Label>, f: nat)
    requires var s := After(cfg, labels); f < |s.conns| && s.cur != f
    requires Resume(f) !in more
    ensures var s, s' := After(cfg, labels), After(cfg, labels + more);
      f < |s'.conns| && s'.cur != f && s'.conns[f] == s.conns[f]
    decreases |more|
  {
    hide After, Step;
    if |more| == 0 {
      assert labels + more == labels;
    } else {
      var front, l := more[..|more| - 1], more[|more| - 1];
      StaysParked(cfg, labels, front, f);
      Reaches(cfg, labels + front, l);
      assert labels + more == labels + front + [l];
      OthersLeave(cfg, After(cfg, labels + front), l, f);
    }
  }

  /** and then it makes its call again: a call that would block is a pause. */
  lemma {:induction false} PauseChangesNothing(cfg: Config, labels: seq<Label>, more: seq<Label>, f: nat, n: nat)
    requires var s := After(cfg, labels); RunsAt(s, f, Recv(n)) || RunsAt(s, f, Write(n))
    requires Resume(f) !in more && After(cfg, labels + [Go(Again)] + more).cur == -1
    ensures var s, s' := After(cfg, labels), After(cfg, labels + [Go(Again)] + more + [Resume(f)]);
      RunsAt(s', f, s.conns[f]) && s' == After(cfg, labels + [Go(Again)] + more).(conns := s'.conns, cur := f)
  {
    var t := labels + [Go(Again)];
    if After(cfg, labels).conns[f].Recv? {
      ReadResult(cfg, labels, f, n, Again);
    } else {
      WriteResult(cfg, labels, f, n, Again);
    }
    StaysParked(cfg, t, more, f);
    Reaches(cfg, t + more, Resume(f));
    hide After;
  }

  /** A handler that is gone never runs again. */
  lemma {:induction false} GoneIsOver(cfg: Config, labels: seq<Label>, f: nat)
    ensures var s := After(cfg, labels);
      f < |s.conns| && s.conns[f] == Gone ==>
        s.cur != f && After(cfg, labels + [Resume(f)]) == s
        && forall l :: f < |Step(cfg, s, l).conns| && Step(cfg, s, l).conns[f] == Gone
    decreases |labels|
  {
    var s := After(cfg, labels);
    Reaches(cfg, labels, Resume(f));
    if |labels| > 0 {
      var front, l := labels[..|labels| - 1], labels[|labels| - 1];
      GoneIsOver(cfg, front, f);
      Reaches(cfg, front, l);
      assert front + [l] == labels;
      hide After;
    }
    forall l | f < |s.conns| && s.conns[f] == Gone && s.cur != f
      ensures f < |Step(cfg, s, l).conns| && Step(cfg, s, l).conns[f] == Gone
    {
      if l != Resume(f) {
        OthersLeave(cfg, s, l, f);
      }
    }
  }

  // ---------- A request ----------

  /** With the request in, the handler waits for the server's mutex if it has one and it is taken; otherwise it takes
      it, reads the counter and parks at the accelerator. */
  lemma {:induction false} UpdateBegins(cfg: Config, labels: seq<Label>, f: nat, r: Io)
    requires RunsAt(After(cfg, labels), f, Enter)
    ensures var s, s' := After(cfg, labels), After(cfg, labels + [Go(r)]);
      if cfg.locked && s.lk then s' == Went(s, f, MutexWait, false)
      else s' == Went(s, f, Encrypt(s.shared), false).(lk := s.lk || cfg.locked)
  {
    Reaches(cfg, labels, Go(r));
    hide After;
  }

  /** A handler that waits for the mutex tries again when it is switched to. */
  lemma {:induction false} MutexIsRetried(cfg: Config, labels: seq<Label>, f: nat, r: Io)
    requires ParkedAt(After(cfg, labels), f, MutexWait)
    ensures var s, s' := After(cfg, labels), After(cfg, labels + [Resume(f)] + [Go(r)]);
      if cfg.locked && s.lk then s' == s else s' == Went(s, f, Encrypt(s.shared), false).(lk := s.lk || cfg.locked)
  {
    Reaches(cfg, labels, Resume(f));
    Reaches(cfg, labels + [Resume(f)], Go(r));
    hide After;
    var s := After(cfg, labels);
    assert s.conns[f := Enter][f := MutexWait] == s.conns;
    assert s.conns[f := Enter][f := Encrypt(s.shared)] == s.conns[f := Encrypt(s.shared)];
  }

  /** When it is switched to again, it writes the counter back, frees the mutex and counts the request. */
  lemma {:induction false} UpdateEnds(cfg: Config, labels: seq<Label>, f: nat, v: int, r: Io)
    requires ParkedAt(After(cfg, labels), f, Encrypt(v))
    ensures var s, s' := After(cfg, labels), After(cfg, labels + [Resume(f)] + [Go(r)]);
      s' == Went(s, f, Send(0), true).(shared := v + 1, total := s.total + 1, lk := s.lk && !cfg.locked)
  {
    Reaches(cfg, labels, Resume(f));
    Reaches(cfg, labels + [Resume(f)], Go(r));
    hide After;
    var s := After(cfg, labels);
    assert s.conns[f := Encrypt(v)] == s.conns;
  }

  /** A handler's steps while its request comes in and it gets to the accelerator, */
  function Inward(cfg: Config, f: nat): seq<Label>
  {
    [Resume(f)] + [Go(Again)] + [Go(Got(cfg.req))] + [Go(Again)]
  }

  /** and from there until its response is out. */
  function Outward(cfg: Config, f: nat): seq<Label>
  {
    [Resume(f)] + [Go(Again)] + [Go(Again)] + [Go(Got(cfg.req))]
  }

  lemma {:induction false} GoesIn(cfg: Config, labels: seq<Label>, f: nat)
    requires var s := After(cfg, labels); ParkedAt(s, f, Read(0)) && !Barred(cfg, s, f) && !(cfg.locked && s.lk)
    requires cfg.req > 0
    ensures var s := After(cfg, labels);
      After(cfg, labels + Inward(cfg, f))
        == Went(s, f, Encrypt(s.shared), false).(owner := if cfg.enforce then f else s.owner, lk := s.lk || cfg.locked)
  {
    var t := labels + [Resume(f)];
    Reaches(cfg, labels, Resume(f));
    assert After(cfg, t) == Went(After(cfg, labels), f, Read(0), true);
    hide After, Step;
    ReadTakesOrSpins(cfg, t, f, 0, Again);
    ReadResult(cfg, t + [Go(Again)], f, 0, Got(cfg.req));
    UpdateBegins(cfg, t + [Go(Again)] + [Go(Got(cfg.req))], f, Again);
    assert t + [Go(Again)] + [Go(Got(cfg.req))] + [Go(Again)] == labels + Inward(cfg, f);
  }

  lemma {:induction false} GoesOut(cfg: Config, labels: seq<Label>, f: nat, v: int)
    requires ParkedAt(After(cfg, labels), f, Encrypt(v)) && cfg.req > 0
    requires cfg.enforce ==> After(cfg, labels).owner == f
    ensures var s := After(cfg, labels);
      After(cfg, labels + Outward(cfg, f)) == Went(s, f, Read(0), true).(
          owner := if cfg.enforce then -1 else s.owner,
          shared := v + 1, total := s.total + 1, lk := s.lk && !cfg.locked)
  {
    hide After, Step;
    var t := labels + [Resume(f)] + [Go(Again)];
    UpdateEnds(cfg, labels, f, v, Again);
    WriteFrees(cfg, t, f, 0, Again);
    WriteResult(cfg, t + [Go(Again)], f, 0, Got(cfg.req));
    assert t + [Go(Again)] + [Go(Got(cfg.req))] == labels + Outward(cfg, f);
  }

  /** From every reachable state at a yield, whoever else is parked: a handler that waits for a request and is not
      barred serves one, and leaves the handler lock and the mutex free and the others as they were. The counter is one
      higher than it was when the handler read it. */
  lemma {:induction false} RequestIsServed(cfg: Config, labels: seq<Label>, f: nat)
    requires var s := After(cfg, labels); ParkedAt(s, f, Read(0)) && !Barred(cfg, s, f) && !(cfg.locked && s.lk)
    requires cfg.req > 0
    ensures var s, s' := After(cfg, labels), After(cfg, labels + Inward(cfg, f) + Outward(cfg, f));
      && s'.conns == s.conns && s'.cur == f && s'.total == s.total + 1 && s'.shared == s.shared + 1
      && (cfg.enforce ==> s'.owner == -1) && (cfg.locked ==> !s'.lk)
  {
    hide After, Inward, Outward;
    GoesIn(cfg, labels, f);
    GoesOut(cfg, labels + Inward(cfg, f), f, After(cfg, labels).shared);
  }
}
