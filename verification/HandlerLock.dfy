/**
 The runtime's handler lock and the server it is meant to protect: connection handlers that read a request, read a
 shared counter, park at the accelerator, and write the counter back. The lock is taken at a handler's first `read`
 and given up at its next `write`. A step is one call of the running handler, or a switch to a handler; the result of
 each system call is chosen by the environment, as is the handler to resume.
 */
module HandlerLock {

  /** Where a handler is: `g` and `p` are the bytes read and written so far, `v` the counter value it read. */
  datatype Pc =
    | Read(g: nat) | Spin(g: nat) | Recv(g: nat) | RecvWait(g: nat)
    | Enter | MutexWait | Encrypt(v: int)
    | Send(p: nat) | Write(p: nat) | WriteWait(p: nat) | Gone

  /** What a system call returned: would block, an error or end of file, or a number of bytes. */
  datatype Io = Again | Fail | Got(n: nat)

  /** `enforce`: the runtime takes the handler lock; `locked`: the server itself holds a mutex across the offload. */
  datatype Config = Config(nconn: nat, req: nat, enforce: bool, locked: bool)

  /** `cur`: the running handler, -1 at a yield point. `owner`: the handler lock's, -1 when free. */
  datatype State = State(conns: seq<Pc>, cur: int, owner: int, lk: bool, shared: int, total: int)

  datatype Label = Resume(f: nat) | Go(r: Io)

  function Init(cfg: Config): State
  {
    State(seq(cfg.nconn, _ => Read(0)), -1, -1, false, 0, 0)
  }

  // ---------- Steps ----------

  /** Handler f goes on at `pc`, or yields there. */
  function At(s: State, f: nat, pc: Pc, parks: bool): State
    requires f < |s.conns|
  {
    s.(conns := s.conns[f := pc], cur := if parks then -1 else s.cur)
  }

  /** `real_read` returned r, with g bytes of the request in. */
  function Received(cfg: Config, s: State, f: nat, g: nat, r: Io): State
    requires f < |s.conns|
  {
    match r
    case Again => At(s, f, RecvWait(g), true)
    case Fail => At(s, f, Gone, true)
    case Got(n) =>
      if n == 0 || g + n > cfg.req then s else At(s, f, if g + n < cfg.req then Read(g + n) else Enter, false)
  }

  /** `real_write` returned r, with p bytes of the response out. */
  function Sent(cfg: Config, s: State, f: nat, p: nat, r: Io): State
    requires f < |s.conns|
  {
    match r
    case Again => At(s, f, WriteWait(p), true)
    case Fail => At(s, f, Gone, true)
    case Got(n) =>
      if n == 0 || p + n > cfg.req then s else At(s, f, if p + n < cfg.req then Send(p + n) else Read(0), false)
  }

  function Advance(cfg: Config, s: State, f: nat, r: Io): State
    requires f < |s.conns|
  {
    match s.conns[f]
    case Read(g) =>
      if !cfg.enforce || s.owner == f then At(s, f, Recv(g), false)
      else if s.owner != -1 then At(s, f, Spin(g), true)
      else At(s, f, Recv(g), false).(owner := f)
    case Recv(g) => Received(cfg, s, f, g, r)
    case Enter =>
      if cfg.locked && s.lk then At(s, f, MutexWait, true)
      else At(s, f, Encrypt(s.shared), true).(lk := s.lk || cfg.locked)
    case Encrypt(v) => At(s, f, Send(0), false).(shared := v + 1, total := s.total + 1, lk := s.lk && !cfg.locked)
    case Send(p) => At(s, f, Write(p), false).(owner := if cfg.enforce && s.owner == f then -1 else s.owner)
    case Write(p) => Sent(cfg, s, f, p, r)
    case _ => s
  }

  function Woken(pc: Pc): Pc
  {
    match pc
    case Spin(g) => Read(g)
    case RecvWait(g) => Recv(g)
    case MutexWait => Enter
    case WriteWait(p) => Write(p)
    case _ => pc
  }

  function Step(cfg: Config, s: State, l: Label): State
  {
    match l
    case Resume(f) =>
      if f < |s.conns| && s.cur == -1 && !s.conns[f].Gone?
      then s.(conns := s.conns[f := Woken(s.conns[f])], cur := f)
      else s
    case Go(r) => if 0 <= s.cur < |s.conns| then Advance(cfg, s, s.cur, r) else s
  }

  function Exec(cfg: Config, s: State, labels: seq<Label>): State
    decreases |labels|
  {
    if |labels| == 0 then s else Step(cfg, Exec(cfg, s, labels[..|labels| - 1]), labels[|labels| - 1])
  }

  // ---------- The invariant ----------

  /** From the first read of a request to the write of its response. */
  predicate InSection(pc: Pc)
  {
    match pc
    case Read(g) => g > 0
    case Recv(g) => true
    case RecvWait(g) => true
    case Enter => true
    case MutexWait => true
    case Encrypt(v) => true
    case Send(p) => p == 0
    case _ => false
  }

  ghost predicate Parked(s: State, f: int)
  {
    0 <= f < |s.conns| && s.conns[f].Encrypt?
  }

  /** Something keeps handlers from overlapping between their reads and writes of the counter. */
  predicate Guarded(cfg: Config)
  {
    cfg.enforce || cfg.locked || cfg.nconn <= 1
  }

  ghost predicate Inv(cfg: Config, s: State)
  {
    && cfg.req > 0 && |s.conns| == cfg.nconn && -1 <= s.cur < cfg.nconn
    && (forall f: nat :: f < cfg.nconn ==> ConnOk(cfg, s, f))
    && (cfg.locked ==> forall f: nat, g: nat :: Parked(s, f) && Parked(s, g) ==> f == g)
  }

  ghost predicate ConnOk(cfg: Config, s: State, f: nat)
    requires f < |s.conns|
  {
    && (cfg.enforce && InSection(s.conns[f]) ==> s.owner == f)
    && (cfg.enforce && s.conns[f].Spin? ==> s.conns[f].g == 0)
    && (cfg.locked && s.conns[f].Encrypt? ==> s.lk)
  }

  /** The counter and the ground truth agree, and parked handlers have read the current value. */
  ghost predicate Clean(s: State)
  {
    s.shared == s.total && forall f: nat :: Parked(s, f) ==> s.conns[f].v == s.shared
  }

  /** Without a guard: updates may be lost, never invented. */
  ghost predicate Bounded(s: State)
  {
    0 <= s.shared <= s.total && (s.total > 0 ==> s.shared > 0)
    && forall f: nat :: Parked(s, f) ==> 0 <= s.conns[f].v <= s.total
  }

  lemma {:induction false} OneParked(cfg: Config, s: State, f: nat, g: nat)
    requires Inv(cfg, s) && Guarded(cfg) && Parked(s, f) && Parked(s, g)
    ensures f == g
  {
    assert ConnOk(cfg, s, f) && ConnOk(cfg, s, g);
  }

  /** What a step of handler f may do: nobody else moves, the lock is taken only when free and given up only by its
      owner, and the mutex likewise. */
  ghost predicate Local(cfg: Config, s: State, s': State, f: nat)
  {
    && f < |s.conns| == |s'.conns|
    && (forall g: nat :: g < |s.conns| && g != f ==> s'.conns[g] == s.conns[g])
    && (s'.owner == s.owner || s.owner == -1 || s.owner == f)
    && (Parked(s', f) && !Parked(s, f) && cfg.locked ==> !s.lk)
    && (s'.lk || !s.lk || Parked(s, f))
    && -1 <= s'.cur < |s.conns|
    && ConnOk(cfg, s', f)
  }

  lemma {:induction false} AdvanceIsLocal(cfg: Config, s: State, f: nat, r: Io)
    requires Inv(cfg, s) && s.cur == f < |s.conns|
    ensures Local(cfg, s, Advance(cfg, s, f, r), f)
  {
    assert ConnOk(cfg, s, f);
  }

  lemma {:induction false} LocalKeeps(cfg: Config, s: State, s': State, f: nat)
    requires Inv(cfg, s) && Local(cfg, s, s', f)
    ensures Inv(cfg, s')
  {
    forall g: nat | g < cfg.nconn ensures ConnOk(cfg, s', g) {
      assert ConnOk(cfg, s, g) && ConnOk(cfg, s, f);
      assert Parked(s, g) <==> s.conns[g].Encrypt?;
    }
    forall g: nat, h: nat | cfg.locked && Parked(s', g) && Parked(s', h) ensures g == h {
      assert g != f ==> Parked(s, g) && ConnOk(cfg, s, g);
      assert h != f ==> Parked(s, h) && ConnOk(cfg, s, h);
    }
  }

  lemma {:induction false} StepKeeps(cfg: Config, s: State, l: Label)
    requires Inv(cfg, s)
    ensures Inv(cfg, Step(cfg, s, l))
  {
    if l.Resume? {
      if l.f < |s.conns| {
        assert ConnOk(cfg, s, l.f);
        LocalKeeps(cfg, s, Step(cfg, s, l), l.f);
      }
    } else if s.cur >= 0 {
      AdvanceIsLocal(cfg, s, s.cur, l.r);
      hide Advance, Local;
      LocalKeeps(cfg, s, Step(cfg, s, l), s.cur);
    }
  }

  /** How a step of handler f moves the counters. */
  lemma {:induction false} AdvanceCounts(cfg: Config, s: State, f: nat, r: Io)
    requires Inv(cfg, s) && s.cur == f < |s.conns|
    ensures var s' := Advance(cfg, s, f, r);
      && |s'.conns| == |s.conns|
      && (forall g: nat :: g < |s.conns| && g != f ==> s'.conns[g] == s.conns[g])
      && (if Parked(s, f) then !Parked(s', f) && s'.shared == s.conns[f].v + 1 && s'.total == s.total + 1
          else s'.shared == s.shared && s'.total == s.total && (Parked(s', f) ==> s'.conns[f].v == s.shared))
  {
  }

  lemma {:induction false} StepStaysClean(cfg: Config, s: State, l: Label)
    requires Inv(cfg, s) && Guarded(cfg) && Clean(s)
    ensures Clean(Step(cfg, s, l))
  {
    if l.Go? && s.cur >= 0 {
      AdvanceCounts(cfg, s, s.cur, l.r);
      hide Advance;
      var s' := Step(cfg, s, l);
      forall f: nat | Parked(s', f) ensures s'.conns[f].v == s'.shared {
        if Parked(s, f) && Parked(s, s.cur) {
          OneParked(cfg, s, f, s.cur);
        }
      }
    }
  }

  lemma {:induction false} StepStaysBounded(cfg: Config, s: State, l: Label)
    requires Inv(cfg, s) && Bounded(s)
    ensures Bounded(Step(cfg, s, l))
  {
    if l.Go? && s.cur >= 0 {
      AdvanceCounts(cfg, s, s.cur, l.r);
      hide Advance;
      var s' := Step(cfg, s, l);
      forall f: nat | Parked(s', f) ensures 0 <= s'.conns[f].v <= s'.total {
        assert f != s.cur ==> Parked(s, f);
      }
    }
  }

  lemma {:induction false} Always(cfg: Config, labels: seq<Label>)
    requires cfg.req > 0
    ensures var s := Exec(cfg, Init(cfg), labels);
      Inv(cfg, s) && Bounded(s) && (Guarded(cfg) ==> Clean(s))
    decreases |labels|
  {
    if |labels| > 0 {
      var front, l := labels[..|labels| - 1], labels[|labels| - 1];
      Always(cfg, front);
      var s := Exec(cfg, Init(cfg), front);
      hide Step, Inv, Clean, Bounded;
      StepKeeps(cfg, s, l);
      StepStaysBounded(cfg, s, l);
      if Guarded(cfg) {
        StepStaysClean(cfg, s, l);
      }
    }
  }

  // ---------- Theorems: for every schedule ----------

  /** With enforcement, a handler between its first read and its write owns the handler lock, so there is at most
      one. */
  lemma {:induction false} OneHandlerInSection(cfg: Config, labels: seq<Label>, f: nat, g: nat)
    requires cfg.req > 0 && cfg.enforce && f < cfg.nconn && g < cfg.nconn
    ensures var s := Exec(cfg, Init(cfg), labels);
      |s.conns| == cfg.nconn
      && (InSection(s.conns[f]) ==> s.owner == f)
      && (InSection(s.conns[f]) && InSection(s.conns[g]) ==> f == g)
  {
    Always(cfg, labels);
    var s := Exec(cfg, Init(cfg), labels);
    assert ConnOk(cfg, s, f) && ConnOk(cfg, s, g);
  }

  /** At most one update in flight, and no update lost, under either guard. */
  lemma {:induction false} GuardedLosesNothing(cfg: Config, labels: seq<Label>, f: nat, g: nat)
    requires cfg.req > 0 && Guarded(cfg)
    ensures var s := Exec(cfg, Init(cfg), labels);
      s.shared == s.total && (Parked(s, f) && Parked(s, g) ==> f == g)
  {
    Always(cfg, labels);
    var s := Exec(cfg, Init(cfg), labels);
    if Parked(s, f) && Parked(s, g) {
      OneParked(cfg, s, f, g);
    }
  }

  /** Guarded or not, the reported loss `total - shared` is never negative and never everything. */
  lemma {:induction false} LossIsBounded(cfg: Config, labels: seq<Label>)
    requires cfg.req > 0
    ensures var s := Exec(cfg, Init(cfg), labels);
      0 <= s.total - s.shared && (s.total > 0 ==> s.total - s.shared < s.total)
  {
    Always(cfg, labels);
  }

  lemma {:induction false} Then(cfg: Config, labels: seq<Label>, l: Label)
    ensures Exec(cfg, Init(cfg), labels + [l]) == Step(cfg, Exec(cfg, Init(cfg), labels), l)
  {
    assert (labels + [l])[..|labels|] == labels;
  }

  /** Handler f takes in a whole request and parks at the accelerator. */
  function Request(cfg: Config, f: nat): seq<Label>
  {
    [Resume(f), Go(Again), Go(Got(cfg.req)), Go(Again)]
  }

  lemma {:induction false} RequestParks(cfg: Config, labels: seq<Label>, f: nat)
    requires cfg.req > 0 && !Guarded(cfg) && f < cfg.nconn
    requires var s := Exec(cfg, Init(cfg), labels); |s.conns| == cfg.nconn && s.cur == -1 && s.conns[f] == Read(0)
    ensures var s := Exec(cfg, Init(cfg), labels);
      Exec(cfg, Init(cfg), labels + Request(cfg, f)) == s.(conns := s.conns[f := Encrypt(s.shared)])
  {
    hide Exec, Init;
    var s := Exec(cfg, Init(cfg), labels);
    var t := labels;
    Then(cfg, t, Resume(f));
    t := t + [Resume(f)];
    assert Exec(cfg, Init(cfg), t) == s.(cur := f);
    Then(cfg, t, Go(Again));
    t := t + [Go(Again)];
    assert Exec(cfg, Init(cfg), t) == s.(cur := f, conns := s.conns[f := Recv(0)]);
    Then(cfg, t, Go(Got(cfg.req)));
    t := t + [Go(Got(cfg.req))];
    assert Exec(cfg, Init(cfg), t) == s.(cur := f, conns := s.conns[f := Enter]);
    Then(cfg, t, Go(Again));
    assert t + [Go(Again)] == labels + Request(cfg, f);
  }

  /** Two handlers overlap: both read 0, both write 1. */
  function Overlap(cfg: Config): seq<Label>
  {
    Request(cfg, 0) + Request(cfg, 1)
  }

  function Race(cfg: Config): seq<Label>
  {
    Overlap(cfg) + [Resume(0), Go(Again), Go(Again), Go(Again), Resume(1), Go(Again)]
  }

  lemma {:induction false} OverlapParks(cfg: Config)
    requires cfg.req > 0 && !Guarded(cfg)
    ensures var s := Exec(cfg, Init(cfg), Overlap(cfg));
      s == Init(cfg).(conns := s.conns) && |s.conns| == cfg.nconn && s.conns[0] == s.conns[1] == Encrypt(0)
  {
    var none: seq<Label> := [];
    RequestParks(cfg, none, 0);
    assert none + Request(cfg, 0) == Request(cfg, 0);
    RequestParks(cfg, Request(cfg, 0), 1);
  }

  lemma {:induction false} RaceLoses(cfg: Config)
    requires cfg.req > 0 && !Guarded(cfg)
    ensures var s := Exec(cfg, Init(cfg), Race(cfg)); s.total == 2 && s.shared == 1
  {
    hide Exec, Overlap;
    OverlapParks(cfg);
    var t := Overlap(cfg);
    var s0 := Exec(cfg, Init(cfg), t);
    var t1 := t + [Resume(0)];
    Then(cfg, t, Resume(0));
    var t2 := t1 + [Go(Again)];
    Then(cfg, t1, Go(Again));
    assert Exec(cfg, Init(cfg), t2).shared == 1;
    var t3 := t2 + [Go(Again)];
    Then(cfg, t2, Go(Again));
    var t4 := t3 + [Go(Again)];
    Then(cfg, t3, Go(Again));
    assert Exec(cfg, Init(cfg), t4).cur == -1;
    var t5 := t4 + [Resume(1)];
    Then(cfg, t4, Resume(1));
    Then(cfg, t5, Go(Again));
    assert t5 + [Go(Again)] == Race(cfg);
  }

  ghost predicate NeverLoses(cfg: Config)
  {
    forall labels: seq<Label> :: Exec(cfg, Init(cfg), labels).shared == Exec(cfg, Init(cfg), labels).total
  }

  /** Updates survive every schedule exactly when the handlers are guarded. */
  lemma {:induction false} SafeIffGuarded(cfg: Config)
    requires cfg.req > 0
    ensures NeverLoses(cfg) <==> Guarded(cfg)
  {
    if Guarded(cfg) {
      forall labels: seq<Label> ensures Exec(cfg, Init(cfg), labels).shared == Exec(cfg, Init(cfg), labels).total {
        GuardedLosesNothing(cfg, labels, 0, 0);
      }
    } else {
      RaceLoses(cfg);
    }
  }
}
