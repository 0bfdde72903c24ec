/** The conflict detector's specification and its clock, side by side: the dispatcher and the device move both. */
module TimedDetector {
  import opened ConflictDetector
  import opened DetectorClock

  datatype Machine = Machine(cfg: Config, latency: nat, nslots: nat)

  datatype Timed = Timed(base: State, clock: Clock)

  function SetupOf(w: Machine): Setup
  {
    Setup(w.cfg.iters, w.latency, w.nslots)
  }

  function Starts(w: Machine): (p: Timed)
    requires w.cfg.nkey > 0
    ensures Shaped(w.cfg, p.base)
  {
    Timed(Init(w.cfg), Begins(w.cfg.ncoro))
  }

  function GoBoth(w: Machine, p: Timed): (p': Timed)
    requires Shaped(w.cfg, p.base)
    ensures Shaped(w.cfg, p'.base)
  {
    var base := match p.clock.pc
      case Reaping(k) => Step(w.cfg, p.base, Reap(k))
      case Running(k) => Step(w.cfg, p.base, Dispatch(k))
      case _ => p.base;
    Timed(base, Go(SetupOf(w), p.clock))
  }

  function AwayBoth(w: Machine, p: Timed, o: Other): (p': Timed)
    requires Shaped(w.cfg, p.base)
    ensures Shaped(w.cfg, p'.base)
  {
    var base := if o.Accesses? && p.clock.dev.look.Due? then Step(w.cfg, p.base, Device(p.clock.dev.i)) else p.base;
    Timed(base, Away(SetupOf(w), p.clock, o))
  }

  function AwaysBoth(w: Machine, p: Timed, os: seq<Other>): (p': Timed)
    requires Shaped(w.cfg, p.base)
    ensures Shaped(w.cfg, p'.base)
  {
    if |os| == 0 then p else AwayBoth(w, AwaysBoth(w, p, os[..|os| - 1]), os[|os| - 1])
  }

  /** After m steps of the dispatcher, each followed by what happens at that moment. */
  function AtBoth(w: Machine, env: Env, m: nat): (p: Timed)
    requires w.cfg.nkey > 0
    ensures Shaped(w.cfg, p.base)
  {
    if m == 0 then Starts(w) else AwaysBoth(w, GoBoth(w, AtBoth(w, env, m - 1)), env(m - 1))
  }

  // ---------- They agree ----------

  ghost predicate Agree(base: Coro, slot: Slot, cell: Cell, submitting: bool)
  {
    && cell.begun == base.iter + (if base.parked then 1 else 0)
    && (cell.phase.Finished? <==> base.finished) && (cell.phase.Waiting? <==> base.waiting)
    && (cell.phase.Ready? <==> base.parked && !base.waiting)
    && slot == Slot(cell.slot.active || submitting, cell.slot.done)
  }

  ghost predicate AllAgree(w: Machine, p: Timed)
  {
    && Inv(w.cfg, p.base) && CellsOk(SetupOf(w), p.clock) && |p.clock.cells| == w.cfg.ncoro
    && forall k: nat :: k < w.cfg.ncoro ==>
         Agree(p.base.coros[k], p.base.slots[k], p.clock.cells[k], Submitting(p.clock, k))
  }

  /** What a dispatch does to a coroutine and its slot. */
  lemma {:induction false} DispatchMoves(cfg: Config, s: State, x: nat, k: nat)
    requires Inv(cfg, s) && cfg.mode != Lock && x < cfg.ncoro && k < cfg.ncoro
    ensures var c, c', d' := s.coros[k], Step(cfg, s, Dispatch(x)).coros[k], Step(cfg, s, Dispatch(x)).slots[k];
      var iter := if c.parked then c.iter + 1 else c.iter;
      if k != x || c.finished || c.waiting then c' == c && d' == s.slots[k]
      else if iter < cfg.iters then
        c'.iter == iter && c'.parked && c'.waiting && !c'.finished && d' == Slot(true, false)
      else c'.iter == iter && !c'.parked && !c'.waiting && c'.finished && d' == s.slots[k]
  {
    if x == k && !s.coros[k].finished && !s.coros[k].waiting {
      var s1 := if s.coros[k].parked then Finish(cfg, s, k) else s;
      assert FlagsOk(cfg, s);
      assert s1.slots == s.slots;
      assert s1.coros[k].iter == if s.coros[k].parked then s.coros[k].iter + 1 else s.coros[k].iter;
      assert !s1.coros[k].parked && !s1.coros[k].waiting && !s1.coros[k].finished;
      hide Finish, Inv, Key;
    } else {
      hide Inv, Key;
    }
  }

  lemma {:induction false} RunAgrees(w: Machine, p: Timed, k: nat)
    requires AllAgree(w, p) && w.cfg.mode != Lock && p.clock.pc.Running? && k < w.cfg.ncoro
    ensures var p' := GoBoth(w, p);
      Agree(p'.base.coros[k], p'.base.slots[k], p'.clock.cells[k], Submitting(p'.clock, k))
  {
    DispatchMoves(w.cfg, p.base, p.clock.pc.k, k);
    assert CellOk(SetupOf(w), p.clock, k);
    hide Inv, Step, CellsOk;
  }

  lemma {:induction false} GoAgreesAt(w: Machine, p: Timed, k: nat)
    requires AllAgree(w, p) && !p.clock.pc.Running? && k < w.cfg.ncoro
    ensures var p' := GoBoth(w, p);
      Agree(p'.base.coros[k], p'.base.slots[k], p'.clock.cells[k], Submitting(p'.clock, k))
  {
    assert CellOk(SetupOf(w), p.clock, k) && FlagsOk(w.cfg, p.base);
    hide Inv, CellsOk;
  }

  lemma {:induction false} GoAgrees(w: Machine, p: Timed)
    requires AllAgree(w, p) && w.cfg.mode != Lock
    ensures AllAgree(w, GoBoth(w, p))
  {
    GoCells(SetupOf(w), p.clock);
    StepKeeps(w.cfg, p.base, Reap(p.clock.pc.k));
    StepKeeps(w.cfg, p.base, Dispatch(p.clock.pc.k));
    var p' := GoBoth(w, p);
    assert Inv(w.cfg, p'.base) && p'.clock == Go(SetupOf(w), p.clock);
    hide GoBoth, Inv, CellsOk, Agree;
    forall k: nat | k < w.cfg.ncoro
      ensures Agree(p'.base.coros[k], p'.base.slots[k], p'.clock.cells[k], Submitting(p'.clock, k))
    {
      if p.clock.pc.Running? {
        RunAgrees(w, p, k);
      } else {
        GoAgreesAt(w, p, k);
      }
    }
  }

  lemma {:induction false} AwayAgreesAt(w: Machine, p: Timed, o: Other, k: nat)
    requires AllAgree(w, p) && k < w.cfg.ncoro
    ensures var p' := AwayBoth(w, p, o);
      Agree(p'.base.coros[k], p'.base.slots[k], p'.clock.cells[k], Submitting(p'.clock, k))
  {
    assert CellOk(SetupOf(w), p.clock, k) && FlagsOk(w.cfg, p.base);
    hide Inv, CellsOk;
  }

  lemma {:induction false} AwayAgrees(w: Machine, p: Timed, o: Other)
    requires AllAgree(w, p)
    ensures AllAgree(w, AwayBoth(w, p, o))
  {
    AwayCells(SetupOf(w), p.clock, o);
    StepKeeps(w.cfg, p.base, Device(p.clock.dev.i));
    var p' := AwayBoth(w, p, o);
    assert Inv(w.cfg, p'.base) && p'.clock == Away(SetupOf(w), p.clock, o);
    hide AwayBoth, Inv, CellsOk, Agree;
    forall k: nat | k < w.cfg.ncoro
      ensures Agree(p'.base.coros[k], p'.base.slots[k], p'.clock.cells[k], Submitting(p'.clock, k))
    {
      AwayAgreesAt(w, p, o, k);
    }
  }

  lemma {:induction false} AwaysAgree(w: Machine, p: Timed, os: seq<Other>)
    requires AllAgree(w, p)
    ensures AllAgree(w, AwaysBoth(w, p, os)) && AwaysBoth(w, p, os).clock == Aways(SetupOf(w), p.clock, os)
    decreases |os|
  {
    if |os| > 0 {
      hide AllAgree;
      AwaysAgree(w, p, os[..|os| - 1]);
      AwayAgrees(w, AwaysBoth(w, p, os[..|os| - 1]), os[|os| - 1]);
    }
  }

  ghost predicate Works(w: Machine)
  {
    w.cfg.nkey > 0 && w.cfg.ncoro <= w.nslots && w.nslots > 0
  }

  lemma {:induction false} StartsAgree(w: Machine)
    requires Works(w)
    ensures AllAgree(w, Starts(w))
  {
    InitOk(w.cfg);
    hide Inv;
  }

  lemma {:induction false} MomentAgrees(w: Machine, p: Timed, os: seq<Other>)
    requires AllAgree(w, p) && w.cfg.mode != Lock
    ensures var p' := AwaysBoth(w, GoBoth(w, p), os);
      AllAgree(w, p') && p'.clock == Aways(SetupOf(w), Go(SetupOf(w), p.clock), os)
  {
    GoAgrees(w, p);
    assert GoBoth(w, p).clock == Go(SetupOf(w), p.clock);
    hide AllAgree, GoBoth, Go;
    AwaysAgree(w, GoBoth(w, p), os);
  }

  lemma {:induction false} AtAgrees(w: Machine, env: Env, m: nat)
    requires Works(w) && w.cfg.mode != Lock
    ensures AllAgree(w, AtBoth(w, env, m)) && AtBoth(w, env, m).clock == At(SetupOf(w), w.cfg.ncoro, env, m)
  {
    hide AllAgree, AwaysBoth, GoBoth, Aways, Go;
    if m == 0 {
      StartsAgree(w);
    } else {
      AtAgrees(w, env, m - 1);
      MomentAgrees(w, AtBoth(w, env, m - 1), env(m - 1));
    }
  }
}
