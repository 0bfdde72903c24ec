/**
 For which parameters the conflict detector's program, run in naive mode, can lose an update: those for which two
 iterations that touch the same entry are near enough to be open at the same time.
 */
module NaiveRuns {
  import opened ConflictDetector
  import opened DetectorClock
  import opened NaiveMode
  import opened Overtaking
  import opened OvertakingRuns
  import opened Sums
  import opened TimedDetector

  ghost predicate Naively(w: Machine)
  {
    Works(w) && w.cfg.mode == Naive && Increments(w.cfg)
  }

  /** The sum of the entries is the number of commits. */
  ghost predicate Clean(w: Machine, env: Env, m: nat)
    requires Works(w)
  {
    Sum(Vals(AtBoth(w, env, m).base)) == AtBoth(w, env, m).base.commits
  }

  // ---------- A run that lost an update had two iterations on one entry open ----------

  lemma {:induction false} AwaysLeave(w: Machine, p: Timed, os: seq<Other>)
    requires Shaped(w.cfg, p.base)
    ensures var p' := AwaysBoth(w, p, os);
      p'.base == p.base.(slots := p'.base.slots)
    decreases |os|
  {
    if |os| > 0 {
      AwaysLeave(w, p, os[..|os| - 1]);
      hide Finish, Begin;
    }
  }

  lemma {:induction false} SlotsApart(cfg: Config, s: State, slots: seq<Slot>)
    requires Shaped(cfg, s) && |slots| == cfg.ncoro
    ensures Undisturbed(cfg, s) ==> Undisturbed(cfg, s.(slots := slots))
    ensures forall k: nat, i: nat, a: nat, j: nat, b: nat ::
      Doomed(cfg, s, k, i, a, j, b) ==> Doomed(cfg, s.(slots := slots), k, i, a, j, b)
  {
    hide Current, Key;
  }

  lemma {:induction false} MomentUndisturbed(w: Machine, p: Timed, os: seq<Other>)
    requires Naively(w) && Inv(w.cfg, p.base) && !Overlap(w.cfg, p.base) && Undisturbed(w.cfg, p.base)
    ensures Undisturbed(w.cfg, AwaysBoth(w, GoBoth(w, p), os).base)
  {
    var p' := GoBoth(w, p);
    hide Inv, Overlap, Undisturbed, Step, Naively;
    if p.clock.pc.Reaping? {
      StepUndisturbed(w.cfg, p.base, Reap(p.clock.pc.k));
    } else if p.clock.pc.Running? {
      StepUndisturbed(w.cfg, p.base, Dispatch(p.clock.pc.k));
    }
    assert Undisturbed(w.cfg, p'.base);
    hide GoBoth, AwaysBoth;
    AwaysLeave(w, p', os);
    SlotsApart(w.cfg, p'.base, AwaysBoth(w, p', os).base.slots);
  }

  lemma {:induction false} MomentDooms(w: Machine, p: Timed, os: seq<Other>, k: nat, i: nat, a: nat, j: nat, b: nat)
    requires Naively(w) && Inv(w.cfg, p.base) && i != j && Doomed(w.cfg, p.base, k, i, a, j, b)
    ensures Doomed(w.cfg, AwaysBoth(w, GoBoth(w, p), os).base, k, i, a, j, b)
  {
    var p' := GoBoth(w, p);
    hide Inv, Doomed, Step, Increments;
    if p.clock.pc.Reaping? {
      StepDooms(w.cfg, p.base, Reap(p.clock.pc.k), k, i, a, j, b);
    } else if p.clock.pc.Running? {
      StepDooms(w.cfg, p.base, Dispatch(p.clock.pc.k), k, i, a, j, b);
    }
    assert Doomed(w.cfg, p'.base, k, i, a, j, b);
    hide GoBoth, AwaysBoth;
    AwaysLeave(w, p', os);
    SlotsApart(w.cfg, p'.base, AwaysBoth(w, p', os).base.slots);
  }

  lemma {:induction false} NextMoment(w: Machine, env: Env, m: nat)
    requires Naively(w) && m > 0
    ensures Inv(w.cfg, AtBoth(w, env, m - 1).base)
    ensures AtBoth(w, env, m) == AwaysBoth(w, GoBoth(w, AtBoth(w, env, m - 1)), env(m - 1))
  {
    hide Inv;
    AtAgrees(w, env, m - 1);
  }

  lemma {:induction false} NoOverlapClean(w: Machine, env: Env, m: nat)
    requires Naively(w) && forall n: nat :: n < m ==> !Overlap(w.cfg, AtBoth(w, env, n).base)
    ensures Undisturbed(w.cfg, AtBoth(w, env, m).base)
  {
    if m > 0 {
      hide Inv, Overlap, Undisturbed, GoBoth, AwaysBoth, AtBoth, Increments, Shaped;
      NextMoment(w, env, m);
      NoOverlapClean(w, env, m - 1);
      assert !Overlap(w.cfg, AtBoth(w, env, m - 1).base);
      MomentUndisturbed(w, AtBoth(w, env, m - 1), env(m - 1));
    } else {
      hide Inv;
    }
  }

  lemma {:induction false} OverlapDoomsRun(w: Machine, env: Env, m: nat, n: nat,
                                           k: nat, i: nat, a: nat, j: nat, b: nat)
    requires Naively(w) && m <= n && i != j && Doomed(w.cfg, AtBoth(w, env, m).base, k, i, a, j, b)
    ensures Doomed(w.cfg, AtBoth(w, env, n).base, k, i, a, j, b)
    decreases n
  {
    hide Inv, Doomed, GoBoth, AwaysBoth, AtBoth, Increments, Shaped;
    if m < n {
      NextMoment(w, env, n);
      OverlapDoomsRun(w, env, m, n - 1, k, i, a, j, b);
      MomentDooms(w, AtBoth(w, env, n - 1), env(n - 1), k, i, a, j, b);
    }
  }

  /** Once both of two overlapping iterations have ended, an update is lost. */
  lemma {:induction false} BothEndedLoses(w: Machine, env: Env, m: nat, n: nat, i: nat, j: nat)
    requires Naively(w) && m <= n && BothOn(w.cfg, AtBoth(w, env, m).base, i, j)
    requires var s, s' := AtBoth(w, env, m).base, AtBoth(w, env, n).base;
      && !(s'.coros[i].parked && s'.coros[i].iter == s.coros[i].iter)
      && !(s'.coros[j].parked && s'.coros[j].iter == s.coros[j].iter)
    ensures !Clean(w, env, n)
  {
    var s := AtBoth(w, env, m).base;
    var k := MyKey(w.cfg, s, i);
    OverlapDoomsRun(w, env, m, n, k, i, s.coros[i].iter, j, s.coros[j].iter);
    AtAgrees(w, env, n);
    hide Inv;
    LossyLoses(w.cfg, AtBoth(w, env, n).base, k);
  }

  /** A finished run of the program has lost an update if and only if at some moment two coroutines were open on one
      entry. */
  lemma {:induction false} CleanIffNoOverlap(w: Machine, env: Env, m: nat)
    requires Naively(w) && AllFinished(AtBoth(w, env, m).base)
    ensures Clean(w, env, m) <==> forall n: nat :: n <= m ==> !Overlap(w.cfg, AtBoth(w, env, n).base)
  {
    AtAgrees(w, env, m);
    assert FlagsOk(w.cfg, AtBoth(w, env, m).base);
    hide Inv;
    if forall n: nat :: n <= m ==> !Overlap(w.cfg, AtBoth(w, env, n).base) {
      NoOverlapClean(w, env, m);
      UndisturbedLosesNothing(w.cfg, AtBoth(w, env, m).base);
    } else {
      var n: nat :| n <= m && Overlap(w.cfg, AtBoth(w, env, n).base);
      var i: nat, j: nat :| BothOn(w.cfg, AtBoth(w, env, n).base, i, j);
      BothEndedLoses(w, env, n, m, i, j);
    }
  }

  // ---------- The condition on the parameters ----------

  /** Two iterations on one entry that are near each other. */
  ghost predicate NearCollision(cfg: Config)
    requires cfg.nkey > 0
  {
    exists i: nat, a: nat, j: nat, b: nat :: Collide(cfg, i, a, j, b) && Near(i, a, j, b)
  }

  /** What the clock's cell says about the coroutine. */
  lemma {:induction false} OpenIsParked(w: Machine, env: Env, m: nat, i: nat)
    requires Naively(w) && i < w.cfg.ncoro
    ensures var c, x := AtBoth(w, env, m).base.coros[i], At(SetupOf(w), w.cfg.ncoro, env, m).cells[i];
      (c.parked <==> Open(x)) && (c.parked ==> x.begun == c.iter + 1)
  {
    AtAgrees(w, env, m);
    assert FlagsOk(w.cfg, AtBoth(w, env, m).base);
    hide Inv, AtBoth, At, CellsOk;
  }

  lemma {:induction false} ApartNeverOverlap(w: Machine, env: Env, m: nat)
    requires Naively(w) && w.latency > 0 && !NearCollision(w.cfg)
    ensures !Overlap(w.cfg, AtBoth(w, env, m).base)
  {
    var p := AtBoth(w, env, m);
    AtAgrees(w, env, m);
    assert FlagsOk(w.cfg, p.base);
    hide Inv, Key, AtBoth, At;
    forall i: nat, j: nat ensures !BothOn(w.cfg, p.base, i, j) {
      if i < w.cfg.ncoro && j < w.cfg.ncoro && i != j {
        OpenIsParked(w, env, m, i);
        OpenIsParked(w, env, m, j);
        OpenAreNear(SetupOf(w), w.cfg.ncoro, env, m, i, j);
        var a, b := p.base.coros[i].iter, p.base.coros[j].iter;
        assert !(Collide(w.cfg, i, a, j, b) && Near(i, a, j, b));
      }
    }
  }

  /** Without such a pair nothing is ever lost, whatever the device and the clock do. */
  lemma {:induction false} ApartIsClean(w: Machine, env: Env, m: nat)
    requires Naively(w) && w.latency > 0 && !NearCollision(w.cfg)
    ensures Clean(w, env, m)
  {
    forall n: nat | n < m ensures !Overlap(w.cfg, AtBoth(w, env, n).base) {
      ApartNeverOverlap(w, env, n);
    }
    AtAgrees(w, env, m);
    NoOverlapClean(w, env, m);
    hide Inv;
    UndisturbedLosesNothing(w.cfg, AtBoth(w, env, m).base);
  }

  lemma {:induction false} FinishedStep(cfg: Config, s: State, l: Label)
    requires Inv(cfg, s) && AllFinished(s)
    ensures Step(cfg, s, l).coros == s.coros
  {
    assert FlagsOk(cfg, s);
    hide Begin, Finish;
  }

  lemma {:induction false} FinishedMoment(w: Machine, p: Timed, os: seq<Other>)
    requires Works(w) && Inv(w.cfg, p.base) && AllFinished(p.base)
    ensures AllFinished(AwaysBoth(w, GoBoth(w, p), os).base)
  {
    assert Shaped(w.cfg, p.base);
    hide Inv, Step, AwaysBoth;
    FinishedStep(w.cfg, p.base, Reap(p.clock.pc.k));
    FinishedStep(w.cfg, p.base, Dispatch(p.clock.pc.k));
    AwaysLeave(w, GoBoth(w, p), os);
  }

  lemma {:induction false} FinishedStays(w: Machine, env: Env, n: nat, m: nat)
    requires Naively(w) && n <= m && AllFinished(AtBoth(w, env, n).base)
    ensures AllFinished(AtBoth(w, env, m).base)
    decreases m
  {
    hide Inv, AtBoth, GoBoth, AwaysBoth, AllFinished, Increments, Shaped;
    if n < m {
      FinishedStays(w, env, n, m - 1);
      NextMoment(w, env, m);
      FinishedMoment(w, AtBoth(w, env, m - 1), env(m - 1));
    }
  }

  /** With one, there are a device and a clock that go on for ever and with which an update is lost at some moment, and
      is lost whenever the run has finished. */
  lemma {:induction false} NearLoses(w: Machine, i: nat, a: nat, j: nat, b: nat) returns (env: Env, n: nat)
    requires Naively(w) && w.latency > 0 && Collide(w.cfg, i, a, j, b) && Near(i, a, j, b)
    ensures Fair(env) && !Clean(w, env, n)
    ensures forall k: nat :: AllFinished(AtBoth(w, env, k).base) ==> !Clean(w, env, k)
  {
    hide Fair, Key, AtBoth, At, Clean, Increments;
    var m;
    env, m, n := NearMeet(SetupOf(w), w.cfg.ncoro, i, a, j, b);
    OpenIsParked(w, env, m, i);
    OpenIsParked(w, env, m, j);
    OpenIsParked(w, env, n, i);
    OpenIsParked(w, env, n, j);
    assert BothOn(w.cfg, AtBoth(w, env, m).base, i, j);
    BothEndedLoses(w, env, m, n, i, j);
    forall k: nat | AllFinished(AtBoth(w, env, k).base) ensures !Clean(w, env, k) {
      EndsUnclean(w, env, m, k, i, j);
    }
  }

  lemma {:induction false} EndsUnclean(w: Machine, env: Env, m: nat, k: nat, i: nat, j: nat)
    requires Naively(w) && BothOn(w.cfg, AtBoth(w, env, m).base, i, j) && AllFinished(AtBoth(w, env, k).base)
    ensures !Clean(w, env, k)
  {
    AtAgrees(w, env, m);
    assert FlagsOk(w.cfg, AtBoth(w, env, m).base);
    hide Inv, Clean, AtBoth;
    if k < m {
      FinishedStays(w, env, k, m);
    }
    assert Overlap(w.cfg, AtBoth(w, env, m).base);
    CleanIffNoOverlap(w, env, k);
  }

  /** No run loses an update at any moment. */
  ghost predicate NeverLoses(w: Machine)
    requires Works(w)
  {
    forall env: Env, m: nat :: Fair(env) ==> Clean(w, env, m)
  }

  lemma {:induction false} SafeIffApart(w: Machine)
    requires Naively(w) && w.latency > 0
    ensures NeverLoses(w) <==> !NearCollision(w.cfg)
  {
    hide Fair, Clean, Collide;
    if NearCollision(w.cfg) {
      var i: nat, a: nat, j: nat, b: nat :| Collide(w.cfg, i, a, j, b) && Near(i, a, j, b);
      var env, n := NearLoses(w, i, a, j, b);
    } else {
      forall env: Env, m: nat ensures Clean(w, env, m) {
        ApartIsClean(w, env, m);
      }
    }
  }

  // ---------- For instance ----------

  lemma {:induction false} PlusMultiple(x: int, m: int)
    ensures (x + 64 * m) % 64 == x % 64
  {
  }

  lemma {:induction false} WordMod(x: nat)
    ensures (x % 0x1_0000_0000) % 64 == x % 64
  {
    PlusMultiple(x, -67108864 * (x / 0x1_0000_0000));
    assert x % 0x1_0000_0000 == x + 64 * (-67108864 * (x / 0x1_0000_0000));
  }

  /** Of two coroutines and 64 entries, iteration a of the first and b of the second touch the same entry exactly when
      a is 23 iterations ahead, or that and a multiple of 64. */
  lemma {:induction false} SameEntry(cfg: Config, a: nat, b: nat)
    requires cfg.nkey == 64
    ensures Key(cfg, 0, a) == Key(cfg, 1, b) <==> (a - b - 23) % 64 == 0
  {
    var x, y := 40503 * a, 2654435761 + 40503 * b;
    WordMod(x);
    WordMod(y);
    assert Key(cfg, 0, a) == x % 64 && Key(cfg, 1, b) == y % 64;
    hide Key;
    if x % 64 == y % 64 {
      var q := x / 64 - y / 64;
      assert x - y == 64 * q;
      PlusMultiple(0, 7 * q - 4430 * (a - b) + 290328911);
    }
    if (a - b - 23) % 64 == 0 {
      var q := (a - b - 23) / 64;
      assert a - b == 64 * q + 23;
      PlusMultiple(y, 40503 * q - 41461003);
    }
  }

  lemma {:induction false} TwoCollide(cfg: Config)
    requires cfg.nkey == 64 && cfg.ncoro == 2
    ensures NearCollision(cfg) <==> cfg.iters > 30
  {
    hide Key;
    if cfg.iters > 30 {
      SameEntry(cfg, 30, 7);
      assert Collide(cfg, 0, 30, 1, 7) && Near(0, 30, 1, 7);
    } else {
      forall i: nat, a: nat, j: nat, b: nat ensures !(Collide(cfg, i, a, j, b) && Near(i, a, j, b)) {
        if i < 2 && j < 2 && i != j {
          SameEntry(cfg, if i == 0 then a else b, if i == 0 then b else a);
        }
      }
    }
  }

  /** Two coroutines on 64 entries lose nothing if and only if they make at most 30 iterations: the first pair that is
      near enough is iteration 30 of the first with iteration 7 of the second. */
  lemma {:induction false} TwoOnSixtyFour(w: Machine)
    requires Naively(w) && w.latency > 0 && w.cfg.nkey == 64 && w.cfg.ncoro == 2
    ensures NeverLoses(w) <==> w.cfg.iters <= 30
  {
    SafeIffApart(w);
    TwoCollide(w.cfg);
  }
}
