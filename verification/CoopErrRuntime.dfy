/** The experiment's program. */
module CoopErrRuntime {
  import opened CoopErr

  class Experiment {
    const cfg: Config
    const co: array<Co>
    var errno: int
    var errQueue: seq<Code>
    var checks: nat
    var corruptionErrno: nat
    var corruptionErr: nat
    ghost var trace: seq<nat>

    ghost function View(): State
      reads this, co
    {
      State(errno, errQueue, co[..], checks, corruptionErrno, corruptionErr)
    }

    ghost predicate Valid()
      reads this, co
    {
      co.Length == cfg.nco && View() == Exec(cfg, Init(cfg), trace)
    }

    constructor (cfg: Config)
      ensures Valid() && trace == [] && this.cfg == cfg && fresh(co)
    {
      this.cfg := cfg;
      co := new Co[cfg.nco](_ => Co(0, false, false, 0, []));
      errno, errQueue, checks, corruptionErrno, corruptionErr, trace := 0, [], 0, 0, 0, [];
      new;
      assert co[..] == Init(cfg).cos;
    }

    /** `ERR_get_error`: the oldest code, removed; nothing when the queue is empty. */
    method GetError() returns (some: bool, e: Code)
      modifies this`errQueue
      ensures some == (old(errQueue) != [])
      ensures some ==> e == old(errQueue)[0] && errQueue == old(errQueue)[1..]
      ensures !some ==> errQueue == []
    {
      some := errQueue != [];
      e := Code(0, 0);
      if some {
        e := errQueue[0];
        errQueue := errQueue[1..];
      }
    }

    /** `err_drain`: the error is taken off the queue before the room for it is looked at. */
    method ErrDrain(i: nat)
      requires i < co.Length
      modifies this`errQueue, co
      ensures var (saved, left) := Drained(old(errQueue));
        errQueue == left && co[..] == old(co[..])[i := old(co[i]).(saved := saved)]
    {
      var q := errQueue;
      var saved: seq<Code> := [];
      var some, e := GetError();
      while some && |saved| < ERRBUF
        invariant co[..] == old(co[..]) && |saved| <= ERRBUF && |saved| <= |q| && saved == q[..|saved|]
        invariant some ==> |saved| < |q| && e == q[|saved|] && errQueue == q[|saved| + 1..]
        invariant !some ==> saved == q && errQueue == []
        decreases ERRBUF - |saved|
      {
        saved := saved + [e];
        some, e := GetError();
      }
      co[i] := co[i].(saved := saved);
    }

    /** `err_restore`: clear, then raise the saved codes in order. */
    method ErrRestore(i: nat)
      requires i < co.Length
      modifies this`errQueue
      ensures errQueue == co[i].saved
    {
      errQueue := [];
      for k := 0 to |co[i].saved|
        invariant errQueue == co[i].saved[..k]
      {
        errQueue := errQueue + [co[i].saved[k]];
      }
    }

    /** The body from the head of the loop to the switch. */
    method BeginRound(i: nat)
      requires i < co.Length
      modifies this`errno, this`errQueue, co
      ensures View() == Begin(cfg, old(View()), i)
    {
      if co[i].r >= cfg.rounds {
        co[i] := co[i].(done := true);
        return;
      }
      errno := 1000 + i;
      errQueue := [];
      errQueue := errQueue + [Code(ERR_LIB_USER, 0x100 + i)];
      assert errQueue == [MyCode(i)];
      if cfg.save {
        co[i] := co[i].(savedErrno := errno);
        ErrDrain(i);
      }
      co[i] := co[i].(parked := true);
    }

    /** The checks after the offload. */
    method CheckRound(i: nat)
      requires i < co.Length
      modifies this`checks, this`corruptionErrno, this`corruptionErr, co
      ensures View() == Check(old(View()), i)
    {
      checks := checks + 1;
      if errno != 1000 + i {
        corruptionErrno := corruptionErrno + 1;
      }
      if |errQueue| == 0 || errQueue[|errQueue| - 1].reason != 0x100 + i {
        corruptionErr := corruptionErr + 1;
      }
      co[i] := co[i].(r := co[i].r + 1, parked := false);
    }

    /** Switch to coroutine i until it switches back. */
    method Resume(i: nat)
      requires Valid() && i < co.Length && !co[i].done
      modifies this, co
      ensures Valid() && trace == old(trace) + [i] && View() == Step(cfg, old(View()), i)
    {
      if co[i].parked {
        if cfg.save {
          errno := co[i].savedErrno;
          ErrRestore(i);
        }
        CheckRound(i);
      }
      BeginRound(i);
      trace := trace + [i];
      assert trace[..|trace| - 1] == old(trace);
    }

    /** The inner loop of `main`: one pass; `live` counts who is not done. */
    method OnePass(ghost p: nat) returns (live: nat)
      requires Valid() && AtTurn(cfg, View(), p, 0)
      modifies this, co
      ensures Valid() && AtTurn(cfg, View(), p, cfg.nco) && live == if p < cfg.rounds then cfg.nco else 0
    {
      live := 0;
      for i := 0 to co.Length
        invariant Valid() && AtTurn(cfg, View(), p, i) && live == if p < cfg.rounds then i else 0
      {
        assert CoAt(cfg, View().cos[i], p, false);
        ghost var s := View();
        Resume(i);
        NextTurn(cfg, s, p, i);
        assert CoAt(cfg, View().cos[i], p, true);
        if !co[i].done {
          live := live + 1;
        }
      }
    }

    /** `main`'s loop, to the end: every round of every coroutine checked; no corruption when saving or alone, and
        otherwise all checks but one corrupted. */
    method RunAll()
      requires Valid() && trace == [] && cfg.nco > 0
      modifies this, co
      ensures Valid() && checks == cfg.nco * cfg.rounds
      ensures corruptionErrno == corruptionErr
        == if !cfg.save && cfg.nco >= 2 && cfg.rounds >= 1 then cfg.nco * cfg.rounds - 1 else 0
    {
      var live := cfg.nco;
      ghost var p := 0;
      while live > 0
        invariant Valid() && p <= cfg.rounds + 1
        invariant live > 0 ==> p <= cfg.rounds && AtTurn(cfg, View(), p, 0)
        invariant live == 0 ==> AtTurn(cfg, View(), cfg.rounds, cfg.nco)
        decreases live > 0, cfg.rounds - p
      {
        live := OnePass(p);
        if live > 0 {
          NextPass(cfg, View(), p);
        }
        p := p + 1;
      }
      if cfg.save {
        SavedIsClean(cfg, trace);
      } else if cfg.nco <= 1 || cfg.rounds == 0 {
        UndisturbedIsClean(cfg, trace);
      }
    }
  }
}
