/** What a pass of the coroutine server's dispatcher gets done: a connection whose offload was complete, or whose event
    was reported, has had a turn by the end of it. */
module TcoProgress {
  import opened TcoServer

  /** Step k is a turn of connection i. */
  ghost predicate TurnAt(cfg: Config, trace: seq<Label>, k: nat, i: nat)
    requires k < |trace|
  {
    var w := After(cfg, trace[..k]);
    trace[k].Run? && trace[k].i == i && i < |w.conns| && w.batch == {} && CanRun(w, i, trace[k].io)
  }

  ghost predicate HadTurn(cfg: Config, trace: seq<Label>, a: nat, b: nat, i: nat)
    requires b <= |trace|
  {
    exists k: nat :: a <= k < b && TurnAt(cfg, trace, k, i)
  }

  /** Its offload is complete, but it has not been reaped. */
  predicate Reapable(w: World, i: nat)
    requires Shaped(w)
  {
    i < |w.conns| && w.conns[i].state == WaitOff && w.slots[i].done
  }

  /** It waits for an event, and epoll is to report it or has done so. */
  predicate Waits(w: World, i: nat, reported: bool)
    requires Shaped(w)
  {
    i < |w.conns| && w.conns[i].state == WaitIo && if reported then i in w.batch else w.armed[i].Some?
  }

  predicate IsRunnable(w: World, i: nat)
    requires Shaped(w)
  {
    i < |w.conns| && w.conns[i].state == Runnable
  }

  // ---------- One step ----------

  lemma {:induction false} StepLeaves(cfg: Config, w: World, l: Label, i: nat)
    requires Shaped(w)
    ensures var w' := Step(cfg, w, l);
      && (IsRunnable(w, i) && !(l.Run? && l.i == i && w.batch == {} && CanRun(w, i, l.io)) ==> IsRunnable(w', i))
      && (Reapable(w, i) ==> if l == Reap(i) then IsRunnable(w', i) else Reapable(w', i))
      && (Waits(w, i, true) ==> Waits(w', i, true) || IsRunnable(w', i))
      && (Waits(w, i, false) ==> Waits(w', i, l == Event(i)) || IsRunnable(w', i))
  {
    hide Advance;
  }

  // ---------- Many steps ----------

  lemma {:induction false} AfterOne(cfg: Config, trace: seq<Label>, k: nat)
    requires k < |trace|
    ensures After(cfg, trace[..k + 1]) == Step(cfg, After(cfg, trace[..k]), trace[k])
  {
    assert trace[..k + 1][..k] == trace[..k];
  }

  lemma {:induction false} RunnableTurns(cfg: Config, trace: seq<Label>, a: nat, b: nat, i: nat)
    requires a <= b <= |trace| && IsRunnable(After(cfg, trace[..a]), i)
    ensures HadTurn(cfg, trace, a, b, i) || IsRunnable(After(cfg, trace[..b]), i)
    decreases b
  {
    hide Step, After;
    if a < b {
      RunnableTurns(cfg, trace, a, b - 1, i);
      AfterOne(cfg, trace, b - 1);
      StepLeaves(cfg, After(cfg, trace[..b - 1]), trace[b - 1], i);
      if !HadTurn(cfg, trace, a, b - 1, i) && !IsRunnable(After(cfg, trace[..b]), i) {
        assert TurnAt(cfg, trace, b - 1, i);
      } else if k: nat :| a <= k < b - 1 && TurnAt(cfg, trace, k, i) {
      }
    }
  }

  /** Its offload is complete at step a, and it has been reaped by step b. */
  lemma {:induction false} ReapedTurns(cfg: Config, trace: seq<Label>, a: nat, b: nat, i: nat)
    requires a <= b <= |trace| && Reapable(After(cfg, trace[..a]), i)
    ensures HadTurn(cfg, trace, a, b, i) || IsRunnable(After(cfg, trace[..b]), i)
      || (Reapable(After(cfg, trace[..b]), i) && Reap(i) !in trace[a..b])
    decreases b - a
  {
    hide Step, After;
    if a < b {
      AfterOne(cfg, trace, a);
      StepLeaves(cfg, After(cfg, trace[..a]), trace[a], i);
      if IsRunnable(After(cfg, trace[..a + 1]), i) {
        RunnableTurns(cfg, trace, a + 1, b, i);
      } else {
        ReapedTurns(cfg, trace, a + 1, b, i);
        assert trace[a..b] == [trace[a]] + trace[a + 1..b];
      }
      if HadTurn(cfg, trace, a + 1, b, i) {
        var k: nat :| a + 1 <= k < b && TurnAt(cfg, trace, k, i);
      }
    }
  }

  /** It waits for an event at step a, which has been reported by step b. */
  lemma {:induction false} ReportedTurns(cfg: Config, trace: seq<Label>, a: nat, b: nat, i: nat, reported: bool)
    requires a <= b <= |trace| && Waits(After(cfg, trace[..a]), i, reported)
    ensures HadTurn(cfg, trace, a, b, i) || IsRunnable(After(cfg, trace[..b]), i)
      || Waits(After(cfg, trace[..b]), i, true)
      || (!reported && Waits(After(cfg, trace[..b]), i, false) && Event(i) !in trace[a..b])
    decreases b - a
  {
    hide Step, After;
    if a < b {
      AfterOne(cfg, trace, a);
      StepLeaves(cfg, After(cfg, trace[..a]), trace[a], i);
      if IsRunnable(After(cfg, trace[..a + 1]), i) {
        RunnableTurns(cfg, trace, a + 1, b, i);
      } else {
        ReportedTurns(cfg, trace, a + 1, b, i, reported || trace[a] == Event(i));
        assert trace[a..b] == [trace[a]] + trace[a + 1..b];
      }
      if HadTurn(cfg, trace, a + 1, b, i) {
        var k: nat :| a + 1 <= k < b && TurnAt(cfg, trace, k, i);
      }
    }
  }

  // ---------- A pass ----------

  /** Nothing is left of the batch, and every connection is parked or gone. */
  ghost predicate AllParked(w: World)
  {
    w.batch == {} && forall j :: 0 <= j < |w.conns| ==> w.conns[j].state in {WaitIo, WaitOff, Gone}
  }

  /** Between steps a and b, a connection that was reapable at a, or waited at a for an event that was then reported,
      has had a turn. */
  ghost predicate PassDone(cfg: Config, trace: seq<Label>, a: nat, b: nat)
  {
    && a <= b <= |trace| && AllParked(After(cfg, trace[..b]))
    && forall i: nat ::
         Reapable(After(cfg, trace[..a]), i) || (Waits(After(cfg, trace[..a]), i, false) && Event(i) in trace[a..b])
         ==> HadTurn(cfg, trace, a, b, i)
  }

  /** It is enough that the dispatcher looked at every slot and left everybody parked. */
  lemma {:induction false} PassIsDone(cfg: Config, trace: seq<Label>, a: nat, b: nat)
    requires a <= b <= |trace| && AllParked(After(cfg, trace[..b]))
    requires forall i: nat :: i < |After(cfg, trace[..a]).conns| ==> Reap(i) in trace[a..b]
    ensures PassDone(cfg, trace, a, b)
  {
    hide After, HadTurn;
    forall i: nat | Reapable(After(cfg, trace[..a]), i)
                    || (Waits(After(cfg, trace[..a]), i, false) && Event(i) in trace[a..b])
      ensures HadTurn(cfg, trace, a, b, i)
    {
      if Reapable(After(cfg, trace[..a]), i) {
        ReapedTurns(cfg, trace, a, b, i);
      } else {
        ReportedTurns(cfg, trace, a, b, i, false);
      }
    }
  }

  lemma {:induction false} PassKept(cfg: Config, trace: seq<Label>, more: seq<Label>, a: nat, b: nat)
    requires trace <= more && PassDone(cfg, trace, a, b)
    ensures PassDone(cfg, more, a, b)
  {
    hide After;
    assert more[..a] == trace[..a] && more[..b] == trace[..b] && more[a..b] == trace[a..b];
    forall i: nat | HadTurn(cfg, trace, a, b, i) ensures HadTurn(cfg, more, a, b, i) {
      var k: nat :| a <= k < b && TurnAt(cfg, trace, k, i);
      assert more[..k] == trace[..k];
      assert TurnAt(cfg, more, k, i);
    }
  }
}
