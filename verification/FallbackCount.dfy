/**
 What the conflict detector's counters count, told from the steps of a run and the history alone: a commit is in
 conflict if its entry was committed to after the coroutine read it, and that is when detect mode falls back.
 */
module FallbackCount {
  import opened ConflictDetector

  function At(cfg: Config, labels: seq<Label>): (s: State)
    requires cfg.nkey > 0
    ensures Shaped(cfg, s)
  {
    Exec(cfg, Init(cfg), labels)
  }

  /** The last step gave coroutine j the processor. */
  predicate GotTurn(cfg: Config, labels: seq<Label>, j: nat)
    requires cfg.nkey > 0 && |labels| > 0 && j < cfg.ncoro
  {
    var c := At(cfg, labels[..|labels| - 1]).coros[j];
    labels[|labels| - 1] == Dispatch(j) && !c.finished && !c.waiting
  }

  /** How many commits there had been when coroutine j was last on the processor: what it has read since then, it read
      at that point. */
  function ReadAt(cfg: Config, labels: seq<Label>, j: nat): nat
    requires cfg.nkey > 0 && j < cfg.ncoro
    decreases |labels|
  {
    if |labels| == 0 then 0
    else if GotTurn(cfg, labels, j) then |At(cfg, labels).hist|
    else ReadAt(cfg, labels[..|labels| - 1], j)
  }

  /** The last step made a commit on an entry that had been committed to since the coroutine read it. */
  ghost predicate InConflict(cfg: Config, labels: seq<Label>)
    requires cfg.nkey > 0 && |labels| > 0
  {
    var front := labels[..|labels| - 1];
    var h, h' := At(cfg, front).hist, At(cfg, labels).hist;
    && labels[|labels| - 1].j < cfg.ncoro && |h'| > |h|
    && OnKey(h, ReadAt(cfg, front, labels[|labels| - 1].j), h'[|h|].key)
  }

  /** The commits of the run that were in conflict. */
  ghost function Conflicts(cfg: Config, labels: seq<Label>): nat
    requires cfg.nkey > 0
    decreases |labels|
  {
    if |labels| == 0 then 0
    else Conflicts(cfg, labels[..|labels| - 1]) + if InConflict(cfg, labels) then 1 else 0
  }

  /** The turns that neither ended a coroutine nor brought it to its offload. */
  ghost function Retries(cfg: Config, labels: seq<Label>): nat
    requires cfg.nkey > 0
    decreases |labels|
  {
    if |labels| == 0 then 0
    else
      var j := labels[|labels| - 1].j;
      var c := if j < cfg.ncoro then At(cfg, labels).coros[j] else Coro(0, true, false, false, 0, 0);
      Retries(cfg, labels[..|labels| - 1])
      + if j < cfg.ncoro && GotTurn(cfg, labels, j) && !c.parked && !c.finished then 1 else 0
  }

  // ---------- What a turn does to a coroutine and the counters ----------

  /** The version read is the current one; another coroutine keeps what it has read. */
  lemma {:induction false} TurnReads(cfg: Config, s: State, j: nat, i: nat)
    requires Inv(cfg, s) && j < cfg.ncoro && i < cfg.ncoro && !s.coros[j].finished && !s.coros[j].waiting
    ensures var s' := Step(cfg, s, Dispatch(j));
      && (i == j && cfg.mode != Serial && s'.coros[j].parked ==> s'.coros[j].ver == s'.cache[MyKey(cfg, s', j)].ver)
      && (i != j ==> s'.coros[i] == s.coros[i])
  {
    hide Key;
  }

  lemma {:induction false} TurnCounts(cfg: Config, s: State, j: nat)
    requires Inv(cfg, s) && j < cfg.ncoro && !s.coros[j].finished && !s.coros[j].waiting
    ensures var s' := Step(cfg, s, Dispatch(j));
      && s'.fallbacks == s.fallbacks
           + (if cfg.mode == Detect && s.coros[j].parked && s.cache[MyKey(cfg, s, j)].ver != s.coros[j].ver
              then 1 else 0)
      && s'.lockwaits == s.lockwaits + (if !s'.coros[j].parked && !s'.coros[j].finished then 1 else 0)
      && (cfg.mode == Detect ==>
            s'.hist == if s.coros[j].parked
                       then s.hist + [Commit(j, s.coros[j].iter, MyKey(cfg, s, j), s.cache[MyKey(cfg, s, j)].ver)]
                       else s.hist)
  {
    hide Key;
  }

  /** Any other step leaves the counters, the history and what has been read. */
  lemma {:induction false} NoTurn(cfg: Config, s: State, l: Label)
    requires Shaped(cfg, s)
    requires !(l.Dispatch? && l.j < cfg.ncoro && !s.coros[l.j].finished && !s.coros[l.j].waiting)
    ensures var s' := Step(cfg, s, l);
      && s'.hist == s.hist && s'.fallbacks == s.fallbacks && s'.lockwaits == s.lockwaits
      && forall i: nat :: i < cfg.ncoro ==> s'.coros[i] == s.coros[i].(waiting := s'.coros[i].waiting)
  {
    hide Finish, Begin;
  }

  lemma {:induction false} StepOf(cfg: Config, labels: seq<Label>)
    requires cfg.nkey > 0
    ensures Inv(cfg, At(cfg, labels))
    ensures |labels| > 0 ==>
      At(cfg, labels) == Step(cfg, At(cfg, labels[..|labels| - 1]), labels[|labels| - 1])
  {
    InitOk(cfg);
    ExecKeeps(cfg, Init(cfg), labels);
  }

  // ---------- What a parked coroutine has read ----------

  /** The version that coroutine j remembers is the number of commits its entry had when j read it. */
  ghost predicate Knows(cfg: Config, labels: seq<Label>, j: nat)
    requires cfg.nkey > 0 && j < cfg.ncoro
  {
    var s, r := At(cfg, labels), ReadAt(cfg, labels, j);
    && r <= |s.hist|
    && (s.coros[j].parked ==> s.coros[j].ver == |Log(s.hist[..r], MyKey(cfg, s, j))|)
  }

  lemma {:induction false} TurnKnows(cfg: Config, labels: seq<Label>, j: nat)
    requires cfg.nkey > 0 && cfg.mode == Detect && |labels| > 0 && j < cfg.ncoro && GotTurn(cfg, labels, j)
    ensures Knows(cfg, labels, j)
  {
    var s, s' := At(cfg, labels[..|labels| - 1]), At(cfg, labels);
    StepOf(cfg, labels);
    StepOf(cfg, labels[..|labels| - 1]);
    TurnReads(cfg, s, j, j);
    assert s'.hist[..|s'.hist|] == s'.hist;
    assert CacheOk(cfg, s');
    hide Inv, At, Log, Step, Key;
  }

  lemma {:induction false} OthersKnow(cfg: Config, labels: seq<Label>, j: nat)
    requires cfg.nkey > 0 && cfg.mode == Detect && |labels| > 0 && j < cfg.ncoro && !GotTurn(cfg, labels, j)
    requires Knows(cfg, labels[..|labels| - 1], j)
    ensures Knows(cfg, labels, j)
  {
    var front, l := labels[..|labels| - 1], labels[|labels| - 1];
    var s, s' := At(cfg, front), At(cfg, labels);
    StepOf(cfg, labels);
    StepOf(cfg, front);
    if l.Dispatch? && l.j < cfg.ncoro && !s.coros[l.j].finished && !s.coros[l.j].waiting {
      TurnReads(cfg, s, l.j, j);
      TurnCounts(cfg, s, l.j);
    } else {
      NoTurn(cfg, s, l);
    }
    hide Inv, At, Log, Step, Key;
    assert s'.hist[..ReadAt(cfg, front, j)] == s.hist[..ReadAt(cfg, front, j)];
  }

  lemma {:induction false} AlwaysKnows(cfg: Config, labels: seq<Label>, j: nat)
    requires cfg.nkey > 0 && cfg.mode == Detect && j < cfg.ncoro
    ensures Knows(cfg, labels, j)
    decreases |labels|
  {
    if |labels| > 0 {
      AlwaysKnows(cfg, labels[..|labels| - 1], j);
      hide Knows;
      if GotTurn(cfg, labels, j) {
        TurnKnows(cfg, labels, j);
      } else {
        OthersKnow(cfg, labels, j);
      }
    }
  }

  // ---------- The counts ----------

  lemma {:induction false} TurnFallsBack(cfg: Config, labels: seq<Label>, j: nat)
    requires cfg.nkey > 0 && cfg.mode == Detect && |labels| > 0 && j < cfg.ncoro && GotTurn(cfg, labels, j)
    ensures At(cfg, labels).fallbacks
         == At(cfg, labels[..|labels| - 1]).fallbacks + if InConflict(cfg, labels) then 1 else 0
  {
    var front := labels[..|labels| - 1];
    var s := At(cfg, front);
    StepOf(cfg, labels);
    StepOf(cfg, front);
    TurnCounts(cfg, s, j);
    AlwaysKnows(cfg, front, j);
    LogGrows(s.hist, ReadAt(cfg, front, j), MyKey(cfg, s, j));
    assert CacheOk(cfg, s);
    hide Inv, Log, Step, Key, At, OnKey, ReadAt;
  }

  /** A step falls back exactly when it commits in conflict. */
  lemma {:induction false} StepFallsBack(cfg: Config, labels: seq<Label>)
    requires cfg.nkey > 0 && |labels| > 0
    ensures var s, s' := At(cfg, labels[..|labels| - 1]), At(cfg, labels);
      s'.fallbacks == s.fallbacks + if cfg.mode == Detect && InConflict(cfg, labels) then 1 else 0
  {
    var l := labels[|labels| - 1];
    var s := At(cfg, labels[..|labels| - 1]);
    StepOf(cfg, labels);
    StepOf(cfg, labels[..|labels| - 1]);
    hide At, Step, OnKey, ReadAt, Inv;
    if l.Dispatch? && l.j < cfg.ncoro && GotTurn(cfg, labels, l.j) {
      if cfg.mode == Detect {
        TurnFallsBack(cfg, labels, l.j);
      } else {
        TurnCounts(cfg, s, l.j);
      }
    } else {
      NoTurn(cfg, s, l);
    }
  }

  lemma {:induction false} StepRetries(cfg: Config, labels: seq<Label>)
    requires cfg.nkey > 0 && |labels| > 0
    ensures var s, s' := At(cfg, labels[..|labels| - 1]), At(cfg, labels);
      s'.lockwaits + Retries(cfg, labels[..|labels| - 1]) == s.lockwaits + Retries(cfg, labels)
  {
    var l := labels[|labels| - 1];
    var s := At(cfg, labels[..|labels| - 1]);
    StepOf(cfg, labels);
    StepOf(cfg, labels[..|labels| - 1]);
    hide At, Step, Inv;
    if l.Dispatch? && l.j < cfg.ncoro && GotTurn(cfg, labels, l.j) {
      TurnCounts(cfg, s, l.j);
    } else {
      NoTurn(cfg, s, l);
    }
  }

  /** On every run: detect mode has fallen back once for each commit whose entry was committed to between the
      coroutine's read and that commit; the other modes never; and the lock waits are the turns that led nowhere. */
  lemma {:induction false} CountersCount(cfg: Config, labels: seq<Label>)
    requires cfg.nkey > 0
    ensures var s := At(cfg, labels);
      && s.fallbacks == (if cfg.mode == Detect then Conflicts(cfg, labels) else 0)
      && s.lockwaits == Retries(cfg, labels)
    decreases |labels|
  {
    if |labels| > 0 {
      CountersCount(cfg, labels[..|labels| - 1]);
      StepFallsBack(cfg, labels);
      StepRetries(cfg, labels);
      hide At, InConflict, GotTurn;
    }
  }
}
