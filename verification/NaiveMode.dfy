/** When a run of the conflict detector's naive mode, which neither validates nor locks, loses an update: exactly when
    two coroutines have an iteration on the same entry open at the same time. */
module NaiveMode {
  import opened ConflictDetector
  import opened Distinct
  import opened Sums

  function After(cfg: Config, labels: seq<Label>): (s: State)
    requires cfg.nkey > 0
    ensures Shaped(cfg, s)
  {
    Exec(cfg, Init(cfg), labels)
  }

  /** Iteration a of coroutine i and iteration b of coroutine j touch the same entry. */
  ghost predicate Collide(cfg: Config, i: nat, a: nat, j: nat, b: nat)
    requires cfg.nkey > 0
  {
    i < cfg.ncoro && j < cfg.ncoro && i != j && a < cfg.iters && b < cfg.iters && Key(cfg, i, a) == Key(cfg, j, b)
  }

  ghost predicate KeysCollide(cfg: Config)
    requires cfg.nkey > 0
  {
    exists i: nat, a: nat, j: nat, b: nat :: Collide(cfg, i, a, j, b)
  }

  /** Both have read the same entry and have not committed yet. */
  ghost predicate BothOn(cfg: Config, s: State, i: nat, j: nat)
    requires Shaped(cfg, s)
  {
    && i < cfg.ncoro && j < cfg.ncoro && i != j
    && s.coros[i].parked && s.coros[j].parked && MyKey(cfg, s, i) == MyKey(cfg, s, j)
  }

  ghost predicate Overlap(cfg: Config, s: State)
    requires Shaped(cfg, s)
  {
    exists i: nat, j: nat :: BothOn(cfg, s, i, j)
  }

  /** The sum of the entries is the number of commits. */
  ghost predicate LosesNothing(cfg: Config, labels: seq<Label>)
    requires cfg.nkey > 0
  {
    Sum(Vals(After(cfg, labels))) == After(cfg, labels).commits
  }

  // ---------- Without a collision ----------

  /** What a parked coroutine has read is still current, and so was what every commit was computed from. */
  ghost predicate Undisturbed(cfg: Config, s: State)
    requires Shaped(cfg, s)
  {
    Current(s.hist)
    && forall j: nat :: j < cfg.ncoro && s.coros[j].parked ==> s.coros[j].ver == s.cache[MyKey(cfg, s, j)].ver
  }

  lemma {:induction false} FinishStaysCurrent(cfg: Config, s: State, j: nat)
    requires Inv(cfg, s) && cfg.mode == Naive && Current(s.hist)
    requires j < cfg.ncoro && s.coros[j].ver == s.cache[MyKey(cfg, s, j)].ver
    ensures Current(Finish(cfg, s, j).hist)
  {
    CommitCounts(cfg, s, j, Entry(s.coros[j].v, s.coros[j].ver));
    assert |Log(s.hist, MyKey(cfg, s, j))| == s.cache[MyKey(cfg, s, j)].ver;
    hide Current, Log, Inv;
  }

  lemma {:induction false} FinishKeepsRead(cfg: Config, s: State, j: nat, i: nat)
    requires Shaped(cfg, s) && cfg.mode == Naive && !Overlap(cfg, s)
    requires j < cfg.ncoro && s.coros[j].parked && i < cfg.ncoro && i != j
    requires s.coros[i].parked && s.coros[i].ver == s.cache[MyKey(cfg, s, i)].ver
    ensures var s' := Finish(cfg, s, j);
      s'.coros[i] == s.coros[i] && s'.coros[i].ver == s'.cache[MyKey(cfg, s', i)].ver
  {
    assert !BothOn(cfg, s, i, j);
    hide Overlap, Key;
  }

  lemma {:induction false} FinishUndisturbed(cfg: Config, s: State, j: nat)
    requires Inv(cfg, s) && cfg.mode == Naive && !Overlap(cfg, s) && Undisturbed(cfg, s)
    requires j < cfg.ncoro && s.coros[j].parked
    ensures Undisturbed(cfg, Finish(cfg, s, j))
  {
    FinishStaysCurrent(cfg, s, j);
    assert !Finish(cfg, s, j).coros[j].parked;
    hide Inv, Current, Overlap, Finish, MyKey;
    forall i: nat | i < cfg.ncoro && Finish(cfg, s, j).coros[i].parked
      ensures Finish(cfg, s, j).coros[i].ver == Finish(cfg, s, j).cache[MyKey(cfg, Finish(cfg, s, j), i)].ver
    {
      FinishLeaves(cfg, s, j, i);
      FinishKeepsRead(cfg, s, j, i);
    }
  }

  lemma FinishLeaves(cfg: Config, s: State, j: nat, i: nat)
    requires Shaped(cfg, s) && j < cfg.ncoro && i < cfg.ncoro && i != j
    ensures Finish(cfg, s, j).coros[i] == s.coros[i]
  {
  }

  lemma {:induction false} BeginUndisturbed(cfg: Config, s: State, j: nat)
    requires Shaped(cfg, s) && cfg.mode == Naive && Undisturbed(cfg, s) && j < cfg.ncoro && !s.coros[j].parked
    ensures Undisturbed(cfg, Begin(cfg, s, j))
  {
    hide Current, Key;
  }

  lemma {:induction false} StepUndisturbed(cfg: Config, s: State, l: Label)
    requires Inv(cfg, s) && cfg.mode == Naive && !Overlap(cfg, s) && Undisturbed(cfg, s)
    ensures Undisturbed(cfg, Step(cfg, s, l))
  {
    if l.Dispatch? && l.j < cfg.ncoro && !s.coros[l.j].finished && !s.coros[l.j].waiting {
      assert Step(cfg, s, l) == Begin(cfg, if s.coros[l.j].parked then Finish(cfg, s, l.j) else s, l.j);
      if s.coros[l.j].parked {
        FinishUndisturbed(cfg, s, l.j);
        assert !Finish(cfg, s, l.j).coros[l.j].parked;
        hide Undisturbed, Inv, Overlap, Finish, Begin, Step;
        BeginUndisturbed(cfg, Finish(cfg, s, l.j), l.j);
      } else {
        hide Undisturbed, Inv, Overlap, Finish, Begin, Step;
        BeginUndisturbed(cfg, s, l.j);
      }
    } else {
      hide Inv, Overlap, Finish, Begin, Current, Key;
    }
  }

  lemma {:induction false} CurrentLosesNothing(cfg: Config, s: State)
    requires Inv(cfg, s) && Increments(cfg) && Current(s.hist)
    ensures Vals(s) == Vers(s)
  {
    forall k: nat | k < cfg.nkey ensures Vals(s)[k] == Vers(s)[k] {
      CurrentIsSerial(cfg, s.hist, k);
      ReplayCounts(cfg, s.hist, k);
    }
  }

  // ---------- With one ----------

  /** Fewer updates in the entry than commits on it. */
  predicate Lossy(cfg: Config, s: State, k: nat)
    requires Shaped(cfg, s)
  {
    k < cfg.nkey && s.cache[k].val < s.cache[k].ver
  }

  /** A version's value counts at most the commits up to it. */
  lemma {:induction false} ReadsAtMost(cfg: Config, s: State, j: nat)
    requires Inv(cfg, s) && cfg.mode == Naive && Increments(cfg) && j < cfg.ncoro && s.coros[j].parked
    ensures var e := s.cache[MyKey(cfg, s, j)];
      && s.coros[j].ver <= e.ver && s.coros[j].v <= s.coros[j].ver
      && (s.coros[j].ver == e.ver ==> s.coros[j].v == e.val)
  {
    var log, n := Log(s.hist, MyKey(cfg, s, j)), s.coros[j].ver;
    assert Remembers(cfg, s, j);
    SurvivorsCount(cfg, log, n);
    SubsetCard(Survivors(log, n), Ids(n));
  }

  /** A commit computed from an old version loses an update, and a lost update stays lost. */
  lemma {:induction false} FinishLoses(cfg: Config, s: State, j: nat)
    requires Inv(cfg, s) && cfg.mode == Naive && Increments(cfg) && j < cfg.ncoro && s.coros[j].parked
    ensures var k := MyKey(cfg, s, j);
      s.coros[j].ver < s.cache[k].ver || Lossy(cfg, s, k) ==> Lossy(cfg, Finish(cfg, s, j), k)
  {
    ReadsAtMost(cfg, s, j);
    hide Inv, Key;
  }

  /** Coroutine i has its iteration a, on key k, open. */
  ghost predicate HasOpen(cfg: Config, s: State, k: nat, i: nat, a: nat)
    requires Shaped(cfg, s)
  {
    Holds(cfg, s, i, k) && s.coros[i].iter == a
  }

  /** What it has read is not current any more. */
  ghost predicate Outdated(cfg: Config, s: State, i: nat)
    requires Shaped(cfg, s)
  {
    i < cfg.ncoro && s.coros[i].ver < s.cache[MyKey(cfg, s, i)].ver
  }

  /** What follows once iteration a of i and iteration b of j were open on key k at the same time. */
  ghost predicate Doomed(cfg: Config, s: State, k: nat, i: nat, a: nat, j: nat, b: nat)
    requires Shaped(cfg, s)
  {
    || Lossy(cfg, s, k)
    || (HasOpen(cfg, s, k, i, a) && HasOpen(cfg, s, k, j, b))
    || (HasOpen(cfg, s, k, i, a) && Outdated(cfg, s, i))
    || (HasOpen(cfg, s, k, j, b) && Outdated(cfg, s, j))
  }

  /** What a commit changes. */
  lemma {:induction false} FinishMoves(cfg: Config, s: State, x: nat)
    requires Shaped(cfg, s) && cfg.mode == Naive && x < cfg.ncoro
    ensures var s' := Finish(cfg, s, x);
      && Shaped(cfg, s') && !s'.coros[x].parked
      && (forall y: nat :: y < cfg.ncoro && y != x ==> s'.coros[y] == s.coros[y])
      && s'.cache[MyKey(cfg, s, x)].ver == s.cache[MyKey(cfg, s, x)].ver + 1
      && (forall k: nat :: k < cfg.nkey && k != MyKey(cfg, s, x) ==> s'.cache[k] == s.cache[k])
  {
  }

  /** Of the two that are open together, the first to commit leaves the other's value stale. */
  lemma {:induction false} FinishStales(cfg: Config, s: State, x: nat, k: nat, y: nat, a: nat)
    requires Inv(cfg, s) && cfg.mode == Naive && Increments(cfg) && x < cfg.ncoro && s.coros[x].parked
    requires x != y && HasOpen(cfg, s, k, y, a) && (MyKey(cfg, s, x) == k || Outdated(cfg, s, y))
    ensures HasOpen(cfg, Finish(cfg, s, x), k, y, a) && Outdated(cfg, Finish(cfg, s, x), y)
  {
    ReadsAtMost(cfg, s, y);
    FinishMoves(cfg, s, x);
    hide Inv, Increments, Key, Finish;
  }

  lemma {:induction false} FinishDooms(cfg: Config, s: State, x: nat, k: nat, i: nat, a: nat, j: nat, b: nat)
    requires Inv(cfg, s) && cfg.mode == Naive && Increments(cfg) && x < cfg.ncoro && s.coros[x].parked
    requires i != j && Doomed(cfg, s, k, i, a, j, b)
    ensures Doomed(cfg, Finish(cfg, s, x), k, i, a, j, b)
  {
    FinishMoves(cfg, s, x);
    FinishLoses(cfg, s, x);
    if x != i && HasOpen(cfg, s, k, i, a) && (MyKey(cfg, s, x) == k || Outdated(cfg, s, i)) {
      FinishStales(cfg, s, x, k, i, a);
    }
    if x != j && HasOpen(cfg, s, k, j, b) && (MyKey(cfg, s, x) == k || Outdated(cfg, s, j)) {
      FinishStales(cfg, s, x, k, j, b);
    }
    hide Inv, Increments, Key, Finish;
  }

  lemma {:induction false} BeginDooms(cfg: Config, s: State, x: nat, k: nat, i: nat, a: nat, j: nat, b: nat)
    requires Shaped(cfg, s) && cfg.mode == Naive && x < cfg.ncoro && !s.coros[x].parked
    requires Doomed(cfg, s, k, i, a, j, b)
    ensures Doomed(cfg, Begin(cfg, s, x), k, i, a, j, b)
  {
    hide Key;
  }

  lemma {:induction false} StepDooms(cfg: Config, s: State, l: Label, k: nat, i: nat, a: nat, j: nat, b: nat)
    requires Inv(cfg, s) && cfg.mode == Naive && Increments(cfg) && i != j && Doomed(cfg, s, k, i, a, j, b)
    ensures Doomed(cfg, Step(cfg, s, l), k, i, a, j, b)
  {
    if l.Dispatch? && l.j < cfg.ncoro && !s.coros[l.j].finished && !s.coros[l.j].waiting {
      assert Step(cfg, s, l) == Begin(cfg, if s.coros[l.j].parked then Finish(cfg, s, l.j) else s, l.j);
      if s.coros[l.j].parked {
        FinishDooms(cfg, s, l.j, k, i, a, j, b);
        FinishMoves(cfg, s, l.j);
        hide Doomed, Inv, Finish, Begin, Step;
        BeginDooms(cfg, Finish(cfg, s, l.j), l.j, k, i, a, j, b);
      } else {
        hide Doomed, Inv, Finish, Begin, Step;
        BeginDooms(cfg, s, l.j, k, i, a, j, b);
      }
    } else {
      hide Inv, Finish, Begin, Key;
    }
  }

  lemma {:induction false} SumAtLeast(s: seq<int>, k: nat)
    requires k < |s| && forall i :: 0 <= i < |s| ==> s[i] >= 0
    ensures Sum(s) >= s[k]
  {
    SumUpdate(s, k, 0);
    SumNonNegative(s[k := 0]);
  }

  /** The sum of the entries falls short of the commits. */
  lemma {:induction false} LossyLoses(cfg: Config, s: State, k: nat)
    requires Inv(cfg, s) && Increments(cfg) && Lossy(cfg, s, k)
    ensures Sum(Vals(s)) < s.commits
  {
    LossOf(cfg, s);
    assert s.commits == Sum(Vers(s));
    hide Inv, Increments, Log, Lost;
    SumAtLeast(Losses(cfg, s), k);
  }

  lemma {:induction false} UndisturbedLosesNothing(cfg: Config, s: State)
    requires Inv(cfg, s) && Increments(cfg) && Undisturbed(cfg, s)
    ensures Sum(Vals(s)) == s.commits
  {
    CurrentLosesNothing(cfg, s);
    assert s.commits == Sum(Vers(s));
  }

  // ---------- The condition ----------

  lemma {:induction false} RunsOn(cfg: Config, labels: seq<Label>, n: nat)
    requires cfg.nkey > 0 && n <= |labels|
    ensures Inv(cfg, After(cfg, labels[..n]))
    ensures n > 0 ==> After(cfg, labels[..n]) == Step(cfg, After(cfg, labels[..n - 1]), labels[n - 1])
  {
    InitOk(cfg);
    ExecKeeps(cfg, Init(cfg), labels[..n]);
    if n > 0 {
      assert labels[..n][..n - 1] == labels[..n - 1];
    }
  }

  lemma {:induction false} NoOverlapUndisturbed(cfg: Config, labels: seq<Label>, n: nat)
    requires cfg.nkey > 0 && cfg.mode == Naive && n <= |labels|
    requires forall m: nat :: m < n ==> !Overlap(cfg, After(cfg, labels[..m]))
    ensures Undisturbed(cfg, After(cfg, labels[..n]))
  {
    RunsOn(cfg, labels, n);
    if n > 0 {
      NoOverlapUndisturbed(cfg, labels, n - 1);
      RunsOn(cfg, labels, n - 1);
      assert !Overlap(cfg, After(cfg, labels[..n - 1]));
      hide Overlap, Undisturbed, Inv, After;
      StepUndisturbed(cfg, After(cfg, labels[..n - 1]), labels[n - 1]);
    }
  }

  lemma {:induction false} OverlapDooms(cfg: Config, labels: seq<Label>, m: nat, n: nat,
                                        k: nat, i: nat, a: nat, j: nat, b: nat)
    requires cfg.nkey > 0 && cfg.mode == Naive && Increments(cfg) && m <= n <= |labels|
    requires i != j && Doomed(cfg, After(cfg, labels[..m]), k, i, a, j, b)
    ensures Doomed(cfg, After(cfg, labels[..n]), k, i, a, j, b)
    decreases n
  {
    hide Doomed, Inv, After, Increments, Step;
    if m < n {
      OverlapDooms(cfg, labels, m, n - 1, k, i, a, j, b);
      RunsOn(cfg, labels, n - 1);
      RunsOn(cfg, labels, n);
      StepDooms(cfg, After(cfg, labels[..n - 1]), labels[n - 1], k, i, a, j, b);
    }
  }

  /** Under any schedule, a finished run has lost an update if and only if two coroutines were open on one entry at
      the same time. */
  lemma {:induction false} LosesIffOverlap(cfg: Config, labels: seq<Label>)
    requires cfg.nkey > 0 && cfg.mode == Naive && Increments(cfg) && AllFinished(After(cfg, labels))
    ensures LosesNothing(cfg, labels)
      <==> forall n: nat :: n <= |labels| ==> !Overlap(cfg, After(cfg, labels[..n]))
  {
    var z := |labels|;
    assert labels[..z] == labels;
    RunsOn(cfg, labels, z);
    if forall n: nat :: n <= z ==> !Overlap(cfg, After(cfg, labels[..n])) {
      NoOverlapUndisturbed(cfg, labels, z);
      UndisturbedLosesNothing(cfg, After(cfg, labels));
    } else {
      var n: nat :| n <= z && Overlap(cfg, After(cfg, labels[..n]));
      var s := After(cfg, labels[..n]);
      var i: nat, j: nat :| BothOn(cfg, s, i, j);
      var k, a, b := MyKey(cfg, s, i), s.coros[i].iter, s.coros[j].iter;
      OverlapDooms(cfg, labels, n, z, k, i, a, j, b);
      assert FlagsOk(cfg, After(cfg, labels));
      LossyLoses(cfg, After(cfg, labels), k);
    }
  }

  // ---------- When no two coroutines share an entry at all ----------

  lemma {:induction false} ApartNoOverlap(cfg: Config, s: State)
    requires Inv(cfg, s) && !KeysCollide(cfg)
    ensures !Overlap(cfg, s)
  {
    forall i: nat, j: nat ensures !BothOn(cfg, s, i, j) {
      if i < cfg.ncoro && j < cfg.ncoro {
        assert FlagsOk(cfg, s);
        assert !Collide(cfg, i, s.coros[i].iter, j, s.coros[j].iter);
      }
    }
  }

  lemma {:induction false} AlwaysUndisturbed(cfg: Config, labels: seq<Label>)
    requires cfg.nkey > 0 && cfg.mode == Naive && !KeysCollide(cfg)
    ensures Inv(cfg, After(cfg, labels)) && Undisturbed(cfg, After(cfg, labels))
  {
    forall m: nat | m < |labels| ensures !Overlap(cfg, After(cfg, labels[..m])) {
      RunsOn(cfg, labels, m);
      ApartNoOverlap(cfg, After(cfg, labels[..m]));
    }
    RunsOn(cfg, labels, |labels|);
    NoOverlapUndisturbed(cfg, labels, |labels|);
    assert labels[..|labels|] == labels;
  }

  /** Then no schedule loses an update at any time; in the other modes none ever does. */
  lemma {:induction false} DisjointLosesNothing(cfg: Config, labels: seq<Label>)
    requires cfg.nkey > 0 && Increments(cfg) && (cfg.mode != Naive || !KeysCollide(cfg))
    ensures LosesNothing(cfg, labels)
  {
    LossAccount(cfg, labels);
    if cfg.mode == Naive {
      AlwaysUndisturbed(cfg, labels);
      UndisturbedLosesNothing(cfg, After(cfg, labels));
    }
  }
}
