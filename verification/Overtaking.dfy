/**
 How far one coroutine of the conflict detector gets while another one's offload is open. Each submission is due one
 latency after it is made and the device completes all slots that are due in one sweep, so it cannot be far; it is more
 than one iteration because the device may act on the deadline of a slot's previous submission, because a sweep and a
 pass of the dispatcher may meet at any two coroutines, and because several sweeps may fall into one latency.
 */
module Overtaking {
  import opened DetectorClock

  // ---------- What is left of an open offload, as the other coroutine sees it ----------

  function Bit(b: bool): nat
  {
    if b then 1 else 0
  }

  /** Completed or about to run: one more turn it need not wait for. */
  predicate Pending(x: Cell)
  {
    Soon(x) || (x.phase.Waiting? && x.slot.done)
  }

  /** The device has decided to complete slot k. */
  predicate Decided(c: Clock, k: nat)
    requires k < |c.cells|
  {
    c.dev.i == k && c.dev.look.Due? && !c.cells[k].slot.done
  }

  /** The slot's deadline has been written by a submission. */
  predicate Written(c: Clock, k: nat)
    requires k < |c.cells|
  {
    c.cells[k].begun > 1 || (c.cells[k].begun == 1 && c.pc != Setting(k))
  }

  /** How often slot k can be completed by sweeps that began before time d: for the submission in it, and for the next
      one as long as its deadline is not written. */
  function Stale(c: Clock, k: nat, d: nat): nat
    requires k < |c.cells|
  {
    var x := c.cells[k];
    if x.phase.Finished? then 0
    else if !Written(c, k) || x.slot.deadline >= d then Bit(Decided(c, k))
    else if c.pc == Setting(k) then Bit(!x.slot.done)
    else if Pending(x) then 1
    else 2
  }

  /** The sweep in progress will complete slot k. */
  predicate InSweep(c: Clock, k: nat)
    requires k < |c.cells|
  {
    c.dev.t >= c.cells[k].slot.deadline && c.dev.i <= k
  }

  /** The rest of the sweep in progress may complete slot k. */
  predicate Catches(c: Clock, k: nat)
    requires k < |c.cells|
  {
    var x := c.cells[k];
    Decided(c, k) || (c.dev.i <= k && Written(c, k) && x.slot.deadline <= c.dev.t && !x.phase.Finished?)
  }

  /** How many more iterations coroutine i can begin before the open iteration of j ends, for i < j, */
  function LowerLeft(c: Clock, i: nat, j: nat): nat
    requires i < j < |c.cells|
  {
    var x, y := c.cells[i], c.cells[j];
    match y.phase
    case Fresh => Bit(x.phase.Fresh?)
    case Finished => 0
    case Ready => Bit(Soon(x))
    case Waiting =>
      if Submitting(c, j) then 4
      else if y.slot.done then if c.pc.Reaping? && c.pc.k <= j then 1 else Bit(Soon(x)) + 1
      else if InSweep(c, j) then Bit(Pending(x)) + Bit(c.dev.i <= i) + 1
      else Bit(Pending(x)) + Stale(c, i, y.slot.deadline) + 2
  }

  /** and how many more j can before that of i does. */
  function UpperLeft(c: Clock, i: nat, j: nat): nat
    requires i < j < |c.cells|
  {
    var x, y := c.cells[j], c.cells[i];
    match y.phase
    case Fresh => 0
    case Finished => 0
    case Ready => 0
    case Waiting =>
      if Submitting(c, i) then if x.phase.Fresh? then 2 else 3
      else if y.slot.done then
        if !c.pc.Reaping? || c.pc.k > j then Bit(Soon(x)) else Bit(c.pc.k > i)
      else if InSweep(c, i) then Bit(Pending(x)) + 1
      else if c.dev.t < y.slot.deadline then Bit(Pending(x)) + Stale(c, j, y.slot.deadline) + 1
      else Bit(Pending(x)) + Bit(Catches(c, j)) + 1
  }

  // ---------- The invariant ----------

  ghost predicate PairOk(q: Setup, c: Clock, i: nat, j: nat)
  {
    && i < j < |c.cells| <= q.nslots && c.dev.i < q.nslots && c.dev.t <= c.now && q.latency > 0
    && CellOk(q, c, i) && CellOk(q, c, j)
    && (c.cells[i].phase.Fresh? ==> c.cells[j].phase.Fresh?)
    && (c.cells[j].phase.Fresh? && !c.cells[i].phase.Fresh? ==>
          !c.pc.Reaping? && i <= c.pc.k <= j && (c.pc.k == i ==> Submitting(c, i)))
  }

  ghost predicate LowerOk(c: Clock, i: nat, j: nat)
    requires i < j < |c.cells|
  {
    !c.cells[j].phase.Finished? ==> c.cells[i].begun + LowerLeft(c, i, j) <= 4 * c.cells[j].begun + 1
  }

  ghost predicate UpperOk(c: Clock, i: nat, j: nat)
    requires i < j < |c.cells|
  {
    c.cells[i].phase.Waiting? || c.cells[i].phase.Ready? ==>
      c.cells[j].begun + UpperLeft(c, i, j) + 1 <= 3 * c.cells[i].begun
  }

  lemma {:induction false} GoPair(q: Setup, c: Clock, i: nat, j: nat)
    requires PairOk(q, c, i, j)
    ensures PairOk(q, Go(q, c), i, j)
  {
    GoCell(q, c, i);
    GoCell(q, c, j);
  }

  lemma {:induction false} AwayPair(q: Setup, c: Clock, i: nat, j: nat, o: Other)
    requires PairOk(q, c, i, j)
    ensures PairOk(q, Away(q, c, o), i, j)
  {
    AwayCell(q, c, i, o);
    AwayCell(q, c, j, o);
    hide CellOk;
  }

  lemma {:induction false} ReapLower(q: Setup, c: Clock, i: nat, j: nat)
    requires PairOk(q, c, i, j) && LowerOk(c, i, j) && c.pc.Reaping?
    ensures LowerOk(Go(q, c), i, j)
  {
  }

  lemma {:induction false} RunLower(q: Setup, c: Clock, i: nat, j: nat)
    requires PairOk(q, c, i, j) && LowerOk(c, i, j) && c.pc.Running?
    ensures LowerOk(Go(q, c), i, j)
  {
  }

  lemma {:induction false} WriteLower(q: Setup, c: Clock, i: nat, j: nat)
    requires PairOk(q, c, i, j) && LowerOk(c, i, j) && (c.pc.Setting? || c.pc.Activating?)
    ensures LowerOk(Go(q, c), i, j)
  {
  }

  lemma {:induction false} MarkLower(q: Setup, c: Clock, i: nat, j: nat)
    requires PairOk(q, c, i, j) && LowerOk(c, i, j) && c.dev.look.Due?
    ensures LowerOk(Away(q, c, Accesses), i, j)
  {
  }

  lemma {:induction false} LookLower(q: Setup, c: Clock, i: nat, j: nat)
    requires PairOk(q, c, i, j) && LowerOk(c, i, j) && !c.dev.look.Due?
    ensures LowerOk(Away(q, c, Accesses), i, j)
  {
  }

  lemma {:induction false} ReapUpper(q: Setup, c: Clock, i: nat, j: nat)
    requires PairOk(q, c, i, j) && UpperOk(c, i, j) && c.pc.Reaping?
    ensures UpperOk(Go(q, c), i, j)
  {
  }

  lemma {:induction false} RunUpper(q: Setup, c: Clock, i: nat, j: nat)
    requires PairOk(q, c, i, j) && UpperOk(c, i, j) && c.pc.Running?
    ensures UpperOk(Go(q, c), i, j)
  {
  }

  lemma {:induction false} WriteUpper(q: Setup, c: Clock, i: nat, j: nat)
    requires PairOk(q, c, i, j) && UpperOk(c, i, j) && (c.pc.Setting? || c.pc.Activating?)
    ensures UpperOk(Go(q, c), i, j)
  {
  }

  lemma {:induction false} MarkUpper(q: Setup, c: Clock, i: nat, j: nat)
    requires PairOk(q, c, i, j) && UpperOk(c, i, j) && c.dev.look.Due?
    ensures UpperOk(Away(q, c, Accesses), i, j)
  {
  }

  lemma {:induction false} LookUpper(q: Setup, c: Clock, i: nat, j: nat)
    requires PairOk(q, c, i, j) && UpperOk(c, i, j) && !c.dev.look.Due?
    ensures UpperOk(Away(q, c, Accesses), i, j)
  {
  }

  lemma {:induction false} GoBounded(q: Setup, c: Clock, i: nat, j: nat)
    requires PairOk(q, c, i, j) && LowerOk(c, i, j) && UpperOk(c, i, j)
    ensures LowerOk(Go(q, c), i, j) && UpperOk(Go(q, c), i, j)
  {
    hide PairOk, LowerOk, UpperOk, Go;
    match c.pc
    case Reaping(_) => ReapLower(q, c, i, j); ReapUpper(q, c, i, j);
    case Running(_) => RunLower(q, c, i, j); RunUpper(q, c, i, j);
    case _ => WriteLower(q, c, i, j); WriteUpper(q, c, i, j);
  }

  lemma {:induction false} AwayBounded(q: Setup, c: Clock, i: nat, j: nat, o: Other)
    requires PairOk(q, c, i, j) && LowerOk(c, i, j) && UpperOk(c, i, j)
    ensures LowerOk(Away(q, c, o), i, j) && UpperOk(Away(q, c, o), i, j)
  {
    if o.Accesses? {
      hide PairOk, LowerOk, UpperOk, Away;
      if c.dev.look.Due? {
        MarkLower(q, c, i, j);
        MarkUpper(q, c, i, j);
      } else {
        LookLower(q, c, i, j);
        LookUpper(q, c, i, j);
      }
    }
  }

  // ---------- The theorem: for every device and every clock ----------

  lemma {:induction false} AwaysBounded(q: Setup, c: Clock, i: nat, j: nat, os: seq<Other>)
    requires PairOk(q, c, i, j) && LowerOk(c, i, j) && UpperOk(c, i, j)
    ensures var c' := Aways(q, c, os); PairOk(q, c', i, j) && LowerOk(c', i, j) && UpperOk(c', i, j)
    decreases |os|
  {
    if |os| > 0 {
      hide PairOk, LowerOk, UpperOk;
      AwaysBounded(q, c, i, j, os[..|os| - 1]);
      AwayPair(q, Aways(q, c, os[..|os| - 1]), i, j, os[|os| - 1]);
      AwayBounded(q, Aways(q, c, os[..|os| - 1]), i, j, os[|os| - 1]);
    }
  }

  lemma {:induction false} Always(q: Setup, ncoro: nat, env: Env, m: nat, i: nat, j: nat)
    requires i < j < ncoro <= q.nslots && q.latency > 0
    ensures var c := At(q, ncoro, env, m); PairOk(q, c, i, j) && LowerOk(c, i, j) && UpperOk(c, i, j)
  {
    if m > 0 {
      Always(q, ncoro, env, m - 1, i, j);
      var c := At(q, ncoro, env, m - 1);
      hide PairOk, LowerOk, UpperOk;
      GoPair(q, c, i, j);
      GoBounded(q, c, i, j);
      AwaysBounded(q, Go(q, c), i, j, env(m - 1));
    }
  }

  /** It has begun an iteration and not ended it. */
  predicate Open(x: Cell)
  {
    x.phase.Waiting? || x.phase.Ready?
  }

  /** Iteration a of coroutine i and iteration b of coroutine j are near enough to be open at the same time. */
  predicate Near(i: nat, a: nat, j: nat, b: nat)
  {
    if i < j then a <= 4 * b + 4 && b <= 3 * a + 1 else b <= 4 * a + 4 && a <= 3 * b + 1
  }

  /** Whatever the device and the clock do, two iterations that are open at the same time are near each other. */
  lemma {:induction false} OpenAreNear(q: Setup, ncoro: nat, env: Env, m: nat, i: nat, j: nat)
    requires i != j && i < ncoro && j < ncoro <= q.nslots && q.latency > 0
    ensures var c := At(q, ncoro, env, m);
      Open(c.cells[i]) && Open(c.cells[j]) ==>
        && c.cells[i].begun > 0 && c.cells[j].begun > 0
        && Near(i, c.cells[i].begun - 1, j, c.cells[j].begun - 1)
  {
    Always(q, ncoro, env, m, if i < j then i else j, if i < j then j else i);
  }
}
