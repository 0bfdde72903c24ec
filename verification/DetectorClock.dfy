/**
 The conflict detector's program as a clock sees it: where the dispatcher is in its two loops, where the device is in
 its sweep over the slots, the time, and for each coroutine how many offloads it has begun and what its slot says. What
 is in the cache does not matter to this, as long as no coroutine waits for a lock.
 */
module DetectorClock {

  /** `struct slot`. */
  datatype DSlot = DSlot(deadline: nat, active: bool, done: bool)

  /** What the device thread has read of a slot: nothing yet, `active` set, `done` clear, the deadline passed. */
  datatype Look = Start | SawActive | NotDone | Due

  /** The device thread at slot i of a sweep that read the clock as t. */
  datatype Dev = Dev(i: nat, t: nat, look: Look)

  /** Between two steps of the dispatcher: time passes, or the device makes its next access. */
  datatype Other = Passes(dt: nat) | Accesses

  /** What the device and the clock do at each moment. */
  type Env = nat -> seq<Other>

  /** A coroutine has not run yet, waits for its offload, has been reaped and is to run, or has finished. */
  datatype Phase = Fresh | Waiting | Ready | Finished

  /** `begun`: how many iterations it has begun, each by reading its entry and submitting. */
  datatype Cell = Cell(begun: nat, phase: Phase, slot: DSlot)

  /** The dispatcher is about to look at coroutine k in its first or its second loop, or to make one of the last two
      writes of k's submission. */
  datatype Pc = Reaping(k: nat) | Running(k: nat) | Setting(k: nat) | Activating(k: nat)

  datatype Clock = Clock(cells: seq<Cell>, dev: Dev, now: nat, pc: Pc)

  datatype Setup = Setup(iters: nat, latency: nat, nslots: nat)

  function Begins(ncoro: nat): Clock
  {
    Clock(seq(ncoro, _ => Cell(0, Fresh, DSlot(0, false, false))), Dev(0, 0, Start), 0, Reaping(0))
  }

  // ---------- The dispatcher ----------

  function Put(c: Clock, k: nat, x: Cell): Clock
    requires k < |c.cells|
  {
    c.(cells := c.cells[k := x])
  }

  function Reaped(x: Cell): Cell
  {
    if x.phase.Waiting? && x.slot.done then x.(phase := Ready, slot := x.slot.(active := false)) else x
  }

  /** It is not waiting and has not finished. */
  predicate Soon(x: Cell)
  {
    x.phase.Fresh? || x.phase.Ready?
  }

  predicate Submits(q: Setup, x: Cell)
  {
    Soon(x) && x.begun < q.iters
  }

  /** Its turn: the iteration in progress ends and the next begins with the first write of its submission, if there
      is a next. */
  function Ran(q: Setup, x: Cell): Cell
  {
    if Submits(q, x) then Cell(x.begun + 1, Waiting, x.slot.(done := false))
    else if Soon(x) then x.(phase := Finished)
    else x
  }

  function NextTurn(ncoro: nat, k: nat): Pc
  {
    if k + 1 < ncoro then Running(k + 1) else Reaping(0)
  }

  /** The dispatcher's next step. */
  function Go(q: Setup, c: Clock): (c': Clock)
    ensures |c'.cells| == |c.cells|
  {
    if c.pc.k >= |c.cells| then c else
    var x := c.cells[c.pc.k];
    match c.pc
    case Reaping(k) => Put(c, k, Reaped(x)).(pc := if k + 1 < |c.cells| then Reaping(k + 1) else Running(0))
    case Running(k) => Put(c, k, Ran(q, x)).(pc := if Submits(q, x) then Setting(k) else NextTurn(|c.cells|, k))
    case Setting(k) => Put(c, k, x.(slot := x.slot.(deadline := c.now + q.latency))).(pc := Activating(k))
    case Activating(k) => Put(c, k, x.(slot := x.slot.(active := true))).(pc := NextTurn(|c.cells|, k))
  }

  // ---------- The device and the time ----------

  function GoneOn(dev: Dev, nslots: nat, now: nat): Dev
  {
    if dev.i + 1 < nslots then Dev(dev.i + 1, dev.t, Start) else Dev(0, now, Start)
  }

  /** Where a read of slot d takes the device. */
  function Looked(dev: Dev, d: DSlot, nslots: nat, now: nat): Dev
  {
    if dev.look.Start? && d.active then dev.(look := SawActive)
    else if dev.look.SawActive? && !d.done then dev.(look := NotDone)
    else if dev.look.NotDone? && dev.t >= d.deadline then dev.(look := Due)
    else GoneOn(dev, nslots, now)
  }

  /** Time passes, or the device makes its next access; slots that no coroutine uses are never active. */
  function Away(q: Setup, c: Clock, o: Other): (c': Clock)
    ensures |c'.cells| == |c.cells|
  {
    match o
    case Passes(dt) => c.(now := c.now + dt)
    case Accesses =>
      if c.dev.i >= |c.cells| then c.(dev := GoneOn(c.dev, q.nslots, c.now))
      else
        var x := c.cells[c.dev.i];
        if c.dev.look.Due? then
          Put(c, c.dev.i, x.(slot := x.slot.(done := true))).(dev := GoneOn(c.dev, q.nslots, c.now))
        else c.(dev := Looked(c.dev, x.slot, q.nslots, c.now))
  }

  function Aways(q: Setup, c: Clock, os: seq<Other>): (c': Clock)
    ensures |c'.cells| == |c.cells|
  {
    if |os| == 0 then c else Away(q, Aways(q, c, os[..|os| - 1]), os[|os| - 1])
  }

  /** After m steps of the dispatcher, each followed by what happens at that moment. */
  function At(q: Setup, ncoro: nat, env: Env, m: nat): (c: Clock)
    ensures |c.cells| == ncoro
  {
    if m == 0 then Begins(ncoro) else Aways(q, Go(q, At(q, ncoro, env, m - 1)), env(m - 1))
  }

  // ---------- What always holds of a cell ----------

  /** It is between the writes of its submission. */
  predicate Submitting(c: Clock, k: nat)
  {
    c.pc == Setting(k) || c.pc == Activating(k)
  }

  /** The flags of a slot follow its coroutine, and the device acts only on a slot that has been submitted and is not
      done. Before a pass nobody is about to run; in the second loop, those the dispatcher has passed are not. */
  ghost predicate CellOk(q: Setup, c: Clock, k: nat)
    requires k < |c.cells|
  {
    var x := c.cells[k];
    && x.slot.deadline <= c.now + q.latency
    && (match x.phase
        case Fresh => x.begun == 0 && !x.slot.active && !x.slot.done
        case Waiting => x.begun > 0 && (x.slot.active <==> !Submitting(c, k))
        case Ready => x.begun > 0 && x.slot.done && !x.slot.active
        case Finished => !x.slot.active && (x.begun > 0 ==> x.slot.done))
    && (Submitting(c, k) ==> x.phase.Waiting?)
    && (c.dev.i == k && !c.dev.look.Start? ==> x.begun > 1 || (x.begun == 1 && !Submitting(c, k)))
    && (c.dev.i == k && (c.dev.look.NotDone? || c.dev.look.Due?) ==> !x.slot.done)
    && (match c.pc
        case Reaping(p) => k >= p ==> !x.phase.Ready?
        case _ => k < c.pc.k ==> !Soon(x))
  }

  lemma {:induction false} GoCell(q: Setup, c: Clock, k: nat)
    requires k < |c.cells| && CellOk(q, c, k)
    ensures CellOk(q, Go(q, c), k)
  {
  }

  lemma {:induction false} AwayCell(q: Setup, c: Clock, k: nat, o: Other)
    requires k < |c.cells| <= q.nslots && CellOk(q, c, k)
    ensures CellOk(q, Away(q, c, o), k)
  {
  }

  ghost predicate CellsOk(q: Setup, c: Clock)
  {
    && |c.cells| <= q.nslots && c.dev.i < q.nslots && c.dev.t <= c.now && (|c.cells| > 0 ==> c.pc.k < |c.cells|)
    && forall k: nat :: k < |c.cells| ==> CellOk(q, c, k)
  }

  lemma {:induction false} GoCells(q: Setup, c: Clock)
    requires CellsOk(q, c)
    ensures CellsOk(q, Go(q, c))
  {
    forall k: nat | k < |c.cells| ensures CellOk(q, Go(q, c), k) {
      GoCell(q, c, k);
    }
    hide CellOk;
  }

  lemma {:induction false} AwayCells(q: Setup, c: Clock, o: Other)
    requires CellsOk(q, c)
    ensures CellsOk(q, Away(q, c, o))
  {
    forall k: nat | k < |c.cells| ensures CellOk(q, Away(q, c, o), k) {
      AwayCell(q, c, k, o);
    }
    hide CellOk;
  }

  // ---------- A fair environment ----------

  /** At this moment time passes, or the device acts. */
  ghost predicate Stirs(env: Env, u: nat, clock: bool)
  {
    exists k :: 0 <= k < |env(u)| && if clock then env(u)[k].Passes? && env(u)[k].dt > 0 else env(u)[k].Accesses?
  }

  ghost predicate StirsSince(env: Env, t: nat, clock: bool)
  {
    exists u: nat :: u >= t && Stirs(env, u, clock)
  }

  /** The clock goes on and the device acts, again and again. */
  ghost predicate Fair(env: Env)
  {
    forall t: nat, clock: bool :: StirsSince(env, t, clock)
  }
}
