/**
 Runs of the conflict detector's loop in which one coroutine gets as far ahead of another as it can. They are made up
 step by step: what a pair of coroutines sees of a step is a step of a machine that has only the two, since whatever
 happens at other coroutines and slots leaves the pair alone.
 */
module OvertakingRuns {
  import opened DetectorClock
  import opened Overtaking

  /** Two of `ncoro` coroutines. */
  datatype Scene = Scene(q: Setup, ncoro: nat, i: nat, j: nat)

  predicate Proper(e: Scene)
  {
    e.i < e.j < e.ncoro <= e.q.nslots && e.q.latency > 0
  }

  /** What happens at each moment so far. */
  type Path = seq<seq<Other>>

  function Along(e: Scene, p: Path): (c: Clock)
    ensures |c.cells| == e.ncoro
  {
    if |p| == 0 then Begins(e.ncoro) else Aways(e.q, Go(e.q, Along(e, p[..|p| - 1])), p[|p| - 1])
  }

  // ---------- The pair's view ----------

  /** The pair, and where the dispatcher and the device will be when they next get to one of the two. */
  datatype Duo = Duo(x: Cell, y: Cell, dev: Dev, now: nat, pc: Pc)

  function After(e: Scene, k: nat): Pc
  {
    if k < e.i then Running(e.i) else if k < e.j then Running(e.j) else Reaping(e.i)
  }

  function PcAhead(e: Scene, pc: Pc): Pc
  {
    if pc.k == e.i || pc.k == e.j then pc
    else if pc.Reaping? then
      if pc.k < e.i then Reaping(e.i) else if pc.k < e.j then Reaping(e.j) else Running(e.i)
    else After(e, pc.k)
  }

  function DevAhead(e: Scene, dev: Dev, now: nat): Dev
  {
    if dev.i == e.i || dev.i == e.j then dev
    else if dev.i < e.i then Dev(e.i, dev.t, Start)
    else if dev.i < e.j then Dev(e.j, dev.t, Start)
    else Dev(e.i, now, Start)
  }

  function Seen(e: Scene, c: Clock): Duo
    requires Proper(e) && |c.cells| == e.ncoro
  {
    Duo(c.cells[e.i], c.cells[e.j], DevAhead(e, c.dev, c.now), c.now, PcAhead(e, c.pc))
  }

  function Goes(e: Scene, d: Duo): Duo
  {
    var k := d.pc.k;
    var z := if k == e.j then d.y else d.x;
    var z' := match d.pc
      case Reaping(_) => Reaped(z)
      case Running(_) => Ran(e.q, z)
      case Setting(_) => z.(slot := z.slot.(deadline := d.now + e.q.latency))
      case Activating(_) => z.(slot := z.slot.(active := true));
    var pc := match d.pc
      case Reaping(_) => if k == e.j then Running(e.i) else Reaping(e.j)
      case Running(_) => if Submits(e.q, z) then Setting(k) else After(e, k)
      case Setting(_) => Activating(k)
      case Activating(_) => After(e, k);
    if k == e.j then d.(y := z', pc := pc) else d.(x := z', pc := pc)
  }

  function Looks(e: Scene, d: Duo): Duo
  {
    var onJ := d.dev.i == e.j;
    var z := if onJ then d.y else d.x;
    var next := if onJ then Dev(e.i, d.now, Start) else Dev(e.j, d.dev.t, Start);
    if d.dev.look.Due? then
      var z' := z.(slot := z.slot.(done := true));
      if onJ then d.(y := z', dev := next) else d.(x := z', dev := next)
    else if d.dev.look.Start? && z.slot.active then d.(dev := d.dev.(look := SawActive))
    else if d.dev.look.SawActive? && !z.slot.done then d.(dev := d.dev.(look := NotDone))
    else if d.dev.look.NotDone? && d.dev.t >= z.slot.deadline then d.(dev := d.dev.(look := Due))
    else d.(dev := next)
  }

  // ---------- Steps elsewhere do not show ----------

  ghost predicate Fits(e: Scene, c: Clock)
  {
    Proper(e) && |c.cells| == e.ncoro && c.pc.k < e.ncoro && c.dev.i < e.q.nslots
  }

  lemma {:induction false} AwaysFit(e: Scene, c: Clock, os: seq<Other>)
    requires Fits(e, c)
    ensures Fits(e, Aways(e.q, c, os))
    decreases |os|
  {
    if |os| > 0 {
      AwaysFit(e, c, os[..|os| - 1]);
    }
  }

  lemma {:induction false} AlongFits(e: Scene, p: Path)
    requires Proper(e)
    ensures Fits(e, Along(e, p))
    decreases |p|
  {
    if |p| > 0 {
      AlongFits(e, p[..|p| - 1]);
      AwaysFit(e, Go(e.q, Along(e, p[..|p| - 1])), p[|p| - 1]);
    }
  }

  /** Where in its cycle the dispatcher is. */
  function PcIndex(e: Scene, pc: Pc): nat
  {
    match pc
    case Reaping(k) => k
    case Running(k) => e.ncoro + 3 * k
    case Setting(k) => e.ncoro + 3 * k + 1
    case Activating(k) => e.ncoro + 3 * k + 2
  }

  function PcGap(e: Scene, pc: Pc): int
  {
    var to := PcIndex(e, PcAhead(e, pc)) - PcIndex(e, pc);
    if to >= 0 then to else to + 4 * e.ncoro
  }

  function DevGap(e: Scene, dev: Dev): int
  {
    var to := if dev.i <= e.i then e.i - dev.i else if dev.i <= e.j then e.j - dev.i else e.q.nslots - dev.i + e.i;
    4 * to + match dev.look case Start => 3 case SawActive => 2 case NotDone => 1 case Due => 0
  }

  lemma {:induction false} GoElsewhere(e: Scene, c: Clock)
    requires Fits(e, c) && c.pc.k != e.i && c.pc.k != e.j
    ensures Seen(e, Go(e.q, c)) == Seen(e, c) && 0 <= PcGap(e, Go(e.q, c).pc) < PcGap(e, c.pc)
  {
  }

  lemma {:induction false} GoHere(e: Scene, c: Clock)
    requires Fits(e, c) && (c.pc.k == e.i || c.pc.k == e.j)
    ensures Seen(e, Go(e.q, c)) == Goes(e, Seen(e, c))
  {
  }

  lemma {:induction false} AccessElsewhere(e: Scene, c: Clock)
    requires Fits(e, c) && c.dev.i != e.i && c.dev.i != e.j
    ensures Seen(e, Away(e.q, c, Accesses)) == Seen(e, c)
    ensures 0 <= DevGap(e, Away(e.q, c, Accesses).dev) < DevGap(e, c.dev)
  {
  }

  lemma {:induction false} AccessHere(e: Scene, c: Clock)
    requires Fits(e, c) && (c.dev.i == e.i || c.dev.i == e.j)
    ensures Seen(e, Away(e.q, c, Accesses)) == Looks(e, Seen(e, c))
  {
  }

  // ---------- Making up a run ----------

  /** What the pair sees after p. */
  function View(e: Scene, p: Path): Duo
    requires Proper(e)
  {
    Seen(e, Along(e, p))
  }

  /** The run goes on from p: what happened before its last moment stays. */
  ghost predicate Grows(p: Path, more: Path)
  {
    0 < |p| <= |more| && forall k :: 0 <= k < |p| - 1 ==> more[k] == p[k]
  }

  lemma {:induction false} OneGo(e: Scene, p: Path) returns (more: Path)
    requires Proper(e) && |p| > 0
    ensures Grows(p, more) && Along(e, more) == Go(e.q, Along(e, p)) && |more| == |p| + 1 && more[..|p|] == p
  {
    more := p + [[]];
    assert more[..|p|] == p;
  }

  lemma {:induction false} OneAway(e: Scene, p: Path, o: Other) returns (more: Path)
    requires Proper(e) && |p| > 0
    ensures Grows(p, more) && Along(e, more) == Away(e.q, Along(e, p), o) && |more| == |p|
  {
    var n := |p| - 1;
    var os := p[n] + [o];
    more := p[..n] + [os];
    assert os[..|os| - 1] == p[n] && more[..n] == p[..n];
  }

  lemma {:induction false} ToPair(e: Scene, p: Path) returns (more: Path)
    requires Proper(e) && |p| > 0
    ensures Grows(p, more) && View(e, more) == View(e, p)
    ensures Along(e, more).pc.k == e.i || Along(e, more).pc.k == e.j
    decreases PcGap(e, Along(e, p).pc)
  {
    more := p;
    AlongFits(e, p);
    if Along(e, p).pc.k != e.i && Along(e, p).pc.k != e.j {
      hide Along, Go, Seen, PcGap;
      GoElsewhere(e, Along(e, p));
      more := OneGo(e, p);
      more := ToPair(e, more);
    }
  }

  /** The dispatcher's next step at one of the two. */
  lemma {:induction false} Goes1(e: Scene, p: Path) returns (more: Path)
    requires Proper(e) && |p| > 0
    ensures Grows(p, more) && View(e, more) == Goes(e, View(e, p))
  {
    more := ToPair(e, p);
    AlongFits(e, more);
    hide Along, Go, Seen, Goes;
    GoHere(e, Along(e, more));
    more := OneGo(e, more);
  }

  lemma {:induction false} ToSlot(e: Scene, p: Path) returns (more: Path)
    requires Proper(e) && |p| > 0
    ensures Grows(p, more) && View(e, more) == View(e, p)
    ensures Along(e, more).dev.i == e.i || Along(e, more).dev.i == e.j
    decreases DevGap(e, Along(e, p).dev)
  {
    more := p;
    AlongFits(e, p);
    if Along(e, p).dev.i != e.i && Along(e, p).dev.i != e.j {
      hide Along, Away, Seen, DevGap;
      AccessElsewhere(e, Along(e, p));
      more := OneAway(e, p, Accesses);
      more := ToSlot(e, more);
    }
  }

  /** The device's next access to one of the two slots. */
  lemma {:induction false} Looks1(e: Scene, p: Path) returns (more: Path)
    requires Proper(e) && |p| > 0
    ensures Grows(p, more) && View(e, more) == Looks(e, View(e, p))
  {
    more := ToSlot(e, p);
    AlongFits(e, more);
    hide Along, Away, Seen, Looks;
    AccessHere(e, Along(e, more));
    more := OneAway(e, more, Accesses);
  }

  lemma {:induction false} Ticks(e: Scene, p: Path, dt: nat) returns (more: Path)
    requires Proper(e) && |p| > 0
    ensures Grows(p, more) && View(e, more) == View(e, p).(now := View(e, p).now + dt)
  {
    more := ToSlot(e, p);
    hide Along;
    more := OneAway(e, more, Passes(dt));
  }

  // ---------- A visit of the device, a turn of a coroutine ----------

  /** What a visit of a sweep begun at time t leaves. */
  function Visited(z: Cell, t: nat): Cell
  {
    if z.slot.active && !z.slot.done && t >= z.slot.deadline then z.(slot := z.slot.(done := true)) else z
  }

  /** What a turn at time `now` leaves, its submission included. */
  function Turned(e: Scene, z: Cell, now: nat): Cell
  {
    if Submits(e.q, z) then Cell(z.begun + 1, Waiting, DSlot(now + e.q.latency, true, false)) else Ran(e.q, z)
  }

  lemma {:induction false} Visits(e: Scene, p: Path) returns (more: Path)
    requires Proper(e) && |p| > 0 && View(e, p).dev.look.Start?
    requires View(e, p).dev.i == e.i || View(e, p).dev.i == e.j
    ensures var d, d' := View(e, p), View(e, more);
      Grows(p, more) && d' ==
        if d.dev.i == e.j then d.(y := Visited(d.y, d.dev.t), dev := Dev(e.i, d.now, Start))
        else d.(x := Visited(d.x, d.dev.t), dev := Dev(e.j, d.dev.t, Start))
  {
    hide View;
    more := Looks1(e, p);
    if View(e, more).dev.look.SawActive? {
      more := Looks1(e, more);
      if View(e, more).dev.look.NotDone? {
        more := Looks1(e, more);
        if View(e, more).dev.look.Due? {
          more := Looks1(e, more);
        }
      }
    }
  }

  /** A sweep over both slots. */
  lemma {:induction false} Sweeps(e: Scene, p: Path) returns (more: Path)
    requires Proper(e) && |p| > 0 && View(e, p).dev.look.Start? && View(e, p).dev.i == e.i
    ensures var d := View(e, p);
      Grows(p, more) && View(e, more)
        == d.(x := Visited(d.x, d.dev.t), y := Visited(d.y, d.dev.t), dev := Dev(e.i, d.now, Start))
  {
    hide View;
    more := Visits(e, p);
    more := Visits(e, more);
  }

  /** The dispatcher's first loop at both. */
  lemma {:induction false} Reaps(e: Scene, p: Path) returns (more: Path)
    requires Proper(e) && |p| > 0 && View(e, p).pc == Reaping(e.i)
    ensures var d := View(e, p);
      Grows(p, more) && View(e, more) == d.(x := Reaped(d.x), y := Reaped(d.y), pc := Running(e.i))
  {
    hide View;
    more := Goes1(e, p);
    more := Goes1(e, more);
  }

  /** Its second loop at one of the two. */
  lemma {:induction false} Turns(e: Scene, p: Path) returns (more: Path)
    requires Proper(e) && |p| > 0 && (View(e, p).pc == Running(e.i) || View(e, p).pc == Running(e.j))
    ensures var d, d' := View(e, p), View(e, more);
      Grows(p, more) && d' ==
        if d.pc.k == e.j then d.(y := Turned(e, d.y, d.now), pc := Reaping(e.i))
        else d.(x := Turned(e, d.x, d.now), pc := Running(e.j))
  {
    hide View;
    more := Goes1(e, p);
    if View(e, more).pc.Setting? {
      more := Goes1(e, more);
      more := Goes1(e, more);
    }
  }

  // ---------- Rounds ----------

  /** An offload in progress. */
  function Busy(begun: nat, deadline: nat): Cell
  {
    Cell(begun, Waiting, DSlot(deadline, true, false))
  }

  function DoneBusy(begun: nat, deadline: nat): Cell
  {
    Cell(begun, Waiting, DSlot(deadline, true, true))
  }

  /** Between two passes: both wait for offloads submitted in the last one, i's a little earlier. */
  ghost predicate Resting(e: Scene, d: Duo, a: nat, b: nat)
  {
    && d.x == Busy(a, d.x.slot.deadline) && d.y == Busy(b, d.y.slot.deadline) && a > 0 && b > 0
    && d.now <= d.x.slot.deadline < d.y.slot.deadline <= d.now + e.q.latency
    && d.dev == Dev(e.i, d.dev.t, Start) && d.dev.t < d.x.slot.deadline && d.pc == Reaping(e.i)
  }

  lemma {:induction false} Opening(e: Scene) returns (more: Path)
    requires Proper(e) && e.q.iters > 0
    ensures |more| > 0 && Resting(e, View(e, more), 1, 1)
  {
    more := [[]];
    assert more[..0] == [] && Along(e, more) == Go(e.q, Begins(e.ncoro));
    var d := View(e, more);
    assert d.x == d.y == Cell(0, Fresh, DSlot(0, false, false)) && d.dev == Dev(e.i, 0, Start) && d.now == 0;
    assert d.pc == Reaping(e.i) || d.pc == Reaping(e.j);
    hide View, Along;
    if d.pc == Reaping(e.i) {
      more := Goes1(e, more);
    }
    more := Goes1(e, more);
    more := Turns(e, more);
    more := Ticks(e, more, 1);
    more := Turns(e, more);
  }

  /** One iteration each. */
  lemma {:induction false} Together(e: Scene, p: Path, a: nat, b: nat) returns (more: Path)
    requires Proper(e) && |p| > 0 && Resting(e, View(e, p), a, b) && a < e.q.iters && b < e.q.iters
    ensures Grows(p, more) && Resting(e, View(e, more), a + 1, b + 1)
  {
    hide View;
    var d := View(e, p);
    more := Ticks(e, p, d.y.slot.deadline - d.now);
    more := Sweeps(e, more);
    more := Sweeps(e, more);
    more := Reaps(e, more);
    more := Turns(e, more);
    more := Ticks(e, more, 1);
    more := Turns(e, more);
  }

  // ---------- The lower coroutine gets ahead: four iterations to one ----------

  /** Its next offload was completed on the last one's deadline, y's is still open. */
  ghost predicate Lead1(e: Scene, d: Duo, a: nat, b: nat)
  {
    && d.x == DoneBusy(a, d.now + e.q.latency) && d.y == Busy(b, d.y.slot.deadline) && a > 0 && b > 0
    && d.now < d.y.slot.deadline <= d.now + e.q.latency && d.dev == Dev(e.i, d.now, Start) && d.pc == Reaping(e.i)
  }

  lemma {:induction false} LeadsByOne(e: Scene, p: Path, a: nat, b: nat) returns (more: Path)
    requires Proper(e) && |p| > 0 && Resting(e, View(e, p), a, b) && a < e.q.iters
    ensures Grows(p, more) && Lead1(e, View(e, more), a + 1, b)
  {
    hide View;
    var d := View(e, p);
    more := Ticks(e, p, d.x.slot.deadline - d.now);
    more := Sweeps(e, more);
    more := Visits(e, more);
    more := Visits(e, more);
    more := Looks1(e, more);
    more := Reaps(e, more);
    more := Goes1(e, more);
    assert View(e, more).x == Cell(a + 1, Waiting, DSlot(d.x.slot.deadline, false, false));
    more := Looks1(e, more);
    more := Looks1(e, more);
    more := Looks1(e, more);
    assert View(e, more).x == Cell(a + 1, Waiting, DSlot(d.x.slot.deadline, false, true));
    more := Goes1(e, more);
    more := Goes1(e, more);
    more := Turns(e, more);
    more := Visits(e, more);
  }

  /** Submitted again. */
  ghost predicate Lead2(e: Scene, d: Duo, a: nat, b: nat)
  {
    && d.x == Busy(a, d.now + e.q.latency) && d.y == Busy(b, d.y.slot.deadline) && a > 0 && b > 0
    && d.now < d.y.slot.deadline <= d.now + e.q.latency && d.dev == Dev(e.i, d.now, Start) && d.pc == Reaping(e.i)
  }

  lemma {:induction false} LeadsByTwo(e: Scene, p: Path, a: nat, b: nat) returns (more: Path)
    requires Proper(e) && |p| > 0 && Lead1(e, View(e, p), a, b) && a < e.q.iters
    ensures Grows(p, more) && Lead2(e, View(e, more), a + 1, b)
  {
    hide View;
    more := Reaps(e, p);
    more := Turns(e, more);
    more := Turns(e, more);
  }

  /** Both are complete before the next pass. */
  ghost predicate Lead3(e: Scene, d: Duo, a: nat, b: nat)
  {
    && d.x == DoneBusy(a, d.now) && d.y == DoneBusy(b, d.y.slot.deadline) && a > 0 && b > 0
    && d.y.slot.deadline <= d.now && d.dev == Dev(e.i, d.now, Start) && d.pc == Reaping(e.i)
  }

  lemma {:induction false} LeadsByThree(e: Scene, p: Path, a: nat, b: nat) returns (more: Path)
    requires Proper(e) && |p| > 0 && Lead2(e, View(e, p), a, b) && a < e.q.iters
    ensures Grows(p, more) && Lead3(e, View(e, more), a + 1, b)
  {
    hide View;
    more := Ticks(e, p, e.q.latency);
    more := Sweeps(e, more);
    more := Visits(e, more);
    more := Goes1(e, more);
    more := Goes1(e, more);
    more := Visits(e, more);
    more := Turns(e, more);
    assert View(e, more).x == Busy(a + 1, View(e, more).now + e.q.latency);
    more := Ticks(e, more, e.q.latency);
    more := Sweeps(e, more);
    more := Sweeps(e, more);
    more := Turns(e, more);
  }

  /** y is about to run. */
  ghost predicate Lead4(e: Scene, d: Duo, a: nat, b: nat)
  {
    && d.x == Busy(a, d.now + e.q.latency) && d.y == Cell(b, Ready, d.y.slot) && a > 0 && b > 0
    && d.dev == Dev(e.i, d.now, Start) && d.pc == Running(e.j)
  }

  lemma {:induction false} LeadsByFour(e: Scene, p: Path, a: nat, b: nat) returns (more: Path)
    requires Proper(e) && |p| > 0 && Lead3(e, View(e, p), a, b) && a < e.q.iters
    ensures Grows(p, more) && Lead4(e, View(e, more), a + 1, b)
  {
    hide View;
    more := Reaps(e, p);
    more := Turns(e, more);
  }

  lemma {:induction false} LowerAhead(e: Scene, p: Path, a: nat, b: nat) returns (more: Path)
    requires Proper(e) && |p| > 0 && Resting(e, View(e, p), a, b) && a + 4 <= e.q.iters && b < e.q.iters
    ensures Grows(p, more) && Resting(e, View(e, more), a + 4, b + 1)
  {
    hide View;
    more := LeadsByOne(e, p, a, b);
    more := LeadsByTwo(e, more, a + 1, b);
    more := LeadsByThree(e, more, a + 2, b);
    more := LeadsByFour(e, more, a + 3, b);
    more := Ticks(e, more, 1);
    more := Turns(e, more);
  }

  // ---------- The upper coroutine gets ahead: three iterations to one ----------

  /** x is complete, but the dispatcher had already looked; y has gone on. */
  ghost predicate Ahead1(e: Scene, d: Duo, a: nat, b: nat)
  {
    && d.x == DoneBusy(a, d.x.slot.deadline) && d.y == Busy(b, d.now + e.q.latency) && a > 0 && b > 0
    && d.x.slot.deadline <= d.now && d.dev == Dev(e.i, d.now, Start) && d.pc == Reaping(e.i)
  }

  lemma {:induction false} AheadByOne(e: Scene, p: Path, a: nat, b: nat) returns (more: Path)
    requires Proper(e) && |p| > 0 && Resting(e, View(e, p), a, b) && b < e.q.iters
    ensures Grows(p, more) && Ahead1(e, View(e, more), a, b + 1)
  {
    hide View;
    var d := View(e, p);
    more := Ticks(e, p, d.y.slot.deadline - d.now);
    more := Sweeps(e, more);
    more := Goes1(e, more);
    more := Sweeps(e, more);
    more := Goes1(e, more);
    more := Turns(e, more);
    more := Turns(e, more);
  }

  /** x has gone on, and right after it y, whose offload was completed on its last deadline. */
  ghost predicate Ahead2(e: Scene, d: Duo, a: nat, b: nat)
  {
    && d.x == Busy(a, d.now + e.q.latency) && d.y == DoneBusy(b, d.y.slot.deadline) && a > 0 && b > 0
    && d.dev == Dev(e.i, d.now, Start) && d.pc == Reaping(e.i)
  }

  lemma {:induction false} AheadByTwo(e: Scene, p: Path, a: nat, b: nat) returns (more: Path)
    requires Proper(e) && |p| > 0 && Ahead1(e, View(e, p), a, b) && a < e.q.iters && b < e.q.iters
    ensures Grows(p, more) && Ahead2(e, View(e, more), a + 1, b + 1)
  {
    hide View;
    more := Goes1(e, p);
    more := Ticks(e, more, e.q.latency);
    more := Sweeps(e, more);
    more := Sweeps(e, more);
    more := Visits(e, more);
    more := Looks1(e, more);
    more := Goes1(e, more);
    more := Turns(e, more);
    more := Goes1(e, more);
    var f := View(e, more).now;
    assert View(e, more).y == Cell(b + 1, Waiting, DSlot(f, false, false));
    more := Looks1(e, more);
    more := Looks1(e, more);
    more := Looks1(e, more);
    assert View(e, more).y == Cell(b + 1, Waiting, DSlot(f, false, true));
    more := Goes1(e, more);
    more := Goes1(e, more);
  }

  lemma {:induction false} UpperAhead(e: Scene, p: Path, a: nat, b: nat) returns (more: Path)
    requires Proper(e) && |p| > 0 && Resting(e, View(e, p), a, b) && a < e.q.iters && b + 3 <= e.q.iters
    ensures Grows(p, more) && Resting(e, View(e, more), a + 1, b + 3)
  {
    hide View;
    more := AheadByOne(e, p, a, b);
    more := AheadByTwo(e, more, a, b + 1);
    more := Reaps(e, more);
    more := Turns(e, more);
    more := Ticks(e, more, 1);
    more := Turns(e, more);
  }

  // ---------- Every pair that is near ----------

  /** n rounds together and m rounds with one of them ahead. */
  lemma {:induction false} Rounds(e: Scene, n: nat, m: nat, lower: bool) returns (more: Path)
    requires Proper(e)
    requires (if lower then 1 + n + 4 * m else 1 + n + 3 * m) <= e.q.iters
    ensures |more| > 0
    ensures if lower then Resting(e, View(e, more), 1 + n + 4 * m, 1 + n + m)
                     else Resting(e, View(e, more), 1 + n + m, 1 + n + 3 * m)
    decreases n + m
  {
    hide View, Resting;
    if m > 0 {
      more := Rounds(e, n, m - 1, lower);
      if lower {
        more := LowerAhead(e, more, 4 * m - 3 + n, m + n);
      } else {
        more := UpperAhead(e, more, m + n, 3 * m - 2 + n);
      }
    } else if n > 0 {
      more := Rounds(e, n - 1, 0, lower);
      more := Together(e, more, n, n);
    } else {
      more := Opening(e);
    }
  }

  /** Both have an iteration open, x its a-th and y its b-th. */
  ghost predicate BothOpen(d: Duo, a: nat, b: nat)
  {
    Open(d.x) && Open(d.y) && d.x.begun == a && d.y.begun == b
  }

  lemma {:induction false} LowerFar(e: Scene, a: nat, b: nat) returns (more: Path)
    requires Proper(e) && 0 < b <= a <= 4 * b + 1 && a <= e.q.iters
    ensures |more| > 0 && BothOpen(View(e, more), a, b)
  {
    var m := if (a - b) / 3 < b then (a - b) / 3 else b - 1;
    var k := a - b - 3 * m;
    hide View;
    more := Rounds(e, b - 1 - m, m, true);
    if k >= 1 {
      more := LeadsByOne(e, more, a - k, b);
    }
    if k >= 2 {
      more := LeadsByTwo(e, more, a - k + 1, b);
    }
    if k >= 3 {
      more := LeadsByThree(e, more, a - k + 2, b);
    }
    if k >= 4 {
      more := LeadsByFour(e, more, a - k + 3, b);
    }
  }

  lemma {:induction false} UpperFar(e: Scene, a: nat, b: nat) returns (more: Path)
    requires Proper(e) && 0 < a <= b < 3 * a && b <= e.q.iters
    ensures |more| > 0 && BothOpen(View(e, more), a, b)
  {
    var m := (b - a) / 2;
    var k := b - a - 2 * m;
    hide View;
    more := Rounds(e, a - 1 - m, m, false);
    if k == 1 {
      more := AheadByOne(e, more, a, b - 1);
    }
  }

  // ---------- Going on until both iterations have ended ----------

  /** From now on the clock ticks and the device acts at every moment. */
  function EnvOf(p: Path): Env
  {
    (m: nat) => if m < |p| then p[m] else [Passes(1), Accesses]
  }

  lemma {:induction false} AlongIsAt(e: Scene, p: Path, m: nat)
    requires m <= |p|
    ensures Along(e, p[..m]) == At(e.q, e.ncoro, EnvOf(p), m)
    decreases m
  {
    hide Aways, Go;
    if m > 0 {
      AlongIsAt(e, p, m - 1);
      assert p[..m][..m - 1] == p[..m - 1];
    }
  }

  lemma {:induction false} PairAlong(e: Scene, p: Path)
    requires Proper(e)
    ensures PairOk(e.q, Along(e, p), e.i, e.j)
  {
    AlongIsAt(e, p, |p|);
    assert p[..|p|] == p;
    Always(e.q, e.ncoro, EnvOf(p), |p|, e.i, e.j);
  }

  /** It has begun its a-th iteration. */
  predicate Past(z: Cell, a: nat)
  {
    !z.phase.Fresh? && z.begun >= a
  }

  predicate BothPast(d: Duo, a: nat, b: nat)
  {
    Past(d.x, a) && Past(d.y, b)
  }

  lemma {:induction false} AtThePair(e: Scene, p: Path)
    requires Proper(e)
    ensures View(e, p).dev.i == e.i || View(e, p).dev.i == e.j
    ensures View(e, p).pc.k == e.i || View(e, p).pc.k == e.j
  {
  }

  /** Steps of the dispatcher to its next pass. */
  function StepsLeft(e: Scene, pc: Pc): nat
  {
    match pc
    case Reaping(k) => if k == e.i then 0 else 7
    case Running(k) => if k == e.i then 6 else 3
    case Setting(k) => if k == e.i then 5 else 2
    case Activating(k) => if k == e.i then 4 else 1
  }

  lemma {:induction false} ToReaping(e: Scene, p: Path, a: nat, b: nat) returns (more: Path)
    requires Proper(e) && |p| > 0 && BothPast(View(e, p), a, b)
    ensures Grows(p, more) && BothPast(View(e, more), a, b) && View(e, more).pc == Reaping(e.i)
    decreases StepsLeft(e, View(e, p).pc)
  {
    more := p;
    AtThePair(e, p);
    hide View;
    if View(e, p).pc != Reaping(e.i) {
      more := Goes1(e, p);
      more := ToReaping(e, more, a, b);
    }
  }

  /** Accesses of the device to its next sweep. */
  function LooksLeft(e: Scene, dev: Dev): nat
  {
    var rank := match dev.look case Start => 4 case SawActive => 3 case NotDone => 2 case Due => 1;
    if dev.i == e.j then rank else if dev.look.Start? then 0 else rank + 5
  }

  lemma {:induction false} ToSweep(e: Scene, p: Path, a: nat, b: nat) returns (more: Path)
    requires Proper(e) && |p| > 0 && BothPast(View(e, p), a, b) && View(e, p).pc == Reaping(e.i)
    ensures Grows(p, more) && BothPast(View(e, more), a, b) && View(e, more).pc == Reaping(e.i)
    ensures View(e, more).dev == Dev(e.i, View(e, more).dev.t, Start)
    decreases LooksLeft(e, View(e, p).dev)
  {
    more := p;
    AtThePair(e, p);
    hide View;
    if View(e, p).dev.i != e.i || !View(e, p).dev.look.Start? {
      more := Looks1(e, p);
      more := ToSweep(e, more, a, b);
    }
  }

  /** A coroutine that waits or has finished. */
  predicate Settled(z: Cell)
  {
    z.phase.Finished? || (z.phase.Waiting? && z.slot.active)
  }

  /** Before a pass, each of the two waits or has finished. */
  lemma {:induction false} BeforePass(e: Scene, p: Path, a: nat, b: nat)
    requires Proper(e) && |p| > 0 && BothPast(View(e, p), a, b) && View(e, p).pc == Reaping(e.i)
    ensures var d := View(e, p);
      Settled(d.x) && Settled(d.y)
  {
    var more := ToPair(e, p);
    PairAlong(e, more);
  }

  /** One pass after all offloads are complete. */
  lemma {:induction false} FullPass(e: Scene, p: Path, a: nat, b: nat) returns (more: Path)
    requires Proper(e) && |p| > 0 && BothPast(View(e, p), a, b) && Settled(View(e, p).x) && Settled(View(e, p).y)
    requires View(e, p).pc == Reaping(e.i) && View(e, p).dev == Dev(e.i, View(e, p).dev.t, Start)
    ensures Grows(p, more)
    ensures var d := View(e, more);
      && (d.x.phase.Finished? || Past(d.x, a + 1)) && (d.y.phase.Finished? || Past(d.y, b + 1))
  {
    hide View;
    var d := View(e, p);
    more := Ticks(e, p, d.x.slot.deadline + d.y.slot.deadline);
    more := Sweeps(e, more);
    more := Sweeps(e, more);
    more := Reaps(e, more);
    more := Turns(e, more);
    more := Turns(e, more);
  }

  /** Whatever is going on, both iterations can end. */
  lemma {:induction false} BothEnd(e: Scene, p: Path, a: nat, b: nat) returns (more: Path)
    requires Proper(e) && |p| > 0 && BothPast(View(e, p), a, b)
    ensures Grows(p, more)
    ensures var d := View(e, more);
      && (d.x.phase.Finished? || Past(d.x, a + 1)) && (d.y.phase.Finished? || Past(d.y, b + 1))
  {
    hide View, BothPast, Past;
    more := ToReaping(e, p, a, b);
    more := ToSweep(e, more, a, b);
    BeforePass(e, more, a, b);
    more := FullPass(e, more, a, b);
  }

  // ---------- The theorem ----------

  lemma {:induction false} GoesOn(p: Path)
    ensures Fair(EnvOf(p))
  {
    var env := EnvOf(p);
    forall t: nat, clock: bool ensures StirsSince(env, t, clock) {
      var u := t + |p|;
      assert env(u)[0] == Passes(1) && env(u)[1] == Accesses;
      assert Stirs(env, u, clock);
    }
  }

  /** In the run given by `env`, iteration a of i and iteration b of j are open at moment m, and at moment n both have
      ended. */
  ghost predicate Meets(q: Setup, ncoro: nat, env: Env, m: nat, n: nat, i: nat, a: nat, j: nat, b: nat)
    requires i < ncoro && j < ncoro
  {
    var c, c' := At(q, ncoro, env, m), At(q, ncoro, env, n);
    && m <= n
    && Open(c.cells[i]) && c.cells[i].begun == a + 1 && Open(c.cells[j]) && c.cells[j].begun == b + 1
    && (c'.cells[i].phase.Finished? || (c'.cells[i].begun > a + 1 && Open(c'.cells[i])))
    && (c'.cells[j].phase.Finished? || (c'.cells[j].begun > b + 1 && Open(c'.cells[j])))
  }

  lemma {:induction false} Ends(e: Scene, p: Path, a: nat, b: nat) returns (env: Env, m: nat, n: nat)
    requires Proper(e) && |p| > 0 && BothOpen(View(e, p), a + 1, b + 1)
    ensures Fair(env) && Meets(e.q, e.ncoro, env, m, n, e.i, a, e.j, b)
  {
    var more := OneGo(e, p);
    AlongFits(e, p);
    PairAlong(e, p);
    assert BothPast(View(e, more), a + 1, b + 1);
    more := BothEnd(e, more, a + 1, b + 1);
    env, m, n := EnvOf(more), |p|, |more|;
    GoesOn(more);
    assert more[..m] == p && more[..n] == more;
    AlongIsAt(e, more, m);
    AlongIsAt(e, more, n);
    PairAlong(e, more);
  }

  lemma {:induction false} LowerMeetsUpper(e: Scene, a: nat, b: nat) returns (env: Env, m: nat, n: nat)
    requires Proper(e) && Near(e.i, a, e.j, b) && a < e.q.iters && b < e.q.iters
    ensures Fair(env) && Meets(e.q, e.ncoro, env, m, n, e.i, a, e.j, b)
  {
    hide View, Meets, Fair;
    var p;
    if a >= b {
      p := LowerFar(e, a + 1, b + 1);
    } else {
      p := UpperFar(e, a + 1, b + 1);
    }
    env, m, n := Ends(e, p, a, b);
  }

  lemma {:induction false} NearMeet(q: Setup, ncoro: nat, i: nat, a: nat, j: nat, b: nat)
    returns (env: Env, m: nat, n: nat)
    requires i != j && i < ncoro && j < ncoro <= q.nslots && q.latency > 0 && a < q.iters && b < q.iters
    requires Near(i, a, j, b)
    ensures Fair(env) && Meets(q, ncoro, env, m, n, i, a, j, b)
  {
    hide Fair;
    if i < j {
      env, m, n := LowerMeetsUpper(Scene(q, ncoro, i, j), a, b);
    } else {
      env, m, n := LowerMeetsUpper(Scene(q, ncoro, j, i), b, a);
    }
  }

  /** Two iterations of different coroutines are open at the same time in some run if and only if they are near. */
  lemma {:induction false} MeetIffNear(q: Setup, ncoro: nat, i: nat, a: nat, j: nat, b: nat)
    requires i != j && i < ncoro && j < ncoro <= q.nslots && q.latency > 0 && a < q.iters && b < q.iters
    ensures (exists env: Env, m: nat, n: nat :: Fair(env) && Meets(q, ncoro, env, m, n, i, a, j, b))
      <==> Near(i, a, j, b)
  {
    if Near(i, a, j, b) {
      var env, m, n := NearMeet(q, ncoro, i, a, j, b);
    }
    forall env: Env, m: nat, n: nat | Meets(q, ncoro, env, m, n, i, a, j, b) ensures Near(i, a, j, b) {
      OpenAreNear(q, ncoro, env, m, i, j);
    }
  }
}
