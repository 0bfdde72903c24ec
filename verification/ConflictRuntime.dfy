/** The conflict detector's program: the shared arrays, the coroutine body, the dispatcher loop, and the device
    thread, which reads and writes the slots field by field in between. It refines the specification, in which a
    slot is submitted and completed in one step each. */
module ConflictRuntime {
  import opened ConflictDetector
  import opened DetectorClock
  import opened FallbackCount
  import opened NaiveMode
  import opened NaiveRuns
  import opened Sums
  import opened TimedDetector

  // ---------- Why waiting ends ----------

  function Rank(look: Look): nat
  {
    match look case Start => 3 case SawActive => 2 case NotDone => 1 case Due => 0
  }

  /** How far a run is from its end: the work left, the time until the offload being watched is due, and from then
      on the accesses that the device needs to complete it. */
  datatype Stand = Stand(work: nat, wait: nat, dist: nat)

  predicate Below(a: Stand, b: Stand)
  {
    a.work < b.work || (a.work == b.work && (a.wait < b.wait || (a.wait == b.wait && a.dist < b.dist)))
  }

  function Wait(d: DSlot, now: nat): nat
  {
    if now < d.deadline then d.deadline - now else 0
  }

  /** Accesses until slot o is done: in this sweep if it started late enough and has not passed it, else in the next. */
  function Dist(dev: Dev, o: nat, d: DSlot, nslots: nat): nat
    requires dev.i < nslots
  {
    if dev.t >= d.deadline && dev.i <= o then 4 * (o - dev.i) + Rank(dev.look)
    else 4 * (nslots - dev.i) + Rank(dev.look) + 4 * (o + 1)
  }

  /** A read takes the device nearer to a slot o that is active, not done and due. */
  lemma ReadsNearer(dev: Dev, d: DSlot, o: nat, watched: DSlot, nslots: nat, now: nat)
    requires dev.i < nslots && o < nslots && !dev.look.Due? && now >= watched.deadline
    requires dev.i == o ==> d == watched && d.active && !d.done
    ensures var dev' := Looked(dev, d, nslots, now);
      dev'.i < nslots && Dist(dev', o, watched, nslots) < Dist(dev, o, watched, nslots)
  {
  }

  /** Since state `start`: the standing then, and the moment at which it improves at the latest, if the offload of slot
      `o` is being watched (`on`). */
  datatype Watch = Watch(start: State, stand: Stand, on: bool, o: nat, due: nat)

  // ---------- The coroutines and the slots as the clock sees them ----------

  function CellOf(c: Coro, d: DSlot): Cell
  {
    Cell(if c.parked then c.iter + 1 else c.iter,
         if c.finished then Finished else if c.waiting then Waiting else if c.parked then Ready else Phase.Fresh, d)
  }

  function CellsOf(cs: seq<Coro>, ds: seq<DSlot>): (xs: seq<Cell>)
    requires |cs| <= |ds|
    ensures |xs| == |cs| && forall k :: 0 <= k < |cs| ==> xs[k] == CellOf(cs[k], ds[k])
  {
    seq(|cs|, k requires 0 <= k < |cs| <= |ds| => CellOf(cs[k], ds[k]))
  }

  /** One of them changes. */
  lemma {:induction false} OneCell(cs: seq<Coro>, ds: seq<DSlot>, j: nat, c: Coro, d: DSlot)
    requires j < |cs| <= |ds|
    ensures CellsOf(cs[j := c], ds[j := d]) == CellsOf(cs, ds)[j := CellOf(c, d)]
  {
  }

  lemma {:induction false} ReapCells(cs: seq<Coro>, ds: seq<DSlot>, j: nat)
    requires j < |cs| <= |ds| && (cs[j].waiting ==> cs[j].parked && !cs[j].finished)
    ensures
      var xs := CellsOf(cs, ds);
      xs[j := Reaped(xs[j])]
        == if cs[j].waiting && ds[j].done
           then CellsOf(cs[j := cs[j].(waiting := false)], ds[j := ds[j].(active := false)]) else xs
  {
    OneCell(cs, ds, j, cs[j].(waiting := false), ds[j].(active := false));
  }

  lemma {:induction false} SlotCells(cs: seq<Coro>, ds: seq<DSlot>, j: nat, d: DSlot)
    requires j < |ds| && |cs| <= |ds|
    ensures var xs := CellsOf(cs, ds);
      CellsOf(cs, ds[j := d]) == if j < |cs| then xs[j := xs[j].(slot := d)] else xs
  {
    if j < |cs| {
      assert cs[j := cs[j]] == cs;
      OneCell(cs, ds, j, cs[j], d);
    }
  }

  lemma {:induction false} OneCoro(cfg: Config, s: State, j: nat)
    requires Inv(cfg, s) && cfg.mode != Lock && j < cfg.ncoro
    ensures Step(cfg, s, Dispatch(j)).coros == s.coros[j := Step(cfg, s, Dispatch(j)).coros[j]]
  {
    assert Shaped(cfg, s);
    hide Inv, Step;
    forall k: nat | k < cfg.ncoro && k != j ensures Step(cfg, s, Dispatch(j)).coros[k] == s.coros[k] {
      DispatchMoves(cfg, s, j, k);
    }
  }

  lemma {:induction false} TurnCell(w: Machine, s: State, d: DSlot, j: nat)
    requires Inv(w.cfg, s) && w.cfg.mode != Lock && j < w.cfg.ncoro
    ensures
      var c, c' := s.coros[j], Step(w.cfg, s, Dispatch(j)).coros[j];
      && (c'.waiting && !c.waiting <==> Submits(SetupOf(w), CellOf(c, d)))
      && CellOf(c', if c'.waiting && !c.waiting then d.(done := false) else d) == Ran(SetupOf(w), CellOf(c, d))
  {
    assert FlagsOk(w.cfg, s);
    DispatchMoves(w.cfg, s, j, j);
    hide Inv, Step;
  }

  lemma {:induction false} TurnCells(w: Machine, s: State, ds: seq<DSlot>, j: nat)
    requires Inv(w.cfg, s) && w.cfg.mode != Lock && j < w.cfg.ncoro <= |ds|
    ensures
      var s', xs := Step(w.cfg, s, Dispatch(j)), CellsOf(s.coros, ds);
      var submits := s'.coros[j].waiting && !s.coros[j].waiting;
      && (submits <==> Submits(SetupOf(w), xs[j]))
      && CellsOf(s'.coros, if submits then ds[j := ds[j].(done := false)] else ds) == xs[j := Ran(SetupOf(w), xs[j])]
  {
    assert Shaped(w.cfg, s);
    hide Inv, Step, CellsOf, Submits, Ran, CellOf;
    var s' := Step(w.cfg, s, Dispatch(j));
    var submits := s'.coros[j].waiting && !s.coros[j].waiting;
    OneCoro(w.cfg, s, j);
    TurnCell(w, s, ds[j], j);
    OneCell(s.coros, ds, j, s'.coros[j], if submits then ds[j].(done := false) else ds[j]);
    assert ds[j := ds[j]] == ds;
  }

  class Runtime {
    const cfg: Config
    const latency: nat
    const nslots: nat
    const env: Env
    const cache: array<Entry>
    const keylock: array<bool>
    const coros: array<Coro>
    const slots: array<DSlot>
    var commits: nat
    var fallbacks: nat
    var lockwaits: nat
    var dev: Dev
    var now: nat
    var moment: nat
    /** The coroutine that is between its first and its last write to its slot, or -1. */
    var submitting: int
    /** Where the dispatcher is, for the clock of the specification. */
    ghost var pc: Pc
    ghost var hist: seq<Commit>
    ghost const origin: State
    ghost var trace: seq<Label>

    /** In the specification a slot is active from the moment its `done` is cleared for a submission. */
    function SlotView(j: nat): Slot
      requires j < slots.Length
      reads this, slots
    {
      Slot(slots[j].active || submitting == j, slots[j].done)
    }

    ghost function SlotViews(): (s: seq<Slot>)
      requires cfg.ncoro <= slots.Length
      reads this, slots
      ensures |s| == cfg.ncoro && forall j: nat :: j < cfg.ncoro ==> s[j] == SlotView(j)
    {
      seq(cfg.ncoro, j requires 0 <= j < cfg.ncoro && cfg.ncoro <= slots.Length reads this, slots => SlotView(j))
    }

    /** The device acts only on slots that are submitted and not done. */
    ghost predicate DeviceOk()
      requires cfg.ncoro <= slots.Length
      reads this, slots
    {
      && dev.i < nslots && dev.t <= now
      && (!dev.look.Start? ==> dev.i < cfg.ncoro && (SlotView(dev.i).active || slots[dev.i].done))
      && (dev.look.NotDone? || dev.look.Due? ==> !slots[dev.i].done)
    }

    ghost predicate Valid()
      reads this, cache, keylock, coros, slots
    {
      && cfg.nkey > 0 && cache.Length == keylock.Length == cfg.nkey
      && coros.Length == cfg.ncoro <= nslots == slots.Length
      && -1 <= submitting < cfg.ncoro && DeviceOk()
      && forall j :: cfg.ncoro <= j < nslots ==> !slots[j].active
    }

    ghost function View(): (s: State)
      requires Valid()
      reads this, cache, keylock, coros, slots
      ensures Shaped(cfg, s)
    {
      State(cache[..], keylock[..], coros[..], SlotViews(), commits, fallbacks, lockwaits, hist)
    }

    ghost function Plan(): Machine
    {
      Machine(cfg, latency, nslots)
    }

    ghost function Both(): (p: Timed)
      requires Valid()
      reads this, cache, keylock, coros, slots
      ensures Shaped(cfg, p.base)
    {
      Timed(View(), Clock(CellsOf(coros[..], slots[..]), dev, now, pc))
    }

    /** Unless coroutines wait for locks, the run is the one the specification's clock has for this environment. */
    ghost predicate OnTime()
      requires Valid()
      reads this, cache, keylock, coros, slots
    {
      cfg.mode != Lock ==> Both() == AtBoth(Plan(), env, moment)
    }

    /** The dispatcher has made its step of this moment, and k of the others' have followed. */
    ghost predicate Moved(k: nat)
      requires Valid()
      reads this, cache, keylock, coros, slots
    {
      cfg.mode != Lock ==>
        k <= |env(moment)| && Both() == AwaysBoth(Plan(), GoBoth(Plan(), AtBoth(Plan(), env, moment)), env(moment)[..k])
    }

    /** The state is the one the specification reaches by the steps in `trace`. */
    ghost predicate Good()
      reads this, cache, keylock, coros, slots
    {
      Valid() && Reached(cfg, origin, trace, View())
    }

    constructor (cfg: Config, nslots: nat, latency: nat, env: Env)
      requires cfg.nkey > 0 && cfg.ncoro <= nslots && nslots > 0
      ensures this.cfg == cfg && this.env == env && Good() && origin == Init(cfg) && trace == [] && submitting == -1
      ensures OnTime() && moment == 0 && pc == Reaping(0)
      ensures fresh(cache) && fresh(keylock) && fresh(coros) && fresh(slots)
    {
      this.cfg, this.nslots, this.latency, this.env := cfg, nslots, latency, env;
      cache := new Entry[cfg.nkey](_ => Entry(0, 0));
      keylock := new bool[cfg.nkey](_ => false);
      coros := new Coro[cfg.ncoro](_ => Coro(0, false, false, false, 0, 0));
      slots := new DSlot[nslots](_ => DSlot(0, false, false));
      commits, fallbacks, lockwaits, hist := 0, 0, 0, [];
      dev, now, moment, submitting, pc := Dev(0, 0, Start), 0, 0, -1, Reaping(0);
      origin, trace := Init(cfg), [];
      new;
      InitOk(cfg);
      hide Inv, Step, Go, GoBoth, AwaysBoth;
      assert View() == Init(cfg);
      assert CellsOf(coros[..], slots[..]) == Begins(cfg.ncoro).cells;
    }

    twostate lemma SameSlots()
      requires cfg.ncoro <= slots.Length && unchanged(slots) && submitting == old(submitting)
      ensures SlotViews() == old(SlotViews())
    {
    }

    // ---------- Single steps ----------

    /** `coro_offload` up to the first write to the slot: mark the coroutine as waiting and clear `done`. */
    method CoroOffload(j: nat, v: int, ver: nat)
      requires Valid() && submitting == -1 && j < cfg.ncoro
      modifies this`submitting, coros, slots
      ensures Valid() && submitting == j && slots[j] == old(slots[j]).(done := false) && coros[j].waiting
      ensures forall n :: 0 <= n < nslots && n != j ==> slots[n] == old(slots[n])
      ensures View() == Offload(cfg, old(View()), j, Entry(v, ver))
    {
      coros[j] := coros[j].(parked := true, waiting := true, v := v, ver := ver);
      slots[j] := slots[j].(done := false);
      submitting := j;
      assert SlotViews() == old(SlotViews())[j := Slot(true, false)];
    }

    /** The second write: the deadline. */
    method SetDeadline()
      requires Valid() && submitting >= 0
      modifies slots
      ensures Valid() && View() == old(View())
      ensures slots[..] == old(slots[..])[submitting := old(slots[submitting]).(deadline := now + latency)]
    {
      slots[submitting] := slots[submitting].(deadline := now + latency);
      assert SlotViews() == old(SlotViews());
    }

    /** The last write: only now is the slot active. */
    method Activate()
      requires Valid() && submitting >= 0
      modifies this`submitting, slots
      ensures Valid() && View() == old(View()) && submitting == -1
      ensures slots[..] == old(slots[..])[old(submitting) := old(slots[submitting]).(active := true)]
    {
      slots[submitting] := slots[submitting].(active := true);
      submitting := -1;
      assert SlotViews() == old(SlotViews());
    }

    method Write(j: nat, k: nat, v: int, ghost base: nat)
      requires Valid() && j < cfg.ncoro && k == MyKey(cfg, View(), j)
      modifies this`hist, this`commits, cache
      ensures Valid() && View() == CommitOn(cfg, old(View()), j, Entry(v, base))
    {
      hide SlotViews;
      cache[k] := Entry(cfg.post(j, coros[j].iter, v), cache[k].ver + 1);
      hist := hist + [Commit(j, coros[j].iter, k, base)];
      commits := commits + 1;
      SameSlots();
    }

    /** In detect mode: coroutine j comes back from its offload to an entry of another version. */
    predicate StaleAt(j: nat)
      requires j < coros.Length && cache.Length == cfg.nkey > 0
      reads this, coros, cache
    {
      cfg.mode == Detect && coros[j].parked && cache[Key(cfg, j, coros[j].iter)].ver != coros[j].ver
    }

    /** The part of an iteration after the offload returns. */
    method FinishIteration(j: nat)
      requires Valid() && j < cfg.ncoro && coros[j].parked
      modifies this`hist, this`commits, this`fallbacks, cache, keylock, coros
      ensures Valid() && View() == Finish(cfg, old(View()), j)
      ensures fallbacks == old(fallbacks) + if old(StaleAt(j)) then 1 else 0
    {
      hide SlotViews;
      var c := coros[j];
      var k := Key(cfg, j, c.iter);
      match cfg.mode {
        case Lock =>
          Write(j, k, c.v, c.ver);
          keylock[k] := false;
        case Serial =>
        case Naive =>
          Write(j, k, c.v, c.ver);
        case Detect =>
          var v, ver := c.v, c.ver;
          if cache[k].ver != ver {
            v, ver := cache[k].val, cache[k].ver;
            fallbacks := fallbacks + 1;
          }
          Write(j, k, v, ver);
      }
      coros[j] := c.(iter := c.iter + 1, parked := false);
      SameSlots();
    }

    /** The loop head and the part of an iteration up to the first write to the slot. */
    method BeginIteration(j: nat)
      requires Valid() && submitting == -1 && j < cfg.ncoro && !coros[j].parked && !coros[j].waiting
      modifies this`hist, this`commits, this`lockwaits, this`submitting, cache, keylock, coros, slots
      ensures Valid() && submitting in {-1, j as int} && View() == Begin(cfg, old(View()), j)
      ensures submitting >= 0 ==> slots[j] == old(slots[j]).(done := false)
      ensures coros[j].waiting <==> submitting >= 0
      ensures forall n :: 0 <= n < nslots && (submitting == -1 || n != j) ==> slots[n] == old(slots[n])
    {
      if coros[j].iter >= cfg.iters {
        coros[j] := coros[j].(finished := true);
        SameSlots();
        return;
      }
      var k := Key(cfg, j, coros[j].iter);
      match cfg.mode
      case Lock =>
        if keylock[k] {
          lockwaits := lockwaits + 1;
          SameSlots();
          return;
        }
        keylock[k] := true;
        SameSlots();
        CoroOffload(j, cache[k].val, cache[k].ver);
      case Serial =>
        var v, ver := cache[k].val, cache[k].ver;
        Write(j, k, v, ver);
        CoroOffload(j, v, ver);
      case _ =>
        CoroOffload(j, cache[k].val, cache[k].ver);
    }

    /** Run coroutine j's body to the end of its next access to shared state, which is as far as it gets before another
        agent matters: a retry, the end, or the first write of a submission. */
    method Switch(j: nat)
      requires Valid() && submitting == -1 && j < cfg.ncoro && !coros[j].waiting && !coros[j].finished
      modifies this`hist, this`commits, this`fallbacks, this`lockwaits, this`submitting, cache, keylock, coros, slots
      ensures Valid() && submitting in {-1, j as int} && View() == Resume(cfg, old(View()), j)
      ensures fallbacks == old(fallbacks) + if old(StaleAt(j)) then 1 else 0
      ensures submitting >= 0 ==> slots[j] == old(slots[j]).(done := false)
      ensures coros[j].waiting <==> submitting >= 0
      ensures forall n :: 0 <= n < nslots && (submitting == -1 || n != j) ==> slots[n] == old(slots[n])
    {
      hide Finish, Begin;
      if coros[j].parked {
        ParkedView(j);
        FinishIteration(j);
        FinishUnparks(old(View()), j);
      }
      BeginIteration(j);
    }

    lemma ParkedView(j: nat)
      requires Valid() && j < cfg.ncoro
      ensures View().coros[j] == coros[j]
    {
    }

    lemma FinishUnparks(s: State, j: nat)
      requires Shaped(cfg, s) && j < cfg.ncoro
      ensures !Finish(cfg, s, j).coros[j].parked && Finish(cfg, s, j).coros[j].waiting == s.coros[j].waiting
    {
    }

    /** First loop of the dispatcher, at coroutine j: take back the slot of a finished offload. */
    method ReapSlot(j: nat)
      requires Valid() && submitting == -1 && j < cfg.ncoro
      modifies coros, slots
      ensures Valid() && View() == Step(cfg, old(View()), Reap(j))
      ensures coros[..] == if old(coros[j]).waiting && old(slots[j]).done
        then old(coros[..])[j := old(coros[j]).(waiting := false)] else old(coros[..])
      ensures slots[..] == if old(coros[j]).waiting && old(slots[j]).done
        then old(slots[..])[j := old(slots[j]).(active := false)] else old(slots[..])
    {
      if coros[j].waiting && slots[j].done {
        coros[j] := coros[j].(waiting := false);
        slots[j] := slots[j].(active := false);
      }
      assert SlotViews() == old(SlotViews())[j := SlotView(j)];
    }

    /** The device thread's next access: to the specification, only the one that sets `done` is a step. */
    method DeviceTurn()
      requires Valid()
      modifies this`dev, slots
      ensures Valid()
      ensures if old(dev).look.Due?
          then View() == Step(cfg, old(View()), Device(old(dev).i)) && Outstanding(old(View()), old(dev).i)
              else View() == old(View())
      ensures forall n :: 0 <= n < nslots ==> slots[n].deadline == old(slots[n]).deadline
      ensures if old(dev).look.Due?
          then dev == GoneOn(old(dev), nslots, now)
               && slots[..] == old(slots[..])[old(dev).i := old(slots[dev.i]).(done := true)]
          else dev == Looked(old(dev), old(slots[dev.i]), nslots, now) && slots[..] == old(slots[..])
    {
      var i := dev.i;
      var d := slots[i];
      if dev.look.Due? {
        slots[i] := d.(done := true);
        dev := GoneOn(dev, nslots, now);
        assert SlotViews() == old(SlotViews())[i := Slot(SlotView(i).active, true)];
      } else {
        dev := Looked(dev, d, nslots, now);
        assert SlotViews() == old(SlotViews());
      }
    }

    // ---------- The same steps by the clock ----------

    twostate lemma SameBoth()
      requires old(Valid()) && Valid() && unchanged(coros) && unchanged(slots) && View() == old(View())
      requires dev == old(dev) && now == old(now) && pc == old(pc)
      ensures Both() == old(Both())
    {
    }

    ghost method MovePc(to: Pc)
      requires Valid()
      modifies this`pc
      ensures Valid() && View() == old(View()) && pc == to
    {
      hide SlotViews;
      pc := to;
      SameSlots();
    }

    /** The dispatcher's step at slot j in its first loop. */
    method ReapNow(j: nat)
      requires Good() && submitting == -1 && j < cfg.ncoro && pc == Reaping(j)
      modifies this`pc, coros, slots
      ensures Valid() && View() == Step(cfg, old(View()), Reap(j)) && Both() == GoBoth(Plan(), old(Both()))
      ensures pc == if j + 1 < cfg.ncoro then Reaping(j + 1) else Running(0)
      ensures !(old(coros[j]).waiting && old(slots[j]).done) ==> slots[..] == old(slots[..])
    {
      ParkedView(j);
      assert FlagsOk(cfg, View());
      ReapCells(coros[..], slots[..], j);
      hide View, SlotViews, Step, Reached, Reaped, CellsOf;
      ReapSlot(j);
      MovePc(if j + 1 < cfg.ncoro then Reaping(j + 1) else Running(0));
    }

    /** Its step at coroutine j in the second, up to the first write of a submission. */
    method TurnNow(j: nat) returns (isFinished: bool)
      requires Good() && submitting == -1 && j < cfg.ncoro && pc == Running(j)
      modifies this`hist, this`commits, this`fallbacks, this`lockwaits, this`submitting, this`pc
      modifies cache, keylock, coros, slots
      ensures Valid() && View() == Step(cfg, old(View()), Dispatch(j)) && isFinished == old(coros[j].finished)
      ensures isFinished == old(View()).coros[j].finished && submitting in {-1, j as int}
      ensures submitting >= 0 ==> View().coros[j].waiting && !old(View()).coros[j].waiting
      ensures submitting == -1 ==> slots[..] == old(slots[..])
      ensures pc == if submitting >= 0 then Setting(j) else NextTurn(cfg.ncoro, j)
      ensures cfg.mode != Lock ==> Both() == GoBoth(Plan(), old(Both()))
    {
      hide View, SlotViews, Step, Reached;
      isFinished := Turn(j);
      MovePc(if submitting >= 0 then Setting(j) else NextTurn(cfg.ncoro, j));
      if cfg.mode != Lock {
        TurnTicks(j);
      }
    }

    twostate lemma TurnTicks(j: nat)
      requires old(Good()) && Valid() && cfg.mode != Lock && j < cfg.ncoro && old(pc) == Running(j)
      requires View() == Step(cfg, old(View()), Dispatch(j)) && submitting in {-1, j as int}
      requires submitting >= 0 <==> View().coros[j].waiting && !old(View()).coros[j].waiting
      requires slots[..] == if submitting == -1 then old(slots[..])
                            else old(slots[..])[j := old(slots[j]).(done := false)]
      requires dev == old(dev) && now == old(now)
      requires pc == if submitting >= 0 then Setting(j) else NextTurn(cfg.ncoro, j)
      ensures Both() == GoBoth(Plan(), old(Both()))
    {
      TurnCells(Plan(), old(View()), old(slots[..]), j);
      hide SlotViews, Step, Reached, CellsOf, Ran, Submits, Inv;
    }

    method SetDeadlineNow()
      requires Valid() && submitting >= 0 && pc == Setting(submitting)
      modifies this`pc, slots
      ensures Valid() && View() == old(View()) && pc == Activating(submitting)
      ensures Both() == GoBoth(Plan(), old(Both()))
    {
      SlotCells(coros[..], slots[..], submitting, slots[submitting].(deadline := now + latency));
      hide View, SlotViews, CellsOf;
      SetDeadline();
      MovePc(Activating(submitting));
    }

    method ActivateNow()
      requires Valid() && submitting >= 0 && pc == Activating(submitting)
      modifies this`submitting, this`pc, slots
      ensures Valid() && View() == old(View()) && submitting == -1 && pc == NextTurn(cfg.ncoro, old(submitting))
      ensures Both() == GoBoth(Plan(), old(Both()))
    {
      var j := submitting;
      SlotCells(coros[..], slots[..], j, slots[j].(active := true));
      hide View, SlotViews, CellsOf;
      Activate();
      MovePc(NextTurn(cfg.ncoro, j));
    }

    /** The device's next access. */
    method DeviceNow()
      requires Valid()
      modifies this`dev, slots
      ensures Valid() && Both() == AwayBoth(Plan(), old(Both()), Accesses)
      ensures if old(dev).look.Due?
          then View() == Step(cfg, old(View()), Device(old(dev).i)) && Outstanding(old(View()), old(dev).i)
              else View() == old(View())
      ensures forall n :: 0 <= n < nslots ==> slots[n].deadline == old(slots[n]).deadline
      ensures !old(dev).look.Due? ==> dev == Looked(old(dev), old(slots[dev.i]), nslots, now)
    {
      SlotCells(coros[..], slots[..], dev.i, slots[dev.i].(done := true));
      hide View, SlotViews, CellsOf, Step;
      DeviceTurn();
    }

    method SleepNow(dt: nat)
      requires Valid()
      modifies this`now
      ensures Valid() && View() == old(View()) && now == old(now) + dt
      ensures Both() == AwayBoth(Plan(), old(Both()), Passes(dt))
    {
      hide SlotViews;
      now := now + dt;
      SameSlots();
    }

    twostate lemma Starts()
      requires old(Valid()) && Valid() && old(OnTime()) && moment == old(moment)
      requires cfg.mode != Lock ==> Both() == GoBoth(Plan(), old(Both()))
      ensures Moved(0)
    {
      hide Both, GoBoth, AtBoth;
    }

    twostate lemma MovesOn(k: nat)
      requires old(Valid()) && Valid() && old(Moved(k)) && moment == old(moment) && k < |env(moment)|
      requires Both() == AwayBoth(Plan(), old(Both()), env(moment)[k])
      ensures Moved(k + 1)
    {
      hide Both, GoBoth, AtBoth, AwayBoth;
      var os := env(moment);
      assert os[..k + 1][..k] == os[..k];
    }

    // ---------- What the loops keep ----------

    ghost function StandOf(o: nat): Stand
      requires Valid() && o < nslots
      reads this, cache, keylock, coros, slots
    {
      var wait := Wait(slots[o], now);
      Stand(Work(cfg, View()), wait, if wait > 0 then 0 else Dist(dev, o, slots[o], nslots))
    }

    ghost predicate Improved(w: Watch)
      requires Valid() && w.o < nslots
      reads this, cache, keylock, coros, slots
    {
      Below(StandOf(w.o), w.stand)
    }

    ghost predicate Held(w: Watch)
      requires Valid()
      reads this, cache, keylock, coros, slots
    {
      && Shaped(cfg, w.start) && Progress(cfg, w.start, View()) && w.stand.work == Work(cfg, w.start)
      && (Work(cfg, View()) == w.stand.work ==> submitting == -1)
      && (w.on ==>
            && w.o < cfg.ncoro <= nslots && Outstanding(w.start, w.o) && Stirs(env, w.due, w.stand.wait > 0)
            && (StandOf(w.o) == w.stand || Improved(w)) && (w.due < moment ==> Improved(w)))
    }

    /** The fields have moved by step l. */
    ghost method Note(l: Label, before: State, w: Watch)
      requires Valid() && Reached(cfg, origin, trace, before) && l.j < cfg.ncoro && View() == Step(cfg, before, l)
      requires Shaped(cfg, w.start) && Progress(cfg, w.start, before)
      modifies this`trace
      ensures Good() && trace == old(trace) + [l] && View() == old(View()) && Progress(cfg, w.start, View())
      ensures Both() == old(Both())
      ensures Work(cfg, View()) <= Work(cfg, before)
      ensures Work(cfg, View()) == Work(cfg, w.start) ==> !Effective(cfg, w.start, l)
    {
      hide Inv, Step, SlotViews, Effective, Work;
      Extend(cfg, origin, trace, before, l, w.start);
      trace := trace + [l];
      SameSlots();
      SameBoth();
    }

    /** A read takes the device nearer to the watched slot. */
    lemma LookGetsNearer(w: Watch)
      requires Good() && Held(w) && w.on && !dev.look.Due? && Work(cfg, View()) == w.stand.work
      requires Wait(slots[w.o], now) == 0
      ensures var dev' := Looked(dev, slots[dev.i], nslots, now);
        dev'.i < nslots && Dist(dev', w.o, slots[w.o], nslots) < Dist(dev, w.o, slots[w.o], nslots)
    {
      assert SlotView(w.o) == View().slots[w.o] == w.start.slots[w.o];
      hide Reached, Work, Dist, Looked, Inv, StandOf;
      ReadsNearer(dev, slots[dev.i], w.o, slots[w.o], nslots, now);
    }

    method DeviceTurnIn(ghost w: Watch)
      requires Good() && Held(w)
      modifies this`dev, this`trace, slots
      ensures Good() && Held(w) && Work(cfg, View()) <= old(Work(cfg, View())) && old(trace) <= trace
      ensures Both() == AwayBoth(Plan(), old(Both()), Accesses)
      ensures w.on && (w.stand.wait == 0 || old(Improved(w))) ==> Improved(w)
    {
      hide Inv, Step, SlotViews, Effective, Work, Dist, Looked, Reached, Both, AwayBoth;
      ghost var before := View();
      if w.on && !dev.look.Due? && Work(cfg, before) == w.stand.work && Wait(slots[w.o], now) == 0 {
        LookGetsNearer(w);
      }
      var i, due := dev.i, dev.look.Due?;
      DeviceNow();
      if due {
        MarkWorks(before, i);
        Note(Device(i), before, w);
      }
    }

    lemma MarkWorks(s: State, i: nat)
      requires Reached(cfg, origin, trace, s) && Outstanding(s, i)
      ensures i < cfg.ncoro && Work(cfg, Step(cfg, s, Device(i))) < Work(cfg, s)
    {
      StepWorks(cfg, s, Device(i));
    }

    method SleepIn(dt: nat, ghost w: Watch)
      requires Good() && Held(w)
      modifies this`now
      ensures Good() && Held(w) && View() == old(View())
      ensures Both() == AwayBoth(Plan(), old(Both()), Passes(dt))
      ensures w.on && ((w.stand.wait > 0 && dt > 0) || old(Improved(w))) ==> Improved(w)
    {
      hide Inv, Step, SlotViews, Effective, Work, Dist, Reached, Both, AwayBoth;
      SleepNow(dt);
    }

    method Later(ghost w: Watch)
      requires Good() && Moved(|env(moment)|) && Held(w) && (w.on && w.due == moment ==> Improved(w))
      modifies this`moment
      ensures Good() && OnTime() && Held(w) && View() == old(View()) && moment == old(moment) + 1
    {
      hide Inv, Step, SlotViews, Effective, Work, Dist, Reached, Both, AwaysBoth, GoBoth;
      moment := moment + 1;
      SameSlots();
      SameBoth();
      assert env(old(moment))[..|env(old(moment))|] == env(old(moment));
    }

    /** What happens between two steps of the dispatcher: time passes, and the device makes some accesses. */
    method Meanwhile(ghost w: Watch)
      requires Good() && Moved(0) && Held(w)
      modifies this`now, this`dev, this`moment, this`trace, slots
      ensures Good() && OnTime() && Held(w) && Work(cfg, View()) <= old(Work(cfg, View())) && old(trace) <= trace
      ensures moment == old(moment) + 1
    {
      hide Valid, View, Reached, Progress, Work, Improved, Outstanding, Stirs, Both, AwayBoth, Moved, OnTime;
      var os := env(moment);
      for k := 0 to |os|
        invariant Good() && Moved(k) && Held(w) && Work(cfg, View()) <= old(Work(cfg, View())) && old(trace) <= trace
        invariant moment == old(moment) && (w.on && (exists n :: 0 <= n < k && Matters(os[n], w)) ==> Improved(w))
      {
        label Before:
        if os[k].Accesses? {
          DeviceTurnIn(w);
        } else {
          SleepIn(os[k].dt, w);
        }
        MovesOn@Before(k);
      }
      Stirred(w);
      assert w.on && w.due == moment ==> exists n :: 0 <= n < |os| && Matters(os[n], w);
      Later(w);
    }

    /** What brings the watched offload nearer to its end: time passing before it is due, an access from then on. */
    ghost predicate Matters(o: Other, w: Watch)
    {
      if w.stand.wait > 0 then o.Passes? && o.dt > 0 else o.Accesses?
    }

    lemma Stirred(w: Watch)
      requires Good() && Held(w)
      ensures w.on && w.due == moment ==> exists n :: 0 <= n < |env(moment)| && Matters(env(moment)[n], w)
    {
    }

    // ---------- The dispatcher ----------

    /** A step of the dispatcher that gets work done improves the standing; any other leaves the slots alone. */
    twostate lemma KeepsHeld(w: Watch)
      requires old(Good() && Held(w)) && Valid() && Progress(cfg, w.start, View()) && moment == old(moment)
      requires Work(cfg, View()) <= old(Work(cfg, View()))
      requires Work(cfg, View()) == old(Work(cfg, View())) ==>
        submitting == -1 && dev == old(dev) && now == old(now) && slots[..] == old(slots[..])
      ensures Held(w)
    {
      hide View, Work, Dist, Reached, Outstanding, Stirs, DeviceOk;
      assert w.on && Work(cfg, View()) == old(Work(cfg, View())) ==> slots[w.o] == slots[..][w.o];
    }

    method ReapTaken(j: nat)
      requires Good() && OnTime() && submitting == -1 && j < cfg.ncoro && pc == Reaping(j)
      modifies this`pc, coros, slots
      ensures Valid() && View() == Step(cfg, old(View()), Reap(j)) && Moved(0)
      ensures pc == if j + 1 < cfg.ncoro then Reaping(j + 1) else Running(0)
      ensures !(old(coros[j]).waiting && old(slots[j]).done) ==> slots[..] == old(slots[..])
    {
      hide View, Step, Reached, Both, GoBoth, OnTime, Moved;
      ReapNow(j);
      Starts();
    }

    method ReapNoted(j: nat, ghost w: Watch)
      requires Good() && OnTime() && pc == Reaping(j) && submitting == -1 && j < cfg.ncoro
      requires Shaped(cfg, w.start) && Progress(cfg, w.start, View())
      modifies this`pc, this`trace, coros, slots
      ensures Good() && submitting == -1 && trace == old(trace) + [Reap(j)]
      ensures Valid() && Moved(0) && pc == if j + 1 < cfg.ncoro then Reaping(j + 1) else Running(0)
      ensures Progress(cfg, w.start, View()) && Work(cfg, View()) <= old(Work(cfg, View()))
      ensures Work(cfg, View()) == old(Work(cfg, View())) ==> slots[..] == old(slots[..])
      ensures Work(cfg, View()) == Work(cfg, w.start) ==> !Effective(cfg, w.start, Reap(j))
    {
      ghost var before := View();
      ParkedView(j);
      assert Effective(cfg, before, Reap(j)) <==> coros[j].waiting && slots[j].done;
      hide Inv, Step, SlotViews, Work, Dist, Reached, Effective, DeviceOk, Both, AtBoth, GoBoth, AwaysBoth, View;
      QuietWorks(before, Reap(j));
      ReapTaken(j);
      Note(Reap(j), before, w);
    }

    method ReapStep(j: nat, ghost w: Watch)
      requires Good() && Held(w) && submitting == -1 && j < cfg.ncoro && OnTime() && pc == Reaping(j)
      modifies this`pc, this`trace, coros, slots
      ensures Valid() && Moved(0) && pc == if j + 1 < cfg.ncoro then Reaping(j + 1) else Running(0)
      ensures Good() && Held(w) && Work(cfg, View()) <= old(Work(cfg, View())) && trace == old(trace) + [Reap(j)]
      ensures Work(cfg, View()) == Work(cfg, w.start) ==> !Effective(cfg, w.start, Reap(j))
    {
      StartsAbove(w);
      hide View, Work, Reached, Effective, Valid, Progress, Held, OnTime, Moved, Both;
      ReapNoted(j, w);
      KeepsHeld(w);
    }

    lemma QuietWorks(s: State, l: Label)
      requires Reached(cfg, origin, trace, s) && l.j < cfg.ncoro
      ensures Effective(cfg, s, l) ==> Work(cfg, Step(cfg, s, l)) < Work(cfg, s)
      ensures !Effective(cfg, s, l) ==> Step(cfg, s, l) == s.(lockwaits := Step(cfg, s, l).lockwaits)
    {
      StepWorks(cfg, s, l);
    }

    /** A pass begins. */
    ghost predicate AtTop()
      reads this
    {
      cfg.ncoro > 0 ==> pc == Reaping(0)
    }

    /** First loop of the dispatcher. */
    method ReapPass(ghost w: Watch)
      requires Good() && Held(w) && submitting == -1 && OnTime() && AtTop()
      modifies this`now, this`dev, this`moment, this`pc, this`trace, coros, slots
      ensures Good() && Held(w) && submitting == -1 && moment >= old(moment) && old(trace) <= trace
      ensures Work(cfg, View()) <= old(Work(cfg, View()))
      ensures OnTime() && (cfg.ncoro > 0 ==> pc == Running(0))
      ensures Work(cfg, View()) == Work(cfg, w.start) ==>
        forall n: nat :: n < cfg.ncoro ==> !Effective(cfg, w.start, Reap(n))
    {
      hide Valid, View, Reached, Progress, Work, Effective, Improved, Outstanding, Stirs, OnTime, Moved, Both;
      var i := 0;
      while i < cfg.ncoro
        invariant i <= cfg.ncoro && Good() && Held(w) && submitting == -1
        invariant moment >= old(moment) && old(trace) <= trace && OnTime()
        invariant cfg.ncoro > 0 ==> pc == if i < cfg.ncoro then Reaping(i) else Running(0)
        invariant Work(cfg, View()) <= old(Work(cfg, View()))
        invariant Work(cfg, View()) == Work(cfg, w.start) ==>
            forall n: nat :: n < i ==> !Effective(cfg, w.start, Reap(n))
      {
        StartsAbove(w);
        ReapStep(i, w);
        StartsAbove(w);
        Meanwhile(w);
        i := i + 1;
      }
    }

    lemma StartsAbove(w: Watch)
      requires Valid() && Held(w)
      ensures Shaped(cfg, w.start) && Progress(cfg, w.start, View()) && Work(cfg, View()) <= Work(cfg, w.start)
    {
    }

    /** One turn of coroutine j up to the first write of its submission, if it runs and gets there. */
    method Turn(j: nat) returns (isFinished: bool)
      requires Valid() && submitting == -1 && j < cfg.ncoro
      modifies this`hist, this`commits, this`fallbacks, this`lockwaits, this`submitting, cache, keylock, coros, slots
      ensures Valid() && View() == Step(cfg, old(View()), Dispatch(j)) && isFinished == old(coros[j].finished)
      ensures -1 <= submitting < cfg.ncoro && isFinished == old(View()).coros[j].finished
      ensures submitting in {-1, j as int}
      ensures submitting >= 0 <==> View().coros[j].waiting && !old(View()).coros[j].waiting
      ensures slots[..] == if submitting == -1 then old(slots[..])
                           else old(slots[..])[j := old(slots[j]).(done := false)]
    {
      hide SlotViews, Resume;
      ParkedView(j);
      isFinished := coros[j].finished;
      if !isFinished && !coros[j].waiting {
        Switch(j);
        ParkedView(j);
      }
    }

    /** What a turn does to the coroutines. */
    twostate lemma OthersAsBefore(j: nat)
      requires old(Good()) && Valid() && j < cfg.ncoro && View() == Step(cfg, old(View()), Dispatch(j))
      ensures forall n: nat :: n < cfg.ncoro && n != j ==> coros[n] == old(coros[n])
      ensures old(coros[j].finished) ==> coros[j] == old(coros[j])
    {
      DispatchTouchesOne(old(View()), j);
      hide Step, SlotViews, Reached;
      assert forall n: nat :: n < cfg.ncoro ==> coros[n] == View().coros[n] && old(coros[n]) == old(View()).coros[n];
    }

    method TurnTaken(j: nat) returns (isFinished: bool)
      requires Good() && OnTime() && pc == Running(j) && submitting == -1 && j < cfg.ncoro
      modifies this`hist, this`commits, this`fallbacks, this`lockwaits, this`submitting, this`pc
      modifies cache, keylock, coros, slots
      ensures Valid() && Moved(0) && View() == Step(cfg, old(View()), Dispatch(j))
      ensures submitting in {-1, j as int} && pc == if submitting >= 0 then Setting(j) else NextTurn(cfg.ncoro, j)
      ensures coros.Length == cfg.ncoro && isFinished == old(coros[j].finished)
      ensures forall n: nat :: n < cfg.ncoro && n != j ==> coros[n] == old(coros[n])
      ensures isFinished ==> coros[j] == old(coros[j])
      ensures submitting >= 0 ==> View().coros[j].waiting && !old(View()).coros[j].waiting
      ensures submitting == -1 ==> slots[..] == old(slots[..])
    {
      hide View, Step, Reached, Both, GoBoth, OnTime, Moved;
      isFinished := TurnNow(j);
      OthersAsBefore(j);
      Starts();
    }

    method TurnStep(j: nat, ghost w: Watch) returns (isFinished: bool)
      requires Good() && OnTime() && pc == Running(j) && submitting == -1 && j < cfg.ncoro
      requires Shaped(cfg, w.start) && Progress(cfg, w.start, View())
      modifies this`hist, this`commits, this`fallbacks, this`lockwaits, this`submitting, this`pc, this`trace
      modifies cache, keylock, coros, slots
      ensures Good() && -1 <= submitting < cfg.ncoro && trace == old(trace) + [Dispatch(j)]
      ensures Valid() && Moved(0)
      ensures submitting in {-1, j as int} && pc == if submitting >= 0 then Setting(j) else NextTurn(cfg.ncoro, j)
      ensures coros.Length == cfg.ncoro && isFinished == old(coros[j].finished)
      ensures forall n: nat :: n < cfg.ncoro && n != j ==> coros[n] == old(coros[n])
      ensures isFinished ==> coros[j] == old(coros[j])
      ensures Progress(cfg, w.start, View()) && Work(cfg, View()) <= old(Work(cfg, View()))
      ensures Work(cfg, View()) == old(Work(cfg, View())) ==> submitting == -1 && slots[..] == old(slots[..])
      ensures Work(cfg, View()) == Work(cfg, w.start) ==> !Effective(cfg, w.start, Dispatch(j))
    {
      ghost var before := View();
      hide Inv, Step, SlotViews, Work, Dist, Reached, Effective, DeviceOk, Both, AtBoth, GoBoth, AwaysBoth, View;
      QuietWorks(before, Dispatch(j));
      isFinished := TurnTaken(j);
      Note(Dispatch(j), before, w);
    }

    method Dispatched(j: nat, ghost w: Watch) returns (isFinished: bool)
      requires Good() && Held(w) && submitting == -1 && j < cfg.ncoro && OnTime() && pc == Running(j)
      modifies this`hist, this`commits, this`fallbacks, this`lockwaits, this`submitting, this`pc, this`trace
      modifies cache, keylock, coros, slots
      ensures Good() && Held(w) && -1 <= submitting < cfg.ncoro && Work(cfg, View()) <= old(Work(cfg, View()))
      ensures Moved(0) && submitting in {-1, j as int}
      ensures pc == if submitting >= 0 then Setting(j) else NextTurn(cfg.ncoro, j)
      ensures trace == old(trace) + [Dispatch(j)] && isFinished == old(coros[j].finished)
      ensures coros.Length == cfg.ncoro && forall n: nat :: n < cfg.ncoro && n != j ==> coros[n] == old(coros[n])
      ensures isFinished ==> coros[j] == old(coros[j])
      ensures Work(cfg, View()) == Work(cfg, w.start) ==> !Effective(cfg, w.start, Dispatch(j))
    {
      StartsAbove(w);
      Lengths();
      hide View, Work, Reached, Effective, Valid, Progress, Held, OnTime, Moved, Both;
      isFinished := TurnStep(j, w);
      KeepsHeld(w);
    }

    lemma DispatchTouchesOne(s: State, j: nat)
      requires Inv(cfg, s) && j < cfg.ncoro
      ensures forall n: nat :: n < cfg.ncoro && n != j ==> Step(cfg, s, Dispatch(j)).coros[n] == s.coros[n]
      ensures s.coros[j].finished ==> Step(cfg, s, Dispatch(j)) == s
    {
      if Effective(cfg, s, Dispatch(j)) {
        forall n: nat | n < cfg.ncoro && n != j ensures Step(cfg, s, Dispatch(j)).coros[n] == s.coros[n] {
          RankDrops(cfg, s, Dispatch(j), n);
        }
      }
    }

    method SetDeadlineStep(ghost w: Watch)
      requires Good() && Held(w) && submitting >= 0 && OnTime() && pc == Setting(submitting)
      modifies this`pc, slots
      ensures Good() && Held(w) && View() == old(View()) && Moved(0) && pc == Activating(submitting)
    {
      hide SlotViews, Reached, Work, Dist, Both, GoBoth, OnTime, Moved;
      SetDeadlineNow();
      Starts();
    }

    method ActivateStep(ghost w: Watch)
      requires Good() && Held(w) && submitting >= 0 && OnTime() && pc == Activating(submitting)
      modifies this`submitting, this`pc, slots
      ensures Good() && Held(w) && View() == old(View()) && submitting == -1
      ensures Moved(0) && pc == NextTurn(cfg.ncoro, old(submitting))
    {
      hide SlotViews, Reached, Work, Dist, Both, GoBoth, OnTime, Moved;
      ActivateNow();
      Starts();
    }

    /** Second loop of the dispatcher, at coroutine j: skip it if it is finished or waiting, else run it to its next
        yield. */
    method DispatchSlot(j: nat, ghost w: Watch) returns (isFinished: bool)
      requires Good() && Held(w) && submitting == -1 && j < cfg.ncoro && OnTime() && pc == Running(j)
      modifies this`hist, this`commits, this`fallbacks, this`lockwaits, this`submitting, this`pc, this`trace
      modifies this`now, this`dev, this`moment, cache, keylock, coros, slots
      ensures Good() && Held(w) && submitting == -1 && Work(cfg, View()) <= old(Work(cfg, View()))
      ensures OnTime() && pc == NextTurn(cfg.ncoro, j)
      ensures old(trace) <= trace && moment > old(moment) && isFinished == old(coros[j].finished)
      ensures forall n: nat :: n < cfg.ncoro && n != j ==> coros[n] == old(coros[n])
      ensures isFinished ==> coros[j] == old(coros[j])
      ensures Work(cfg, View()) == Work(cfg, w.start) ==> !Effective(cfg, w.start, Dispatch(j))
    {
      hide Valid, View, Reached, Progress, Work, Effective, Improved, Outstanding, Stirs, OnTime, Moved, Both, Held;
      isFinished := Dispatched(j, w);
      StartsAbove(w);
      Meanwhile(w);
      if submitting >= 0 {
        SetDeadlineStep(w);
        Meanwhile(w);
        ActivateStep(w);
        Meanwhile(w);
      }
    }

    /** Second loop of the dispatcher: `fin` counts the coroutines that were finished when their turn came. */
    method DispatchPass(ghost w: Watch) returns (fin: nat)
      requires Good() && Held(w) && submitting == -1 && OnTime() && (cfg.ncoro > 0 ==> pc == Running(0))
      modifies this`hist, this`commits, this`fallbacks, this`lockwaits, this`submitting, this`pc, this`trace
      modifies this`now, this`dev, this`moment, cache, keylock, coros, slots
      ensures Good() && Held(w) && submitting == -1 && Work(cfg, View()) <= old(Work(cfg, View()))
      ensures OnTime() && AtTop()
      ensures old(trace) <= trace && moment >= old(moment) + cfg.ncoro
      ensures Work(cfg, View()) == Work(cfg, w.start) ==>
        forall n: nat :: n < cfg.ncoro ==> !Effective(cfg, w.start, Dispatch(n))
      ensures fin <= cfg.ncoro && (fin == cfg.ncoro <==> forall n :: 0 <= n < cfg.ncoro ==> old(coros[n].finished))
      ensures fin == cfg.ncoro ==> forall n :: 0 <= n < cfg.ncoro ==> coros[n].finished
    {
      hide Valid, View, Reached, Progress, Work, Effective, Improved, Outstanding, Stirs, OnTime, Moved, Both;
      fin := 0;
      Lengths();
      var i := 0;
      while i < cfg.ncoro
        invariant fin <= i <= cfg.ncoro == coros.Length && Good() && Held(w) && submitting == -1
        invariant OnTime() && (cfg.ncoro > 0 ==> pc == if i < cfg.ncoro then Running(i) else Reaping(0))
        invariant old(trace) <= trace && moment >= old(moment) + i
        invariant Work(cfg, View()) <= old(Work(cfg, View()))
        invariant Work(cfg, View()) == Work(cfg, w.start) ==> forall n: nat :: n < i ==>
            !Effective(cfg, w.start, Dispatch(n))
        invariant fin == i <==> forall n :: 0 <= n < i ==> old(coros[n].finished)
        invariant forall n :: 0 <= n < i && old(coros[n].finished) ==> coros[n].finished
        invariant forall n :: i <= n < cfg.ncoro ==> coros[n] == old(coros[n])
      {
        StartsAbove(w);
        var isFinished := DispatchSlot(i, w);
        if isFinished {
          fin := fin + 1;
        }
        i := i + 1;
      }
    }

    lemma Lengths()
      requires Valid()
      ensures coros.Length == cfg.ncoro
    {
    }

    // ---------- The whole run ----------

    lemma NextStir(t: nat, clock: bool) returns (due: nat)
      requires Fair(env)
      ensures due >= t && Stirs(env, due, clock)
    {
      assert StirsSince(env, t, clock);
      due :| due >= t && Stirs(env, due, clock);
    }

    /** The watch has just begun; it watches an outstanding offload if there is one. */
    ghost predicate Fresh(w: Watch)
      requires Valid()
      reads this, cache, keylock, coros, slots
    {
      && w.start == View() && w.stand.work == Work(cfg, View())
      && (w.on <==> exists j: nat :: Outstanding(View(), j))
      && (w.on ==> w.o < cfg.ncoro <= nslots && Outstanding(View(), w.o) && StandOf(w.o) == w.stand
                   && w.due >= moment && Stirs(env, w.due, w.stand.wait > 0))
    }

    lemma FreshIsHeld(w: Watch)
      requires Good() && submitting == -1 && Fresh(w)
      ensures Held(w)
    {
      hide View, Work, Reached, Outstanding, Stirs, StandOf, SlotViews;
    }

    lemma WatchOne(o: nat) returns (w: Watch)
      requires Good() && Fair(env) && Outstanding(View(), o)
      ensures Fresh(w) && w.on && w.o == o && w.stand == StandOf(o)
    {
      var due := NextStir(moment, StandOf(o).wait > 0);
      w := Watch(View(), StandOf(o), true, o, due);
    }

    lemma BeginWatch() returns (w: Watch)
      requires Good() && Fair(env)
      ensures Fresh(w)
    {
      if o: nat :| Outstanding(View(), o) {
        w := WatchOne(o);
      } else {
        w := Watch(View(), Stand(Work(cfg, View()), 0, 0), false, 0, 0);
      }
    }

    /** A pass that got no work done: an offload is outstanding, and unless its moment is still to come it got
        nearer. */
    lemma NotStuck(w: Watch)
      requires Good() && Held(w) && Reached(cfg, origin, trace, View()) && Inv(cfg, w.start) && !AllFinished(w.start)
      requires Work(cfg, View()) == Work(cfg, w.start) && (w.on <==> exists j: nat :: Outstanding(w.start, j))
      requires forall n: nat :: n < cfg.ncoro ==>
        !Effective(cfg, w.start, Reap(n)) && !Effective(cfg, w.start, Dispatch(n))
      ensures w.on && Outstanding(View(), w.o) && w.o < nslots
      ensures Improved(w) || (StandOf(w.o) == w.stand && w.due >= moment)
      ensures View() == w.start.(lockwaits := View().lockwaits)
    {
      NoDeadlock(cfg, w.start);
    }

    /** The next watch: what is left of the old one if nothing improved, else a new one. */
    lemma Rewatch(w: Watch) returns (w': Watch)
      requires Good() && submitting == -1 && Fair(env) && Held(w)
      requires Work(cfg, View()) == Work(cfg, w.start) ==>
        && w.on && Outstanding(View(), w.o) && (w.on <==> exists j: nat :: Outstanding(View(), j))
        && (Improved(w) || (StandOf(w.o) == w.stand && w.due >= moment))
      ensures Fresh(w')
      ensures Below(w'.stand, w.stand) || (w'.stand == w.stand && w'.on && w.on && w'.due == w.due)
      ensures Work(cfg, View()) == Work(cfg, w.start) ==> w'.on
    {
      if Work(cfg, View()) < Work(cfg, w.start) {
        w' := BeginWatch();
      } else if Improved(w) {
        w' := WatchOne(w.o);
      } else {
        w' := w.(start := View());
      }
    }

    lemma AfterPass(w: Watch) returns (w': Watch)
      requires Good() && submitting == -1 && Fair(env) && Held(w) && Inv(cfg, w.start)
      requires w.on <==> exists j: nat :: Outstanding(w.start, j)
      requires Work(cfg, View()) == Work(cfg, w.start) ==>
        && !AllFinished(w.start)
        && forall n: nat :: n < cfg.ncoro ==> !Effective(cfg, w.start, Reap(n)) && !Effective(cfg, w.start, Dispatch(n))
      ensures Fresh(w')
      ensures Below(w'.stand, w.stand) || (w'.stand == w.stand && w'.on && w.on && w'.due == w.due)
    {
      hide Valid, View, Work, Effective, Improved, Outstanding, Inv, StandOf, Fresh, Fair;
      if Work(cfg, View()) == Work(cfg, w.start) {
        NotStuck(w);
      }
      w' := Rewatch(w);
    }

    lemma StartedWell(w: Watch)
      requires Good() && Fresh(w)
      ensures Inv(cfg, w.start) && (w.on <==> exists j: nat :: Outstanding(w.start, j))
    {
    }

    /** As long as no work has been done, the coroutines are as they were. */
    lemma SameCoros(w: Watch)
      requires Good() && Held(w)
      ensures Work(cfg, View()) == Work(cfg, w.start) ==> coros[..] == w.start.coros
    {
    }

    lemma SomeLeft(cs: seq<Coro>, start: State)
      requires exists n :: 0 <= n < |cs| && !cs[n].finished
      ensures cs == start.coros ==> !AllFinished(start)
    {
    }

    lemma AllDone()
      requires Valid() && forall n :: 0 <= n < cfg.ncoro ==> coros[n].finished
      ensures AllFinished(View())
    {
    }

    /** Both loops of the dispatcher: if they get no work done, there was none to do and someone is left. */
    method BothLoops(ghost w: Watch) returns (fin: nat)
      requires Good() && Held(w) && submitting == -1 && OnTime() && AtTop()
      modifies this`hist, this`commits, this`fallbacks, this`lockwaits, this`submitting, this`pc, this`trace
      modifies this`now, this`dev, this`moment, cache, keylock, coros, slots
      ensures Good() && Held(w) && submitting == -1 && old(trace) <= trace && moment >= old(moment) + cfg.ncoro
      ensures OnTime() && AtTop()
      ensures fin <= cfg.ncoro && (fin == cfg.ncoro ==> AllFinished(View()))
      ensures Work(cfg, View()) == Work(cfg, w.start) ==>
        && (fin < cfg.ncoro ==> !AllFinished(w.start))
        && forall n: nat :: n < cfg.ncoro ==> !Effective(cfg, w.start, Reap(n)) && !Effective(cfg, w.start, Dispatch(n))
    {
      hide Valid, View, Reached, Progress, Work, Effective, Outstanding, Inv, Held, OnTime, Moved, Both, AtTop;
      ReapPass(w);
      StartsAbove(w);
      SameCoros(w);
      Lengths();
      ghost var cs := coros[..];
      fin := DispatchPass(w);
      StartsAbove(w);
      if fin == cfg.ncoro {
        AllDone();
      } else {
        SomeLeft(cs, w.start);
      }
    }

    /** One turn of the dispatcher loop. */
    method Pass(ghost w: Watch) returns (fin: nat, ghost w': Watch)
      requires Good() && submitting == -1 && OnTime() && AtTop() && Fair(env) && Fresh(w)
      modifies this`hist, this`commits, this`fallbacks, this`lockwaits, this`submitting, this`pc, this`trace
      modifies this`now, this`dev, this`moment, cache, keylock, coros, slots
      ensures Good() && submitting == -1 && old(trace) <= trace
      ensures OnTime() && AtTop()
      ensures fin == cfg.ncoro ==> AllFinished(View())
      ensures fin != cfg.ncoro ==>
        && Fresh(w') && moment > old(moment)
        && (Below(w'.stand, w.stand) || (w'.stand == w.stand && w'.on && w.on && w'.due == w.due))
    {
      FreshIsHeld(w);
      StartedWell(w);
      hide Valid, View, Reached, Work, Effective, Outstanding, Inv, Fresh, Fair, Below, Held, AllFinished;
      hide OnTime, Moved, Both, AtTop;
      fin := BothLoops(w);
      StartsAbove(w);
      w' := w;
      if fin != cfg.ncoro {
        w' := AfterPass(w);
      }
    }

    /** The dispatcher loop. If the clock goes on and the device acts again and again, the run ends, with every
        iteration of every coroutine committed exactly once; in naive mode an update is lost if and only if at some
        moment two coroutines were open on one entry, and in detect mode the fallbacks are the commits whose entry was
        committed to after the coroutine read it. */
    method Run()
      requires Good() && submitting == -1 && OnTime() && AtTop() && Fair(env)
      modifies this`hist, this`commits, this`fallbacks, this`lockwaits, this`submitting, this`pc, this`trace
      modifies this`now, this`dev, this`moment, cache, keylock, coros, slots
      ensures Good() && OnTime() && AllFinished(View()) && commits == cfg.ncoro * cfg.iters && old(trace) <= trace
      ensures cfg.mode != Lock ==> View() == AtBoth(Plan(), env, moment).base
      ensures cfg.mode == Naive && Increments(cfg) ==>
        (Sum(Vals(View())) == commits <==> forall n: nat :: n <= moment ==> !Overlap(cfg, AtBoth(Plan(), env, n).base))
      ensures origin == Init(cfg) ==>
        fallbacks == (if cfg.mode == Detect then Conflicts(cfg, trace) else 0) && lockwaits == Retries(cfg, trace)
    {
      hide Conflicts, Retries;
      ghost var w := BeginWatch();
      while true
        invariant Good() && OnTime() && AtTop() && submitting == -1 && Fresh(w) && old(trace) <= trace
        decreases w.stand.work, w.stand.wait, w.stand.dist, if w.on && w.due >= moment then w.due - moment else 0
      {
        DueIsAhead(w);
        hide Valid, View, Reached, Fresh, Fair, OnTime, AtTop, Both;
        var fin;
        fin, w := Pass(w);
        if fin == cfg.ncoro {
          break;
        }
        DueIsAhead(w);
      }
      Finished();
      NaiveEnd();
      Counted();
    }

    lemma Counted()
      requires Good()
      ensures origin == Init(cfg) ==>
        fallbacks == (if cfg.mode == Detect then Conflicts(cfg, trace) else 0) && lockwaits == Retries(cfg, trace)
    {
      if origin == Init(cfg) {
        CountersCount(cfg, trace);
      }
    }

    lemma DueIsAhead(w: Watch)
      requires Valid() && Fresh(w)
      ensures w.on ==> w.due >= moment
    {
    }

    lemma Finished()
      requires Good() && AllFinished(View())
      ensures commits == cfg.ncoro * cfg.iters
    {
      FinishedCounts(cfg, View());
    }

    lemma NaiveEnd()
      requires Good() && OnTime() && AllFinished(View())
      ensures cfg.mode == Naive && Increments(cfg) ==>
        (Sum(Vals(View())) == commits <==> forall n: nat :: n <= moment ==> !Overlap(cfg, AtBoth(Plan(), env, n).base))
    {
      if cfg.mode == Naive && Increments(cfg) {
        hide Reached, AtBoth, Overlap, SlotViews, Increments, AllFinished;
        CleanIffNoOverlap(Plan(), env, moment);
      }
    }

    /** The end-of-run oracle: the sum of the cache. */
    method SumOfCache() returns (sum: int)
      requires Valid()
      ensures sum == Sum(Vals(View()))
    {
      sum := 0;
      var k := 0;
      while k < cache.Length
        invariant 0 <= k <= cache.Length && sum == Sum(Vals(View())[..k])
      {
        assert Vals(View())[..k + 1] == Vals(View())[..k] + [cache[k].val];
        SumAppend(Vals(View())[..k], cache[k].val);
        sum := sum + cache[k].val;
        k := k + 1;
      }
      assert Vals(View())[..k] == Vals(View());
    }
  }
}
