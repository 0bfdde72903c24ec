/** The open-loop pipeline's program: arrays, rings, and the loops of the dispatcher, with producer and device
    steps happening in between. */
module OpenLoopRuntime {
  import opened Distinct
  import opened OpenLoop
  import opened OpenLoopLedger
  import opened Rings

  /** How often the dispatcher assigned an arrival, drained a completion entry, and gave a task its turn. */
  datatype Tally = Tally(assigns: nat, drains: nat, turns: nat)

  function Tallied(ls: seq<Label>): Tally
  {
    if |ls| == 0 then Tally(0, 0, 0)
    else
      var y := Tallied(ls[..|ls| - 1]);
      match ls[|ls| - 1]
      case Assign => y.(assigns := y.assigns + 1)
      case Drain => y.(drains := y.drains + 1)
      case RunPre => y.(turns := y.turns + 1)
      case RunPost => y.(turns := y.turns + 1)
      case _ => y
  }

  lemma {:induction false} OneMore(ls: seq<Label>, l: Label)
    ensures var y := Tallied(ls);
      Tallied(ls + [l]) == match l
        case Assign => y.(assigns := y.assigns + 1)
        case Drain => y.(drains := y.drains + 1)
        case RunPre => y.(turns := y.turns + 1)
        case RunPost => y.(turns := y.turns + 1)
        case _ => y
  {
    assert (ls + [l])[..|ls|] == ls;
  }

  /** The rings' counters, the free and the ready tasks, and the tally. */
  datatype Counts = Counts(popped: nat, pushed: nat, drained: nat, posted: nat, free: nat, rn: nat, y: Tally)

  /** What the other two threads may do to them. */
  predicate Idled(a: Counts, b: Counts)
  {
    b.pushed >= a.pushed && b.posted >= a.posted && b == a.(pushed := b.pushed, posted := b.posted)
  }

  /** So many arrivals have been given to free tasks. */
  predicate Given(a: Counts, b: Counts, n: nat)
  {
    && a.free >= n && b.pushed >= a.pushed && b.posted >= a.posted
    && b == Counts(a.popped + n, b.pushed, a.drained, b.posted, a.free - n, a.rn + n, a.y.(assigns := a.y.assigns + n))
  }

  /** So many completion entries have been drained. */
  predicate Emptied(a: Counts, b: Counts, n: nat)
  {
    && b.pushed >= a.pushed && b.posted >= a.posted
    && b == Counts(a.popped, b.pushed, a.drained + n, b.posted, a.free, a.rn + n, a.y.(drains := a.y.drains + n))
  }

  /** So many tasks have had their turn. */
  predicate Turned(a: Counts, b: Counts, n: nat)
  {
    && b.pushed >= a.pushed && b.posted >= a.posted
    && b == a.(pushed := b.pushed, posted := b.posted, free := b.free, y := a.y.(turns := a.y.turns + n))
  }

  /** What a pass does. */
  predicate Worked(a: Counts, b: Counts, given: nat, drained: nat)
  {
    && a.popped <= a.pushed && a.drained <= a.posted
    && given >= Least(a.pushed - a.popped, a.free) && drained >= a.posted - a.drained
    && b.y == Tally(a.y.assigns + given, a.y.drains + drained, a.y.turns + a.rn + given + drained)
  }

  predicate Filled(a: seq<Counts>, given: nat, drained: nat)
    requires |a| == 5
  {
    && a[0].popped <= a[0].pushed && a[0].drained <= a[0].posted
    && Idled(a[0], a[1]) && Given(a[1], a[2], given) && a[1].popped <= a[1].pushed
    && given >= Least(a[1].pushed - a[1].popped, a[1].free)
    && Idled(a[2], a[3]) && Emptied(a[3], a[4], drained) && a[4].drained >= a[4].posted
  }

  lemma {:induction false} PassWorks(a: seq<Counts>, a5: Counts, a6: Counts, given: nat, drained: nat, turns: nat)
    requires |a| == 5 && Filled(a, given, drained)
    requires a5 == a[4].(rn := 0) && turns == a[4].rn && Turned(a5, a6, turns)
    ensures Worked(a[0], a6, given, drained)
  {
  }

  /** The other two threads' steps are not counted. */
  lemma {:induction false} Silent(ls: seq<Label>, l: Label)
    requires ByProducer(l) || ByDevice(l)
    ensures Tallied(ls + [l]) == Tallied(ls)
  {
    OneMore(ls, l);
  }

  function Least(a: nat, b: nat): nat
  {
    if a < b then a else b
  }

  /** What a pass between the a-th and the b-th step has done: given out the waiting arrivals as far as there were free
      tasks, drained every completion entry, and given every task that was ready, or that this made ready, its turn. */
  ghost predicate PassDone(cfg: Config, trace: seq<Label>, a: nat, b: nat)
    requires cfg.pool > 0
  {
    a <= b <= |trace| &&
    var s, y, y' := Run(cfg, trace[..a]), Tallied(trace[..a]), Tallied(trace[..b]);
    && Run(cfg, trace[..b]).ready == []
    && y'.assigns >= y.assigns + Least(|s.arrivals|, |s.freelist|) && y'.drains >= y.drains + |s.comp|
    && y'.turns + y.assigns + y.drains == y.turns + |s.ready| + y'.assigns + y'.drains
  }

  class Pipeline {
    const cfg: Config
    const slots: array<Slot>
    const tasks: array<Task>
    const freelist: array<nat>
    const ready: array<nat>
    const comp: Ring<nat>
    const ring: Ring<nat>
    var freen: nat
    var rn: nat
    var m: nat
    var j: nat
    var dev: Dev
    var prod: Prod
    var disp: Disp
    var dropped: nat
    var completed: nat
    ghost var submits: seq<nat>
    ghost var entries: seq<nat>
    ghost var stamps: seq<nat>
    ghost var popped: seq<nat>
    ghost var recorded: seq<nat>
    /** The steps of all three threads so far. */
    ghost var trace: seq<Label>

    /** The next element of each ring that has been stored but not published agrees with the program counters. */
    ghost predicate Valid()
      reads this, slots, tasks, freelist, ready, comp, comp.data, ring, ring.data
    {
      && slots.Length == tasks.Length == freelist.Length == cfg.pool > 0 && ready.Length == 2 * cfg.pool
      && comp.Valid() && ring.Valid() && comp.cap == 4 * cfg.pool && ring.cap == cfg.ring
      && comp != ring && comp.data != ring.data && freelist != ready
      && freelist != comp.data && freelist != ring.data && ready != comp.data && ready != ring.data
      && freen <= cfg.pool && rn <= ready.Length && j <= m <= ready.Length && (j == m || rn == 0)
      && (dev.Stored? ==> comp.data[comp.Cell(comp.head)] == dev.i)
      && (prod.Wrote? ==> ring.data[ring.Cell(ring.head)] == prod.stamp)
    }

    ghost function View(): State
      requires Valid()
      reads this, slots, tasks, freelist, ready, comp, comp.data, ring, ring.data
    {
      State(slots[..], tasks[..], freelist[..freen], ready[j..m] + ready[..rn], comp.Contents(), ring.Contents(),
            dev, prod, disp, dropped, completed, stamps, submits, entries, popped, recorded)
    }

    constructor (cfg: Config)
      requires cfg.pool > 0 && cfg.ring > 0
      ensures this.cfg == cfg && Valid() && View() == Init(cfg) && trace == [] && j == m && disp == Loop
      ensures fresh(slots) && fresh(tasks) && fresh(freelist) && fresh(ready)
      ensures fresh(comp) && fresh(comp.data) && fresh(ring) && fresh(ring.data)
    {
      this.cfg := cfg;
      slots := new Slot[cfg.pool](_ => Slot(false, false));
      tasks := new Task[cfg.pool](_ => Task(Free, false, 0));
      freelist := new nat[cfg.pool]((i: nat) => i);
      ready := new nat[2 * cfg.pool];
      comp := new Ring<nat>(4 * cfg.pool);
      ring := new Ring<nat>(cfg.ring);
      freen, rn, m, j := cfg.pool, 0, 0, 0;
      dev, prod, disp, dropped, completed := Idle, Rest, Loop, 0, 0;
      submits, entries := seq(cfg.pool, _ => 0), seq(cfg.pool, _ => 0);
      stamps, popped, recorded, trace := [], [], [], [];
      new;
      hide Ring<nat>.Contents;
      assert freelist[..freen] == Init(cfg).freelist && ready[j..m] + ready[..rn] == [];
      assert slots[..] == Init(cfg).slots && tasks[..] == Init(cfg).tasks;
    }

    /** The producer's next step: look at the ring, store the stamp, or publish it. */
    method ProducerTurn(l: Label)
      requires Valid() && Shaped(cfg, View()) && ByProducer(l)
      requires prod.Wrote? || (prod.Looked? && prod.room) ==> ring.head - ring.tail < ring.cap
      modifies this`prod, this`dropped, this`stamps, ring`head, ring.data
      ensures Valid() && View() == ProducerStep(cfg, old(View()), l) && ring.head >= old(ring.head)
      ensures old(prod) == Rest && l.ProdLook? ==> prod == Looked(l.now, ring.head - ring.tail < ring.cap)
      ensures old(prod).Looked? && l.ProdStore? ==> dropped == old(dropped) + if old(prod).room then 0 else 1
      ensures old(prod).Looked? && l.ProdStore? ==> prod == if old(prod).room then Wrote(old(prod).stamp) else Rest
      ensures old(prod).Wrote? && l.ProdPublish? ==>
        prod == Rest && ring.head == old(ring.head) + 1 && ring.data[ring.Cell(old(ring.head))] == old(prod).stamp
    {
      hide Below, Ring<nat>.Contents, Ring<nat>.Valid;
      match prod {
        case Rest =>
          if l.ProdLook? {
            prod := Looked(l.now, ring.head - ring.tail < ring.cap);
          }
        case Looked(stamp, room) =>
          if l.ProdStore? {
            if room {
              ring.Store(stamp);
              prod := Wrote(stamp);
            } else {
              dropped := dropped + 1;
              prod := Rest;
            }
          }
        case Wrote(stamp) =>
          if l.ProdPublish? {
            ring.Publish();
            stamps := stamps + [stamp];
            prod := Rest;
          }
      }
    }

    lemma CompHasRoom()
      requires Valid() && Inv(cfg, View())
      ensures comp.head - comp.tail <= cfg.pool
    {
      Pigeonhole(View().comp, cfg.pool);
    }

    /** The device thread looking at a slot: read `active`, read `done`, compare the clock and mark. */
    method DeviceLooks(l: Label)
      requires Valid() && Shaped(cfg, View()) && ByDevice(l) && (dev.Idle? || dev.Saw? || dev.Clear?)
      modifies this`dev, slots
      ensures Valid() && View() == DeviceStep(cfg, old(View()), l)
    {
      hide Below, Ring<nat>.Contents, Ring<nat>.Valid, Ring<nat>.Cell;
      if dev.Idle? && l.DevLook? {
        if l.i < cfg.pool && slots[l.i].active {
          dev := Saw(l.i);
        }
      } else if dev.Saw? && l.DevCheck? {
        dev := if slots[dev.i].done then Idle else Clear(dev.i);
      } else if dev.Clear? && l.DevFinish? {
        if l.due {
          slots[dev.i] := slots[dev.i].(done := true);
          dev := Marked(dev.i);
        } else {
          dev := Idle;
        }
      }
    }

    /** The device thread reporting a marked slot: store the id in the completion ring, then publish it. */
    method DeviceReports(l: Label)
      requires Valid() && Shaped(cfg, View()) && ByDevice(l) && (dev.Marked? || dev.Stored?)
      requires comp.head - comp.tail < comp.cap
      modifies this`dev, this`entries, comp`head, comp.data
      ensures Valid() && View() == DeviceStep(cfg, old(View()), l) && comp.head >= old(comp.head)
    {
      hide Below;
      if dev.Marked? && l.DevStore? {
        DeviceStores();
      } else if dev.Stored? && l.DevPublish? {
        DevicePublishes();
      }
    }

    method DeviceStores()
      requires Valid() && Shaped(cfg, View()) && dev.Marked? && comp.head - comp.tail < comp.cap
      modifies this`dev, comp.data
      ensures Valid() && View() == DeviceStep(cfg, old(View()), DevStore)
    {
      hide Below;
      comp.Store(dev.i);
      dev := Stored(dev.i);
    }

    method DevicePublishes()
      requires Valid() && Shaped(cfg, View()) && dev.Stored? && comp.head - comp.tail < comp.cap
      modifies this`dev, this`entries, comp`head
      ensures Valid() && View() == DeviceStep(cfg, old(View()), DevPublish) && comp.head >= old(comp.head)
    {
      hide Below;
      comp.Publish();
      entries := entries[dev.i := entries[dev.i] + 1];
      dev := Idle;
    }

    method DeviceTurn(l: Label)
      requires Valid() && Shaped(cfg, View()) && ByDevice(l) && comp.head - comp.tail < comp.cap
      modifies this`dev, this`entries, slots, comp`head, comp.data
      ensures Valid() && View() == DeviceStep(cfg, old(View()), l) && comp.head >= old(comp.head)
    {
      hide Valid, View, Shaped;
      if dev.Marked? || dev.Stored? {
        DeviceReports(l);
      } else {
        DeviceLooks(l);
      }
    }

    lemma ReadyHasRoom(id: nat)
      requires Valid() && Inv(cfg, View()) && id < cfg.pool && id !in View().ready && j == m
      ensures rn < cfg.pool
    {
      AddLast(View().ready, id);
      Pigeonhole(View().ready + [id], cfg.pool);
    }

    lemma FreeHasRoom(id: nat)
      requires Valid() && Inv(cfg, View()) && id < cfg.pool && id !in View().freelist
      ensures freen < cfg.pool
    {
      AddLast(View().freelist, id);
      Pigeonhole(View().freelist + [id], cfg.pool);
    }

    /** First loop of the dispatcher: one arrival to one free task. */
    method AssignOne()
      requires Valid() && Shaped(cfg, View()) && j == m && ring.tail < ring.head && freen > 0 && rn < cfg.pool
      modifies this`freen, this`rn, this`popped, tasks, ready, ring`tail
      ensures Valid() && View() == Assigned(cfg, old(View())) && j == m && freen == old(freen) - 1
      ensures rn == old(rn) + 1 && ring.tail == old(ring.tail) + 1
      ensures ready[rn - 1] == freelist[freen] < tasks.Length
      ensures tasks[freelist[freen]].state == Ready
      ensures tasks[freelist[freen]].arr == ring.data[ring.Cell(old(ring.tail))]
    {
      var id := freelist[freen - 1];
      assert View().freelist[freen - 1] == id;
      hide Below, Ring<nat>.Contents, Ring<nat>.Cell;
      var arr := ring.Pop();
      popped := popped + [arr];
      freen := freen - 1;
      tasks[id] := tasks[id].(state := Ready, arr := arr);
      ready[rn] := id;
      rn := rn + 1;
    }

    /** Second loop of the dispatcher: one completion entry. */
    method DrainOne()
      requires Valid() && Shaped(cfg, View()) && j == m && comp.tail < comp.head && rn < cfg.pool
      modifies this`rn, slots, tasks, ready, comp`tail
      ensures Valid() && View() == Drained(cfg, old(View())) && j == m && comp.tail == old(comp.tail) + 1
    {
      var id := comp.data[comp.Cell(comp.tail)];
      assert View().comp[0] == id;
      hide Below, Ring<nat>.Contents, Ring<nat>.Cell;
      id := comp.Pop();
      if tasks[id].state == WaitOff {
        tasks[id] := tasks[id].(state := Ready);
        slots[id] := slots[id].(active := false);
        ready[rn] := id;
        rn := rn + 1;
      }
    }

    /** A task from the head of its loop to the middle of its submission. */
    method PrepareFirst()
      requires Valid() && Shaped(cfg, View()) && j < m
      modifies this`j, this`disp, slots
      ensures Valid() && View() == Prepared(cfg, old(View())) && j == old(j) + 1
      ensures disp == Submitting(ready[old(j)]) && disp.id < slots.Length && !slots[disp.id].done
    {
      var id := ready[j];
      assert View().ready[0] == id;
      hide Below;
      slots[id] := slots[id].(done := false);
      disp := Submitting(id);
      j := j + 1;
    }

    /** The end of the submission: activate the slot and park. */
    method SubmitRest()
      requires Valid() && Shaped(cfg, View()) && disp.Submitting?
      modifies this`disp, this`submits, slots, tasks
      ensures Valid() && View() == Submitted(cfg, old(View()))
      ensures disp == Loop && old(disp).id < slots.Length
      ensures slots[old(disp).id].active && tasks[old(disp).id].state == WaitOff
    {
      hide Below;
      var id := disp.id;
      slots[id] := slots[id].(active := true);
      tasks[id] := tasks[id].(state := WaitOff, post := true);
      submits := submits[id := submits[id] + 1];
      disp := Loop;
    }

    /** A task from its offload to the end of its loop: record the arrival, become free, park. */
    method ServeFirst()
      requires Valid() && Shaped(cfg, View()) && j < m && freen < cfg.pool
      modifies this`j, this`completed, this`recorded, this`freen, tasks, freelist
      ensures Valid() && View() == Served(cfg, old(View())) && j == old(j) + 1
      ensures completed == old(completed) + 1 && freen == old(freen) + 1 && freelist[freen - 1] == ready[old(j)]
    {
      var id := ready[j];
      assert View().ready[0] == id;
      hide Below;
      completed := completed + 1;
      recorded := recorded + [tasks[id].arr];
      tasks[id] := tasks[id].(state := Free, post := false);
      freelist[freen] := id;
      freen := freen + 1;
      j := j + 1;
    }

    /** The state is the one the specification reaches by the steps in `trace`, those of producer and device
        included. */
    ghost predicate Good()
      reads this, slots, tasks, freelist, ready, comp, comp.data, ring, ring.data
    {
      Valid() && Inv(cfg, View()) && View() == Run(cfg, trace)
    }

    lemma Begun()
      requires cfg.pool > 0 && Valid() && View() == Init(cfg) && trace == []
      ensures Good()
    {
      InitOk(cfg);
    }

    /** The fields have moved by step l. */
    ghost method Note(l: Label, before: State)
      requires Valid() && Inv(cfg, before) && before == Run(cfg, trace)
      requires View() == Step(cfg, before, l) && Inv(cfg, View())
      modifies this`trace
      ensures Good() && trace == old(trace) + [l] && View() == old(View())
      ensures Tallied(trace) == Tallied(old(trace) + [l])
    {
      hide Inv, Step;
      Extend(cfg, trace, l);
      trace := trace + [l];
    }

    lemma Room()
      requires Good()
      ensures Shaped(cfg, View()) && comp.head - comp.tail < comp.cap
      ensures prod.Wrote? || (prod.Looked? && prod.room) ==> ring.head - ring.tail < ring.cap
    {
      CompHasRoom();
    }

    ghost function Now(): Counts
      reads this, comp, ring
    {
      Counts(ring.tail, ring.head, comp.tail, comp.head, freen, rn, Tallied(trace))
    }

    /** The number of offloads under way. */
    ghost function Pending(): nat
      requires Good()
      reads this, slots, tasks, freelist, ready, comp, comp.data, ring, ring.data
    {
      |OutIds(cfg, View())|
    }

    lemma SamePending(s: State, s': State)
      requires Shaped(cfg, s) && Shaped(cfg, s') && s'.tasks == s.tasks && s'.disp == s.disp
      ensures OutIds(cfg, s') == OutIds(cfg, s)
    {
    }

    /** What a step of another thread needs and keeps. */
    lemma OtherStep(s: State, l: Label)
      requires Inv(cfg, s) && (ByProducer(l) || ByDevice(l))
      ensures Shaped(cfg, s) && Inv(cfg, Step(cfg, s, l)) && Shaped(cfg, Step(cfg, s, l))
      ensures Step(cfg, s, l) == if ByProducer(l) then ProducerStep(cfg, s, l) else DeviceStep(cfg, s, l)
      ensures OutIds(cfg, Step(cfg, s, l)) == OutIds(cfg, s)
    {
      StepKeeps(cfg, s, l);
      hide TaskOk, ListsOk, Conserved;
      SamePending(s, Step(cfg, s, l));
    }

    lemma OtherFacts(l: Label)
      requires Good() && (ByProducer(l) || ByDevice(l))
      ensures Valid() && Inv(cfg, View()) && View() == Run(cfg, trace) && Shaped(cfg, View())
      ensures comp.head - comp.tail < comp.cap && comp != ring
      ensures prod.Wrote? || (prod.Looked? && prod.room) ==> ring.head - ring.tail < ring.cap
      ensures var s' := Step(cfg, View(), l);
        && Inv(cfg, s') && Shaped(cfg, s') && OutIds(cfg, s') == OutIds(cfg, View())
        && s' == if ByProducer(l) then ProducerStep(cfg, View(), l) else DeviceStep(cfg, View(), l)
    {
      Room();
      OtherStep(View(), l);
    }

    method ProducerQuietly(l: Label)
      requires Good() && ByProducer(l)
      modifies this`prod, this`dropped, this`stamps, this`trace, ring`head, ring.data
      ensures Good() && OutIds(cfg, View()) == old(OutIds(cfg, View())) && trace == old(trace) + [l]
      ensures ring.head >= old(ring.head)
    {
      hide *;
      OtherFacts(l);
      ghost var s := View();
      ProducerTurn(l);
      Note(l, s);
    }

    method DeviceQuietly(l: Label)
      requires Good() && ByDevice(l) && !ByProducer(l)
      modifies this`dev, this`entries, this`trace, slots, comp`head, comp.data
      ensures Good() && OutIds(cfg, View()) == old(OutIds(cfg, View())) && trace == old(trace) + [l]
      ensures comp.head >= old(comp.head)
    {
      hide *;
      OtherFacts(l);
      ghost var s := View();
      DeviceTurn(l);
      Note(l, s);
    }

    method ProducerStepIn(l: Label)
      requires Good() && ByProducer(l)
      modifies this`prod, this`dropped, this`stamps, this`trace, ring`head, ring.data
      ensures Good() && Pending() == old(Pending()) && old(trace) <= trace
      ensures Tallied(trace) == old(Tallied(trace)) && ring.head >= old(ring.head) && comp.head == old(comp.head)
    {
      assert comp != ring;
      hide Good, Valid, View, OutIds, Tallied, Inv, Run, ByProducer;
      Silent(trace, l);
      ProducerQuietly(l);
    }

    method DeviceStepIn(l: Label)
      requires Good() && ByDevice(l) && !ByProducer(l)
      modifies this`dev, this`entries, this`trace, slots, comp`head, comp.data
      ensures Good() && Pending() == old(Pending()) && old(trace) <= trace
      ensures Tallied(trace) == old(Tallied(trace)) && comp.head >= old(comp.head) && ring.head == old(ring.head)
    {
      assert comp != ring;
      hide Good, Valid, View, OutIds, Tallied, Inv, Run, ByProducer, ByDevice;
      Silent(trace, l);
      DeviceQuietly(l);
    }

    method OtherTurn(l: Label)
      requires Good()
      modifies this`prod, this`dropped, this`stamps, ring`head, ring.data
      modifies this`dev, this`entries, this`trace, slots, comp`head, comp.data
      ensures Good() && Pending() == old(Pending()) && old(trace) <= trace && Idled(old(Now()), Now())
    {
      hide Good, Pending, Tallied;
      if ByProducer(l) {
        ProducerStepIn(l);
      } else if ByDevice(l) {
        DeviceStepIn(l);
      }
    }

    /** Any number of producer and device steps. */
    method Others(ls: seq<Label>)
      requires Good()
      modifies this`prod, this`dropped, this`stamps, ring`head, ring.data
      modifies this`dev, this`entries, this`trace, slots, comp`head, comp.data
      ensures Good() && Pending() == old(Pending()) && old(trace) <= trace && Idled(old(Now()), Now())
    {
      hide Good, Pending, Now;
      for n := 0 to |ls|
        invariant Good() && Pending() == old(Pending()) && old(trace) <= trace && Idled(old(Now()), Now())
      {
        OtherTurn(ls[n]);
      }
    }

    lemma AssignFacts()
      requires Good() && disp == Loop && j == m && ring.tail < ring.head && freen > 0
      ensures Good() && Valid() && Inv(cfg, View()) && View() == Run(cfg, trace)
      ensures |View().arrivals| > 0 && |View().freelist| > 0 && Shaped(cfg, View()) && rn < cfg.pool
      ensures Step(cfg, View(), Assign) == Assigned(cfg, View()) && Inv(cfg, Assigned(cfg, View())) && comp != ring
    {
      TopIsFree();
      AssignKeeps(cfg, View());
    }

    /** What the step l of the dispatcher adds to the counters. */
    twostate lemma Counted(l: Label)
      requires trace == old(trace) + [l] && comp != ring
      requires ring.head == old(ring.head) && comp.head == old(comp.head)
      requires l.Assign? || ring.tail == old(ring.tail)
      requires l.Drain? || comp.tail == old(comp.tail)
      requires l.Assign? ==> rn == old(rn) + 1 && freen == old(freen) - 1 && ring.tail == old(ring.tail) + 1
      requires l.Drain? ==> rn == old(rn) + 1 && freen == old(freen) && comp.tail == old(comp.tail) + 1
      requires l.RunPre? || l.RunPost? ==> rn == old(rn)
      ensures l.Assign? ==> Given(old(Now()), Now(), 1)
      ensures l.Drain? ==> Emptied(old(Now()), Now(), 1)
      ensures l.RunPre? || l.RunPost? ==> Turned(old(Now()), Now(), 1)
    {
      OneMore(old(trace), l);
      hide Tallied;
    }

    method AssignQuietly()
      requires Good() && disp == Loop && j == m && ring.tail < ring.head && freen > 0
      modifies this`freen, this`rn, this`popped, this`trace, tasks, ready, ring`tail
      ensures Good() && j == m && freen == old(freen) - 1 && trace == old(trace) + [Assign]
      ensures rn == old(rn) + 1 && ring.tail == old(ring.tail) + 1
    {
      AssignFacts();
      hide *;
      ghost var s := View();
      AssignOne();
      Note(Assign, s);
    }

    /** First loop of the dispatcher, one turn. */
    method AssignStep()
      requires Good() && disp == Loop && j == m && ring.tail < ring.head && freen > 0
      modifies this`freen, this`rn, this`popped, this`trace, tasks, ready, ring`tail
      ensures Good() && j == m && freen == old(freen) - 1 && trace == old(trace) + [Assign]
      ensures Given(old(Now()), Now(), 1)
    {
      assert comp != ring;
      hide Good, Valid, View, Tallied, Inv, Run, Now, Given;
      AssignQuietly();
      Counted(Assign);
    }

    lemma TopIsFree()
      requires Good() && disp == Loop && j == m && ring.tail < ring.head && freen > 0
      ensures |View().arrivals| > 0 && |View().freelist| > 0 && Shaped(cfg, View()) && rn < cfg.pool
    {
      var id := View().freelist[freen - 1];
      assert TaskOk(cfg, View(), id);
      ReadyHasRoom(id);
    }

    method AssignLoop(env: nat -> seq<Label>, t0: nat) returns (t: nat, ghost given: nat)
      requires Good() && disp == Loop && j == m && ring.tail <= ring.head
      modifies this, slots, tasks, freelist, ready, comp, comp.data, ring, ring.data
      ensures Good() && disp == Loop && j == m && old(trace) <= trace && Given(old(Now()), Now(), given)
      ensures given >= Least(old(Now()).pushed - old(Now()).popped, old(Now()).free)
    {
      hide Good, View, Valid, Pending, Tallied;
      t, given := t0, 0;
      while ring.tail < ring.head && freen > 0
        invariant Good() && disp == Loop && j == m && old(trace) <= trace && Given(old(Now()), Now(), given)
        decreases freen
      {
        AssignStep();
        Others(env(t));
        t, given := t + 1, given + 1;
      }
    }

    lemma DrainFacts()
      requires Good() && disp == Loop && j == m && comp.tail < comp.head
      ensures Good() && Valid() && Inv(cfg, View()) && View() == Run(cfg, trace)
      ensures |View().comp| > 0 && Shaped(cfg, View()) && rn < cfg.pool && comp != ring
      ensures |View().ready| == rn && |Drained(cfg, View()).ready| == rn + 1
      ensures Step(cfg, View(), Drain) == Drained(cfg, View()) && Inv(cfg, Drained(cfg, View()))
      ensures |OutIds(cfg, Drained(cfg, View()))| < |OutIds(cfg, View())|
    {
      EntryIsAwaited();
      DrainKeeps(cfg, View());
    }

    lemma ReadyIs()
      requires Valid() && j == m
      ensures |View().ready| == rn
    {
    }

    method DrainQuietly()
      requires Good() && disp == Loop && j == m && comp.tail < comp.head
      modifies this`rn, this`trace, slots, tasks, ready, comp`tail
      ensures Good() && j == m && |OutIds(cfg, View())| < old(|OutIds(cfg, View())|) && trace == old(trace) + [Drain]
      ensures rn == old(rn) + 1 && comp.tail == old(comp.tail) + 1
    {
      DrainFacts();
      hide *;
      ghost var s := View();
      DrainOne();
      ReadyIs();
      Note(Drain, s);
    }

    /** Second loop of the dispatcher, one turn: a completion entry ends an offload that is under way. */
    method DrainStep()
      requires Good() && disp == Loop && j == m && comp.tail < comp.head
      modifies this`rn, this`trace, slots, tasks, ready, comp`tail
      ensures Good() && j == m && Pending() < old(Pending()) && trace == old(trace) + [Drain]
      ensures Emptied(old(Now()), Now(), 1)
    {
      assert comp != ring;
      hide Good, Valid, View, Tallied, OutIds, Inv, Run, Now, Emptied;
      DrainQuietly();
      Counted(Drain);
    }

    lemma EntryIsAwaited()
      requires Good() && disp == Loop && j == m && comp.tail < comp.head
      ensures |View().comp| > 0 && Shaped(cfg, View()) && rn < cfg.pool
      ensures View().tasks[View().comp[0]].state == WaitOff
      ensures Shaped(cfg, Drained(cfg, View())) && |OutIds(cfg, Drained(cfg, View()))| < |OutIds(cfg, View())|
    {
      assert TaskOk(cfg, View(), View().comp[0]);
      ReadyHasRoom(View().comp[0]);
      hide Inv, TaskOk;
      DrainEndsOne(View());
    }

    lemma DrainEndsOne(s: State)
      requires Inv(cfg, s) && s.disp == Loop && |s.comp| > 0
      ensures Shaped(cfg, s) && Shaped(cfg, Drained(cfg, s)) && |OutIds(cfg, Drained(cfg, s))| < |OutIds(cfg, s)|
    {
      var id := s.comp[0];
      assert TaskOk(cfg, s, id);
      hide TaskOk, Conserved, NoDup, ListsOk;
      assert OutIds(cfg, Drained(cfg, s)) == OutIds(cfg, s) - {id};
    }

    method DrainLoop(env: nat -> seq<Label>, t0: nat) returns (t: nat, ghost drained: nat)
      requires Good() && disp == Loop && j == m
      modifies this, slots, tasks, freelist, ready, comp, comp.data, ring, ring.data
      ensures Good() && disp == Loop && j == m && old(trace) <= trace && comp.tail >= comp.head
      ensures Emptied(old(Now()), Now(), drained)
    {
      hide Good, Pending, Now;
      t, drained := t0, 0;
      while comp.tail < comp.head
        invariant Good() && disp == Loop && j == m && old(trace) <= trace && Emptied(old(Now()), Now(), drained)
        decreases Pending()
      {
        DrainStep();
        Others(env(t));
        t, drained := t + 1, drained + 1;
      }
    }

    method ResumesAfterOffload() returns (post: bool)
      requires Good() && disp == Loop && j < m
      ensures j < ready.Length && ready[j] < cfg.pool == tasks.Length && post == tasks[ready[j]].post
    {
      FirstIsReady();
      post := tasks[ready[j]].post;
    }

    /** Third loop of the dispatcher, one turn: the first task of the batch runs to its next yield. */
    method RunFirst(mid: seq<Label>)
      requires Good() && disp == Loop && j < m
      modifies this, slots, tasks, freelist, comp`head, comp.data, ring`head, ring.data
      ensures Good() && disp == Loop && j == old(j) + 1 && m == old(m) && rn == old(rn)
      ensures Turned(old(Now()), Now(), 1)
      ensures old(trace) < trace && (trace[|old(trace)|].RunPre? || trace[|old(trace)|].RunPost?)
    {
      hide Good, View, Valid, Now;
      var post := ResumesAfterOffload();
      if post {
        ServeStep();
      } else {
        PrepareStep();
        Others(mid);
        SubmitStep();
      }
    }

    lemma FirstIsReady()
      requires Good() && disp == Loop && j < m
      ensures Shaped(cfg, View()) && |View().ready| > 0 && View().ready[0] == ready[j] < cfg.pool == tasks.Length
      ensures j < ready.Length && tasks[ready[j]].state == Ready && freen < cfg.pool
    {
      assert View().ready[0] == ready[j];
      assert TaskOk(cfg, View(), ready[j]);
      FreeHasRoom(ready[j]);
    }

    lemma ServeFacts()
      requires Good() && disp == Loop && j < m && ready[j] < cfg.pool && tasks[ready[j]].post
      ensures Shaped(cfg, View()) && j < m && freen < cfg.pool
      ensures Shaped(cfg, View()) && |View().ready| > 0
      ensures Step(cfg, View(), RunPost) == Served(cfg, View()) && Inv(cfg, Served(cfg, View()))
    {
      FirstIsReady();
      ServeKeeps(cfg, View());
    }

    method ServeStep()
      requires Good() && disp == Loop && j < m && ready[j] < cfg.pool && tasks[ready[j]].post
      modifies this`j, this`completed, this`recorded, this`freen, this`trace, tasks, freelist
      ensures Good() && j == old(j) + 1 && trace == old(trace) + [RunPost]
      ensures Turned(old(Now()), Now(), 1)
    {
      ServeFacts();
      hide Inv, Shaped, Run, Step, Served, View, Valid, Tallied, Now, Turned;
      ghost var s := View();
      ServeFirst();
      Note(RunPost, s);
      Counted(RunPost);
    }

    lemma PrepareFacts()
      requires Good() && disp == Loop && j < m && ready[j] < cfg.pool && !tasks[ready[j]].post
      ensures Shaped(cfg, View()) && |View().ready| > 0 && View().ready[0] < cfg.pool
      ensures Step(cfg, View(), RunPre) == Prepared(cfg, View()) && Inv(cfg, Prepared(cfg, View()))
    {
      FirstIsReady();
      PrepareKeeps(cfg, View());
    }

    method PrepareStep()
      requires Good() && disp == Loop && j < m && ready[j] < cfg.pool && !tasks[ready[j]].post
      modifies this`j, this`disp, this`trace, slots
      ensures Good() && disp.Submitting? && j == old(j) + 1 && trace == old(trace) + [RunPre]
      ensures Turned(old(Now()), Now(), 1)
    {
      PrepareFacts();
      hide Inv, Shaped, Run, Step, Prepared, View, Valid, Tallied, Now, Turned;
      ghost var s := View();
      PrepareFirst();
      Note(RunPre, s);
      Counted(RunPre);
    }

    method SubmitStep()
      requires Good() && disp.Submitting?
      modifies this`disp, this`submits, this`trace, slots, tasks
      ensures Good() && disp == Loop && trace == old(trace) + [Submit] && Now() == old(Now())
    {
      OneMore(trace, Submit);
      ghost var s := View();
      SubmitKeeps(cfg, s);
      assert Step(cfg, s, Submit) == Submitted(cfg, s);
      hide Inv, Run, Step, View, Valid, Tallied;
      SubmitRest();
      Note(Submit, s);
    }

    /** The ready queue becomes the batch of this pass. */
    method SwapBatch()
      requires Valid() && j == m
      modifies this`m, this`j, this`rn
      ensures Valid() && View() == old(View()) && j == 0 && m == old(rn) && rn == 0
    {
      hide Ring<nat>.Contents, Ring<nat>.Valid, Ring<nat>.Cell;
      assert ready[0..rn] + ready[..0] == ready[j..m] + ready[..rn];
      m, rn, j := rn, 0, 0;
    }

    method StartBatch()
      requires Good() && j == m
      modifies this`m, this`j, this`rn
      ensures Good() && View() == old(View()) && j == 0 && m == old(rn) && rn == 0
      ensures Now() == old(Now()).(rn := 0) && j == 0
    {
      hide Inv, Run, View, Valid;
      SwapBatch();
    }

    /** Third loop of the dispatcher: every task of the batch runs to its next yield. */
    method RunBatch(env: nat -> seq<Label>, t0: nat) returns (t: nat)
      requires Good() && disp == Loop && j == 0 && rn == 0
      modifies this, slots, tasks, freelist, comp`head, comp.data, ring`head, ring.data
      ensures Good() && disp == Loop && j == m && rn == 0 && View().ready == [] && old(trace) <= trace
      ensures Turned(old(Now()), Now(), old(m))
    {
      hide Good, View, Now;
      t := t0;
      while j < m
        invariant Good() && disp == Loop && j <= m == old(m) && rn == 0 && old(trace) <= trace
        invariant Turned(old(Now()), Now(), j)
      {
        RunFirst(env(t));
        Others(env(t + 1));
        t := t + 2;
      }
      NoneReady();
    }

    /** The first two loops, with the other threads acting before each. */
    method Fill(env: nat -> seq<Label>, t0: nat)
      returns (t: nat, ghost a: seq<Counts>, ghost given: nat, ghost drained: nat)
      requires Good() && disp == Loop && j == m
      modifies this, slots, tasks, freelist, ready, comp, comp.data, ring, ring.data
      ensures Good() && disp == Loop && j == m && old(trace) <= trace
      ensures |a| == 5 && a[0] == old(Now()) && a[4] == Now() && Filled(a, given, drained)
    {
      hide Good, View, Pending, Valid, Now, Idled, Given, Emptied, Tallied;
      Meters();
      ghost var a0 := Now();
      Others(env(t0));
      ghost var a1 := Now();
      Meters();
      t, given := AssignLoop(env, t0 + 1);
      ghost var a2 := Now();
      Others(env(t));
      ghost var a3 := Now();
      t, drained := DrainLoop(env, t + 1);
      Meters();
      a := [a0, a1, a2, a3, Now()];
    }

    method Loops(env: nat -> seq<Label>, t0: nat) returns (t: nat, ghost given: nat, ghost drained: nat)
      requires Good() && disp == Loop && j == m
      modifies this, slots, tasks, freelist, ready, comp, comp.data, ring, ring.data
      ensures Good() && disp == Loop && j == m && View().ready == [] && old(trace) <= trace
      ensures Worked(old(Now()), Now(), given, drained)
    {
      hide Good, View, Pending, Valid, Now, Turned, Worked, Filled, Tallied;
      ghost var a;
      t, a, given, drained := Fill(env, t0);
      Meters();
      StartBatch();
      ghost var a5, n := Now(), m;
      t := RunBatch(env, t);
      PassWorks(a, a5, Now(), given, drained, n);
    }

    /** One pass of `srv_coro`, with the producer's and the device's steps `env(t)` in between its own: assign arrivals,
        drain completions, run every ready task to its next yield, so that none is left. */
    method Pass(env: nat -> seq<Label>, t0: nat) returns (t: nat)
      requires Good() && disp == Loop && j == m
      modifies this, slots, tasks, freelist, ready, comp, comp.data, ring, ring.data
      ensures Good() && disp == Loop && j == m && View().ready == [] && old(trace) <= trace
      ensures cfg.pool > 0 && PassDone(cfg, trace, |old(trace)|, |trace|)
    {
      Loads();
      ghost var given, drained;
      ghost var was := trace;
      hide Good, View, Pending, Valid, Run, Now, Tallied;
      t, given, drained := Loops(env, t0);
      Loads();
      assert trace[..|was|] == was && trace[..|trace|] == trace;
    }

    /** Pass after pass; pass k takes the steps from `cuts[k]` to `cuts[k + 1]`. */
    method Passes(passes: nat, env: nat -> seq<Label>) returns (ghost cuts: seq<nat>)
      requires cfg.pool > 0 && Good() && disp == Loop && j == m && trace == []
      modifies this, slots, tasks, freelist, ready, comp, comp.data, ring, ring.data
      ensures Good() && |cuts| == passes + 1 && cuts[0] == 0 && cuts[passes] == |trace|
      ensures forall k :: 0 <= k < passes ==> PassDone(cfg, trace, cuts[k], cuts[k + 1])
    {
      hide Good, View, Valid, PassDone, Run;
      var t: nat := 0;
      cuts := [0];
      for k := 0 to passes
        invariant Good() && disp == Loop && j == m && |cuts| == k + 1 && cuts[0] == 0 && cuts[k] == |trace|
        invariant forall n :: 0 <= n < k ==> PassDone(cfg, trace, cuts[n], cuts[n + 1])
      {
        ghost var was := trace;
        t := Pass(env, t);
        forall n | 0 <= n < k ensures PassDone(cfg, trace, cuts[n], cuts[n + 1]) {
          PassKept(cfg, was, trace, cuts[n], cuts[n + 1]);
        }
        cuts := cuts + [|trace|];
      }
    }

    lemma Meters()
      requires Good()
      ensures Now() == Counts(ring.tail, ring.head, comp.tail, comp.head, freen, rn, Tallied(trace))
      ensures ring.tail <= ring.head && comp.tail <= comp.head
    {
    }

    /** How much there is to do. */
    lemma Loads()
      requires Good() && j == m
      ensures View() == Run(cfg, trace) && |View().arrivals| == ring.head - ring.tail && |View().freelist| == freen
      ensures |View().comp| == comp.head - comp.tail && |View().ready| == rn && cfg.pool > 0
      ensures ring.head >= ring.tail && comp.head >= comp.tail && Now().y == Tallied(trace)
      ensures Now() == Counts(ring.tail, ring.head, comp.tail, comp.head, freen, rn, Tallied(trace))
    {
    }

    lemma NoneReady()
      requires Good() && j == m && rn == 0
      ensures Valid() && View().ready == []
    {
    }
  }

  lemma {:induction false} PassKept(cfg: Config, trace: seq<Label>, more: seq<Label>, a: nat, b: nat)
    requires cfg.pool > 0 && trace <= more && PassDone(cfg, trace, a, b)
    ensures PassDone(cfg, more, a, b)
  {
    assert more[..a] == trace[..a] && more[..b] == trace[..b];
  }

  /** `srv_coro`, for a given number of passes, under any interleaving with the other two threads. Pass k takes the
      steps from `cuts[k]` to `cuts[k + 1]`. The arrivals that found the ring full, and only they, are not injected. */
  method Serve(cfg: Config, passes: nat, env: nat -> seq<Label>) returns (p: Pipeline, ghost cuts: seq<nat>)
    requires cfg.pool > 0 && cfg.ring > 0
    ensures p.cfg == cfg && p.Good() && (passes > 0 ==> p.View().ready == [])
    ensures |cuts| == passes + 1 && cuts[0] == 0 && cuts[passes] == |p.trace|
    ensures forall k :: 0 <= k < passes ==> PassDone(cfg, p.trace, cuts[k], cuts[k + 1])
    ensures p.prod == Rest ==> p.stamps == Roomy(cfg, p.trace) && p.dropped == Refused(cfg, p.trace)
  {
    p := new Pipeline(cfg);
    p.Begun();
    cuts := p.Passes(passes, env);
    EveryArrivalCounts(cfg, p.trace);
    assert p.trace[..|p.trace|] == p.trace;
    if passes > 0 {
      assert PassDone(cfg, p.trace, cuts[passes - 1], cuts[passes]);
    }
    hide Inv, Run;
  }
}
