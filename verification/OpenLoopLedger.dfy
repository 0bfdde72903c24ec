/**
 What becomes of the open-loop pipeline's arrivals and offloads, told from the steps of a run: an arrival is dropped
 exactly when the ring was full as the producer looked, and otherwise injected; an offload that the device finds
 outstanding and due is queued.
 */
module OpenLoopLedger {
  import opened Distinct
  import opened OpenLoop

  predicate NoProducer(ls: seq<Label>)
  {
    forall l :: l in ls ==> !ByProducer(l)
  }

  predicate NoDevice(ls: seq<Label>)
  {
    forall l :: l in ls ==> !ByDevice(l)
  }

  /** The last step was a look of the resting producer, with so many entries in the ring. */
  ghost predicate LookedAt(cfg: Config, labels: seq<Label>, full: bool)
    requires cfg.pool > 0 && |labels| > 0
  {
    var s := Run(cfg, labels[..|labels| - 1]);
    labels[|labels| - 1].ProdLook? && s.prod == Rest && (full <==> |s.arrivals| >= cfg.ring)
  }

  /** The arrivals for which the ring had room, in order, */
  ghost function Roomy(cfg: Config, labels: seq<Label>): seq<nat>
    requires cfg.pool > 0
    decreases |labels|
  {
    if |labels| == 0 then []
    else Roomy(cfg, labels[..|labels| - 1]) + if LookedAt(cfg, labels, false) then [labels[|labels| - 1].now] else []
  }

  /** and how many found it full. */
  ghost function Refused(cfg: Config, labels: seq<Label>): nat
    requires cfg.pool > 0
    decreases |labels|
  {
    if |labels| == 0 then 0
    else Refused(cfg, labels[..|labels| - 1]) + if LookedAt(cfg, labels, true) then 1 else 0
  }

  // ---------- The producer ----------

  lemma {:induction false} StepOf(cfg: Config, labels: seq<Label>)
    requires cfg.pool > 0 && |labels| > 0
    ensures var s := Run(cfg, labels[..|labels| - 1]);
      Inv(cfg, s) && Run(cfg, labels) == Step(cfg, s, labels[|labels| - 1])
  {
    hide *;
    Extend(cfg, labels[..|labels| - 1], labels[|labels| - 1]);
    assert labels == labels[..|labels| - 1] + [labels[|labels| - 1]];
  }

  lemma {:induction false} NotItsStep(cfg: Config, s: State, l: Label)
    requires Shaped(cfg, s) && !ByProducer(l)
    ensures var s' := Step(cfg, s, l); s'.prod == s.prod && s'.dropped == s.dropped && s'.stamps == s.stamps
  {
    hide Shaped;
  }

  lemma {:induction false} OthersLeave(cfg: Config, labels: seq<Label>, ls: seq<Label>)
    requires cfg.pool > 0 && NoProducer(ls)
    ensures var s, s' := Run(cfg, labels), Run(cfg, labels + ls);
      s'.prod == s.prod && s'.dropped == s.dropped && s'.stamps == s.stamps
    decreases |ls|
  {
    if |ls| == 0 {
      assert labels + ls == labels;
    } else {
      var front := ls[..|ls| - 1];
      OthersLeave(cfg, labels, front);
      StepOf(cfg, labels + ls);
      NotItsStep(cfg, Run(cfg, labels + front), ls[|ls| - 1]);
      hide Inv, Run, Step;
      assert (labels + ls)[..|labels + ls| - 1] == labels + front;
    }
  }

  lemma {:induction false} ProducerGoes(cfg: Config, labels: seq<Label>, l: Label)
    requires cfg.pool > 0 && ByProducer(l)
    ensures Run(cfg, labels + [l]) == ProducerStep(cfg, Run(cfg, labels), l)
  {
    Extend(cfg, labels, l);
    hide Inv, Run, ProducerStep;
  }

  /** The run after `labels` in which the producer looks, and takes its next two steps, with other steps in between. */
  function Attempt(labels: seq<Label>, now: nat, a: seq<Label>, b: seq<Label>): seq<Label>
  {
    labels + [ProdLook(now)] + a + [ProdStore] + b + [ProdPublish]
  }

  /** From every reachable state with the producer at rest: if the ring is full as it looks, the arrival is dropped by
      its next step; if not, it is injected by the one after that, whatever the other threads do in between. */
  lemma {:induction false} DroppedIffFull(cfg: Config, labels: seq<Label>, now: nat, a: seq<Label>, b: seq<Label>)
    requires cfg.pool > 0 && Run(cfg, labels).prod == Rest && NoProducer(a) && NoProducer(b)
    ensures var s, s' := Run(cfg, labels), Run(cfg, labels + [ProdLook(now)] + a + [ProdStore]);
      if |s.arrivals| >= cfg.ring
      then s'.dropped == s.dropped + 1 && s'.stamps == s.stamps && s'.prod == Rest
      else
        var s'' := Run(cfg, Attempt(labels, now, a, b));
        s''.dropped == s.dropped && s''.stamps == s.stamps + [now] && s''.prod == Rest
  {
    hide Run, NoProducer, Shaped;
    var l1 := labels + [ProdLook(now)];
    var l2 := l1 + a + [ProdStore];
    ProducerGoes(cfg, labels, ProdLook(now));
    OthersLeave(cfg, l1, a);
    ProducerGoes(cfg, l1 + a, ProdStore);
    OthersLeave(cfg, l2, b);
    ProducerGoes(cfg, l2 + b, ProdPublish);
  }

  /** Over every run: of the arrivals whose attempt is over, those for which the ring had room have been injected, in
      order, and the others are counted as dropped; at most the last attempt is not over. */
  lemma {:induction false} EveryArrivalCounts(cfg: Config, labels: seq<Label>)
    requires cfg.pool > 0
    ensures var s, roomy, refused := Run(cfg, labels), Roomy(cfg, labels), Refused(cfg, labels);
      if s.prod == Rest then s.stamps == roomy && s.dropped == refused
      else (s.stamps + [s.prod.stamp] == roomy && s.dropped == refused)
           || (s.stamps == roomy && s.dropped + 1 == refused)
    decreases |labels|
  {
    Ledger(cfg, labels);
  }

  /** Where the books stand when the run has come to s. */
  ghost predicate Booked(s: State, roomy: seq<nat>, refused: nat)
  {
    match s.prod
    case Rest => s.stamps == roomy && s.dropped == refused
    case Looked(_, false) => s.stamps == roomy && s.dropped + 1 == refused
    case _ => s.stamps + [s.prod.stamp] == roomy && s.dropped == refused
  }

  lemma {:induction false} ProducerBooks(cfg: Config, s: State, l: Label, roomy: seq<nat>, refused: nat)
    requires Booked(s, roomy, refused) && ByProducer(l)
    ensures Booked(ProducerStep(cfg, s, l),
      if l.ProdLook? && s.prod == Rest && |s.arrivals| < cfg.ring then roomy + [l.now] else roomy,
      if l.ProdLook? && s.prod == Rest && |s.arrivals| >= cfg.ring then refused + 1 else refused)
  {
  }

  lemma {:induction false} Ledger(cfg: Config, labels: seq<Label>)
    requires cfg.pool > 0
    ensures Booked(Run(cfg, labels), Roomy(cfg, labels), Refused(cfg, labels))
    decreases |labels|
  {
    if |labels| > 0 {
      var s, l := Run(cfg, labels[..|labels| - 1]), labels[|labels| - 1];
      Ledger(cfg, labels[..|labels| - 1]);
      StepOf(cfg, labels);
      hide Inv, Run, DeviceStep, DispatcherStep, ProducerStep;
      if ByProducer(l) {
        ProducerBooks(cfg, s, l, Roomy(cfg, labels[..|labels| - 1]), Refused(cfg, labels[..|labels| - 1]));
      } else {
        NotItsStep(cfg, s, l);
      }
    }
  }

  // ---------- The device ----------

  /** The offload of task i is outstanding: submitted, not marked done and not queued. */
  ghost predicate Outstanding(cfg: Config, s: State, i: nat)
    requires Shaped(cfg, s)
  {
    i < cfg.pool && s.tasks[i].state == WaitOff && s.slots[i].active && i !in s.comp
  }

  lemma {:induction false} NoneElse(cfg: Config, s: State, l: Label, i: nat)
    requires Inv(cfg, s) && Outstanding(cfg, s, i) && !ByDevice(l)
    ensures Shaped(cfg, Step(cfg, s, l))
    ensures var s' := Step(cfg, s, l);
      Outstanding(cfg, s', i) && s'.dev == s.dev && s'.slots[i] == s.slots[i] && s'.entries == s.entries
  {
    StepKeeps(cfg, s, l);
    assert Shaped(cfg, s) && TaskOk(cfg, s, i);
    hide Inv, NoDup, Below;
    if ByProducer(l) {
    } else {
      DispatcherLeaves(cfg, s, l, i);
    }
  }

  lemma {:induction false} DispatcherLeaves(cfg: Config, s: State, l: Label, i: nat)
    requires Shaped(cfg, s) && Outstanding(cfg, s, i) && TaskOk(cfg, s, i)
    ensures var s' := DispatcherStep(cfg, s, l);
      && |s'.tasks| == |s.tasks| && s'.tasks[i] == s.tasks[i] && |s'.slots| == |s.slots| && s'.slots[i] == s.slots[i]
      && i !in s'.comp && s'.dev == s.dev && s'.entries == s.entries
  {
    assert forall k :: 0 <= k < |s.freelist| ==> s.freelist[k] != i;
    assert forall k :: 0 <= k < |s.ready| ==> s.ready[k] != i;
    hide NoDup, TaskOk;
  }

  lemma {:induction false} NoneElseOver(cfg: Config, labels: seq<Label>, ls: seq<Label>, i: nat)
    requires cfg.pool > 0 && Outstanding(cfg, Run(cfg, labels), i) && NoDevice(ls)
    ensures var s, s' := Run(cfg, labels), Run(cfg, labels + ls);
      Outstanding(cfg, s', i) && s'.dev == s.dev && s'.slots[i] == s.slots[i] && s'.entries == s.entries
    decreases |ls|
  {
    if |ls| == 0 {
      assert labels + ls == labels;
    } else {
      var front := ls[..|ls| - 1];
      NoneElseOver(cfg, labels, front, i);
      StepOf(cfg, labels + ls);
      hide Inv, Run, Step, Outstanding;
      assert (labels + ls)[..|labels + ls| - 1] == labels + front;
      NoneElse(cfg, Run(cfg, labels + front), ls[|ls| - 1], i);
    }
  }

  /** The device's own steps at an outstanding offload. */
  lemma {:induction false} DeviceLooks(cfg: Config, labels: seq<Label>, l: Label, i: nat)
    requires cfg.pool > 0 && Outstanding(cfg, Run(cfg, labels), i)
    ensures var s, s' := Run(cfg, labels), Run(cfg, labels + [l]);
      && (s.dev == Idle && l == DevLook(i) ==> s' == s.(dev := Saw(i)))
      && (s.dev == Saw(i) && l == DevCheck && !s.slots[i].done ==> s' == s.(dev := Clear(i)))
      && (s.dev == Clear(i) && l == DevFinish(false) ==> s' == s.(dev := Idle))
  {
    Extend(cfg, labels, l);
    hide Inv, Run, DispatcherStep, ProducerStep;
  }

  lemma {:induction false} MarksIt(cfg: Config, s: State, i: nat)
    requires Shaped(cfg, s) && Outstanding(cfg, s, i) && s.dev == Clear(i)
    ensures var s' := Step(cfg, s, DevFinish(true));
      s' == s.(dev := Marked(i), slots := s.slots[i := s.slots[i].(done := true)])
      && Shaped(cfg, s') && Outstanding(cfg, s', i)
  {
    hide Below;
  }

  lemma {:induction false} QueuesIt(cfg: Config, s: State, i: nat)
    requires Shaped(cfg, s) && i < cfg.pool
    ensures s.dev == Marked(i) ==> Step(cfg, s, DevStore) == s.(dev := Stored(i))
    ensures s.dev == Stored(i) ==>
      Step(cfg, s, DevPublish) == s.(dev := Idle, comp := s.comp + [i], entries := s.entries[i := s.entries[i] + 1])
  {
    hide Below;
  }

  lemma {:induction false} DeviceReports(cfg: Config, labels: seq<Label>, l: Label, i: nat)
    requires cfg.pool > 0 && i < cfg.pool && Outstanding(cfg, Run(cfg, labels), i)
    ensures var s, s' := Run(cfg, labels), Run(cfg, labels + [l]);
      && (s.dev == Clear(i) && l == DevFinish(true) ==>
            s' == s.(dev := Marked(i), slots := s.slots[i := s.slots[i].(done := true)]) && Outstanding(cfg, s', i))
      && (s.dev == Marked(i) && l == DevStore ==> s' == s.(dev := Stored(i)))
      && (s.dev == Stored(i) && l == DevPublish ==>
            s' == s.(dev := Idle, comp := s.comp + [i], entries := s.entries[i := s.entries[i] + 1]))
  {
    hide *;
    var s := Run(cfg, labels);
    Extend(cfg, labels, l);
    if s.dev == Clear(i) {
      MarksIt(cfg, s, i);
    }
    QueuesIt(cfg, s, i);
  }

  /** The run after `labels` in which the device has read `active` and `done` of slot i, other steps in between. */
  function Checked(labels: seq<Label>, i: nat, a: seq<Label>, b: seq<Label>): seq<Label>
  {
    labels + [DevLook(i)] + a + [DevCheck] + b
  }

  lemma {:induction false} CheckSees(cfg: Config, labels: seq<Label>, i: nat, a: seq<Label>, b: seq<Label>)
    requires cfg.pool > 0 && i < cfg.pool && NoDevice(a) && NoDevice(b)
    requires var s := Run(cfg, labels); s.dev == Idle && s.slots[i].active && !s.slots[i].done
    ensures var s, s' := Run(cfg, labels), Run(cfg, Checked(labels, i, a, b));
      Outstanding(cfg, s', i) && s'.dev == Clear(i) && s'.slots[i] == s.slots[i] && s'.entries == s.entries
  {
    Extend(cfg, labels, DevLook(i));
    assert TaskOk(cfg, Run(cfg, labels), i);
    hide Inv, Run, Step;
    var l1 := labels + [DevLook(i)];
    DeviceLooks(cfg, labels, DevLook(i), i);
    NoneElseOver(cfg, l1, a, i);
    DeviceLooks(cfg, l1 + a, DevCheck, i);
    NoneElseOver(cfg, l1 + a + [DevCheck], b, i);
  }

  /** The run after `seen` in which it marks the slot and stores the id. */
  function UpToStore(seen: seq<Label>, c: seq<Label>, d: seq<Label>): seq<Label>
  {
    seen + [DevFinish(true)] + c + [DevStore] + d
  }

  lemma {:induction false} ReportsIt(cfg: Config, seen: seq<Label>, i: nat, c: seq<Label>, d: seq<Label>)
    requires cfg.pool > 0 && i < cfg.pool && Outstanding(cfg, Run(cfg, seen), i) && Run(cfg, seen).dev == Clear(i)
    requires NoDevice(c) && NoDevice(d)
    ensures var s, due := Run(cfg, seen), UpToStore(seen, c, d);
      var s' := Run(cfg, due + [DevPublish]);
      && s'.dev == Idle && s'.slots[i] == s.slots[i].(done := true) && s'.entries == s.entries[i := s.entries[i] + 1]
      && s'.comp == Run(cfg, due).comp + [i]
  {
    hide Run, NoDevice;
    DeviceReports(cfg, seen, DevFinish(true), i);
    var l3 := seen + [DevFinish(true)];
    NoneElseOver(cfg, l3, c, i);
    DeviceReports(cfg, l3 + c, DevStore, i);
    var l4 := l3 + c + [DevStore];
    NoneElseOver(cfg, l4, d, i);
    DeviceReports(cfg, l4 + d, DevPublish, i);
  }

  /** From every reachable state in which slot i is active and not done and the device is at its loop head: when the
      device has read both, with other threads' steps in between, nothing has been queued, and if the offload is not
      due, the device goes on; */
  lemma {:induction false} EarlyIsLeft(cfg: Config, labels: seq<Label>, i: nat, a: seq<Label>, b: seq<Label>)
    requires cfg.pool > 0 && i < cfg.pool && NoDevice(a) && NoDevice(b)
    requires var s := Run(cfg, labels); s.dev == Idle && s.slots[i].active && !s.slots[i].done
    ensures var s, s' := Run(cfg, labels), Run(cfg, Checked(labels, i, a, b) + [DevFinish(false)]);
      s'.dev == Idle && s'.slots[i] == s.slots[i] && s'.entries == s.entries && i !in s'.comp
  {
    CheckSees(cfg, labels, i, a, b);
    hide Run, Checked, NoDevice;
    DeviceLooks(cfg, Checked(labels, i, a, b), DevFinish(false), i);
  }

  /** and if it is due, it is marked, and then queued behind the others, once. */
  lemma {:induction false} DueIsQueued(cfg: Config, labels: seq<Label>, i: nat,
                                       a: seq<Label>, b: seq<Label>, c: seq<Label>, d: seq<Label>)
    requires cfg.pool > 0 && i < cfg.pool && NoDevice(a) && NoDevice(b) && NoDevice(c) && NoDevice(d)
    requires var s := Run(cfg, labels); s.dev == Idle && s.slots[i].active && !s.slots[i].done
    ensures var s, due := Run(cfg, labels), UpToStore(Checked(labels, i, a, b), c, d);
      var s' := Run(cfg, due + [DevPublish]);
      && s'.dev == Idle && s'.slots[i] == Slot(true, true) && s'.entries == s.entries[i := s.entries[i] + 1]
      && s'.comp == Run(cfg, due).comp + [i]
  {
    hide *;
    CheckSees(cfg, labels, i, a, b);
    ReportsIt(cfg, Checked(labels, i, a, b), i, c, d);
  }

  // ---------- The dispatcher ----------

  lemma {:induction false} GivesFirst(cfg: Config, s: State)
    requires Shaped(cfg, s) && s.disp == Loop && |s.arrivals| > 0 && |s.freelist| > 0
    ensures Shaped(cfg, Step(cfg, s, Assign))
    ensures var s', top := Step(cfg, s, Assign), s.freelist[|s.freelist| - 1];
      && s.freelist == s'.freelist + [top] && s.arrivals == [s.arrivals[0]] + s'.arrivals
      && s'.popped == s.popped + [s.arrivals[0]] && s'.ready == s.ready + [top]
      && s'.tasks == s.tasks[top := s.tasks[top].(state := Ready, arr := s.arrivals[0])]
  {
  }

  /** The oldest arrival goes to the free task on top of the stack, which becomes ready. */
  lemma {:induction false} AssignGives(cfg: Config, labels: seq<Label>)
    requires cfg.pool > 0
    requires var s := Run(cfg, labels); s.disp == Loop && |s.arrivals| > 0 && |s.freelist| > 0
    ensures var s, s' := Run(cfg, labels), Run(cfg, labels + [Assign]);
      var top := s.freelist[|s.freelist| - 1];
      && top < |s.tasks| && s.freelist == s'.freelist + [top] && s.arrivals == [s.arrivals[0]] + s'.arrivals
      && s'.popped == s.popped + [s.arrivals[0]] && s'.ready == s.ready + [top]
      && s'.tasks == s.tasks[top := s.tasks[top].(state := Ready, arr := s.arrivals[0])]
  {
    hide Run, Step, Inv;
    Extend(cfg, labels, Assign);
    GivesFirst(cfg, Run(cfg, labels));
  }

  /** The oldest completion entry makes its task ready and deactivates its slot. */
  lemma {:induction false} DrainReadies(cfg: Config, labels: seq<Label>)
    requires cfg.pool > 0
    requires var s := Run(cfg, labels); s.disp == Loop && |s.comp| > 0
    ensures var s, s' := Run(cfg, labels), Run(cfg, labels + [Drain]);
      var id := s.comp[0];
      && s.comp == [id] + s'.comp && s'.ready == s.ready + [id] && !s'.slots[id].active
      && s'.tasks == s.tasks[id := s.tasks[id].(state := Ready)] && s.tasks[id].state == WaitOff
  {
    Extend(cfg, labels, Drain);
    assert TaskOk(cfg, Run(cfg, labels), Run(cfg, labels).comp[0]);
    hide Inv, Run, Below, NoDup;
  }

  /** The first ready task, if it is at the head of its loop, goes to the middle of its submission; */
  lemma {:induction false} TurnPrepares(cfg: Config, labels: seq<Label>)
    requires cfg.pool > 0
    requires var s := Run(cfg, labels); s.disp == Loop && |s.ready| > 0 && !s.tasks[s.ready[0]].post
    ensures var s, s' := Run(cfg, labels), Run(cfg, labels + [RunPre]);
      && s.ready == [s.ready[0]] + s'.ready && s'.disp == Submitting(s.ready[0]) && s'.tasks == s.tasks
      && s'.slots == s.slots[s.ready[0] := s.slots[s.ready[0]].(done := false)]
  {
    Extend(cfg, labels, RunPre);
    hide Inv, Run, Below;
  }

  /** and then to the accelerator, its slot active. */
  lemma {:induction false} TurnSubmits(cfg: Config, labels: seq<Label>, id: nat)
    requires cfg.pool > 0 && Run(cfg, labels).disp == Submitting(id)
    ensures var s, s' := Run(cfg, labels), Run(cfg, labels + [Submit]);
      && id < cfg.pool && s'.disp == Loop && s'.tasks == s.tasks[id := s.tasks[id].(state := WaitOff, post := true)]
      && s'.slots == s.slots[id := s.slots[id].(active := true)] && s'.submits == s.submits[id := s.submits[id] + 1]
  {
    Extend(cfg, labels, Submit);
    hide Inv, Run, Below;
  }

  lemma {:induction false} ServesFirst(cfg: Config, s: State)
    requires Shaped(cfg, s) && s.disp == Loop && |s.ready| > 0 && s.tasks[s.ready[0]].post
    ensures Shaped(cfg, Step(cfg, s, RunPost))
    ensures var s', id := Step(cfg, s, RunPost), s.ready[0];
      && s.ready == [id] + s'.ready && s'.freelist == s.freelist + [id] && s'.disp == Loop
      && s'.recorded == s.recorded + [s.tasks[id].arr] && s'.completed == s.completed + 1
      && s'.tasks == s.tasks[id := s.tasks[id].(state := Free, post := false)]
  {
  }

  /** If it comes from its offload, its arrival is recorded and it is free. */
  lemma {:induction false} TurnServes(cfg: Config, labels: seq<Label>)
    requires cfg.pool > 0
    requires var s := Run(cfg, labels); s.disp == Loop && |s.ready| > 0 && s.tasks[s.ready[0]].post
    ensures var s, s', id := Run(cfg, labels), Run(cfg, labels + [RunPost]), Run(cfg, labels).ready[0];
      && id < |s.tasks| && s.ready == [id] + s'.ready && s'.freelist == s.freelist + [id] && s'.disp == Loop
      && s'.recorded == s.recorded + [s.tasks[id].arr] && s'.completed == s.completed + 1
      && s'.tasks == s.tasks[id := s.tasks[id].(state := Free, post := false)]
  {
    hide Run, Step, Inv;
    Extend(cfg, labels, RunPost);
    ServesFirst(cfg, Run(cfg, labels));
  }
}
