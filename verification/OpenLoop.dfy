/**
 The open-loop pipeline as a specification: a producer thread that injects arrivals, a device thread that completes
 offloads and queues their ids, and a dispatcher that hands arrivals to free tasks and runs ready tasks. The three
 interleave between any two accesses to shared variables; in particular the device reads `active` and `done` of a
 slot in separate steps, so it may act on what it saw of the slot's previous submission.
 */
module OpenLoop {
  import opened Distinct

  datatype TState = Free | Ready | WaitOff

  /** `post`: the task resumes after its offload rather than at the head of its loop. */
  datatype Task = Task(state: TState, post: bool, arr: nat)

  datatype Slot = Slot(active: bool, done: bool)

  /** The device thread's program counter. */
  datatype Dev = Idle | Saw(i: nat) | Clear(i: nat) | Marked(i: nat) | Stored(i: nat)

  /** The producer's: whether the ring had room when it looked, and what it has stored but not published. */
  datatype Prod = Rest | Looked(stamp: nat, room: bool) | Wrote(stamp: nat)

  /** The dispatcher's: `Submitting(id)` between clearing `done` and setting `active`. */
  datatype Disp = Loop | Submitting(id: nat)

  /** `submits` and `entries` count submissions and completion entries per task; `stamps`, `popped` and `recorded` are
      the stamps injected, taken from the arrival ring, and recorded as served, in order. */
  datatype State = State(
    slots: seq<Slot>, tasks: seq<Task>, freelist: seq<nat>, ready: seq<nat>, comp: seq<nat>, arrivals: seq<nat>,
    dev: Dev, prod: Prod, disp: Disp, dropped: nat, completed: nat, stamps: seq<nat>,
    submits: seq<nat>, entries: seq<nat>, popped: seq<nat>, recorded: seq<nat>)

  datatype Config = Config(pool: nat, ring: nat)

  datatype Label =
    | ProdLook(now: nat) | ProdStore | ProdPublish
    | DevLook(i: nat) | DevCheck | DevFinish(due: bool) | DevStore | DevPublish
    | Assign | Drain | RunPre | Submit | RunPost

  ghost predicate Below(ids: seq<nat>, n: nat)
  {
    forall k :: 0 <= k < |ids| ==> ids[k] < n
  }

  ghost predicate Shaped(cfg: Config, s: State)
  {
    && |s.slots| == |s.tasks| == |s.submits| == |s.entries| == cfg.pool
    && Below(s.freelist, cfg.pool) && Below(s.ready, cfg.pool) && Below(s.comp, cfg.pool)
    && (s.disp.Submitting? ==> s.disp.id < cfg.pool)
    && (!s.dev.Idle? ==> s.dev.i < cfg.pool)
  }

  function Init(cfg: Config): State
  {
    State(seq(cfg.pool, _ => Slot(false, false)), seq(cfg.pool, _ => Task(Free, false, 0)),
          seq(cfg.pool, (i: nat) => i), [], [], [], Idle, Rest, Loop, 0, 0, [],
          seq(cfg.pool, _ => 0), seq(cfg.pool, _ => 0), [], [])
  }

  // ---------- Steps ----------

  function ProducerStep(cfg: Config, s: State, l: Label): State
  {
    match (l, s.prod)
    case (ProdLook(now), Rest) => s.(prod := Looked(now, |s.arrivals| < cfg.ring))
    case (ProdStore, Looked(stamp, room)) =>
      if room then s.(prod := Wrote(stamp)) else s.(prod := Rest, dropped := s.dropped + 1)
    case (ProdPublish, Wrote(stamp)) => s.(prod := Rest, arrivals := s.arrivals + [stamp], stamps := s.stamps + [stamp])
    case _ => s
  }

  function DeviceStep(cfg: Config, s: State, l: Label): State
    requires Shaped(cfg, s)
  {
    match (l, s.dev)
    case (DevLook(i), Idle) => if i < cfg.pool && s.slots[i].active then s.(dev := Saw(i)) else s
    case (DevCheck, Saw(i)) => if s.slots[i].done then s.(dev := Idle) else s.(dev := Clear(i))
    case (DevFinish(due), Clear(i)) =>
      if due then s.(dev := Marked(i), slots := s.slots[i := s.slots[i].(done := true)]) else s.(dev := Idle)
    case (DevStore, Marked(i)) => s.(dev := Stored(i))
    case (DevPublish, Stored(i)) => s.(dev := Idle, comp := s.comp + [i], entries := s.entries[i := s.entries[i] + 1])
    case _ => s
  }

  /** Hand the oldest arrival to the free task on top of the stack. */
  function Assigned(cfg: Config, s: State): State
    requires Shaped(cfg, s) && |s.arrivals| > 0 && |s.freelist| > 0
  {
    var id := s.freelist[|s.freelist| - 1];
    s.(arrivals := s.arrivals[1..], popped := s.popped + [s.arrivals[0]], freelist := s.freelist[..|s.freelist| - 1],
       tasks := s.tasks[id := Task(Ready, s.tasks[id].post, s.arrivals[0])], ready := s.ready + [id])
  }

  /** Take the oldest completion entry; a task that is not waiting for it is left alone. */
  function Drained(cfg: Config, s: State): State
    requires Shaped(cfg, s) && |s.comp| > 0
  {
    var id := s.comp[0];
    var s1 := s.(comp := s.comp[1..]);
    if s.tasks[id].state != WaitOff then s1
    else s1.(tasks := s.tasks[id := s.tasks[id].(state := Ready)],
             slots := s.slots[id := s.slots[id].(active := false)], ready := s.ready + [id])
  }

  /** Run the first ready task from the head of its loop up to the middle of its submission. */
  function Prepared(cfg: Config, s: State): State
    requires Shaped(cfg, s) && |s.ready| > 0
  {
    var id := s.ready[0];
    s.(ready := s.ready[1..], disp := Submitting(id), slots := s.slots[id := s.slots[id].(done := false)])
  }

  /** The rest of the submission; the task parks. */
  function Submitted(cfg: Config, s: State): State
    requires Shaped(cfg, s) && s.disp.Submitting?
  {
    var id := s.disp.id;
    s.(disp := Loop, slots := s.slots[id := s.slots[id].(active := true)],
       tasks := s.tasks[id := s.tasks[id].(state := WaitOff, post := true)],
       submits := s.submits[id := s.submits[id] + 1])
  }

  /** Run the first ready task from its offload to the end of its loop: record the arrival, free itself, park. */
  function Served(cfg: Config, s: State): State
    requires Shaped(cfg, s) && |s.ready| > 0
  {
    var id := s.ready[0];
    s.(ready := s.ready[1..], completed := s.completed + 1, recorded := s.recorded + [s.tasks[id].arr],
       tasks := s.tasks[id := s.tasks[id].(state := Free, post := false)], freelist := s.freelist + [id])
  }

  function DispatcherStep(cfg: Config, s: State, l: Label): State
    requires Shaped(cfg, s)
  {
    if s.disp.Submitting? then (if l.Submit? then Submitted(cfg, s) else s)
    else match l
      case Assign => if |s.arrivals| > 0 && |s.freelist| > 0 then Assigned(cfg, s) else s
      case Drain => if |s.comp| > 0 then Drained(cfg, s) else s
      case RunPre => if |s.ready| > 0 && !s.tasks[s.ready[0]].post then Prepared(cfg, s) else s
      case RunPost => if |s.ready| > 0 && s.tasks[s.ready[0]].post then Served(cfg, s) else s
      case _ => s
  }

  predicate ByProducer(l: Label)
  {
    l.ProdLook? || l.ProdStore? || l.ProdPublish?
  }

  predicate ByDevice(l: Label)
  {
    l.DevLook? || l.DevCheck? || l.DevFinish? || l.DevStore? || l.DevPublish?
  }

  function Step(cfg: Config, s: State, l: Label): State
    requires Shaped(cfg, s)
  {
    if ByProducer(l) then ProducerStep(cfg, s, l)
    else if ByDevice(l) then DeviceStep(cfg, s, l)
    else DispatcherStep(cfg, s, l)
  }

  // ---------- The invariant ----------

  /** The task's offload is on its way: `done` is cleared and the completion entry is not yet taken. */
  ghost predicate Out(cfg: Config, s: State, id: nat)
    requires Shaped(cfg, s) && id < cfg.pool
  {
    s.tasks[id].state == WaitOff || s.disp == Submitting(id)
  }

  ghost predicate Carried(s: State, id: nat)
  {
    s.dev == Marked(id) || s.dev == Stored(id)
  }

  /** Task id is in exactly one place, and its offload, if any, has at most one completion, made by the device. */
  ghost predicate TaskOk(cfg: Config, s: State, id: nat)
    requires Shaped(cfg, s) && id < cfg.pool
  {
    var t, d := s.tasks[id], s.slots[id];
    && (id in s.freelist <==> t.state == Free)
    && (id in s.ready <==> t.state == Ready && s.disp != Submitting(id))
    && (s.disp == Submitting(id) ==> t.state == Ready && !t.post)
    && (t.state == WaitOff ==> t.post) && (t.state == Free ==> !t.post)
    && (d.active <==> t.state == WaitOff)
    && (id in s.comp || Carried(s, id) ==> Out(cfg, s, id) && d.done)
    && !(id in s.comp && Carried(s, id))
    && (Out(cfg, s, id) && d.done ==> id in s.comp || Carried(s, id))
    && (s.dev == Saw(id) && !d.done ==> Out(cfg, s, id))
    && (s.dev == Clear(id) ==> Out(cfg, s, id) && !d.done)
    && s.submits[id] + (if s.disp == Submitting(id) then 1 else 0)
         == s.entries[id] + (if Out(cfg, s, id) && id !in s.comp then 1 else 0)
  }

  ghost predicate ListsOk(cfg: Config, s: State)
  {
    && NoDup(s.freelist) && NoDup(s.ready) && NoDup(s.comp)
    && |s.arrivals| <= cfg.ring
    && (s.prod.Wrote? || (s.prod.Looked? && s.prod.room) ==> |s.arrivals| < cfg.ring)
    && s.stamps == s.popped + s.arrivals
  }

  function Held(t: Task): multiset<nat>
  {
    if t.state == Free then multiset{} else multiset{t.arr}
  }

  /** The stamps of the tasks that are serving an arrival. */
  function Busy(tasks: seq<Task>): multiset<nat>
  {
    if |tasks| == 0 then multiset{} else Busy(tasks[..|tasks| - 1]) + Held(tasks[|tasks| - 1])
  }

  ghost predicate Conserved(s: State)
  {
    && multiset(s.popped) == multiset(s.recorded) + Busy(s.tasks)
    && s.completed == |s.recorded|
  }

  ghost predicate Inv(cfg: Config, s: State)
  {
    && Shaped(cfg, s) && ListsOk(cfg, s) && Conserved(s)
    && forall id: nat :: id < cfg.pool ==> TaskOk(cfg, s, id)
  }

  lemma {:induction false} BusyUpdate(tasks: seq<Task>, id: nat, t: Task)
    requires id < |tasks|
    ensures Busy(tasks[id := t]) + Held(tasks[id]) == Busy(tasks) + Held(t)
    decreases |tasks|
  {
    hide Held;
    var n := |tasks| - 1;
    if id == n {
      assert tasks[id := t][..n] == tasks[..n];
    } else {
      assert tasks[id := t][..n] == tasks[..n][id := t];
      BusyUpdate(tasks[..n], id, t);
      var b, b', last := Busy(tasks[..n]), Busy(tasks[..n][id := t]), Held(tasks[n]);
      assert (b' + Held(tasks[id])) + last == (b + Held(t)) + last;
      assert b' + last + Held(tasks[id]) == (b' + Held(tasks[id])) + last;
      assert b + last + Held(t) == (b + Held(t)) + last;
    }
  }

  lemma {:induction false} NoneBusy(tasks: seq<Task>)
    requires forall i :: 0 <= i < |tasks| ==> tasks[i].state == Free
    ensures Busy(tasks) == multiset{}
    decreases |tasks|
  {
    if |tasks| > 0 {
      NoneBusy(tasks[..|tasks| - 1]);
    }
  }

  lemma {:induction false} InitOk(cfg: Config)
    requires cfg.pool > 0
    ensures Inv(cfg, Init(cfg))
  {
    NoneBusy(Init(cfg).tasks);
    var s := Init(cfg);
    forall id: nat | id < cfg.pool ensures TaskOk(cfg, s, id) {
      assert s.freelist[id] == id;
    }
  }

  lemma {:induction false} ProducerKeeps(cfg: Config, s: State, l: Label)
    requires Inv(cfg, s)
    ensures Inv(cfg, ProducerStep(cfg, s, l))
  {
    var s' := ProducerStep(cfg, s, l);
    forall id: nat | id < cfg.pool ensures TaskOk(cfg, s', id) {
      assert TaskOk(cfg, s, id);
    }
  }

  lemma {:induction false} DeviceKeeps(cfg: Config, s: State, l: Label)
    requires Inv(cfg, s)
    ensures Inv(cfg, DeviceStep(cfg, s, l))
  {
    var s' := DeviceStep(cfg, s, l);
    assert !s.dev.Idle? ==> TaskOk(cfg, s, s.dev.i);
    hide TaskOk, ListsOk;
    DeviceKeepsLists(cfg, s, l);
    assert Conserved(s');
    hide Conserved, DeviceStep;
    forall id: nat | id < cfg.pool ensures TaskOk(cfg, s', id) {
      DeviceKeepsTask(cfg, s, l, id);
    }
  }

  lemma {:induction false} DeviceKeepsLists(cfg: Config, s: State, l: Label)
    requires Shaped(cfg, s) && ListsOk(cfg, s) && (!s.dev.Idle? ==> TaskOk(cfg, s, s.dev.i))
    ensures Shaped(cfg, DeviceStep(cfg, s, l)) && ListsOk(cfg, DeviceStep(cfg, s, l))
  {
    if l.DevPublish? && s.dev.Stored? {
      AddLast(s.comp, s.dev.i);
    }
    hide NoDup;
  }

  lemma {:induction false} DeviceKeepsTask(cfg: Config, s: State, l: Label, id: nat)
    requires Shaped(cfg, s) && id < cfg.pool && TaskOk(cfg, s, id) && (!s.dev.Idle? ==> TaskOk(cfg, s, s.dev.i))
    ensures Shaped(cfg, DeviceStep(cfg, s, l)) && TaskOk(cfg, DeviceStep(cfg, s, l), id)
  {
    if l.DevPublish? && s.dev.Stored? {
      assert forall x :: x in s.comp + [s.dev.i] <==> x in s.comp || x == s.dev.i;
    }
  }

  /** Changing one task's share of the books. */
  lemma {:induction false} Rebook(s: State, id: nat, t: Task, popped: seq<nat>, recorded: seq<nat>)
    requires Conserved(s) && id < |s.tasks|
    requires multiset(popped) + multiset(s.recorded) + Held(s.tasks[id])
          == multiset(s.popped) + multiset(recorded) + Held(t)
    ensures multiset(popped) == multiset(recorded) + Busy(s.tasks[id := t])
  {
    hide Held, Busy;
    BusyUpdate(s.tasks, id, t);
    var p, p', r, r' := multiset(s.popped), multiset(popped), multiset(s.recorded), multiset(recorded);
    var h, h' := Held(s.tasks[id]), Held(t);
    var b, b' := Busy(s.tasks), Busy(s.tasks[id := t]);
    forall x ensures p'[x] == (r' + b')[x] {
      assert (b' + h)[x] == (b + h')[x];
      assert (p' + r + h)[x] == (p + r' + h')[x];
      assert p[x] == (r + b)[x];
    }
  }

  lemma {:induction false} AssignKeeps(cfg: Config, s: State)
    requires Inv(cfg, s) && s.disp == Loop && |s.arrivals| > 0 && |s.freelist| > 0
    ensures Inv(cfg, Assigned(cfg, s))
  {
    var s' := Assigned(cfg, s);
    var id := s.freelist[|s.freelist| - 1];
    assert TaskOk(cfg, s, id);
    assert s.tasks[id].state == Free;
    hide ListsOk, TaskOk;
    Rebook(s, id, s'.tasks[id], s'.popped, s.recorded);
    assert Conserved(s');
    hide Conserved, Assigned;
    forall i: nat | i < cfg.pool ensures TaskOk(cfg, s', i) {
      AssignKeepsTask(cfg, s, i);
    }
  }

  lemma {:induction false} AssignKeepsTask(cfg: Config, s: State, i: nat)
    requires Shaped(cfg, s) && NoDup(s.freelist) && s.disp == Loop
    requires |s.arrivals| > 0 && |s.freelist| > 0 && i < cfg.pool
    requires TaskOk(cfg, s, i)
    ensures Shaped(cfg, Assigned(cfg, s)) && TaskOk(cfg, Assigned(cfg, s), i)
  {
    var id := s.freelist[|s.freelist| - 1];
    DropLast(s.freelist);
    hide NoDup;
    assert forall x :: x in s.ready + [id] <==> x in s.ready || x == id;
  }

  lemma {:induction false} DrainKeeps(cfg: Config, s: State)
    requires Inv(cfg, s) && s.disp == Loop && |s.comp| > 0
    ensures Inv(cfg, Drained(cfg, s))
  {
    var s' := Drained(cfg, s);
    var id := s.comp[0];
    assert TaskOk(cfg, s, id);
    DrainKeepsLists(cfg, s);
    assert Held(s'.tasks[id]) == Held(s.tasks[id]);
    hide ListsOk, Held, Busy, TaskOk;
    Rebook(s, id, s'.tasks[id], s.popped, s.recorded);
    assert Conserved(s');
    hide NoDup, Conserved;
    forall i: nat | i < cfg.pool ensures TaskOk(cfg, s', i) {
      DrainKeepsTask(cfg, s, i);
    }
  }

  lemma {:induction false} DrainKeepsLists(cfg: Config, s: State)
    requires Shaped(cfg, s) && ListsOk(cfg, s) && s.disp == Loop && |s.comp| > 0 && TaskOk(cfg, s, s.comp[0])
    ensures Shaped(cfg, Drained(cfg, s)) && ListsOk(cfg, Drained(cfg, s))
  {
    DropFirst(s.comp);
    AddLast(s.ready, s.comp[0]);
    hide NoDup;
  }

  lemma {:induction false} DrainKeepsTask(cfg: Config, s: State, i: nat)
    requires Shaped(cfg, s) && NoDup(s.comp) && s.disp == Loop && |s.comp| > 0 && i < cfg.pool
    requires TaskOk(cfg, s, i) && TaskOk(cfg, s, s.comp[0])
    ensures Shaped(cfg, Drained(cfg, s)) && TaskOk(cfg, Drained(cfg, s), i)
  {
    var s' := Drained(cfg, s);
    DropFirst(s.comp);
    hide NoDup;
    assert forall x :: x in s'.comp <==> x in s.comp && x != s.comp[0];
    assert forall x :: x in s'.ready <==> x in s.ready || (x == s.comp[0] && s'.ready != s.ready);
  }

  lemma {:induction false} PrepareKeeps(cfg: Config, s: State)
    requires Inv(cfg, s) && s.disp == Loop && |s.ready| > 0 && !s.tasks[s.ready[0]].post
    ensures Inv(cfg, Prepared(cfg, s))
  {
    var s' := Prepared(cfg, s);
    assert TaskOk(cfg, s, s.ready[0]);
    DropFirst(s.ready);
    hide NoDup;
    forall i: nat | i < cfg.pool ensures TaskOk(cfg, s', i) {
      assert TaskOk(cfg, s, i);
    }
  }

  lemma {:induction false} SubmitKeeps(cfg: Config, s: State)
    requires Inv(cfg, s) && s.disp.Submitting?
    ensures Inv(cfg, Submitted(cfg, s))
  {
    var s' := Submitted(cfg, s);
    assert TaskOk(cfg, s, s.disp.id);
    Rebook(s, s.disp.id, s'.tasks[s.disp.id], s.popped, s.recorded);
    hide NoDup, Busy;
    forall i: nat | i < cfg.pool ensures TaskOk(cfg, s', i) {
      assert TaskOk(cfg, s, i);
    }
  }

  lemma {:induction false} ServeKeeps(cfg: Config, s: State)
    requires Inv(cfg, s) && s.disp == Loop && |s.ready| > 0 && s.tasks[s.ready[0]].post
    ensures Inv(cfg, Served(cfg, s))
  {
    var s' := Served(cfg, s);
    var id := s.ready[0];
    assert TaskOk(cfg, s, id);
    DropFirst(s.ready);
    AddLast(s.freelist, id);
    Rebook(s, id, s'.tasks[id], s.popped, s'.recorded);
    hide NoDup, Busy;
    forall i: nat | i < cfg.pool ensures TaskOk(cfg, s', i) {
      assert TaskOk(cfg, s, i);
    }
  }

  lemma {:induction false} StepKeeps(cfg: Config, s: State, l: Label)
    requires Inv(cfg, s)
    ensures Inv(cfg, Step(cfg, s, l))
  {
    hide ListsOk, Conserved, TaskOk, Assigned, Drained, Prepared, Submitted, Served, ProducerStep, DeviceStep;
    if ByProducer(l) {
      ProducerKeeps(cfg, s, l);
    } else if ByDevice(l) {
      DeviceKeeps(cfg, s, l);
    } else if s.disp.Submitting? {
      SubmitKeeps(cfg, s);
    } else {
      if |s.arrivals| > 0 && |s.freelist| > 0 { AssignKeeps(cfg, s); }
      if |s.comp| > 0 { DrainKeeps(cfg, s); }
      if |s.ready| > 0 && !s.tasks[s.ready[0]].post { PrepareKeeps(cfg, s); }
      if |s.ready| > 0 && s.tasks[s.ready[0]].post { ServeKeeps(cfg, s); }
    }
  }

  /** The run of a schedule. */
  ghost function Exec(cfg: Config, s: State, labels: seq<Label>): (s': State)
    requires Inv(cfg, s)
    ensures Inv(cfg, s')
    decreases |labels|
  {
    if |labels| == 0 then s
    else
      var s1 := Exec(cfg, s, labels[..|labels| - 1]);
      StepKeeps(cfg, s1, labels[|labels| - 1]);
      Step(cfg, s1, labels[|labels| - 1])
  }

  ghost function Run(cfg: Config, labels: seq<Label>): (s: State)
    requires cfg.pool > 0
    ensures Shaped(cfg, s)
  {
    InitOk(cfg);
    Exec(cfg, Init(cfg), labels)
  }

  /** One more step at the end of a run. */
  lemma {:induction false} Extend(cfg: Config, labels: seq<Label>, l: Label)
    requires cfg.pool > 0
    ensures Inv(cfg, Run(cfg, labels)) && Run(cfg, labels + [l]) == Step(cfg, Run(cfg, labels), l)
  {
    InitOk(cfg);
    assert (labels + [l])[..|labels|] == labels;
  }

  // ---------- Main results ----------

  ghost function OutIds(cfg: Config, s: State): (ids: set<nat>)
    requires Shaped(cfg, s)
    ensures forall id: nat :: id in ids <==> id < cfg.pool && Out(cfg, s, id)
  {
    set id | id in Ids(cfg.pool) && Out(cfg, s, id)
  }

  /** Exactly one of the three. */
  ghost predicate OnePlace(cfg: Config, s: State, id: nat)
    requires Shaped(cfg, s) && id < cfg.pool
  {
    && (id in s.freelist ==> id !in s.ready && !Out(cfg, s, id))
    && (id in s.ready ==> !Out(cfg, s, id))
    && (id in s.freelist || id in s.ready || Out(cfg, s, id))
  }

  lemma PlaceOf(cfg: Config, s: State, id: nat)
    requires Shaped(cfg, s) && id < cfg.pool && TaskOk(cfg, s, id)
    ensures OnePlace(cfg, s, id) && (id in s.comp ==> Out(cfg, s, id))
  {
  }

  /** Three sets that share out the ids below n. */
  lemma ThreeSets(a: set<nat>, b: set<nat>, c: set<nat>, n: nat)
    requires forall x: nat :: x in a ==> x < n && x !in b && x !in c
    requires forall x: nat :: x in b ==> x < n && x !in c
    requires forall x: nat :: x in c ==> x < n
    requires forall x: nat :: x < n ==> x in a || x in b || x in c
    ensures |a| + |b| + |c| == n
  {
    assert a + b + c == Ids(n);
    assert |a + b| == |a| + |b|;
    assert |a + b + c| == |a + b| + |c|;
  }

  lemma {:induction false} Partition(cfg: Config, s: State)
    requires Shaped(cfg, s) && NoDup(s.freelist) && NoDup(s.ready) && NoDup(s.comp)
    requires forall id: nat :: id < cfg.pool ==> OnePlace(cfg, s, id)
    requires forall id: nat :: id in s.comp ==> id < cfg.pool && Out(cfg, s, id)
    ensures |s.freelist| + |s.ready| + |OutIds(cfg, s)| == cfg.pool
    ensures |s.comp| <= |OutIds(cfg, s)|
  {
    NoDupCard(s.freelist);
    NoDupCard(s.ready);
    NoDupCard(s.comp);
    hide NoDup, Elems, OutIds, Out;
    forall id: nat | id < cfg.pool || id in s.freelist || id in s.ready
      ensures id < cfg.pool && OnePlace(cfg, s, id) && (id in s.freelist || id in s.ready || id in OutIds(cfg, s))
    {
      assert id < cfg.pool && OnePlace(cfg, s, id);
    }
    ThreeSets(Elems(s.freelist), Elems(s.ready), OutIds(cfg, s), cfg.pool);
    SubsetCard(Elems(s.comp), OutIds(cfg, s));
  }

  /** Under every interleaving of producer, device and dispatcher, each task id is in exactly one of the free list, the
      ready queue and the offloads under way, with no duplicates, so no array or ring overflows. */
  lemma {:induction false} EveryTaskInOnePlace(cfg: Config, labels: seq<Label>)
    requires cfg.pool > 0
    ensures var s := Run(cfg, labels);
      && NoDup(s.freelist) && NoDup(s.ready) && NoDup(s.comp)
      && (forall id: nat :: id < cfg.pool ==> OnePlace(cfg, s, id))
      && |s.freelist| + |s.ready| + |OutIds(cfg, s)| == cfg.pool
      && |s.comp| <= cfg.pool && |s.arrivals| <= cfg.ring
  {
    InitOk(cfg);
    var s := Run(cfg, labels);
    hide TaskOk, Conserved, OnePlace, Out, NoDup;
    forall id: nat | id < cfg.pool ensures OnePlace(cfg, s, id) && (id in s.comp ==> Out(cfg, s, id)) {
      PlaceOf(cfg, s, id);
    }
    Partition(cfg, s);
  }

  /** Every submission gets exactly one completion entry: the entries of a task trail its submissions by one exactly
      while its offload is under way and not yet queued, and an entry that is queued is for a waiting task. */
  lemma {:induction false} OneEntryEach(cfg: Config, labels: seq<Label>, id: nat)
    requires cfg.pool > 0 && id < cfg.pool
    ensures var s := Run(cfg, labels);
      && s.submits[id] + (if s.disp == Submitting(id) then 1 else 0)
           == s.entries[id] + (if Out(cfg, s, id) && id !in s.comp then 1 else 0)
      && (id in s.comp && s.disp == Loop ==> s.tasks[id].state == WaitOff)
  {
    InitOk(cfg);
    assert TaskOk(cfg, Run(cfg, labels), id);
  }

  /** No arrival is lost or served twice: what was injected is, in order, what was taken plus what is queued, and what
      was taken is what was recorded, each once with its own stamp, plus what the busy tasks hold. */
  lemma {:induction false} NoArrivalLost(cfg: Config, labels: seq<Label>)
    requires cfg.pool > 0
    ensures var s := Run(cfg, labels);
      && s.stamps == s.popped + s.arrivals
      && multiset(s.popped) == multiset(s.recorded) + Busy(s.tasks)
      && |s.popped| == s.completed + |Busy(s.tasks)|
      && (|s.freelist| == cfg.pool ==> multiset(s.popped) == multiset(s.recorded))
  {
    InitOk(cfg);
    var s := Run(cfg, labels);
    assert |multiset(s.popped)| == |multiset(s.recorded)| + |Busy(s.tasks)|;
    if |s.freelist| == cfg.pool {
      Pigeonhole(s.freelist, cfg.pool);
      forall i | 0 <= i < |s.tasks| ensures s.tasks[i].state == Free {
        assert TaskOk(cfg, s, i);
      }
      NoneBusy(s.tasks);
    }
  }
}
