/**
 The accelerator library as a specification: callers fill a slot field by field and set `busy`; the device thread reads
 `busy`, `done` and `deadline` of a slot one after the other, transforms the buffer and sets `done`; the caller sees
 `done` and clears `busy`. All these accesses interleave freely, among callers and with the device.
 */
module LibAccel {

  type Bytes = seq<int>

  datatype Slot = Slot(buf: nat, n: nat, deadline: nat, busy: bool, done: bool)

  /** How far a submission has come: an id, `buf`, `n`, `done` cleared, `deadline`, `busy` set, `done` seen, `busy`
      cleared. */
  datatype Stage = Fetched | BufSet | NSet | Cleared | Timed | Armed | Seen | Released

  /** History of a submission: its buffer and what that held, and how often the device has transformed it. */
  datatype Sub = Sub(stage: Stage, buf: nat, n: nat, input: Bytes, applied: nat)

  /** What the device thread has established about slot `i` in this sweep; `Act`: about to transform, `Mark`: about
      to set `done`. */
  datatype Phase = Look | SawBusy | NotDone | Act | Mark

  datatype Dev = Dev(i: nat, t: nat, phase: Phase)

  /** `subs` is indexed by id; `last[i]` is the latest id that uses slot i, -1 before the first. */
  datatype State = State(slots: seq<Slot>, mem: seq<Bytes>, subs: seq<Sub>, last: seq<int>, dev: Dev, now: nat)

  /** `op` is the transform. */
  datatype Config = Config(nslot: nat, nbuf: nat, latency: nat, op: (Bytes, nat) -> Bytes)

  datatype Label = Tick(d: nat) | Fetch(b: nat, n: nat) | Host(id: nat) | Device | Client(b: nat, x: Bytes)

  function Init(cfg: Config): State
  {
    State(seq(cfg.nslot, _ => Slot(0, 0, 0, false, false)), seq(cfg.nbuf, _ => []), [],
          seq(cfg.nslot, _ => -1), Dev(0, 0, Look), 0)
  }

  ghost predicate Shaped(cfg: Config, s: State)
  {
    && cfg.nslot > 0 && |s.slots| == |s.last| == cfg.nslot && |s.mem| == cfg.nbuf
    && s.dev.i < cfg.nslot && s.dev.t <= s.now
    && (forall i: nat :: i < cfg.nslot ==> s.last[i] < |s.subs|)
    && (forall id: nat :: id < |s.subs| ==> s.subs[id].buf < cfg.nbuf)
  }

  // ---------- Steps ----------

  function SlotOf(cfg: Config, id: nat): (i: nat)
    requires cfg.nslot > 0
    ensures i < cfg.nslot
  {
    id % cfg.nslot
  }

  /** The device still has this submission's buffer, or has not been given it yet. */
  predicate InFlight(u: Sub)
  {
    u.stage != Seen && u.stage != Released
  }

  ghost predicate BufFree(s: State, b: nat)
  {
    forall id: nat :: id < |s.subs| && InFlight(s.subs[id]) ==> s.subs[id].buf != b
  }

  /** The rules of the callers: the slot's previous user has released it, and the buffer is in no other submission. */
  ghost predicate MayFetch(cfg: Config, s: State, b: nat)
    requires Shaped(cfg, s)
  {
    var i := SlotOf(cfg, |s.subs|);
    b < cfg.nbuf && BufFree(s, b) && (s.last[i] >= 0 ==> s.subs[s.last[i]].stage.Released?)
  }

  function HostStage(u: Sub, done: bool): Stage
  {
    match u.stage
    case Fetched => BufSet
    case BufSet => NSet
    case NSet => Cleared
    case Cleared => Timed
    case Timed => Armed
    case Armed => if done then Seen else Armed
    case _ => Released
  }

  /** The field write that takes a submission to its next stage. */
  function HostSlot(cfg: Config, u: Sub, d: Slot, now: nat): Slot
  {
    match u.stage
    case Fetched => d.(buf := u.buf)
    case BufSet => d.(n := u.n)
    case NSet => d.(done := false)
    case Cleared => d.(deadline := now + cfg.latency)
    case Timed => d.(busy := true)
    case Seen => d.(busy := false)
    case _ => d
  }

  function HostStep(cfg: Config, s: State, id: nat): State
    requires Shaped(cfg, s) && id < |s.subs|
  {
    var i := SlotOf(cfg, id);
    var u := s.subs[id];
    s.(subs := s.subs[id := u.(stage := HostStage(u, s.slots[i].done))],
       slots := s.slots[i := HostSlot(cfg, u, s.slots[i], s.now)])
  }

  /** On to the next slot; a new sweep reads the clock. */
  function Next(cfg: Config, s: State): State
    requires Shaped(cfg, s)
  {
    s.(dev := if s.dev.i + 1 < cfg.nslot then Dev(s.dev.i + 1, s.dev.t, Look) else Dev(0, s.now, Look))
  }

  /** Transform the buffer the slot names. */
  function Apply(cfg: Config, s: State): State
    requires Shaped(cfg, s)
  {
    var d := s.slots[s.dev.i];
    var id := s.last[s.dev.i];
    s.(dev := s.dev.(phase := Mark),
       mem := if d.buf < cfg.nbuf then s.mem[d.buf := cfg.op(s.mem[d.buf], d.n)] else s.mem,
       subs := if id >= 0 then s.subs[id := s.subs[id].(applied := s.subs[id].applied + 1)] else s.subs)
  }

  function DeviceStep(cfg: Config, s: State): State
    requires Shaped(cfg, s)
  {
    var i := s.dev.i;
    var d := s.slots[i];
    match s.dev.phase
    case Look => if d.busy then s.(dev := s.dev.(phase := SawBusy)) else Next(cfg, s)
    case SawBusy => if !d.done then s.(dev := s.dev.(phase := NotDone)) else Next(cfg, s)
    case NotDone => if s.dev.t >= d.deadline then s.(dev := s.dev.(phase := Act)) else Next(cfg, s)
    case Act => Apply(cfg, s)
    case Mark => Next(cfg, s.(slots := s.slots[i := d.(done := true)]))
  }

  ghost function Step(cfg: Config, s: State, l: Label): State
    requires Shaped(cfg, s)
  {
    match l
    case Tick(d) => s.(now := s.now + d)
    case Fetch(b, n) =>
      if MayFetch(cfg, s, b) then
        s.(last := s.last[SlotOf(cfg, |s.subs|) := |s.subs|], subs := s.subs + [Sub(Fetched, b, n, s.mem[b], 0)])
      else s
    case Host(id) => if id < |s.subs| && !s.subs[id].stage.Released? then HostStep(cfg, s, id) else s
    case Device => DeviceStep(cfg, s)
    case Client(b, x) => if b < cfg.nbuf && BufFree(s, b) then s.(mem := s.mem[b := x]) else s
  }

  ghost function Exec(cfg: Config, s: State, labels: seq<Label>): (s': State)
    requires Shaped(cfg, s)
    ensures Shaped(cfg, s')
    decreases |labels|
  {
    if |labels| == 0 then s
    else
      var front := Exec(cfg, s, labels[..|labels| - 1]);
      StepShaped(cfg, front, labels[|labels| - 1]);
      Step(cfg, front, labels[|labels| - 1])
  }

  lemma {:induction false} StepShaped(cfg: Config, s: State, l: Label)
    requires Shaped(cfg, s)
    ensures Shaped(cfg, Step(cfg, s, l))
  {
  }

  // ---------- The invariant ----------

  /** The slot has been given to the device: `done` is clear and `buf` and `n` are written. */
  predicate Ours(u: Sub)
  {
    u.stage.Cleared? || u.stage.Timed? || u.stage.Armed?
  }

  predicate Filling(u: Sub)
  {
    u.stage.Fetched? || u.stage.BufSet? || u.stage.NSet?
  }

  /** Slot d with its latest submission u of id c, the device's phase there, and the contents x of u's buffer. */
  ghost predicate CellOk(cfg: Config, c: int, u: Sub, d: Slot, ph: Phase, x: Bytes)
  {
    if c < 0 then !d.busy && !d.done && ph.Look?
    else
      && (Filling(u) ==> !d.busy && u.applied == 0 && x == u.input && (ph.Look? || (ph.SawBusy? && d.done)))
      && (u.stage.BufSet? || u.stage.NSet? || Ours(u) ==> d.buf == u.buf)
      && (u.stage.NSet? || Ours(u) ==> d.n == u.n)
      && (Ours(u) ==>
            d.busy == u.stage.Armed?
            && if u.applied == 0 then x == u.input && !d.done && !ph.Mark?
               else u.applied == 1 && x == cfg.op(u.input, u.n) && if d.done then ph.Look? || ph.SawBusy? else ph.Mark?)
      && (u.stage.Seen? || u.stage.Released? ==>
            d.done && d.busy == u.stage.Seen? && u.applied == 1 && (ph.Look? || ph.SawBusy?))
      && (c < cfg.nslot && (Filling(u) || u.stage.Cleared? || u.stage.Timed?) ==> ph.Look?)
  }

  const NOBODY: Sub := Sub(Released, 0, 0, [], 0)

  function User(s: State, i: nat): Sub
    requires i < |s.last| && s.last[i] < |s.subs|
  {
    if s.last[i] >= 0 then s.subs[s.last[i]] else NOBODY
  }

  function PhaseAt(s: State, i: nat): Phase
  {
    if s.dev.i == i then s.dev.phase else Look
  }

  function Contents(s: State, b: nat): Bytes
  {
    if b < |s.mem| then s.mem[b] else []
  }

  ghost predicate SlotOk(cfg: Config, s: State, i: nat)
    requires i < |s.last| == |s.slots| && s.last[i] < |s.subs| && cfg.nslot > 0
  {
    && (s.last[i] >= 0 ==> SlotOf(cfg, s.last[i]) == i)
    && CellOk(cfg, s.last[i], User(s, i), s.slots[i], PhaseAt(s, i), Contents(s, User(s, i).buf))
  }

  ghost predicate SubOk(cfg: Config, s: State, id: nat)
    requires Shaped(cfg, s) && id < |s.subs|
  {
    if s.subs[id].stage.Released? then s.subs[id].applied == 1 else s.last[SlotOf(cfg, id)] == id
  }

  /** Submissions in flight have buffers of their own. */
  ghost predicate BufsOk(s: State)
  {
    forall a: nat, b: nat :: a < b < |s.subs| && InFlight(s.subs[a]) && InFlight(s.subs[b]) ==>
        s.subs[a].buf != s.subs[b].buf
  }

  ghost predicate Inv(cfg: Config, s: State)
  {
    && Shaped(cfg, s) && BufsOk(s)
    && (forall i: nat :: i < cfg.nslot ==> SlotOk(cfg, s, i))
    && (forall id: nat :: id < |s.subs| ==> SubOk(cfg, s, id))
  }

  // ---------- Every step keeps it ----------

  lemma {:induction false} HostKeeps(cfg: Config, s: State, id: nat)
    requires Inv(cfg, s) && id < |s.subs| && !s.subs[id].stage.Released?
    ensures Inv(cfg, HostStep(cfg, s, id))
  {
    var s' := HostStep(cfg, s, id);
    var i := SlotOf(cfg, id);
    assert SubOk(cfg, s, id) && SlotOk(cfg, s, i);
    hide CellOk;
    assert SlotOk(cfg, s', i);
    forall j: nat | j < cfg.nslot && j != i ensures SlotOk(cfg, s', j) {
      assert SlotOk(cfg, s, j);
    }
    forall k: nat | k < |s'.subs| ensures SubOk(cfg, s', k) {
      assert SubOk(cfg, s, k);
    }
  }

  lemma {:induction false} FetchCellOk(cfg: Config, c0: int, u0: Sub, d: Slot, ph: Phase, x0: Bytes, c: nat, u: Sub)
    requires CellOk(cfg, c0, u0, d, ph, x0) && (c0 >= 0 ==> u0.stage.Released? && c >= cfg.nslot)
    requires u.stage.Fetched? && u.applied == 0
    ensures CellOk(cfg, c, u, d, ph, u.input)
  {
  }

  lemma {:induction false} Wraps(cfg: Config, a: nat, c: nat)
    requires cfg.nslot > 0 && a < c && SlotOf(cfg, a) == SlotOf(cfg, c)
    ensures c >= cfg.nslot
  {
  }

  lemma {:induction false} FetchKeeps(cfg: Config, s: State, b: nat, n: nat)
    requires Inv(cfg, s) && MayFetch(cfg, s, b)
    ensures Inv(cfg, Step(cfg, s, Fetch(b, n)))
  {
    var s' := Step(cfg, s, Fetch(b, n));
    var c := |s.subs|;
    var i := SlotOf(cfg, c);
    hide CellOk, SlotOf;
    assert SlotOk(cfg, s, i);
    if s.last[i] >= 0 {
      Wraps(cfg, s.last[i], c);
    }
    var u := Sub(Fetched, b, n, s.mem[b], 0);
    FetchCellOk(cfg, s.last[i], User(s, i), s.slots[i], PhaseAt(s, i), Contents(s, User(s, i).buf), c, u);
    forall j: nat | j < cfg.nslot ensures SlotOk(cfg, s', j) {
      assert SlotOk(cfg, s, j);
    }
    forall k: nat | k < |s'.subs| ensures SubOk(cfg, s', k) {
      assert k < c ==> SubOk(cfg, s, k);
    }
  }

  lemma {:induction false} ClientKeeps(cfg: Config, s: State, b: nat, x: Bytes)
    requires Inv(cfg, s) && b < cfg.nbuf && BufFree(s, b)
    ensures Inv(cfg, s.(mem := s.mem[b := x]))
  {
    var s' := s.(mem := s.mem[b := x]);
    hide CellOk;
    forall j: nat | j < cfg.nslot ensures SlotOk(cfg, s', j) {
      assert SlotOk(cfg, s, j);
    }
    forall k: nat | k < |s'.subs| ensures SubOk(cfg, s', k) {
      assert SubOk(cfg, s, k);
    }
  }

  /** The device looks on, or away. */
  lemma {:induction false} LookCellOk(cfg: Config, c: int, u: Sub, d: Slot, ph: Phase, x: Bytes)
    requires CellOk(cfg, c, u, d, ph, x)
    ensures !ph.Mark? ==> CellOk(cfg, c, u, d, Look, x)
    ensures ph.Mark? ==> CellOk(cfg, c, u, d.(done := true), Look, x)
    ensures ph.Look? && d.busy ==> CellOk(cfg, c, u, d, SawBusy, x)
    ensures ph.SawBusy? && !d.done ==> CellOk(cfg, c, u, d, NotDone, x)
    ensures ph.NotDone? ==> CellOk(cfg, c, u, d, Act, x)
  {
  }

  /** The device moves on to another slot, having left slot i as d. */
  lemma {:induction false} NextKeeps(cfg: Config, s: State, d: Slot)
    requires Inv(cfg, s)
    requires var i := s.dev.i; CellOk(cfg, s.last[i], User(s, i), d, Look, Contents(s, User(s, i).buf))
    ensures Inv(cfg, Next(cfg, s.(slots := s.slots[s.dev.i := d])))
  {
    var s' := Next(cfg, s.(slots := s.slots[s.dev.i := d]));
    hide CellOk, SlotOf;
    forall j: nat | j < cfg.nslot ensures SlotOk(cfg, s', j) {
      assert SlotOk(cfg, s, j);
    }
    forall k: nat | k < |s'.subs| ensures SubOk(cfg, s', k) {
      assert SubOk(cfg, s, k);
    }
  }

  lemma {:induction false} PhaseKeeps(cfg: Config, s: State, ph: Phase)
    requires Inv(cfg, s)
    requires var i := s.dev.i; CellOk(cfg, s.last[i], User(s, i), s.slots[i], ph, Contents(s, User(s, i).buf))
    ensures Inv(cfg, s.(dev := s.dev.(phase := ph)))
  {
    var s' := s.(dev := s.dev.(phase := ph));
    hide CellOk, SlotOf;
    forall j: nat | j < cfg.nslot ensures SlotOk(cfg, s', j) {
      assert SlotOk(cfg, s, j);
    }
    forall k: nat | k < |s'.subs| ensures SubOk(cfg, s', k) {
      assert SubOk(cfg, s, k);
    }
  }

  lemma {:induction false} ApplyKeeps(cfg: Config, s: State)
    requires Inv(cfg, s) && s.dev.phase.Act?
    ensures Inv(cfg, Apply(cfg, s))
  {
    var s' := Apply(cfg, s);
    var i := s.dev.i;
    assert SlotOk(cfg, s, i);
    hide CellOk, SlotOf;
    forall j: nat | j < cfg.nslot ensures SlotOk(cfg, s', j) {
      assert SlotOk(cfg, s, j);
    }
    forall k: nat | k < |s'.subs| ensures SubOk(cfg, s', k) {
      assert SubOk(cfg, s, k);
    }
  }

  lemma {:induction false} DeviceKeeps(cfg: Config, s: State)
    requires Inv(cfg, s)
    ensures Inv(cfg, DeviceStep(cfg, s))
  {
    var i := s.dev.i;
    var d := s.slots[i];
    assert SlotOk(cfg, s, i);
    LookCellOk(cfg, s.last[i], User(s, i), d, s.dev.phase, Contents(s, User(s, i).buf));
    assert s.slots[i := d] == s.slots;
    hide CellOk, Inv, Next;
    match s.dev.phase
    case Look => if d.busy { PhaseKeeps(cfg, s, SawBusy); } else { NextKeeps(cfg, s, d); }
    case SawBusy => if !d.done { PhaseKeeps(cfg, s, NotDone); } else { NextKeeps(cfg, s, d); }
    case NotDone => if s.dev.t >= d.deadline { PhaseKeeps(cfg, s, Act); } else { NextKeeps(cfg, s, d); }
    case Act => ApplyKeeps(cfg, s);
    case Mark => NextKeeps(cfg, s, d.(done := true));
  }

  lemma {:induction false} StepKeeps(cfg: Config, s: State, l: Label)
    requires Inv(cfg, s)
    ensures Inv(cfg, Step(cfg, s, l))
  {
    match l
    case Tick(d) =>
      var s' := Step(cfg, s, l);
      hide CellOk, SlotOf;
      forall i: nat | i < cfg.nslot ensures SlotOk(cfg, s', i) {
        assert SlotOk(cfg, s, i);
      }
      forall k: nat | k < |s.subs| ensures SubOk(cfg, s', k) {
        assert SubOk(cfg, s, k);
      }
    case Fetch(b, n) =>
      hide Inv;
      if MayFetch(cfg, s, b) { FetchKeeps(cfg, s, b, n); }
    case Host(id) =>
      hide Inv;
      if id < |s.subs| && !s.subs[id].stage.Released? { HostKeeps(cfg, s, id); }
    case Device =>
      hide Inv;
      DeviceKeeps(cfg, s);
    case Client(b, x) =>
      hide Inv;
      if b < cfg.nbuf && BufFree(s, b) { ClientKeeps(cfg, s, b, x); }
  }

  /** The state a run from the start leads to. */
  ghost function After(cfg: Config, labels: seq<Label>): (s: State)
    requires cfg.nslot > 0
    ensures Shaped(cfg, s)
  {
    Exec(cfg, Init(cfg), labels)
  }

  lemma {:induction false} Always(cfg: Config, labels: seq<Label>)
    requires cfg.nslot > 0
    ensures Inv(cfg, After(cfg, labels))
    decreases |labels|
  {
    if |labels| == 0 {
      assert forall i: nat :: i < cfg.nslot ==> SlotOk(cfg, Init(cfg), i);
    } else {
      Always(cfg, labels[..|labels| - 1]);
      hide Inv, Step;
      StepKeeps(cfg, After(cfg, labels[..|labels| - 1]), labels[|labels| - 1]);
    }
  }

  // ---------- Theorems: for every schedule that keeps the callers' rules ----------

  /** Whenever a caller may see `done`, its buffer holds its own transform of its own input, applied exactly once, and
      the device is past it; until then the device has applied it at most once. */
  lemma {:induction false} DoneMeansFinished(cfg: Config, labels: seq<Label>, id: nat)
    requires cfg.nslot > 0
    ensures var s := After(cfg, labels);
      id < |s.subs| ==>
        var u := s.subs[id];
        && u.applied <= 1
        && (u.stage.Armed? && s.slots[SlotOf(cfg, id)].done ==> u.applied == 1 && s.mem[u.buf] == cfg.op(u.input, u.n))
        && (u.stage.Seen? || u.stage.Released? ==> u.applied == 1)
  {
    Always(cfg, labels);
    var s := After(cfg, labels);
    if id < |s.subs| {
      assert SubOk(cfg, s, id) && SlotOk(cfg, s, SlotOf(cfg, id));
    }
  }

  /** The device never works from a half-written slot: about to transform, it has the buffer and length of the slot's
      current submission, untransformed and still not done. */
  lemma {:induction false} ActsOnWrittenSlots(cfg: Config, labels: seq<Label>)
    requires cfg.nslot > 0
    ensures var s := After(cfg, labels);
      if !s.dev.phase.Act? then DeviceStep(cfg, s).mem == s.mem else
        var d, u := s.slots[s.dev.i], User(s, s.dev.i);
        && s.last[s.dev.i] >= 0 && Ours(u) && u.applied == 0 && !d.done
        && d.buf == u.buf && d.n == u.n && s.mem[d.buf] == u.input
        && DeviceStep(cfg, s).mem == s.mem[u.buf := cfg.op(u.input, u.n)]
  {
    Always(cfg, labels);
    var s := After(cfg, labels);
    assert SlotOk(cfg, s, s.dev.i);
  }

  /** The device is about to transform for a submission that has not set `busy`. */
  ghost predicate Early(s: State)
    requires s.dev.i < |s.last| && s.last[s.dev.i] < |s.subs|
  {
    s.dev.phase.Act? && !User(s, s.dev.i).stage.Armed?
  }

  /** Up to the first reuse of a slot the device waits for `busy`. */
  lemma {:induction false} FirstUseIsNotEarly(cfg: Config, labels: seq<Label>)
    requires cfg.nslot > 0
    ensures var s := After(cfg, labels); |s.subs| <= cfg.nslot ==> !Early(s)
  {
    Always(cfg, labels);
    var s := After(cfg, labels);
    assert SlotOk(cfg, s, s.dev.i);
  }

  /** One more step at the end of a run. */
  lemma {:induction false} Then(cfg: Config, labels: seq<Label>, l: Label) returns (more: seq<Label>)
    requires cfg.nslot > 0
    ensures After(cfg, more) == Step(cfg, After(cfg, labels), l)
  {
    more := labels + [l];
    assert more[..|labels|] == labels;
  }

  lemma {:induction false} ThenHost(cfg: Config, labels: seq<Label>, id: nat) returns (more: seq<Label>)
    requires cfg.nslot > 0 && id < |After(cfg, labels).subs| && !After(cfg, labels).subs[id].stage.Released?
    ensures After(cfg, more) == HostStep(cfg, After(cfg, labels), id)
  {
    more := Then(cfg, labels, Host(id));
  }

  lemma {:induction false} ThenDevice(cfg: Config, labels: seq<Label>) returns (more: seq<Label>)
    requires cfg.nslot > 0
    ensures After(cfg, more) == DeviceStep(cfg, After(cfg, labels))
  {
    more := Then(cfg, labels, Device);
  }

  lemma {:induction false} ThenFetch(cfg: Config, labels: seq<Label>, b: nat) returns (more: seq<Label>)
    requires cfg.nslot > 0 && MayFetch(cfg, After(cfg, labels), b)
    ensures var s := After(cfg, labels);
      After(cfg, more) == s.(last := s.last[SlotOf(cfg, |s.subs|) := |s.subs|],
                             subs := s.subs + [Sub(Fetched, b, 0, s.mem[b], 0)])
  {
    more := Then(cfg, labels, Fetch(b, 0));
  }

  /** The first k submissions have drawn their ids and nothing else has happened. */
  ghost predicate Drawn(cfg: Config, s: State, k: nat)
  {
    && |s.subs| == k && (forall id: nat :: id < k ==> s.subs[id] == Sub(Fetched, id, 0, [], 0))
    && |s.last| == cfg.nslot && (forall i: nat :: i < cfg.nslot ==> s.last[i] == if i < k then i else -1)
    && s == Init(cfg).(subs := s.subs, last := s.last)
  }

  lemma {:induction false} MayDraw(cfg: Config, s: State, k: nat)
    requires Shaped(cfg, s) && Drawn(cfg, s, k) && k < cfg.nslot <= cfg.nbuf
    ensures SlotOf(cfg, k) == k && MayFetch(cfg, s, k) && s.mem[k] == []
  {
    assert SlotOf(cfg, k) == k;
    assert s.mem == Init(cfg).mem && s.last[k] == -1;
    hide Shaped, Init, SlotOf;
    forall id: nat | id < |s.subs| && InFlight(s.subs[id]) ensures s.subs[id].buf != k {
      assert s.subs[id] == Sub(Fetched, id, 0, [], 0);
    }
  }

  lemma {:induction false} DrawIds(cfg: Config, k: nat) returns (labels: seq<Label>)
    requires 0 < cfg.nslot <= cfg.nbuf && k <= cfg.nslot
    ensures Drawn(cfg, After(cfg, labels), k)
  {
    labels := [];
    if k > 0 {
      labels := DrawIds(cfg, k - 1);
      hide After, MayFetch, SlotOf;
      MayDraw(cfg, After(cfg, labels), k - 1);
      labels := ThenFetch(cfg, labels, k - 1);
    }
  }

  /** The device passes over idle slots to the start of its next sweep. */
  lemma {:induction false} SweepIdle(cfg: Config, labels: seq<Label>) returns (more: seq<Label>)
    requires cfg.nslot > 0
    requires var s := After(cfg, labels);
      s.dev.phase.Look? && forall i: nat :: s.dev.i <= i < cfg.nslot ==> !s.slots[i].busy
    ensures var s := After(cfg, labels); After(cfg, more) == s.(dev := Dev(0, s.now, Look))
    decreases cfg.nslot - After(cfg, labels).dev.i
  {
    ghost var s := After(cfg, labels);
    more := ThenDevice(cfg, labels);
    if s.dev.i + 1 < cfg.nslot {
      more := SweepIdle(cfg, more);
    }
  }

  /** Slot 0 is armed at the start of a sweep that has reached its deadline; the others have drawn ids. */
  ghost predicate ReadyToAct(cfg: Config, s: State)
  {
    && Shaped(cfg, s) && |s.subs| == cfg.nslot && s.subs[0].stage.Armed? && s.subs[0].buf == 0
    && (forall i: nat :: i < cfg.nslot ==> s.last[i] == i && (i > 0 ==> s.subs[i].buf == i && !s.slots[i].busy))
    && s.slots[0].busy && !s.slots[0].done && s.slots[0].deadline <= s.dev.t <= s.now && s.dev == Dev(0, s.dev.t, Look)
  }

  lemma {:induction false} ArmFirst(cfg: Config) returns (labels: seq<Label>)
    requires 0 < cfg.nslot <= cfg.nbuf
    ensures ReadyToAct(cfg, After(cfg, labels))
  {
    labels := DrawIds(cfg, cfg.nslot);
    assert SlotOf(cfg, 0) == 0;
    hide After, SlotOf, Step;
    labels := ThenHost(cfg, labels, 0);
    labels := ThenHost(cfg, labels, 0);
    labels := ThenHost(cfg, labels, 0);
    labels := ThenHost(cfg, labels, 0);
    labels := Then(cfg, labels, Tick(cfg.latency));
    labels := SweepIdle(cfg, labels);
    labels := ThenHost(cfg, labels, 0);
  }

  /** Slot 0 is done, the device has seen `busy` in its next sweep, and only then the caller releases it. */
  ghost predicate SawOldBusy(cfg: Config, s: State)
  {
    && Shaped(cfg, s) && |s.subs| == cfg.nslot && s.subs[0].stage.Released?
    && (forall i: nat :: i < cfg.nslot ==> s.last[i] == i && (i > 0 ==> s.subs[i].buf == i))
    && s.slots[0].deadline <= s.dev.t && s.dev == Dev(0, s.dev.t, SawBusy)
  }

  /** The device has finished slot 0 and looks at slot 1, or at slot 0 again. */
  ghost predicate Between(cfg: Config, s: State)
  {
    && Shaped(cfg, s) && |s.subs| == cfg.nslot && s.subs[0].stage.Armed? && s.subs[0].buf == 0
    && (forall i: nat :: i < cfg.nslot ==> s.last[i] == i && (i > 0 ==> s.subs[i].buf == i && !s.slots[i].busy))
    && s.slots[0].busy && s.slots[0].done && s.slots[0].deadline <= s.dev.t <= s.now
    && s.dev == (if cfg.nslot > 1 then Dev(1, s.dev.t, Look) else Dev(0, s.now, Look))
  }

  lemma {:induction false} FinishFirst(cfg: Config) returns (labels: seq<Label>)
    requires 0 < cfg.nslot <= cfg.nbuf
    ensures Between(cfg, After(cfg, labels))
  {
    labels := ArmFirst(cfg);
    hide After, SlotOf, Step;
    labels := ThenDevice(cfg, labels);
    labels := ThenDevice(cfg, labels);
    labels := ThenDevice(cfg, labels);
    labels := ThenDevice(cfg, labels);
    labels := ThenDevice(cfg, labels);
  }

  lemma {:induction false} ReleaseFirst(cfg: Config) returns (labels: seq<Label>)
    requires 0 < cfg.nslot <= cfg.nbuf
    ensures SawOldBusy(cfg, After(cfg, labels))
  {
    labels := FinishFirst(cfg);
    assert SlotOf(cfg, 0) == 0;
    hide After, SlotOf, Step;
    if cfg.nslot > 1 {
      labels := SweepIdle(cfg, labels);
    }
    labels := ThenDevice(cfg, labels);
    labels := ThenHost(cfg, labels, 0);
    labels := ThenHost(cfg, labels, 0);
  }

  /** With one submission more than slots, the device can transform a buffer before its submission sets `busy`: it saw
      the `busy` of the slot's previous user, then the `done` the new one has just cleared and the old deadline. */
  lemma {:induction false} ReuseCanBeEarly(cfg: Config) returns (labels: seq<Label>)
    requires 0 < cfg.nslot <= cfg.nbuf
    ensures var s := After(cfg, labels); |s.subs| == cfg.nslot + 1 && Early(s)
  {
    labels := ReleaseFirst(cfg);
    assert SlotOf(cfg, cfg.nslot) == 0;
    hide After, SlotOf, Step;
    assert MayFetch(cfg, After(cfg, labels), 0);
    labels := ThenFetch(cfg, labels, 0);
    labels := ThenHost(cfg, labels, cfg.nslot);
    labels := ThenHost(cfg, labels, cfg.nslot);
    labels := ThenHost(cfg, labels, cfg.nslot);
    labels := ThenDevice(cfg, labels);
    labels := ThenDevice(cfg, labels);
  }

  /** In runs of at most m submissions the device never transforms before `busy` is set. */
  ghost predicate WaitsForBusy(cfg: Config, m: nat)
    requires cfg.nslot > 0
  {
    forall labels: seq<Label> :: |After(cfg, labels).subs| <= m ==> !Early(After(cfg, labels))
  }

  /** Exactly the runs that reuse no slot are safe from that. */
  lemma {:induction false} EarlyNeedsReuse(cfg: Config, m: nat)
    requires 0 < cfg.nslot <= cfg.nbuf
    ensures (WaitsForBusy(cfg, m) <==> m <= cfg.nslot)
  {
    if m <= cfg.nslot {
      forall labels: seq<Label> | |After(cfg, labels).subs| <= m ensures !Early(After(cfg, labels)) {
        FirstUseIsNotEarly(cfg, labels);
      }
    } else {
      var labels := ReuseCanBeEarly(cfg);
    }
  }
}
