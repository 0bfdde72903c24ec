/** What the coroutine server can rely on from the emulated accelerator: a submission is completed if the device goes on
    running, but it may be completed too early as soon as a connection submits a second request. */
module TcoDevice {
  import opened Bytes
  import opened Keystream
  import opened TcoServer

  // ---------- The device completes what is submitted ----------

  /** Connections stay within the table, and no deadline is further away than the latency. */
  lemma {:induction false} Bounded(cfg: Config, labels: seq<Label>)
    ensures |After(cfg, labels).conns| <= cfg.maxconn
    ensures forall i :: 0 <= i < |After(cfg, labels).slots| ==>
      After(cfg, labels).slots[i].deadline <= After(cfg, labels).now + cfg.latency
    decreases |labels|
  {
    if |labels| > 0 {
      Bounded(cfg, labels[..|labels| - 1]);
      assert After(cfg, labels) == Step(cfg, After(cfg, labels[..|labels| - 1]), labels[|labels| - 1]);
      hide After, Advance;
    }
  }

  /** The next n accesses of the device, with nobody else acting. */
  function DeviceRuns(cfg: Config, w: World, n: nat): (w': World)
    requires Shaped(w)
    ensures Shaped(w')
    decreases n
  {
    if n == 0 then w else DeviceRuns(cfg, DeviceStep(cfg, w), n - 1)
  }

  lemma {:induction false} RunsAdd(cfg: Config, w: World, a: nat, b: nat)
    requires Shaped(w)
    ensures DeviceRuns(cfg, w, a + b) == DeviceRuns(cfg, DeviceRuns(cfg, w, a), b)
    decreases a
  {
    if a > 0 {
      RunsAdd(cfg, DeviceStep(cfg, w), a - 1, b);
    }
  }

  /** All that changes from w to w' is the device's position, and that some slots get done. */
  ghost predicate Quiet(w: World, w': World)
    requires Shaped(w) && Shaped(w')
  {
    && w'.conns == w.conns && w'.now == w.now && |w'.slots| == |w.slots|
    && forall j :: 0 <= j < |w.slots| ==>
         && w'.slots[j].active == w.slots[j].active && w'.slots[j].deadline == w.slots[j].deadline
         && (w.slots[j].done ==> w'.slots[j].done)
  }

  lemma QuietStep(cfg: Config, w: World)
    requires Shaped(w)
    ensures Quiet(w, DeviceStep(cfg, w))
  {
  }

  function Rank(look: Look): nat
  {
    match look case Start => 3 case SawActive => 2 case NotDone => 1 case Due => 0
  }

  /** The device comes to the start of its next sweep. */
  lemma {:induction false} ToNextSweep(cfg: Config, w: World) returns (n: nat)
    requires Shaped(w)
    ensures var w' := DeviceRuns(cfg, w, n); Quiet(w, w') && w'.dev == Dev(0, w.now, Start)
    decreases if w.dev.i < cfg.maxconn then cfg.maxconn - w.dev.i else 0, Rank(w.dev.look)
  {
    var w1 := DeviceStep(cfg, w);
    QuietStep(cfg, w);
    n := 1;
    assert DeviceRuns(cfg, w1, 0) == w1;
    if w1.dev != Dev(0, w.now, Start) {
      assert w1.dev.i == w.dev.i || (w1.dev.i == w.dev.i + 1 < cfg.maxconn);
      n := ToNextSweep(cfg, w1);
      n := n + 1;
    }
  }

  /** From the start of a sweep, the device comes to slot i. */
  lemma {:induction false} ToSlot(cfg: Config, w: World, i: nat) returns (n: nat)
    requires Shaped(w) && i < cfg.maxconn && w.dev.t == w.now
    requires w.dev.i < i || w.dev == Dev(i, w.now, Start)
    ensures var w' := DeviceRuns(cfg, w, n); Quiet(w, w') && w'.dev == Dev(i, w.now, Start)
    decreases i - w.dev.i, Rank(w.dev.look)
  {
    n := 0;
    if w.dev.i < i {
      QuietStep(cfg, w);
      n := ToSlot(cfg, DeviceStep(cfg, w), i);
      n := n + 1;
    }
  }

  /** At an active slot whose deadline has passed, the device leaves it done. */
  lemma {:induction false} AtSlot(cfg: Config, w: World, i: nat) returns (n: nat)
    requires Shaped(w) && i < |w.slots| && w.dev == Dev(i, w.now, Start) && w.slots[i].active
    requires w.now >= w.slots[i].deadline
    ensures var w' := DeviceRuns(cfg, w, n); Quiet(w, w') && w'.slots[i].done
  {
    n := 0;
    if !w.slots[i].done {
      var w1 := DeviceStep(cfg, w);
      var w2 := DeviceStep(cfg, w1);
      var w3 := DeviceStep(cfg, w2);
      var w4 := DeviceStep(cfg, w3);
      assert w4 == NextSlot(cfg, Marked(w3, i));
      assert DeviceRuns(cfg, w, 4) == DeviceRuns(cfg, w2, 2) == w4;
      n := 4;
    }
  }

  lemma QuietTwice(w: World, w1: World, w2: World)
    requires Shaped(w) && Shaped(w1) && Shaped(w2) && Quiet(w, w1) && Quiet(w1, w2)
    ensures Quiet(w, w2)
  {
  }

  /** From wherever it stands, the device gets to slot i and completes it. */
  lemma {:induction false} Completes(cfg: Config, w: World, i: nat) returns (n: nat)
    requires Shaped(w) && i < |w.slots| <= cfg.maxconn && w.slots[i].active && w.now >= w.slots[i].deadline
    ensures var w' := DeviceRuns(cfg, w, n); Quiet(w, w') && w'.slots[i].done
  {
    hide DeviceRuns, Shaped;
    var a := ToNextSweep(cfg, w);
    var w1 := DeviceRuns(cfg, w, a);
    var b := ToSlot(cfg, w1, i);
    var w2 := DeviceRuns(cfg, w1, b);
    QuietTwice(w, w1, w2);
    var c := AtSlot(cfg, w2, i);
    QuietTwice(w, w2, DeviceRuns(cfg, w2, c));
    RunsAdd(cfg, w, a, b);
    RunsAdd(cfg, w, a + b, c);
    n := a + b + c;
  }

  lemma {:induction false} WaitingIsActive(cfg: Config, labels: seq<Label>, i: nat)
    requires i < |After(cfg, labels).conns| && After(cfg, labels).conns[i].state == WaitOff
    ensures var w := After(cfg, labels);
      |w.conns| <= cfg.maxconn && w.slots[i].active && w.slots[i].deadline <= w.now + cfg.latency
  {
    Always(cfg, labels);
    Bounded(cfg, labels);
    assert Served(After(cfg, labels), i);
  }

  /** A connection that waits for the device does not wait forever: once its deadline is past, finitely many further
      accesses of the device, wherever it stands, leave its slot done, and then it is resumed. */
  lemma {:induction false} DeviceCompletes(cfg: Config, labels: seq<Label>, i: nat, dt: nat) returns (n: nat)
    requires i < |After(cfg, labels).conns| && After(cfg, labels).conns[i].state == WaitOff
    requires dt >= cfg.latency
    ensures var w := After(cfg, labels + [Tick(dt)]);
      var w' := DeviceRuns(cfg, w, n);
      && w'.conns == w.conns == After(cfg, labels).conns && w'.slots[i].done
      && Reaped(w', i).conns[i] == w.conns[i].(state := Runnable)
  {
    WaitingIsActive(cfg, labels, i);
    assert (labels + [Tick(dt)])[..|labels|] == labels;
    assert After(cfg, labels + [Tick(dt)]) == Step(cfg, After(cfg, labels), Tick(dt));
    hide After, DeviceRuns, DeviceStep;
    n := Completes(cfg, After(cfg, labels + [Tick(dt)]), i);
  }

  // ---------- But not always late enough ----------

  /** Connection i waits for the device, which has already set `done`, though the deadline is still to come. */
  ghost predicate Early(w: World, i: nat)
    requires Shaped(w) && i < |w.conns|
  {
    w.conns[i].state == WaitOff && w.slots[i].done && w.now < w.slots[i].deadline
  }

  ghost predicate NoneEarly(w: World)
    requires Shaped(w)
  {
    forall i: nat :: i < |w.conns| ==> !Early(w, i)
  }

  /** No connection has submitted more than m requests. */
  ghost predicate AtMost(w: World, m: nat)
  {
    forall i: nat :: i < |w.conns| ==> Begun(w.conns[i]) <= m
  }

  lemma {:induction false} FirstIsNotEarly(cfg: Config, labels: seq<Label>)
    requires AtMost(After(cfg, labels), 1)
    ensures NoneEarly(After(cfg, labels))
  {
    Always(cfg, labels);
    var w := After(cfg, labels);
    forall i: nat | i < |w.conns| ensures !Early(w, i) {
      assert Served(w, i) && Begun(w.conns[i]) <= 1;
    }
  }

  lemma {:induction false} NoLatencyNoneEarly(cfg: Config, labels: seq<Label>)
    requires cfg.latency == 0 || cfg.maxconn == 0
    ensures NoneEarly(After(cfg, labels))
  {
    Bounded(cfg, labels);
  }

  /** The only connection, its slot and the device; no event is in hand. */
  ghost predicate Alone(w: World, state: CState, phase: Phase, served: nat, d: Slot, dev: Dev, now: nat)
  {
    && Shaped(w) && |w.conns| == 1 && w.batch == {}
    && w.conns[0].state == state && w.conns[0].phase == phase && w.conns[0].served == served
    && w.slots[0] == d && w.dev == dev && w.now == now
  }

  /** One more step at the end of a run. */
  lemma {:induction false} Then(cfg: Config, labels: seq<Label>, l: Label) returns (more: seq<Label>)
    ensures After(cfg, more) == Step(cfg, After(cfg, labels), l)
  {
    more := labels + [l];
    assert more[..|labels|] == labels;
  }

  lemma {:induction false} ThenDevice(cfg: Config, labels: seq<Label>) returns (more: seq<Label>)
    ensures After(cfg, more) == DeviceStep(cfg, After(cfg, labels))
  {
    more := Then(cfg, labels, Device);
  }

  lemma {:induction false} ThenRun(cfg: Config, labels: seq<Label>, io: Io) returns (more: seq<Label>)
    requires var w := After(cfg, labels); |w.conns| == 1 && w.batch == {} && CanRun(w, 0, io)
    ensures After(cfg, more) == RunOne(cfg, After(cfg, labels), 0, io)
  {
    more := Then(cfg, labels, Run(0, io));
  }

  /** The device passes over idle slots to the start of its next sweep. */
  lemma {:induction false} SweepIdle(cfg: Config, labels: seq<Label>) returns (more: seq<Label>)
    requires var w := After(cfg, labels);
      |w.conns| == 1 && w.dev.look.Start? && (w.dev.i == 0 ==> !w.slots[0].active)
    ensures var w := After(cfg, labels); After(cfg, more) == w.(dev := Dev(0, w.now, Start))
    decreases if After(cfg, labels).dev.i < cfg.maxconn then cfg.maxconn - After(cfg, labels).dev.i else 0
  {
    more := ThenDevice(cfg, labels);
    hide After;
    if After(cfg, labels).dev.i + 1 < cfg.maxconn {
      more := SweepIdle(cfg, more);
    }
  }

  function Zeros(): (b: seq<Byte>)
    ensures |b| == REQ
  {
    seq(REQ, _ => 0)
  }

  /** A first request is read whole, and submitted but for `active`, which is set when the device begins a later
      sweep. */
  lemma {:induction false} FirstRequest(cfg: Config) returns (labels: seq<Label>)
    requires cfg.maxconn > 0
    ensures Alone(After(cfg, labels), WaitOff, Offloading, 0, Slot(cfg.latency, true, false),
                  Dev(0, cfg.latency, Start), cfg.latency)
  {
    assert After(cfg, []) == EMPTY;
    labels := Then(cfg, [], Accept);
    hide After, Transform, SeqMask;
    assert Alone(After(cfg, labels), Runnable, Reading(0), 0, Slot(0, false, false), Dev(0, 0, Start), 0);
    labels := ThenRun(cfg, labels, Data(Zeros()));
    labels := ThenRun(cfg, labels, Again);
    labels := ThenRun(cfg, labels, Again);
    labels := Then(cfg, labels, Tick(cfg.latency));
    labels := SweepIdle(cfg, labels);
    labels := ThenRun(cfg, labels, Again);
  }

  /** The first request is done, and the device has seen `active` again before the server takes it back. */
  lemma {:induction false} SeenAgain(cfg: Config) returns (labels: seq<Label>)
    requires cfg.maxconn > 0
    ensures Alone(After(cfg, labels), WaitOff, Offloading, 0, Slot(cfg.latency, true, true),
                  Dev(0, cfg.latency, SawActive), cfg.latency)
  {
    labels := FirstRequest(cfg);
    hide After, Transform, SeqMask;
    labels := ThenDevice(cfg, labels);
    labels := ThenDevice(cfg, labels);
    labels := ThenDevice(cfg, labels);
    labels := ThenDevice(cfg, labels);
    if cfg.maxconn > 1 {
      labels := SweepIdle(cfg, labels);
    }
    labels := ThenDevice(cfg, labels);
  }

  /** The server answers, reads the next request and clears `done` for it. */
  lemma {:induction false} SecondRequest(cfg: Config) returns (labels: seq<Label>)
    requires cfg.maxconn > 0
    ensures Alone(After(cfg, labels), Runnable, Submitting(Cleared), 1, Slot(cfg.latency, false, false),
                  Dev(0, cfg.latency, SawActive), cfg.latency)
  {
    labels := SeenAgain(cfg);
    hide After, Transform, SeqMask;
    labels := Then(cfg, labels, Reap(0));
    labels := ThenRun(cfg, labels, Again);
    labels := ThenRun(cfg, labels, Room(REQ));
    labels := ThenRun(cfg, labels, Data(Zeros()));
    labels := ThenRun(cfg, labels, Again);
  }

  /** One connection that sends two requests: the device saw `active` of the first submission, sees the `done` that the
      second has just cleared and the deadline of the first, and sets `done` before the second is even submitted. */
  lemma {:induction false} SecondCanBeEarly(cfg: Config) returns (labels: seq<Label>)
    requires cfg.maxconn > 0 && cfg.latency > 0
    ensures var w := After(cfg, labels);
      |w.conns| == 1 && Begun(w.conns[0]) == 2 && Early(w, 0)
  {
    labels := SecondRequest(cfg);
    hide After, Transform, SeqMask;
    labels := ThenDevice(cfg, labels);
    labels := ThenDevice(cfg, labels);
    labels := ThenDevice(cfg, labels);
    labels := ThenRun(cfg, labels, Again);
    labels := ThenRun(cfg, labels, Again);
  }

  /** In runs in which each connection submits at most m requests, none is completed early. */
  ghost predicate NeverEarly(cfg: Config, m: nat)
  {
    forall labels: seq<Label> :: AtMost(After(cfg, labels), m) ==> NoneEarly(After(cfg, labels))
  }

  /** Exactly the runs with one request per connection are safe from that, if there is a latency to cut short. */
  lemma {:induction false} EarlyNeedsASecond(cfg: Config, m: nat)
    ensures (NeverEarly(cfg, m) <==> m <= 1 || cfg.latency == 0 || cfg.maxconn == 0)
  {
    hide NoneEarly, Begun;
    if m <= 1 || cfg.latency == 0 || cfg.maxconn == 0 {
      forall labels: seq<Label> | AtMost(After(cfg, labels), m) ensures NoneEarly(After(cfg, labels)) {
        if m <= 1 {
          assert AtMost(After(cfg, labels), 1);
          FirstIsNotEarly(cfg, labels);
        } else {
          NoLatencyNoneEarly(cfg, labels);
        }
      }
    } else {
      var labels := SecondCanBeEarly(cfg);
      assert AtMost(After(cfg, labels), m);
      assert !NoneEarly(After(cfg, labels)) by { EarlyIsNotNone(After(cfg, labels), 0); }
    }
  }

  lemma EarlyIsNotNone(w: World, i: nat)
    requires Shaped(w) && i < |w.conns| && Early(w, i)
    ensures !NoneEarly(w)
  {
  }
}
