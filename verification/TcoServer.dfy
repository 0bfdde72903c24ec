/**
 The coroutine server as a specification: connections that read a request, offload it, transform and
 write the reply, parking whenever the socket or the accelerator would block; the one-shot epoll set;
 the accelerator slots, which the device thread reads field by field while the server writes them
 field by field; and the one-connection meaning they all have to meet.
 */
module TcoServer {
  import opened Bytes
  import opened Keystream
  import opened Sums
  import opened Distinct

  const REQ: nat := 256

  datatype Option<T> = None | Some(value: T)

  datatype Interest = In | Out

  datatype CState = Runnable | WaitIo | WaitOff | Dead | Gone

  /** A submission so far: the request is complete, `done` is cleared, the deadline is written. */
  datatype Stage = Filled | Cleared | Timed

  /** Where `serve` is: in `co_read_n` with `got` bytes, in `co_offload` before and after it has set `active`, or in
      `co_write_n` with `put` bytes out. */
  datatype Phase = Reading(got: nat) | Submitting(stage: Stage) | Offloading | Writing(put: nat)

  /** A system call's result: `Data` for a read, `Room` for a write (0 allowed), end of stream, EAGAIN, or an error. */
  datatype Io = Data(bytes: seq<Byte>) | Room(n: nat) | Closed | Again | Fail

  /** `inp` and `outp` are the bytes the socket has delivered to and accepted from the connection so far. */
  datatype Conn = Conn(state: CState, phase: Phase, ioEv: Interest, buf: seq<Byte>, seqno: Word, served: nat,
                       inp: seq<Byte>, outp: seq<Byte>)

  datatype Slot = Slot(deadline: nat, active: bool, done: bool)

  /** What the device thread has read of a slot: nothing yet, `active` set, `done` clear, the deadline passed. */
  datatype Look = Start | SawActive | NotDone | Due

  /** The device thread at slot i of a sweep that read the clock as t. */
  datatype Dev = Dev(i: nat, t: nat, look: Look)

  /** `marks` counts how often the device has set `done`, per connection. */
  datatype World = World(conns: seq<Conn>, slots: seq<Slot>, armed: seq<Option<Interest>>, batch: set<nat>,
                         dev: Dev, now: nat, closed: seq<nat>, marks: seq<nat>)

  datatype Config = Config(stateful: bool, latency: nat, maxconn: nat)

  datatype Label =
    | Tick(dt: nat) | Accept | Device | Reap(i: nat)
    | Event(i: nat) | Deliver(i: nat) | Run(i: nat, io: Io) | Remove(i: nat)

  // ---------- The one-connection meaning ----------

  /** The 32-bit request counter after n requests. */
  function SeqNo(n: nat): Word
  {
    if n == 0 then 0 else (SeqNo(n - 1) + 1) % WRAP
  }

  function Reply(cfg: Config, req: seq<Byte>, n: nat): (r: seq<Byte>)
    ensures |r| == |req|
  {
    if cfg.stateful then SeqMask(Transform(req), SeqNo(n)) else Transform(req)
  }

  /** A client that compares a reply with the one it expects for its own n-th request accepts exactly the reply to that
      request: no other request gets it. */
  lemma {:induction false} ReplyIdentifies(cfg: Config, sent: seq<Byte>, answered: seq<Byte>, n: nat)
    ensures Reply(cfg, sent, n) == Reply(cfg, answered, n) <==> sent == answered
  {
    Involution(sent, 0x9e3779b9, 17);
    Involution(answered, 0x9e3779b9, 17);
    Involution(Transform(sent), SeqNo(n), 13);
    Involution(Transform(answered), SeqNo(n), 13);
    hide XorStream;
  }

  /** The replies to the first n requests of an input stream, in order. */
  function Replies(cfg: Config, inp: seq<Byte>, n: nat): (r: seq<Byte>)
    requires n * REQ <= |inp|
    ensures |r| == n * REQ
  {
    if n == 0 then [] else Replies(cfg, inp, n - 1) + Reply(cfg, inp[(n - 1) * REQ..n * REQ], n - 1)
  }

  lemma {:induction false} RepliesStable(cfg: Config, inp: seq<Byte>, more: seq<Byte>, n: nat)
    requires n * REQ <= |inp|
    ensures Replies(cfg, inp + more, n) == Replies(cfg, inp, n)
    decreases n
  {
    if n > 0 {
      RepliesStable(cfg, inp, more, n - 1);
      assert (inp + more)[(n - 1) * REQ..n * REQ] == inp[(n - 1) * REQ..n * REQ];
    }
  }

  // ---------- One connection ----------

  /** What a system call may return in a phase. */
  predicate Legal(phase: Phase, io: Io)
  {
    match phase
    case Reading(got) => io.Closed? || io.Again? || io.Fail? || (io.Data? && 0 < |io.bytes| && got + |io.bytes| <= REQ)
    case Writing(put) => io.Again? || io.Fail? || (io.Room? && put + io.n <= REQ)
    case _ => true
  }

  /** One turn of the loop of `co_read_n`; a complete request is to be submitted. */
  function ReadTurn(c: Conn, io: Io): (c': Conn)
    requires |c.buf| == REQ && c.phase.Reading? && Legal(c.phase, io)
    ensures |c'.buf| == REQ
  {
    var got := c.phase.got;
    match io
    case Data(bytes) =>
      var c1 := c.(buf := c.buf[..got] + bytes + c.buf[got + |bytes|..], inp := c.inp + bytes);
      if got + |bytes| < REQ then c1.(phase := Reading(got + |bytes|)) else c1.(phase := Submitting(Filled))
    case Again => c.(ioEv := In, state := WaitIo)
    case _ => c.(state := Dead)
  }

  /** The submission's next write; the last one is followed by parking. */
  function SubmitTurn(c: Conn): (c': Conn)
    requires |c.buf| == REQ && c.phase.Submitting?
    ensures |c'.buf| == REQ
  {
    match c.phase.stage
    case Filled => c.(phase := Submitting(Cleared))
    case Cleared => c.(phase := Submitting(Timed))
    case Timed => c.(phase := Offloading, state := WaitOff)
  }

  /** The offload returns: its result and the order-dependent mask go into the buffer. */
  function Transformed(cfg: Config, c: Conn): (c': Conn)
    requires |c.buf| == REQ
    ensures |c'.buf| == REQ
  {
    var b := Transform(c.buf);
    if cfg.stateful then c.(buf := SeqMask(b, c.seqno), seqno := (c.seqno + 1) % WRAP, phase := Writing(0))
    else c.(buf := b, phase := Writing(0))
  }

  /** One turn of the loop of `co_write_n`; after a complete reply the next request is read. */
  function WriteTurn(c: Conn, io: Io): (c': Conn)
    requires |c.buf| == REQ && c.phase.Writing? && Legal(c.phase, io)
    ensures |c'.buf| == REQ
  {
    var put := c.phase.put;
    match io
    case Room(n) =>
      var c1 := c.(outp := c.outp + c.buf[put..put + n]);
      if put + n < REQ then c1.(phase := Writing(put + n)) else c1.(phase := Reading(0), served := c.served + 1)
    case Again => c.(ioEv := Out, state := WaitIo)
    case _ => c.(state := Dead)
  }

  /** A runnable connection up to its next system call, shared write or yield. */
  function Advance(cfg: Config, c: Conn, io: Io): (c': Conn)
    requires |c.buf| == REQ && Legal(c.phase, io)
    ensures |c'.buf| == REQ && (c'.state == Gone ==> c.state == Gone)
  {
    match c.phase
    case Reading(_) => ReadTurn(c, io)
    case Submitting(_) => SubmitTurn(c)
    case Offloading => Transformed(cfg, c)
    case Writing(_) => WriteTurn(c, io)
  }

  function NewConn(): Conn
  {
    Conn(Runnable, Reading(0), In, seq(REQ, _ => 0), 0, 0, [], [])
  }

  /** The connection is where the sequential handler would be on the same input. */
  ghost predicate InStep(cfg: Config, c: Conn)
  {
    && |c.buf| == REQ
    && var n := c.served;
    match c.phase
    case Reading(got) =>
      && got < REQ && |c.inp| == n * REQ + got && c.buf[..got] == c.inp[n * REQ..]
      && c.outp == Replies(cfg, c.inp, n) && (cfg.stateful ==> c.seqno == SeqNo(n))
    case Submitting(_) =>
      && |c.inp| == (n + 1) * REQ && c.buf == c.inp[n * REQ..]
      && c.outp == Replies(cfg, c.inp, n) && (cfg.stateful ==> c.seqno == SeqNo(n))
    case Offloading =>
      && |c.inp| == (n + 1) * REQ && c.buf == c.inp[n * REQ..]
      && c.outp == Replies(cfg, c.inp, n) && (cfg.stateful ==> c.seqno == SeqNo(n))
    case Writing(put) =>
      && put < REQ && |c.inp| == (n + 1) * REQ && c.buf == Reply(cfg, c.inp[n * REQ..], n)
      && c.outp == Replies(cfg, c.inp, n) + c.buf[..put] && (cfg.stateful ==> c.seqno == SeqNo(n + 1))
  }

  /** Reading more bytes keeps the buffer equal to the unanswered part of the input. */
  lemma ReadBytes(inp: seq<Byte>, buf: seq<Byte>, got: nat, bytes: seq<Byte>, from: nat)
    requires got + |bytes| <= REQ == |buf| && |inp| == from + got && buf[..got] == inp[from..]
    ensures (buf[..got] + bytes + buf[got + |bytes|..])[..got + |bytes|] == (inp + bytes)[from..]
  {
  }

  lemma {:induction false} ReadInStep(cfg: Config, c: Conn, io: Io)
    requires InStep(cfg, c) && c.phase.Reading? && Legal(c.phase, io)
    ensures InStep(cfg, ReadTurn(c, io))
  {
    hide Reply, Replies;
    if io.Data? {
      var n, got := c.served, c.phase.got;
      RepliesStable(cfg, c.inp, io.bytes, n);
      ReadBytes(c.inp, c.buf, got, io.bytes, n * REQ);
      assert got + |io.bytes| == REQ ==> ReadTurn(c, io).buf[..REQ] == ReadTurn(c, io).buf;
    }
  }

  /** Once the whole reply is out, the output is the replies to one more request. */
  lemma {:induction false} ReplyComplete(cfg: Config, inp: seq<Byte>, n: nat)
    requires |inp| == (n + 1) * REQ
    ensures Replies(cfg, inp, n) + Reply(cfg, inp[n * REQ..], n) == Replies(cfg, inp, n + 1)
  {
    assert inp[n * REQ..(n + 1) * REQ] == inp[n * REQ..];
  }

  lemma Appended(r: seq<Byte>, buf: seq<Byte>, put: nat, n: nat)
    requires put + n <= |buf|
    ensures (r + buf[..put]) + buf[put..put + n] == r + buf[..put + n]
  {
  }

  lemma {:induction false} WriteInStep(cfg: Config, c: Conn, io: Io)
    requires InStep(cfg, c) && c.phase.Writing? && Legal(c.phase, io)
    ensures InStep(cfg, WriteTurn(c, io))
  {
    hide Reply, Replies;
    if io.Room? {
      var n, put := c.served, c.phase.put;
      Appended(Replies(cfg, c.inp, n), c.buf, put, io.n);
      if put + io.n == REQ {
        ReplyComplete(cfg, c.inp, n);
        assert c.buf[..REQ] == c.buf;
      }
    }
  }

  lemma {:induction false} AdvanceInStep(cfg: Config, c: Conn, io: Io)
    requires InStep(cfg, c) && Legal(c.phase, io)
    ensures InStep(cfg, Advance(cfg, c, io))
  {
    match c.phase
    case Reading(_) => ReadInStep(cfg, c, io);
    case Writing(_) => WriteInStep(cfg, c, io);
    case Submitting(_) => hide Reply, Replies;
    case Offloading => assert c.buf[..0] == [];
  }

  /** A connection in step has written a prefix of the replies to the whole requests it has read, and owes at most
      one. */
  lemma {:induction false} InStepMeaning(cfg: Config, c: Conn)
    requires InStep(cfg, c)
    ensures c.outp <= Replies(cfg, c.inp, |c.inp| / REQ)
    ensures c.served <= |c.inp| / REQ <= c.served + 1
    ensures c.served * REQ <= |c.outp|
    ensures c.phase.Reading? ==> c.outp == Replies(cfg, c.inp, |c.inp| / REQ)
  {
    hide Reply;
    var n := c.served;
    assert |c.inp| / REQ == if c.phase.Reading? then n else n + 1;
    if c.phase.Writing? {
      assert c.inp[n * REQ..(n + 1) * REQ] == c.inp[n * REQ..];
    }
  }

  /** The scheduling state plays no part in it. */
  lemma StateFree(cfg: Config, c: Conn, d: Conn)
    requires InStep(cfg, c) && d == c.(state := d.state)
    ensures InStep(cfg, d)
  {
  }

  lemma {:induction false} NewInStep(cfg: Config)
    ensures InStep(cfg, NewConn())
  {
  }

  // ---------- All connections, the device and epoll ----------

  ghost predicate Shaped(w: World)
  {
    && |w.conns| == |w.slots| == |w.armed| == |w.marks|
    && forall i :: 0 <= i < |w.conns| ==> |w.conns[i].buf| == REQ
  }

  function Put(w: World, i: nat, c: Conn): (w': World)
    requires Shaped(w) && i < |w.conns| && |c.buf| == REQ
    ensures Shaped(w')
  {
    w.(conns := w.conns[i := c])
  }

  /** The write to its slot that a connection makes in this phase. */
  function SlotAfter(cfg: Config, phase: Phase, d: Slot, now: nat): Slot
  {
    match phase
    case Submitting(Filled) => d.(done := false)
    case Submitting(Cleared) => d.(deadline := now + cfg.latency)
    case Submitting(Timed) => d.(active := true)
    case _ => d
  }

  /** One micro-step of connection i on the processor, with what `co_offload` and `co_yield_io` do to slots and
      epoll. */
  function RunOne(cfg: Config, w: World, i: nat, io: Io): (w': World)
    requires Shaped(w) && i < |w.conns| && Legal(w.conns[i].phase, io)
    ensures Shaped(w')
  {
    var c := Advance(cfg, w.conns[i], io);
    Put(w, i, c).(slots := w.slots[i := SlotAfter(cfg, w.conns[i].phase, w.slots[i], w.now)],
                  armed := if c.state == WaitIo then w.armed[i := Some(c.ioEv)] else w.armed)
  }

  function Accepted(cfg: Config, w: World): (w': World)
    requires Shaped(w)
    ensures Shaped(w')
  {
    if |w.conns| >= cfg.maxconn then w
    else w.(conns := w.conns + [NewConn()], slots := w.slots + [Slot(0, false, false)], armed := w.armed + [Some(In)],
            marks := w.marks + [0])
  }

  /** The device goes on to the next slot; a new sweep reads the clock. */
  function GoneOn(cfg: Config, dev: Dev, now: nat): Dev
  {
    if dev.i + 1 < cfg.maxconn then Dev(dev.i + 1, dev.t, Start) else Dev(0, now, Start)
  }

  function NextSlot(cfg: Config, w: World): (w': World)
    requires Shaped(w)
    ensures Shaped(w')
  {
    w.(dev := GoneOn(cfg, w.dev, w.now))
  }

  function Marked(w: World, i: nat): (w': World)
    requires Shaped(w) && i < |w.slots|
    ensures Shaped(w')
  {
    w.(slots := w.slots[i := w.slots[i].(done := true)], marks := w.marks[i := w.marks[i] + 1])
  }

  /** The device's next access: read `active`, read `done`, read the deadline, or set `done`. A slot that no connection
      has got yet is inactive. */
  function DeviceStep(cfg: Config, w: World): (w': World)
    requires Shaped(w)
    ensures Shaped(w')
  {
    var i := w.dev.i;
    if i >= |w.slots| then NextSlot(cfg, w)
    else match w.dev.look
      case Start => if w.slots[i].active then w.(dev := w.dev.(look := SawActive)) else NextSlot(cfg, w)
      case SawActive => if !w.slots[i].done then w.(dev := w.dev.(look := NotDone)) else NextSlot(cfg, w)
      case NotDone => if w.dev.t >= w.slots[i].deadline then w.(dev := w.dev.(look := Due)) else NextSlot(cfg, w)
      case Due => NextSlot(cfg, Marked(w, i))
  }

  function Reaped(w: World, i: nat): (w': World)
    requires Shaped(w) && i < |w.conns|
    ensures Shaped(w')
  {
    if w.conns[i].state == WaitOff && w.slots[i].done then
      Put(w, i, w.conns[i].(state := Runnable)).(slots := w.slots[i := w.slots[i].(active := false)])
    else w
  }

  /** `epoll_wait` reports an event, which disarms the descriptor. */
  function Reported(w: World, i: nat): (w': World)
    requires Shaped(w) && i < |w.conns|
    ensures Shaped(w')
  {
    if w.armed[i].Some? then w.(armed := w.armed[i := None], batch := w.batch + {i}) else w
  }

  function Delivered(w: World, i: nat): (w': World)
    requires Shaped(w) && i < |w.conns|
    ensures Shaped(w')
  {
    if i !in w.batch then w
    else
      var w1 := w.(batch := w.batch - {i});
      if w.conns[i].state == WaitIo then Put(w1, i, w.conns[i].(state := Runnable)) else w1
  }

  function Removed(w: World, i: nat): (w': World)
    requires Shaped(w) && i < |w.conns|
    ensures Shaped(w')
  {
    if w.conns[i].state != Dead then w
    else Put(w, i, w.conns[i].(state := Gone)).(armed := w.armed[i := None], closed := w.closed + [i])
  }

  predicate CanRun(w: World, i: nat, io: Io)
    requires Shaped(w) && i < |w.conns|
  {
    w.conns[i].state == Runnable && Legal(w.conns[i].phase, io)
  }

  /** A batch of events is handed over completely before any fiber runs and any dead connection is removed. */
  function Step(cfg: Config, w: World, l: Label): (w': World)
    requires Shaped(w)
    ensures Shaped(w')
  {
    if l.Tick? then w.(now := w.now + l.dt)
    else if l.Accept? then Accepted(cfg, w)
    else if l.Device? then DeviceStep(cfg, w)
    else if l.i >= |w.conns| then w
    else match l
      case Reap(i) => Reaped(w, i)
      case Event(i) => Reported(w, i)
      case Deliver(i) => Delivered(w, i)
      case Run(i, io) => if w.batch == {} && CanRun(w, i, io) then RunOne(cfg, w, i, io) else w
      case Remove(i) => if w.batch == {} then Removed(w, i) else w
  }

  function Exec(cfg: Config, w: World, labels: seq<Label>): (w': World)
    requires Shaped(w)
    ensures Shaped(w')
    decreases |labels|
  {
    if |labels| == 0 then w
    else Step(cfg, Exec(cfg, w, labels[..|labels| - 1]), labels[|labels| - 1])
  }

  const EMPTY: World := World([], [], [], {}, Dev(0, 0, Start), 0, [], [])

  // ---------- The invariant ----------

  /** A connection waiting for I/O is armed for what it waits for or its event is in hand; a removed one is neither. */
  ghost predicate Attended(w: World, i: nat)
    requires Shaped(w) && i < |w.conns|
  {
    var c := w.conns[i];
    && (c.state == WaitIo ==> w.armed[i] == Some(c.ioEv) || i in w.batch)
    && (c.state == WaitIo ==> c.ioEv == if c.phase.Reading? then In else Out)
    && (c.state == Gone ==> w.armed[i] == None && i !in w.batch)
    && (c.state == Gone <==> i in w.closed)
  }

  /** The submissions of which the server has cleared `done`. */
  function Begun(c: Conn): nat
  {
    c.served + if c.phase.Reading? || c.phase == Submitting(Filled) then 0 else 1
  }

  /** A submission has cleared `done` and not been taken back. */
  predicate Open(c: Conn)
  {
    c.state == WaitOff || c.phase == Submitting(Cleared) || c.phase == Submitting(Timed)
  }

  /** What holds besides up to the end of the first reply: the device has seen nothing of an earlier submission. */
  ghost predicate FirstUse(c: Conn, d: Slot, look: Look, t: nat, now: nat)
  {
    if c.state == WaitOff then (d.done ==> now >= d.deadline) && (look.Due? ==> t >= d.deadline)
    else if c.phase.Reading? || c.phase.Submitting? then look.Start? && !d.done
    else true
  }

  /** Connection c with its slot d, the device's look at it in the sweep of time t, and the marks it has got. */
  ghost predicate CellOk(c: Conn, d: Slot, look: Look, t: nat, now: nat, marks: nat)
  {
    && (c.state == WaitOff <==> d.active)
    && (c.state == WaitOff ==> c.phase.Offloading?)
    && (c.phase.Offloading? ==> c.state == WaitOff || c.state == Runnable)
    && (c.phase.Submitting? ==> c.state == Runnable)
    && (look.NotDone? || look.Due? ==> Open(c) && !d.done)
    && (!Open(c) ==> (d.done <==> Begun(c) > 0))
    && marks + (if Open(c) && !d.done then 1 else 0) == Begun(c)
    && (c.served == 0 ==> FirstUse(c, d, look, t, now))
  }

  function LookAt(w: World, i: nat): Look
  {
    if w.dev.i == i then w.dev.look else Start
  }

  ghost predicate Served(w: World, i: nat)
    requires Shaped(w) && i < |w.conns|
  {
    CellOk(w.conns[i], w.slots[i], LookAt(w, i), w.dev.t, w.now, w.marks[i])
  }

  ghost predicate Inv(cfg: Config, w: World)
  {
    && Shaped(w)
    && NoDup(w.closed)
    && w.dev.t <= w.now
    && (w.dev.i >= |w.conns| ==> w.dev.look.Start?)
    && (forall i :: i in w.batch || i in w.closed ==> i < |w.conns|)
    && (forall i: nat :: i < |w.conns| ==> Attended(w, i) && Served(w, i) && InStep(cfg, w.conns[i]))
  }

  /** What a turn leaves: still running, waiting for what its phase needs, with the device, or gone. */
  lemma {:induction false} AdvanceParks(cfg: Config, c: Conn, io: Io)
    requires |c.buf| == REQ && c.state == Runnable && Legal(c.phase, io)
    ensures var c' := Advance(cfg, c, io);
      && (c'.state == WaitIo ==> c'.ioEv == if c'.phase.Reading? then In else Out)
      && c'.state != Gone
  {
  }

  /** A turn of the connection and the write it makes to its slot. */
  lemma {:induction false} AdvanceCellOk(cfg: Config, c: Conn, io: Io,
      d: Slot, look: Look, t: nat, now: nat, marks: nat)
    requires |c.buf| == REQ && c.state == Runnable && Legal(c.phase, io) && CellOk(c, d, look, t, now, marks)
    ensures CellOk(Advance(cfg, c, io), SlotAfter(cfg, c.phase, d, now), look, t, now, marks)
  {
    hide Transform, SeqMask;
  }

  /** The device looks on, goes away, or sets `done`. */
  lemma {:induction false} DeviceCellOk(c: Conn, d: Slot, look: Look, t: nat, now: nat, marks: nat, t': nat)
    requires CellOk(c, d, look, t, now, marks) && t <= now
    ensures CellOk(c, d, Start, t', now, marks)
    ensures look.Start? && d.active ==> CellOk(c, d, SawActive, t, now, marks)
    ensures look.SawActive? && !d.done ==> CellOk(c, d, NotDone, t, now, marks)
    ensures look.NotDone? && t >= d.deadline ==> CellOk(c, d, Due, t, now, marks)
    ensures look.Due? ==> CellOk(c, d.(done := true), Start, t', now, marks + 1)
  {
  }

  lemma {:induction false} RunKeeps(cfg: Config, w: World, r: nat, io: Io)
    requires Inv(cfg, w) && r < |w.conns| && w.batch == {} && CanRun(w, r, io)
    ensures Inv(cfg, RunOne(cfg, w, r, io))
  {
    var w' := RunOne(cfg, w, r, io);
    assert Attended(w, r) && Served(w, r) && InStep(cfg, w.conns[r]);
    AdvanceParks(cfg, w.conns[r], io);
    AdvanceCellOk(cfg, w.conns[r], io, w.slots[r], LookAt(w, r), w.dev.t, w.now, w.marks[r]);
    AdvanceInStep(cfg, w.conns[r], io);
    hide Advance, CellOk, InStep, SlotAfter, NoDup;
    forall i: nat | i < |w.conns| ensures Attended(w', i) && Served(w', i) && InStep(cfg, w'.conns[i]) {
      assert Attended(w, i) && Served(w, i) && InStep(cfg, w.conns[i]);
    }
  }

  lemma {:induction false} DeviceServes(cfg: Config, w: World, i: nat)
    requires Shaped(w) && w.dev.t <= w.now && i < |w.conns| && Served(w, i)
    ensures Served(DeviceStep(cfg, w), i)
  {
    var w' := DeviceStep(cfg, w);
    DeviceCellOk(w.conns[i], w.slots[i], LookAt(w, i), w.dev.t, w.now, w.marks[i], w'.dev.t);
    hide CellOk;
    if w.dev.i == i {
      assert w'.conns[i] == w.conns[i];
    } else {
      assert w'.conns[i] == w.conns[i] && w'.slots[i] == w.slots[i] && w'.marks[i] == w.marks[i];
      assert LookAt(w', i) == Start;
    }
  }

  lemma {:induction false} DeviceKeeps(cfg: Config, w: World)
    requires Inv(cfg, w)
    ensures Inv(cfg, DeviceStep(cfg, w))
  {
    var w' := DeviceStep(cfg, w);
    assert w'.conns == w.conns && w'.armed == w.armed && w'.batch == w.batch && w'.closed == w.closed;
    assert w'.dev.t <= w'.now && (w'.dev.i >= |w.conns| ==> w'.dev.look.Start?);
    hide Served, InStep, NoDup, DeviceStep;
    forall i: nat | i < |w.conns| ensures Attended(w', i) && Served(w', i) && InStep(cfg, w'.conns[i]) {
      assert Attended(w, i);
      DeviceServes(cfg, w, i);
    }
  }

  /** A step that touches the state, the slot and the interest of connection i only, and goes on with neither of
      them. */
  ghost predicate TouchesOne(w: World, w': World, i: nat)
    requires Shaped(w) && Shaped(w') && i < |w.conns|
  {
    && |w'.conns| == |w.conns| && w'.dev == w.dev && w'.now == w.now && w'.marks == w.marks
    && (forall j: nat :: j < |w.conns| && j != i ==>
          && w'.conns[j] == w.conns[j] && w'.slots[j] == w.slots[j] && w'.armed[j] == w.armed[j]
          && (j in w'.batch <==> j in w.batch) && (j in w'.closed <==> j in w.closed))
    && w'.conns[i] == w.conns[i].(state := w'.conns[i].state)
    && (forall j :: j in w'.batch || j in w'.closed ==> j in w.batch || j in w.closed || j == i)
  }

  lemma {:induction false} TouchKeeps(cfg: Config, w: World, w': World, i: nat)
    requires Inv(cfg, w) && Shaped(w') && i < |w.conns| && TouchesOne(w, w', i)
    requires NoDup(w'.closed) && Attended(w', i) && Served(w', i)
    ensures Inv(cfg, w')
  {
    hide CellOk, InStep, NoDup;
    forall j: nat | j < |w.conns| ensures Attended(w', j) && Served(w', j) && InStep(cfg, w'.conns[j]) {
      assert Attended(w, j) && Served(w, j) && InStep(cfg, w.conns[j]);
      StateFree(cfg, w.conns[j], w'.conns[j]);
    }
  }

  /** Reaping, an event, its delivery and a removal. */
  lemma {:induction false} EventTouchesOne(cfg: Config, w: World, l: Label)
    requires Shaped(w) && (l.Reap? || l.Event? || l.Deliver? || l.Remove?) && l.i < |w.conns|
    ensures TouchesOne(w, Step(cfg, w, l), l.i)
  {
  }

  lemma {:induction false} EventAttends(cfg: Config, w: World, l: Label)
    requires Shaped(w) && (l.Reap? || l.Event? || l.Deliver? || l.Remove?) && l.i < |w.conns|
    requires NoDup(w.closed) && Attended(w, l.i)
    ensures var w' := Step(cfg, w, l); NoDup(w'.closed) && Attended(w', l.i)
  {
    if l.Remove? && w.conns[l.i].state == Dead {
      AddLast(w.closed, l.i);
    }
    hide NoDup;
  }

  lemma {:induction false} EventServes(cfg: Config, w: World, l: Label)
    requires Shaped(w) && (l.Reap? || l.Event? || l.Deliver? || l.Remove?) && l.i < |w.conns| && Served(w, l.i)
    ensures Served(Step(cfg, w, l), l.i)
  {
  }

  lemma {:induction false} EventKeeps(cfg: Config, w: World, l: Label)
    requires Inv(cfg, w) && (l.Reap? || l.Event? || l.Deliver? || l.Remove?) && l.i < |w.conns|
    ensures Inv(cfg, Step(cfg, w, l))
  {
    assert Attended(w, l.i) && Served(w, l.i);
    hide Attended, Served, InStep, NoDup, TouchesOne, Step;
    EventTouchesOne(cfg, w, l);
    EventAttends(cfg, w, l);
    EventServes(cfg, w, l);
    hide Inv;
    TouchKeeps(cfg, w, Step(cfg, w, l), l.i);
  }

  lemma {:induction false} TickKeeps(cfg: Config, w: World, dt: nat)
    requires Inv(cfg, w)
    ensures Inv(cfg, w.(now := w.now + dt))
  {
    var w' := w.(now := w.now + dt);
    hide InStep, NoDup;
    forall i: nat | i < |w.conns| ensures Attended(w', i) && Served(w', i) {
      assert Attended(w, i) && Served(w, i);
    }
  }

  lemma {:induction false} AcceptKeeps(cfg: Config, w: World)
    requires Inv(cfg, w)
    ensures Inv(cfg, Accepted(cfg, w))
  {
    var w' := Accepted(cfg, w);
    NewInStep(cfg);
    hide InStep, NoDup;
    forall i: nat | i < |w'.conns| ensures Attended(w', i) && Served(w', i) && InStep(cfg, w'.conns[i]) {
      if i < |w.conns| {
        assert Attended(w, i) && Served(w, i) && InStep(cfg, w.conns[i]);
      }
    }
  }

  lemma {:induction false} StepKeeps(cfg: Config, w: World, l: Label)
    requires Inv(cfg, w)
    ensures Inv(cfg, Step(cfg, w, l))
  {
    if l.Accept? {
      AcceptKeeps(cfg, w);
    } else if l.Device? {
      DeviceKeeps(cfg, w);
    } else if l.Tick? {
      TickKeeps(cfg, w, l.dt);
    } else if l.i < |w.conns| {
      if !l.Run? {
        EventKeeps(cfg, w, l);
      } else if w.batch == {} && CanRun(w, l.i, l.io) {
        RunKeeps(cfg, w, l.i, l.io);
      }
    }
  }

  lemma {:induction false} ExecKeeps(cfg: Config, w: World, labels: seq<Label>)
    requires Inv(cfg, w)
    ensures Inv(cfg, Exec(cfg, w, labels))
    decreases |labels|
  {
    if |labels| > 0 {
      ExecKeeps(cfg, w, labels[..|labels| - 1]);
      hide Inv, Step;
      StepKeeps(cfg, Exec(cfg, w, labels[..|labels| - 1]), labels[|labels| - 1]);
    }
  }

  /** The world a run from the start leads to. */
  function After(cfg: Config, labels: seq<Label>): (w: World)
    ensures Shaped(w)
  {
    Exec(cfg, EMPTY, labels)
  }

  lemma {:induction false} Always(cfg: Config, labels: seq<Label>)
    ensures Inv(cfg, After(cfg, labels))
  {
    ExecKeeps(cfg, EMPTY, labels);
  }

  lemma {:induction false} Extend(cfg: Config, trace: seq<Label>, w: World, l: Label)
    requires w == After(cfg, trace)
    ensures Step(cfg, w, l) == After(cfg, trace + [l])
  {
    assert (trace + [l])[..|trace|] == trace;
  }

  /** Turns a fiber can still make before it has to park, if writes make progress. */
  function TurnsLeft(phase: Phase): nat
  {
    match phase
    case Offloading => 3 * REQ + 4
    case Writing(put) => if put < REQ then 2 * REQ + 4 - put else 0
    case Reading(got) => if got < REQ then REQ + 4 - got else 0
    case Submitting(stage) => if stage.Filled? then 3 else if stage.Cleared? then 2 else 1
  }

  ghost predicate InBounds(phase: Phase)
  {
    match phase case Reading(got) => got < REQ case Writing(put) => put < REQ case _ => true
  }

  lemma TurnsDrop(cfg: Config, c: Conn, io: Io)
    requires |c.buf| == REQ && InBounds(c.phase) && c.state == Runnable && Legal(c.phase, io) && (io.Room? ==> io.n > 0)
    ensures Advance(cfg, c, io).state == Runnable ==> TurnsLeft(Advance(cfg, c, io).phase) < TurnsLeft(c.phase)
  {
    match c.phase
    case Offloading => assert Transformed(cfg, c).phase == Writing(0);
    case Submitting(_) => var c' := SubmitTurn(c);
    case Writing(_) => var c' := WriteTurn(c, io);
    case Reading(_) => var c' := ReadTurn(c, io);
  }

  // ---------- Main results ----------

  /** Whatever the interleaving, the chunking and the order of completions, every connection has written a prefix of the
      replies to the whole requests it has read, in order, and is at most one request behind. */
  lemma {:induction false} EveryConnectionIsSequential(cfg: Config, labels: seq<Label>, i: nat)
    requires i < |After(cfg, labels).conns|
    ensures var c := After(cfg, labels).conns[i];
      && c.outp <= Replies(cfg, c.inp, |c.inp| / REQ)
      && c.served <= |c.inp| / REQ <= c.served + 1 && c.served * REQ <= |c.outp|
      && (c.phase.Reading? ==> c.outp == Replies(cfg, c.inp, |c.inp| / REQ))
  {
    Always(cfg, labels);
    var c := After(cfg, labels).conns[i];
    assert InStep(cfg, c);
    hide After, Inv;
    InStepMeaning(cfg, c);
  }

  /** No parked connection is stranded, and a connection is removed at most once, exactly when it is gone. */
  lemma {:induction false} NoneStranded(cfg: Config, labels: seq<Label>, i: nat)
    requires i < |After(cfg, labels).conns|
    ensures var w := After(cfg, labels);
      && (w.conns[i].state == WaitIo ==> w.armed[i] == Some(w.conns[i].ioEv) || i in w.batch)
      && (w.conns[i].state == WaitOff <==> w.slots[i].active)
      && (w.conns[i].state == Gone <==> i in w.closed) && NoDup(w.closed)
      && (i in w.batch ==> w.conns[i].state != Gone)
  {
    Always(cfg, labels);
    assert Attended(After(cfg, labels), i) && Served(After(cfg, labels), i);
  }

  /** The device sets `done` once for each submission, whatever it saw of earlier ones: the marks are the submissions,
      less the one that is open and not yet done. A request that was read in full is submitted before the next read. */
  lemma {:induction false} OneMarkEach(cfg: Config, labels: seq<Label>, i: nat)
    requires i < |After(cfg, labels).conns|
    ensures var w := After(cfg, labels);
      var c := w.conns[i];
      && w.marks[i] + (if Open(c) && !w.slots[i].done then 1 else 0) == Begun(c)
      && Begun(c) <= |c.inp| / REQ && (c.phase != Submitting(Filled) ==> Begun(c) == |c.inp| / REQ)
      && (w.dev.look.Due? && w.dev.i == i ==> Open(c) && !w.slots[i].done)
  {
    Always(cfg, labels);
    assert Served(After(cfg, labels), i) && InStep(cfg, After(cfg, labels).conns[i]);
  }

  /** The step is a turn, a completion, an event or the removal of connection i. */
  predicate Concerns(l: Label, i: nat)
  {
    (l.Run? || l.Reap? || l.Deliver? || l.Remove?) && l.i == i
  }

  /** A step concerning another connection leaves this one alone. */
  lemma {:induction false} OthersDoNotInterfere(cfg: Config, w: World, l: Label, i: nat)
    requires Shaped(w) && i < |w.conns|
    requires !Concerns(l, i)
    ensures Step(cfg, w, l).conns[i] == w.conns[i]
  {
  }
}
