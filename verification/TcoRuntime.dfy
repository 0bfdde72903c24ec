/** The coroutine server's program: connection structs with in-place buffers, the dispatcher loop, and the
    thread-per-connection handler it has to agree with. */
module TcoRuntime {
  import opened Bytes
  import opened Keystream
  import TcoCalls
  import opened TcoProgress
  import opened TcoServer
  import opened Distinct

  /** What happens to a request once its offload is over: `transform`, and in stateful mode `seqmask` with the
      counter. */
  method ApplyOffload(cfg: Config, buf: array<Byte>, seqno: Word) returns (seqno': Word)
    modifies buf
    ensures buf[..] == if cfg.stateful then SeqMask(Transform(old(buf[..])), seqno) else Transform(old(buf[..]))
    ensures seqno' == if cfg.stateful then (seqno + 1) % WRAP else seqno
  {
    seqno' := seqno;
    XorInPlace(buf, 0x9e3779b9, 17);
    if cfg.stateful {
      XorInPlace(buf, seqno, 13);
      seqno' := (seqno + 1) % WRAP;
    }
  }

  /** `struct conn`, with the locals of the fiber that runs `serve` on it. */
  class Fiber {
    const idx: nat
    const buf: array<Byte>
    var state: CState
    var phase: Phase
    var ioEv: Interest
    var seqno: Word
    var served: nat
    ghost var inp: seq<Byte>
    ghost var outp: seq<Byte>

    ghost function View(): Conn
      reads this, buf
    {
      Conn(state, phase, ioEv, buf[..], seqno, served, inp, outp)
    }

    constructor (idx: nat)
      ensures this.idx == idx && fresh(buf) && buf.Length == REQ && state == Runnable && View() == NewConn()
    {
      this.idx := idx;
      buf := new Byte[REQ](_ => 0);
      state, phase, ioEv, seqno, served := Runnable, Reading(0), In, 0, 0;
      inp, outp := [], [];
      new;
      assert buf[..] == seq(REQ, _ => 0);
    }

    /** One turn of the loop of `co_read_n`. */
    method ReadTurn(io: Io)
      requires buf.Length == REQ && phase.Reading? && Legal(phase, io)
      modifies this, buf
      ensures View() == TcoServer.ReadTurn(old(View()), io)
      ensures io.Data? ==>
        inp == old(inp) + io.bytes && View() == old(View()).(buf := buf[..], inp := inp, phase := phase)
      ensures io.Again? ==> View() == old(View()).(state := WaitIo, ioEv := In)
      ensures io.Closed? || io.Fail? ==> View() == old(View()).(state := Dead)
    {
      if io.Data? {
        var got, bytes := phase.got, io.bytes;
        forall j | 0 <= j < |bytes| {
          buf[got + j] := bytes[j];
        }
        inp := inp + bytes;
        phase := if got + |bytes| < REQ then Reading(got + |bytes|) else Submitting(Filled);
        assert buf[..] == old(buf[..])[..got] + bytes + old(buf[..])[got + |bytes|..];
      } else if io.Again? {
        ioEv, state := In, WaitIo;
      } else {
        state := Dead;
      }
    }

    /** On in `co_offload`; after the last write to the slot the connection parks. */
    method SubmitTurn()
      requires buf.Length == REQ && phase.Submitting?
      modifies this
      ensures View() == TcoServer.SubmitTurn(old(View()))
    {
      match phase.stage {
        case Filled => phase := Submitting(Cleared);
        case Cleared => phase := Submitting(Timed);
        case Timed => phase, state := Offloading, WaitOff;
      }
    }

    /** The result of the offload becomes available: transform and mask the buffer in place. */
    method Transformed(cfg: Config)
      requires buf.Length == REQ && phase.Offloading?
      modifies this, buf
      ensures View() == TcoServer.Transformed(cfg, old(View()))
    {
      seqno := ApplyOffload(cfg, buf, seqno);
      phase := Writing(0);
    }

    /** One turn of the loop of `co_write_n`. */
    method WriteTurn(io: Io)
      requires buf.Length == REQ && phase.Writing? && Legal(phase, io)
      modifies this
      ensures View() == TcoServer.WriteTurn(old(View()), io)
      ensures io.Room? ==> outp == old(outp) + buf[old(phase.put)..old(phase.put) + io.n] && state == old(state)
      ensures io.Again? ==> View() == old(View()).(state := WaitIo, ioEv := Out)
      ensures io.Closed? || io.Fail? ==> View() == old(View()).(state := Dead)
    {
      if io.Room? {
        var put := phase.put;
        outp := outp + buf[put..put + io.n];
        if put + io.n < REQ {
          phase := Writing(put + io.n);
        } else {
          phase := Reading(0);
          served := served + 1;
        }
      } else if io.Again? {
        ioEv, state := Out, WaitIo;
      } else {
        state := Dead;
      }
    }

    method Turn(cfg: Config, io: Io)
      requires buf.Length == REQ && Legal(phase, io)
      modifies this, buf
      ensures View() == Advance(cfg, old(View()), io)
    {
      match phase {
        case Reading(_) => ReadTurn(io);
        case Submitting(_) => SubmitTurn();
        case Offloading => Transformed(cfg);
        case Writing(_) => WriteTurn(io);
      }
    }
  }

  /** Between two steps of the server: time passes, or the device makes its next access. */
  datatype Other = Passes(dt: nat) | Accesses

  /** What the outside world does at each moment: what happens besides, what epoll has to report, how many clients
      connect, and the results of system calls. */
  datatype Env = Env(
    others: nat -> seq<Other>, ready: nat -> seq<nat>, accepts: nat -> nat, kernel: (nat, Phase) -> Io)

  /** Results of system calls are legal, and writes make progress. */
  ghost predicate KernelOk(env: Env)
  {
    forall n: nat, phase ::
      Legal(phase, env.kernel(n, phase)) && (env.kernel(n, phase).Room? ==> env.kernel(n, phase).n > 0)
  }

  /** The state of dispatcher and device thread. `fibers` remembers every connection ever accepted; `batch` is what is
      left of the events that `epoll_wait` returned; `moment` counts the points at which the outside world acted. */
  class Server {
    const cfg: Config
    const env: Env
    const conns: array<Fiber?>
    const slots: array<Slot>
    const armed: array<Option<Interest>>
    var nconns: nat
    var dev: Dev
    var now: nat
    var moment: nat
    ghost var batch: set<nat>
    ghost var closed: seq<nat>
    ghost var marks: seq<nat>
    ghost var fibers: seq<Fiber>
    /** The steps of all agents so far. */
    ghost var trace: seq<Label>

    ghost var Repr: set<object>

    ghost function Tables(): set<object>
    {
      {this, conns, slots, armed}
    }

    ghost predicate Valid()
      reads this, Repr
      ensures Valid() ==> this in Repr
    {
      && Tables() <= Repr
      && nconns == |fibers| == |marks| <= cfg.maxconn == conns.Length == slots.Length == armed.Length
      && (forall i :: 0 <= i < nconns ==> fibers[i] in Repr && fibers[i].buf in Repr && fibers[i].buf.Length == REQ)
      && (forall i :: 0 <= i < nconns ==> (fibers[i] as object) !in Tables() && (fibers[i].buf as object) !in Tables())
      && (forall i, j :: 0 <= i < j < nconns ==> fibers[i] != fibers[j] && fibers[i].buf != fibers[j].buf)
      && (forall i :: 0 <= i < nconns ==> fibers[i].idx == i)
      && (forall i :: 0 <= i < nconns ==> conns[i] == if fibers[i].state == Gone then null else fibers[i])
      && (forall i :: nconns <= i < cfg.maxconn ==> slots[i] == Slot(0, false, false))
      && (!dev.look.Start? ==> dev.i < nconns)
    }

    static ghost function Views(fs: seq<Fiber>): (cs: seq<Conn>)
      reads fs, set f | f in fs :: f.buf
      ensures |cs| == |fs| && forall i :: 0 <= i < |fs| ==> cs[i] == fs[i].View()
    {
      if |fs| == 0 then [] else Views(fs[..|fs| - 1]) + [fs[|fs| - 1].View()]
    }

    ghost function View(): (w: World)
      requires Valid()
      reads this, Repr
      ensures Shaped(w) && |w.conns| == nconns
    {
      World(Views(fibers), slots[..nconns], armed[..nconns], batch, dev, now, closed, marks)
    }

    /** The state is the one the specification reaches by the steps in `trace`, those of the device included. */
    ghost predicate Good()
      reads this, Repr
    {
      Valid() && KernelOk(env) && View() == After(cfg, trace)
    }

    constructor (cfg: Config, env: Env)
      requires KernelOk(env)
      ensures this.cfg == cfg && this.env == env && fresh(Repr) && Good() && trace == [] && nconns == 0
    {
      this.cfg, this.env := cfg, env;
      conns := new Fiber?[cfg.maxconn](_ => null);
      slots := new Slot[cfg.maxconn](_ => Slot(0, false, false));
      armed := new Option<Interest>[cfg.maxconn](_ => None);
      nconns, dev, now, moment, batch, closed, marks, fibers, trace := 0, Dev(0, 0, Start), 0, 0, {}, [], [], [], [];
      Repr := {this, conns, slots, armed};
    }

    // ---------- Single steps ----------

    /** The table part of `conn_new`: the connection gets the next index, with a slot of its own, and EPOLLIN
        interest. */
    method Register(f: Fiber)
      requires Valid() && nconns < cfg.maxconn && f.idx == nconns && f.buf.Length == REQ && f.state == Runnable
      requires f !in Repr && f.buf !in Repr
      modifies this`nconns, this`fibers, this`marks, this`Repr, conns, armed
      ensures Valid() && Repr == old(Repr) + {f, f.buf} && fibers == old(fibers) + [f]
      ensures nconns == old(nconns) + 1 && marks == old(marks) + [0]
      ensures slots[..nconns] == old(slots[..nconns]) + [Slot(0, false, false)]
      ensures armed[..nconns] == old(armed[..nconns]) + [Some(In)]
    {
      hide Views;
      conns[nconns] := f;
      armed[nconns] := Some(In);
      nconns := nconns + 1;
      fibers, marks, Repr := fibers + [f], marks + [0], Repr + {f, f.buf};
    }

    /** `accept` and `conn_new`; a connection beyond the table is closed at once. */
    method AcceptOne()
      requires Valid()
      modifies this`nconns, this`fibers, this`marks, this`Repr, conns, armed
      ensures Valid() && fresh(Repr - old(Repr)) && old(Repr) <= Repr
      ensures View() == Accepted(cfg, old(View()))
    {
      hide NewConn, Views;
      if nconns < cfg.maxconn {
        var f := new Fiber(nconns);
        Register(f);
        assert View().conns == old(View()).conns + [NewConn()];
      }
    }

    /** The device thread's next access. */
    method DeviceTurn()
      requires Valid()
      modifies this`dev, this`marks, slots
      ensures Valid() && View() == DeviceStep(cfg, old(View()))
    {
      hide Views;
      if dev.look.Due? {
        MarkSlot();
      } else {
        var i := dev.i;
        if dev.look.Start? && i < cfg.maxconn && slots[i].active {
          dev := dev.(look := SawActive);
        } else if dev.look.SawActive? && !slots[i].done {
          dev := dev.(look := NotDone);
        } else if dev.look.NotDone? && dev.t >= slots[i].deadline {
          dev := dev.(look := Due);
        } else {
          dev := GoneOn(cfg, dev, now);
        }
        assert View().conns == old(View()).conns;
      }
    }

    method MarkSlot()
      requires Valid() && dev.look.Due?
      modifies this`dev, this`marks, slots
      ensures Valid() && View() == DeviceStep(cfg, old(View()))
    {
      hide Views;
      slots[dev.i] := slots[dev.i].(done := true);
      marks := marks[dev.i := marks[dev.i] + 1];
      dev := GoneOn(cfg, dev, now);
      assert View().conns == old(View()).conns;
    }

    method Sleep(dt: nat)
      requires Valid()
      modifies this`now
      ensures Valid() && View() == old(View()).(now := old(View()).now + dt)
    {
      hide Views;
      now := now + dt;
      assert View().conns == old(View()).conns;
    }

    method MakeRunnable(i: nat)
      requires Valid() && i < nconns && fibers[i].state != Gone
      modifies fibers[i]
      ensures Valid() && View() == Put(old(View()), i, old(View()).conns[i].(state := Runnable))
    {
      hide Views;
      var c := conns[i];
      c.state := Runnable;
      assert View().conns == old(View()).conns[i := fibers[i].View()];
    }

    method Deactivate(i: nat)
      requires Valid() && i < nconns
      modifies slots
      ensures Valid() && View() == old(View()).(slots := old(View()).slots[i := old(View()).slots[i].(active := false)])
    {
      hide Views;
      slots[i] := slots[i].(active := false);
      assert View().conns == old(View()).conns;
    }

    /** First loop of the dispatcher, at connection i: make it runnable again if its offload is done. */
    method ReapOne(i: nat)
      requires Valid() && i < nconns
      modifies slots, fibers[i]
      ensures Valid() && View() == Reaped(old(View()), i)
    {
      hide Views;
      var c := conns[i];
      if c != null && c.state == WaitOff && slots[c.idx].done {
        MakeRunnable(c.idx);
        Deactivate(c.idx);
      }
    }

    /** `epoll_wait` returns the event of connection i. */
    method ReportOne(i: nat)
      requires Valid() && i < nconns && armed[i].Some?
      modifies this`batch, armed
      ensures Valid() && View() == Reported(old(View()), i)
    {
      hide Views;
      armed[i] := None;
      batch := batch + {i};
      assert View().conns == old(View()).conns;
    }

    ghost method Dequeue(i: nat)
      requires Valid()
      modifies this`batch
      ensures Valid() && View() == old(View()).(batch := old(View()).batch - {i})
    {
      hide Views;
      batch := batch - {i};
      assert View().conns == old(View()).conns;
    }

    /** Second loop of the dispatcher: hand over one event of the batch. */
    method DeliverOne(i: nat)
      requires Valid() && i < nconns && i in batch && fibers[i].state != Gone
      modifies this`batch, fibers[i]
      ensures Valid() && View() == Delivered(old(View()), i)
    {
      var c := conns[i];
      Dequeue(i);
      hide Views;
      if c.state == WaitIo {
        MakeRunnable(i);
      }
    }

    method TurnFiber(i: nat, io: Io)
      requires Valid() && i < nconns && CanRun(View(), i, io)
      modifies fibers[i], fibers[i].buf
      ensures Valid() && View() == Put(old(View()), i, Advance(cfg, old(View()).conns[i], io))
    {
      hide Views, Advance;
      var c := conns[i];
      c.Turn(cfg, io);
      assert View().conns == old(View()).conns[i := fibers[i].View()];
    }

    /** The writes of `co_offload`: one at a time, `done` cleared, the deadline set, and only then `active`. */
    method WriteSlot(i: nat, stage: Stage)
      requires Valid() && i < nconns
      modifies slots
      ensures Valid()
      ensures View() == old(View()).(slots := old(View()).slots[i :=
        SlotAfter(cfg, Submitting(stage), old(View()).slots[i], old(View()).now)])
    {
      hide Views;
      match stage {
        case Filled => slots[i] := slots[i].(done := false);
        case Cleared => slots[i] := slots[i].(deadline := now + cfg.latency);
        case Timed => slots[i] := slots[i].(active := true);
      }
      assert View().conns == old(View()).conns;
    }

    /** The epoll part of `co_yield_io`. */
    method Arm(i: nat, ev: Interest)
      requires Valid() && i < nconns
      modifies armed
      ensures Valid() && View() == old(View()).(armed := old(View()).armed[i := Some(ev)])
    {
      hide Views;
      armed[i] := Some(ev);
      assert View().conns == old(View()).conns;
    }

    /** `conns[i]`. */
    method Fetch(i: nat) returns (c: Fiber?)
      requires Valid() && i < nconns
      ensures c == if View().conns[i].state == Gone then null else fibers[i]
      ensures i < |fibers| && (c != null ==> c.View() == View().conns[i])
    {
      c := conns[i];
    }

    /** One turn of fiber i, with what it does to its slot, and to epoll when it parks. */
    method RunTurn(i: nat, io: Io)
      requires Valid() && i < nconns && CanRun(View(), i, io)
      modifies slots, armed, fibers[i], fibers[i].buf
      ensures Valid() && View() == RunOne(cfg, old(View()), i, io)
    {
      hide Views, Advance, Valid;
      var c := Fetch(i);
      var phase := c.phase;
      TurnFiber(i, io);
      if phase.Submitting? {
        WriteSlot(i, phase.stage);
      } else {
        assert View().slots[i := View().slots[i]] == View().slots;
      }
      if c.state == WaitIo {
        Arm(i, c.ioEv);
      }
    }

    /** `epoll_ctl(DEL)`, `close` and `free` of a dead connection. */
    method RemoveOne(i: nat)
      requires Valid() && i < nconns && View().conns[i].state == Dead
      modifies this`closed, conns, armed, fibers[i]
      ensures Valid() && View() == Removed(old(View()), i)
    {
      hide Views;
      armed[i] := None;
      closed := closed + [i];
      var c := conns[i];
      c.state := Gone;
      conns[i] := null;
      assert View().conns == old(View()).conns[i := fibers[i].View()];
    }

    // ---------- The loops ----------

    /** The fields have moved by step l. */
    ghost method Note(l: Label, before: World)
      requires Valid() && KernelOk(env) && before == After(cfg, trace) && View() == Step(cfg, before, l)
      modifies this`trace
      ensures Good() && trace == old(trace) + [l] && View() == old(View())
    {
      hide Views;
      Extend(cfg, trace, before, l);
      hide After, Step;
      trace := trace + [l];
      assert View().conns == old(View()).conns;
    }

    lemma Footprint(i: nat)
      requires Valid() && i < nconns
      ensures Tables() <= Repr && i < |fibers| && fibers[i] in Repr && fibers[i].buf in Repr
    {
    }

    lemma TablesIn()
      requires Valid()
      ensures Tables() <= Repr
    {
    }

    /** What may have changed while only the clock and the device moved. */
    ghost predicate Same(w: World, w': World)
    {
      w'.conns == w.conns && w'.armed == w.armed && w'.batch == w.batch && w'.closed == w.closed
    }

    /** What happens between two steps of the server: time passes, and the device makes some accesses. */
    method Meanwhile()
      requires Good()
      modifies this`now, this`dev, this`marks, this`moment, this`trace, slots
      ensures Good() && Same(old(View()), View()) && old(trace) <= trace
    {
      hide Valid, View, After, DeviceStep, KernelOk;
      var os := env.others(moment);
      for k := 0 to |os|
        invariant Good() && Same(old(View()), View()) && old(trace) <= trace
      {
        if os[k].Accesses? {
          DeviceTurnIn();
        } else {
          SleepIn(os[k].dt);
        }
      }
      Later();
    }

    method DeviceTurnIn()
      requires Good()
      modifies this`dev, this`marks, this`trace, slots
      ensures Good() && Same(old(View()), View()) && trace == old(trace) + [Device]
    {
      hide View, Valid, After;
      ghost var w := View();
      assert Step(cfg, w, Device) == DeviceStep(cfg, w) && Same(w, DeviceStep(cfg, w));
      hide DeviceStep, Step;
      DeviceTurn();
      Note(Device, w);
    }

    method SleepIn(dt: nat)
      requires Good()
      modifies this`now, this`trace
      ensures Good() && Same(old(View()), View()) && trace == old(trace) + [Tick(dt)]
    {
      hide View, Valid, After;
      ghost var w := View();
      Sleep(dt);
      Note(Tick(dt), w);
    }

    method Later()
      requires Good()
      modifies this`moment
      ensures Good() && View() == old(View())
    {
      hide Views, After;
      moment := moment + 1;
      assert View().conns == old(View()).conns;
    }

    ghost predicate NoneDead(w: World)
    {
      forall j :: 0 <= j < |w.conns| ==> w.conns[j].state != Dead
    }

    /** Only a turn of a fiber can leave it dead. */
    lemma NoneDies(w: World, l: Label)
      requires Shaped(w) && NoneDead(w) && !l.Run?
      ensures NoneDead(Step(cfg, w, l)) && |w.conns| <= |Step(cfg, w, l).conns|
    {
      hide Advance;
    }

    method ReapStep(i: nat)
      requires Good() && i < nconns && NoneDead(View())
      modifies this`trace, slots, fibers[i]
      ensures Good() && NoneDead(View()) && View().batch == old(View()).batch && trace == old(trace) + [Reap(i)]
    {
      ghost var w := View();
      NoneDies(w, Reap(i));
      assert Step(cfg, w, Reap(i)) == Reaped(w, i);
      hide View, Valid, After, NoneDead;
      ReapOne(i);
      Note(Reap(i), w);
    }

    lemma StillIn(was: seq<Label>, start: seq<Label>, i: nat)
      requires start <= was && was + [Reap(i)] <= trace
      ensures Reap(i) in trace[|start|..] && forall l :: l in was[|start|..] ==> l in trace[|start|..]
    {
      assert trace[|was|] == Reap(i);
      assert forall k :: |start| <= k < |was| ==> trace[k] == was[k];
    }

    /** First loop of the dispatcher: resume the fibers whose offload is done. */
    method ReapPass()
      requires Good() && NoneDead(View())
      modifies Repr
      ensures Good() && NoneDead(View()) && View().batch == old(View()).batch
      ensures Repr == old(Repr) && old(trace) <= trace && nconns == old(nconns)
      ensures forall i: nat :: i < nconns ==> Reap(i) in trace[|old(trace)|..]
    {
      hide Valid, View, After, KernelOk;
      TablesIn();
      var i := 0;
      while i < nconns
        invariant Good() && NoneDead(View()) && View().batch == old(View()).batch && Repr == old(Repr)
        invariant Tables() <= Repr && old(trace) <= trace && i <= nconns == old(nconns)
        invariant forall n: nat :: n < i ==> Reap(n) in trace[|old(trace)|..]
      {
        Footprint(i);
        ghost var was := trace;
        ReapStep(i);
        Meanwhile();
        StillIn(was, old(trace), i);
        i := i + 1;
      }
    }

    method ReportStep(i: nat)
      requires Good() && i < nconns && armed[i].Some? && NoneDead(View())
      modifies this`batch, this`trace, armed
      ensures Good() && NoneDead(View()) && View() == Reported(old(View()), i) && trace == old(trace) + [Event(i)]
    {
      ghost var w := View();
      NoneDies(w, Event(i));
      assert Step(cfg, w, Event(i)) == Reported(w, i);
      hide View, Valid, After, NoneDead;
      ReportOne(i);
      Note(Event(i), w);
    }

    method IsArmed(i: nat) returns (r: bool)
      requires Valid()
      ensures r <==> i < |View().conns| && View().armed[i].Some?
      ensures r ==> i < nconns && i < armed.Length && armed[i].Some?
    {
      r := i < nconns && armed[i].Some?;
    }

    /** `epoll_wait`: of the connections with something to report, those that are armed, at most 256 of them. */
    method EpollWait(candidates: seq<nat>) returns (evs: seq<nat>)
      requires Good() && NoneDead(View()) && View().batch == {}
      modifies this`batch, this`trace, armed
      ensures Good() && NoneDead(View()) && NoDup(evs) && (forall i :: i in evs <==> i in View().batch)
      ensures old(trace) <= trace
    {
      hide Valid, View, After, KernelOk, NoneDead;
      evs := [];
      for k := 0 to |candidates|
        invariant Good() && NoneDead(View()) && NoDup(evs) && (forall i :: i in evs <==> i in View().batch)
        invariant (forall i :: i in evs ==> i < |View().armed| && View().armed[i] == None) && old(trace) <= trace
      {
        var isArmed := IsArmed(candidates[k]);
        if isArmed && |evs| < 256 {
          ReportStep(candidates[k]);
          evs := evs + [candidates[k]];
        }
      }
    }

    method AcceptStep()
      requires Good() && NoneDead(View())
      modifies this`nconns, this`fibers, this`marks, this`Repr, this`trace, conns, armed
      ensures Good() && NoneDead(View()) && View().batch == old(View()).batch && trace == old(trace) + [Accept]
      ensures fresh(Repr - old(Repr)) && old(Repr) <= Repr
    {
      ghost var w := View();
      NoneDies(w, Accept);
      assert Step(cfg, w, Accept) == Accepted(cfg, w);
      hide View, Valid, After, NoneDead, NewConn;
      AcceptOne();
      Note(Accept, w);
    }

    /** Everything the listener has. */
    method AcceptPass()
      requires Good() && NoneDead(View())
      modifies Repr
      ensures Good() && NoneDead(View()) && View().batch == old(View()).batch
      ensures fresh(Repr - old(Repr)) && old(Repr) <= Repr && old(trace) <= trace
    {
      hide Valid, View, After, KernelOk;
      TablesIn();
      var n := env.accepts(moment);
      for k := 0 to n
        invariant Good() && NoneDead(View()) && View().batch == old(View()).batch
        invariant fresh(Repr - old(Repr)) && old(Repr) <= Repr && Tables() <= old(Repr) && old(trace) <= trace
      {
        AcceptStep();
        Meanwhile();
      }
    }

    lemma InBatch(i: nat)
      requires Good() && i in View().batch
      ensures i < nconns && i in batch && fibers[i].state != Gone
    {
      Always(cfg, trace);
      assert Attended(View(), i);
    }

    method DeliverStep(i: nat)
      requires Good() && NoneDead(View()) && i < nconns && i in batch && fibers[i].state != Gone
      modifies this`batch, this`trace, fibers[i]
      ensures Good() && NoneDead(View()) && View().batch == old(View()).batch - {i}
      ensures trace == old(trace) + [Deliver(i)]
    {
      ghost var w := View();
      NoneDies(w, Deliver(i));
      assert Step(cfg, w, Deliver(i)) == Delivered(w, i) && Delivered(w, i).batch == w.batch - {i};
      hide View, Valid, After, NoneDead, Delivered;
      DeliverOne(i);
      Note(Deliver(i), w);
    }

    /** Second loop of the dispatcher: hand over the batch. */
    method DeliverPass(evs: seq<nat>)
      requires Good() && NoneDead(View()) && NoDup(evs) && forall i :: i in evs <==> i in View().batch
      modifies Repr
      ensures Good() && NoneDead(View()) && View().batch == {} && Repr == old(Repr) && old(trace) <= trace
    {
      hide Valid, View, After, KernelOk;
      TablesIn();
      var k := 0;
      while k < |evs|
        invariant k <= |evs| && Good() && NoneDead(View()) && Repr == old(Repr)
        invariant Tables() <= Repr && old(trace) <= trace
        invariant forall i :: i in evs[k..] <==> i in View().batch
      {
        assert evs[k] in evs[k..];
        assert forall i :: i in evs[k + 1..] <==> i in evs[k..] && i != evs[k];
        InBatch(evs[k]);
        Footprint(evs[k]);
        DeliverStep(evs[k]);
        Meanwhile();
        k := k + 1;
      }
    }

    lemma Turning(w: World, i: nat, io: Io)
      requires w == After(cfg, trace) && i < |w.conns| && w.batch == {} && CanRun(w, i, io) && (io.Room? ==> io.n > 0)
      ensures var w' := RunOne(cfg, w, i, io);
        && w' == Step(cfg, w, Run(i, io)) && w'.batch == {} && |w'.conns| == |w.conns|
        && w'.conns[i].state in {Runnable, WaitIo, WaitOff, Dead}
        && (w'.conns[i].state == Runnable ==> TurnsLeft(w'.conns[i].phase) < TurnsLeft(w.conns[i].phase))
        && forall j :: 0 <= j < |w.conns| && j != i ==> w'.conns[j] == w.conns[j]
    {
      Always(cfg, trace);
      assert InStep(cfg, w.conns[i]);
      hide Reply, Replies, Inv, After, Transform, SeqMask;
      TurnsDrop(cfg, w.conns[i], io);
    }

    method RunStep(i: nat, io: Io)
      requires Good() && i < nconns && View().batch == {} && CanRun(View(), i, io) && (io.Room? ==> io.n > 0)
      modifies this`trace, slots, armed, fibers[i], fibers[i].buf
      ensures Good() && View() == RunOne(cfg, old(View()), i, io) && trace == old(trace) + [Run(i, io)]
    {
      ghost var w := View();
      Turning(w, i, io);
      hide View, Valid, After, RunOne, TurnsLeft, Step, KernelOk;
      RunTurn(i, io);
      Note(Run(i, io), w);
    }

    /** Switch to fiber i: it runs until it parks for I/O, parks for the device, or ends. */
    method Resume(i: nat)
      requires Good() && i < nconns && View().batch == {} && View().conns[i].state == Runnable
      modifies this`now, this`dev, this`marks, this`moment, this`trace, slots, armed, fibers[i], fibers[i].buf
      ensures Good() && View().batch == {} && View().conns[i].state in {WaitIo, WaitOff, Dead}
      ensures forall j :: 0 <= j < nconns && j != i ==> View().conns[j] == old(View()).conns[j]
      ensures old(trace) < trace
    {
      hide Valid, View, After, Legal, TurnsLeft, RunOne, Advance;
      var c := Fetch(i);
      ghost var before := View();
      while c.state == Runnable
        invariant Good() && View().batch == {} && View().conns[i].state in {Runnable, WaitIo, WaitOff, Dead}
        invariant c == fibers[i] && c.View() == View().conns[i]
        invariant forall j :: 0 <= j < nconns && j != i ==> View().conns[j] == before.conns[j]
        invariant old(trace) <= trace && (View().conns[i].state != Runnable ==> old(trace) < trace)
        decreases if c.state == Runnable then TurnsLeft(View().conns[i].phase) + 1 else 0
      {
        var io := env.kernel(moment, c.phase);
        Turning(View(), i, io);
        RunStep(i, io);
        Meanwhile();
        SameFiber(i);
      }
    }

    lemma SameFiber(i: nat)
      requires Valid() && i < nconns
      ensures fibers[i].View() == View().conns[i]
    {
    }

    method RemoveStep(i: nat)
      requires Good() && i < nconns && View().batch == {} && View().conns[i].state == Dead
      modifies this`closed, this`trace, conns, armed, fibers[i]
      ensures Good() && View() == Removed(old(View()), i) && trace == old(trace) + [Remove(i)]
    {
      ghost var w := View();
      assert Step(cfg, w, Remove(i)) == Removed(w, i);
      hide View, Valid, After;
      RemoveOne(i);
      Note(Remove(i), w);
    }

    /** Third loop of the dispatcher, at connection i: run its fiber until it parks, and bury it if it died. */
    method RunOrBury(i: nat)
      requires Good() && View().batch == {} && i < nconns && View().conns[i].state != Dead
      modifies this`now, this`dev, this`marks, this`moment, this`closed, this`trace
      modifies slots, armed, conns, fibers[i], fibers[i].buf
      ensures Good() && View().batch == {} && View().conns[i].state in {WaitIo, WaitOff, Gone}
      ensures forall j :: 0 <= j < nconns && j != i ==> View().conns[j] == old(View()).conns[j]
      ensures old(trace) <= trace
    {
      hide Valid, View, After, KernelOk;
      var c := Fetch(i);
      if c != null && c.state == Runnable {
        Resume(i);
        SameFiber(i);
        if c.state == Dead {
          RemoveStep(i);
        }
      }
    }

    /** Third loop of the dispatcher. Afterwards every connection is parked or gone. */
    method RunPass()
      requires Good() && View().batch == {} && NoneDead(View())
      modifies Repr
      ensures Good() && AllParked(View()) && Repr == old(Repr) && old(trace) <= trace
    {
      hide Valid, View, After, KernelOk;
      TablesIn();
      for i := 0 to nconns
        invariant Good() && View().batch == {} && Repr == old(Repr) && nconns == old(nconns) && Tables() <= Repr
        invariant forall j :: 0 <= j < i ==> View().conns[j].state in {WaitIo, WaitOff, Gone}
        invariant forall j :: i <= j < nconns ==> View().conns[j].state != Dead
        invariant old(trace) <= trace
      {
        Footprint(i);
        RunOrBury(i);
      }
    }

    /** Everything after the first loop. */
    method RestOfPass()
      requires Good() && NoneDead(View()) && View().batch == {}
      modifies Repr
      ensures Good() && AllParked(View()) && fresh(Repr - old(Repr)) && old(trace) <= trace
    {
      hide Valid, View, After, KernelOk;
      TablesIn();
      var evs := EpollWait(env.ready(moment));
      AcceptPass();
      DeliverPass(evs);
      RunPass();
    }

    method Loops()
      requires Good() && AllParked(View())
      modifies Repr
      ensures Good() && AllParked(View()) && fresh(Repr - old(Repr)) && old(trace) <= trace
      ensures forall i: nat :: i < old(nconns) ==> Reap(i) in trace[|old(trace)|..]
    {
      hide Valid, View, After, KernelOk;
      TablesIn();
      Meanwhile();
      ghost var mid, n := trace, nconns;
      ReapPass();
      ghost var reaped := trace;
      RestOfPass();
      AllReaped(old(trace), mid, reaped, n);
    }

    /** One turn of the dispatcher loop, at the start of which time passes and the device acts. */
    method Pass()
      requires Good() && AllParked(View())
      modifies Repr
      ensures Good() && AllParked(View()) && fresh(Repr - old(Repr)) && old(trace) <= trace
      ensures PassDone(cfg, trace, |old(trace)|, |trace|)
    {
      ViewIs();
      hide Valid, View, After, KernelOk, PassDone, HadTurn, AllParked;
      ghost var was := trace;
      Loops();
      ViewIs();
      assert trace[..|was|] == was && trace[..|trace|] == trace && trace[|was|..|trace|] == trace[|was|..];
      PassIsDone(cfg, trace, |was|, |trace|);
    }

    method Passes(passes: nat) returns (ghost cuts: seq<nat>)
      requires Good() && AllParked(View()) && trace == []
      modifies Repr
      ensures Good() && AllParked(View()) && fresh(Repr - old(Repr))
      ensures |cuts| == passes + 1 && cuts[0] == 0 && cuts[passes] == |trace|
      ensures forall k :: 0 <= k < passes ==> PassDone(cfg, trace, cuts[k], cuts[k + 1])
    {
      hide Valid, View, After, KernelOk, PassDone, AllParked;
      cuts := [0];
      for p := 0 to passes
        invariant Good() && AllParked(View()) && fresh(Repr - old(Repr))
        invariant |cuts| == p + 1 && cuts[0] == 0 && cuts[p] == |trace|
        invariant forall n :: 0 <= n < p ==> PassDone(cfg, trace, cuts[n], cuts[n + 1])
      {
        ghost var was := trace;
        Pass();
        forall n | 0 <= n < p ensures PassDone(cfg, trace, cuts[n], cuts[n + 1]) {
          PassKept(cfg, was, trace, cuts[n], cuts[n + 1]);
        }
        cuts := cuts + [|trace|];
      }
    }

    lemma ViewIs()
      requires Good()
      ensures View() == After(cfg, trace) && |View().conns| == nconns
    {
    }

    lemma AllReaped(was: seq<Label>, mid: seq<Label>, reaped: seq<Label>, n: nat)
      requires was <= mid <= reaped <= trace && forall i: nat :: i < n ==> Reap(i) in reaped[|mid|..]
      ensures forall i: nat :: i < n ==> Reap(i) in trace[|was|..]
    {
      forall i: nat | i < n ensures Reap(i) in trace[|was|..] {
        var k :| 0 <= k < |reaped| - |mid| && reaped[|mid|..][k] == Reap(i);
        assert trace[|mid| + k] == Reap(i);
        assert trace[|was|..][|mid| + k - |was|] == Reap(i);
      }
    }
  }

  /** `run_coro`, for a given number of passes, with time and the device going on in between any two of its steps: after
      each pass every connection is parked and attended to, or gone, and the closed ones are those of which a call has
      returned end of stream or an error. Pass k takes the steps from `cuts[k]` to `cuts[k + 1]`. */
  method RunCoro(cfg: Config, passes: nat, env: Env) returns (server: Server, ghost cuts: seq<nat>)
    requires KernelOk(env)
    ensures fresh(server) && server.cfg == cfg && server.env == env && server.Good() && AllParked(server.View())
    ensures |cuts| == passes + 1 && cuts[0] == 0 && cuts[passes] == |server.trace|
    ensures forall k :: 0 <= k < passes ==> PassDone(cfg, server.trace, cuts[k], cuts[k + 1])
    ensures forall i: nat :: i in server.closed <==> TcoCalls.Failed(cfg, server.trace, i)
  {
    server := new Server(cfg, env);
    hide Server.Valid, After, KernelOk, PassDone, AllParked;
    cuts := server.Passes(passes);
    server.ViewIs();
    assert server.View().closed == server.closed;
    forall i: nat ensures i in server.closed <==> TcoCalls.Failed(cfg, server.trace, i) {
      TcoCalls.FailedAreClosed(cfg, server.trace, i);
    }
  }

  ghost function Where(phase: Phase, buf: seq<Byte>, seqno: Word, served: nat, inp: seq<Byte>, outp: seq<Byte>): Conn
  {
    Conn(Runnable, phase, In, buf, seqno, served, inp, outp)
  }

  lemma AtStart(cfg: Config, buf: seq<Byte>)
    requires |buf| == REQ
    ensures InStep(cfg, Where(Reading(0), buf, 0, 0, [], []))
  {
  }

  /** With the submission made and waited for, the result goes into the buffer. */
  lemma OffloadInStep(cfg: Config, c: Conn)
    requires InStep(cfg, c) && c.phase == Submitting(Filled)
    ensures |c.buf| == REQ && InStep(cfg, Transformed(cfg, c))
  {
    hide InStep, Transform, SeqMask;
    SubmittedInStep(cfg, c);
    AdvanceInStep(cfg, c.(phase := Offloading), Again);
    assert Advance(cfg, c.(phase := Offloading), Again) == Transformed(cfg, c);
  }

  lemma TransformedIs(cfg: Config, c: Conn)
    requires |c.buf| == REQ
    ensures Transformed(cfg, c) == c.(phase := Writing(0),
      seqno := if cfg.stateful then (c.seqno + 1) % WRAP else c.seqno,
      buf := if cfg.stateful then SeqMask(Transform(c.buf), c.seqno) else Transform(c.buf))
  {
    hide Transform, SeqMask;
  }

  lemma SubmittedInStep(cfg: Config, c: Conn)
    requires InStep(cfg, c) && c.phase == Submitting(Filled)
    ensures |c.buf| == REQ && InStep(cfg, c.(phase := Offloading))
  {
    hide Reply, Replies;
  }

  // ---------- Thread per connection ----------

  /** Where the handler is when it has read so many bytes and written so many: it writes as long as a whole request has
      not been answered. */
  function PhaseAt(got: nat, put: nat): Phase
  {
    if put < got / REQ * REQ then Writing(put % REQ) else Reading(got % REQ)
  }

  /** The call the handler is in gets somewhere: it delivers bytes that fit, or takes some. */
  predicate Progresses(phase: Phase, io: Io)
  {
    Legal(phase, io) && if phase.Reading? then io.Data? else io.Room? && io.n > 0
  }

  /** The bytes that these results have delivered, */
  function Received(script: seq<Io>): seq<Byte>
  {
    if |script| == 0 then []
    else
      var io := script[|script| - 1];
      Received(script[..|script| - 1]) + if io.Data? then io.bytes else []
  }

  /** and how many they have taken. */
  function Taken(script: seq<Io>): nat
  {
    if |script| == 0 then 0
    else
      var io := script[|script| - 1];
      Taken(script[..|script| - 1]) + if io.Room? then io.n else 0
  }

  /** The first k results all got somewhere, and this is what they delivered and how much they took. */
  ghost predicate Used(script: seq<Io>, k: nat, inp: seq<Byte>, put: nat)
  {
    && k <= |script| && inp == Received(script[..k]) && put == Taken(script[..k])
    && forall m: nat :: m < k ==> Progresses(PhaseAt(|Received(script[..m])|, Taken(script[..m])), script[m])
  }

  lemma UsesOne(script: seq<Io>, k: nat, inp: seq<Byte>, put: nat)
    requires Used(script, k, inp, put) && k < |script| && Progresses(PhaseAt(|inp|, put), script[k])
    ensures Used(script, k + 1, if script[k].Data? then inp + script[k].bytes else inp,
                 if script[k].Room? then put + script[k].n else put)
  {
    assert inp + [] == inp;
    assert script[..k + 1][..k] == script[..k];
  }

  /** The blocking read loop: fill the buffer, or stop early (`ok` false). */
  method BlockRead(cfg: Config, buf: array<Byte>, script: seq<Io>, k0: nat, inp0: seq<Byte>, ghost c0: Conn)
    returns (ok: bool, k: nat, inp: seq<Byte>, ghost c: Conn)
    requires buf.Length == REQ && k0 <= |script|
    requires c0 == Where(Reading(0), buf[..], c0.seqno, c0.served, inp0, c0.outp) && InStep(cfg, c0)
    requires |inp0| == |c0.outp| == c0.served * REQ && Used(script, k0, inp0, |c0.outp|)
    modifies buf
    ensures Used(script, k, inp, |c0.outp|) && (ok ==> |inp| == (c0.served + 1) * REQ)
    ensures !ok ==> k == |script| || !Progresses(PhaseAt(|inp|, |c0.outp|), script[k])
    ensures k <= |script| && (ok ==> k0 < k && c.phase == Submitting(Filled))
    ensures c == Where(c.phase, buf[..], c0.seqno, c0.served, inp, c0.outp) && InStep(cfg, c)
  {
    hide InStep, Used;
    var got := 0;
    k, inp, c := k0, inp0, c0;
    while got < REQ
      invariant got <= REQ && k0 <= k <= |script| && (got > 0 ==> k0 < k)
      invariant c == Where(if got < REQ then Reading(got) else Submitting(Filled), buf[..],
                           c0.seqno, c0.served, inp, c0.outp)
      invariant InStep(cfg, c) && Used(script, k, inp, |c0.outp|) && |inp| == c0.served * REQ + got
    {
      assert PhaseAt(|inp|, |c0.outp|) == Reading(got);
      if k == |script| || !script[k].Data? || !Legal(Reading(got), script[k]) {
        return false, k, inp, c;
      }
      var bytes := script[k].bytes;
      ReadInStep(cfg, c, script[k]);
      forall j | 0 <= j < |bytes| {
        buf[got + j] := bytes[j];
      }
      assert buf[..] == c.buf[..got] + bytes + c.buf[got + |bytes|..];
      c := ReadTurn(c, script[k]);
      UsesOne(script, k, inp, |c0.outp|);
      inp := inp + bytes;
      got, k := got + |bytes|, k + 1;
    }
    ok := true;
  }

  /** The blocking write loop: send the whole buffer, or stop early (`ok` false). */
  method BlockWrite(cfg: Config, buf: array<Byte>, script: seq<Io>, k0: nat, outp0: seq<Byte>, ghost c0: Conn)
    returns (ok: bool, k: nat, outp: seq<Byte>, ghost c: Conn)
    requires buf.Length == REQ && k0 <= |script|
    requires c0 == Where(Writing(0), buf[..], c0.seqno, c0.served, c0.inp, outp0) && InStep(cfg, c0)
    requires |outp0| == c0.served * REQ && |c0.inp| == (c0.served + 1) * REQ && Used(script, k0, c0.inp, |outp0|)
    ensures Used(script, k, c0.inp, |outp|) && |outp| / REQ == c.served && (ok ==> |outp| == c.served * REQ)
    ensures !ok ==> k == |script| || !Progresses(PhaseAt(|c0.inp|, |outp|), script[k])
    ensures k0 <= k <= |script| && (ok ==> c.phase == Reading(0) && c.served == c0.served + 1)
    ensures c == Where(c.phase, buf[..], c0.seqno, c.served, c0.inp, outp) && InStep(cfg, c)
    ensures !ok ==> c.served == c0.served
  {
    hide InStep, Used;
    var put := 0;
    k, outp, c := k0, outp0, c0;
    while put < REQ
      invariant put <= REQ && k0 <= k <= |script|
      invariant c == Where(if put < REQ then Writing(put) else Reading(0), buf[..], c0.seqno,
                           if put < REQ then c0.served else c0.served + 1, c0.inp, outp)
      invariant InStep(cfg, c) && Used(script, k, c0.inp, |outp|) && |outp| == c0.served * REQ + put
    {
      assert PhaseAt(|c0.inp|, |outp|) == Writing(put);
      if k == |script| || !script[k].Room? || script[k].n == 0 || !Legal(Writing(put), script[k]) {
        return false, k, outp, c;
      }
      WriteInStep(cfg, c, script[k]);
      c := WriteTurn(c, script[k]);
      UsesOne(script, k, c0.inp, |outp|);
      outp := outp + buf[put..put + script[k].n];
      put, k := put + script[k].n, k + 1;
    }
    ok := true;
  }

  /** The offload between the two loops. */
  method BlockOffload(cfg: Config, buf: array<Byte>, seqno0: Word, ghost c0: Conn) returns (seqno: Word, ghost c: Conn)
    requires buf.Length == REQ && c0.phase == Submitting(Filled)
    requires c0 == Where(c0.phase, buf[..], seqno0, c0.served, c0.inp, c0.outp) && InStep(cfg, c0)
    modifies buf
    ensures c == Where(Writing(0), buf[..], seqno, c0.served, c0.inp, c0.outp) && InStep(cfg, c)
  {
    hide InStep, Transform, SeqMask, Transformed;
    OffloadInStep(cfg, c0);
    TransformedIs(cfg, c0);
    seqno := ApplyOffload(cfg, buf, seqno0);
    c := Transformed(cfg, c0);
  }

  /** One round of the thread-per-connection handler: read a request, offload it, write the reply (`ok` if all went). */
  method BlockRound(cfg: Config, buf: array<Byte>, seqno0: Word, script: seq<Io>, k0: nat, inp0: seq<Byte>,
                    outp0: seq<Byte>, ghost c0: Conn)
    returns (ok: bool, seqno: Word, k: nat, inp: seq<Byte>, outp: seq<Byte>, ghost c: Conn)
    requires buf.Length == REQ && k0 <= |script|
    requires c0 == Where(Reading(0), buf[..], seqno0, c0.served, inp0, outp0) && InStep(cfg, c0)
    requires |inp0| == |outp0| == c0.served * REQ && Used(script, k0, inp0, |outp0|)
    modifies buf
    ensures Used(script, k, inp, |outp|) && |outp| / REQ == c.served && (ok ==> |inp| == |outp| == c.served * REQ)
    ensures !ok ==> k == |script| || !Progresses(PhaseAt(|inp|, |outp|), script[k])
    ensures k <= |script| && (ok ==> k0 < k && c.phase == Reading(0))
    ensures c == Where(c.phase, buf[..], seqno, if ok then c0.served + 1 else c0.served, inp, outp) && InStep(cfg, c)
  {
    hide InStep, Reply, Replies, Transform, SeqMask, Transformed, Used, Progresses, PhaseAt;
    seqno, outp := seqno0, outp0;
    ok, k, inp, c := BlockRead(cfg, buf, script, k0, inp0, c0);
    if ok {
      seqno, c := BlockOffload(cfg, buf, seqno, c);
      ok, k, outp, c := BlockWrite(cfg, buf, script, k, outp, c);
    }
  }

  /** The thread-per-connection handler, on the results `script` of its blocking calls: anything but progress ends it.
      Its meaning is the one that the coroutines are held to. */
  method BlockConn(cfg: Config, script: seq<Io>)
    returns (k: nat, inp: seq<Byte>, outp: seq<Byte>, served: nat)
    ensures Used(script, k, inp, |outp|)
    ensures k == |script| || !Progresses(PhaseAt(|inp|, |outp|), script[k])
    ensures outp <= Replies(cfg, inp, |inp| / REQ)
    ensures served == |outp| / REQ <= |inp| / REQ <= served + 1
  {
    assert script[..0] == [];
    hide InStep, Reply, Replies, Progresses, PhaseAt;
    var buf := new Byte[REQ](_ => 0);
    var seqno: Word := 0;
    k, inp, outp, served := 0, [], [], 0;
    AtStart(cfg, buf[..]);
    ghost var c := Where(Reading(0), buf[..], seqno, served, inp, outp);
    var ok := true;
    while ok
      invariant Used(script, k, inp, |outp|) && served == |outp| / REQ && (ok ==> |inp| == |outp| == served * REQ)
      invariant ok || k == |script| || !Progresses(PhaseAt(|inp|, |outp|), script[k])
      invariant k <= |script| && buf.Length == REQ && (ok ==> c.phase == Reading(0))
      invariant c == Where(c.phase, buf[..], seqno, served, inp, outp) && InStep(cfg, c)
      decreases ok, |script| - k
    {
      ok, seqno, k, inp, outp, c := BlockRound(cfg, buf, seqno, script, k, inp, outp, c);
      if ok {
        served := served + 1;
      }
    }
    InStepMeaning(cfg, c);
  }
}
