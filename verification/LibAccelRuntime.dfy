/** The accelerator library's program: the slot table, the submission calls, the device loop and the blocking call. */
module LibAccelRuntime {
  import opened LibAccel

  class Library {
    const cfg: Config
    const slots: array<Slot>
    /** The callers' buffers. */
    const mem: array<Bytes>
    var subHead: nat
    var dev: Dev
    var now: nat
    ghost var subs: seq<Sub>
    ghost var last: seq<int>
    ghost var trace: seq<Label>

    ghost function View(): State
      reads this, slots, mem
    {
      State(slots[..], mem[..], subs, last, dev, now)
    }

    ghost predicate Valid()
      reads this, slots, mem
    {
      cfg.nslot > 0 && slots.Length == cfg.nslot && mem.Length == cfg.nbuf && subHead == |subs|
      && View() == After(cfg, trace)
    }

    twostate predicate Took(l: Label)
      requires old(Valid())
      reads this, slots, mem
    {
      Valid() && trace == old(trace) + [l] && View() == Step(cfg, old(View()), l)
    }

    constructor (cfg: Config)
      requires cfg.nslot > 0
      ensures Valid() && trace == [] && this.cfg == cfg && fresh(slots) && fresh(mem)
    {
      this.cfg := cfg;
      slots := new Slot[cfg.nslot](_ => Slot(0, 0, 0, false, false));
      mem := new Bytes[cfg.nbuf](_ => []);
      subHead, dev, now, subs, last, trace := 0, Dev(0, 0, Look), 0, [], seq(cfg.nslot, _ => -1), [];
      new;
      assert View() == Init(cfg);
    }

    ghost method Note(l: Label, before: State)
      requires cfg.nslot > 0 && before == After(cfg, trace) && View() == Step(cfg, before, l)
      requires slots.Length == cfg.nslot && mem.Length == cfg.nbuf && subHead == |subs|
      modifies this`trace
      ensures Valid() && trace == old(trace) + [l]
    {
      trace := trace + [l];
      assert trace[..|trace| - 1] == old(trace);
    }

    method Pass(d: nat)
      requires Valid()
      modifies this`now, this`trace
      ensures Took(Tick(d)) && now == old(now) + d
    {
      ghost var before := View();
      now := now + d;
      Note(Tick(d), before);
    }

    /** The fetch-and-add on `sub_head`. */
    method DrawId(b: nat, n: nat) returns (id: nat)
      requires Valid() && MayFetch(cfg, View(), b)
      modifies this`subHead, this`subs, this`last, this`trace
      ensures Took(Fetch(b, n)) && id == |old(subs)| && subs == old(subs) + [Sub(Fetched, b, n, mem[b], 0)]
    {
      ghost var before := View();
      id := subHead;
      last := last[SlotOf(cfg, id) := id];
      subs := subs + [Sub(Fetched, b, n, mem[b], 0)];
      subHead := subHead + 1;
      Note(Fetch(b, n), before);
    }

    /** One field write of a submission. */
    method WriteField(id: nat, d: Slot)
      requires Valid() && id < |subs| && !subs[id].stage.Released? && !subs[id].stage.Armed?
      requires d == HostSlot(cfg, subs[id], slots[SlotOf(cfg, id)], now)
      modifies this`subs, this`trace, slots
      ensures Took(Host(id)) && subs == old(subs)[id := old(subs[id]).(stage := HostStage(old(subs[id]), false))]
      ensures Valid() && trace == old(trace) + [Host(id)] && slots[SlotOf(cfg, id)] == d
    {
      ghost var before := View();
      slots[SlotOf(cfg, id)] := d;
      subs := subs[id := subs[id].(stage := HostStage(subs[id], false))];
      Note(Host(id), before);
    }

    /** The writes of `buf`, `n` and `done`. */
    method FillSlot(id: nat, b: nat, n: nat)
      requires Valid() && id < |subs| && subs[id].stage.Fetched? && subs[id].buf == b && subs[id].n == n
      modifies this`subs, this`trace, slots
      ensures Valid() && trace == old(trace) + [Host(id), Host(id), Host(id)]
      ensures subs == old(subs)[id := old(subs[id]).(stage := Cleared)]
      ensures var d := slots[SlotOf(cfg, id)];
        d.buf == b && d.n == n && !d.done && d.busy == old(slots[SlotOf(cfg, id)].busy)
    {
      var i := SlotOf(cfg, id);
      assert i < slots.Length;
      hide Step, SlotOf, Valid, Took, View;
      WriteField(id, slots[i].(buf := b));
      WriteField(id, slots[i].(n := n));
      WriteField(id, slots[i].(done := false));
    }

    /** `accel_submit`. */
    method AccelSubmit(b: nat, n: nat) returns (id: nat)
      requires Valid() && MayFetch(cfg, View(), b)
      modifies this`subHead, this`subs, this`last, this`trace, slots
      ensures Valid() && trace == old(trace) + [Fetch(b, n)] + [Host(id), Host(id), Host(id)] + [Host(id), Host(id)]
      ensures id == |old(subs)| && subs == old(subs) + [Sub(Armed, b, n, mem[b], 0)]
      ensures slots[SlotOf(cfg, id)] == Slot(b, n, now + cfg.latency, true, false)
    {
      id := DrawId(b, n);
      var i := SlotOf(cfg, id);
      assert i < slots.Length && Valid() && trace == old(trace) + [Fetch(b, n)];
      hide Step, SlotOf, Valid, Took, View, MayFetch;
      FillSlot(id, b, n);
      WriteField(id, slots[i].(deadline := now + cfg.latency));
      WriteField(id, slots[i].(busy := true));
    }

    /** `accel_done`: when it answers true, the caller's buffer holds the transform of what was submitted. */
    method AccelDone(id: nat) returns (done: bool)
      requires Valid() && id < |subs| && subs[id].stage.Armed?
      modifies this`subs, this`trace
      ensures Took(Host(id)) && done == slots[SlotOf(cfg, id)].done
      ensures subs == old(subs)[id := old(subs[id]).(stage := if done then Seen else Armed)]
      ensures done ==>
        subs[id].applied == 1 && subs[id].buf < mem.Length && mem[subs[id].buf] == cfg.op(subs[id].input, subs[id].n)
    {
      ghost var before := View();
      DoneMeansFinished(cfg, trace, id);
      done := slots[SlotOf(cfg, id)].done;
      subs := subs[id := subs[id].(stage := if done then Seen else Armed)];
      Note(Host(id), before);
    }

    /** `accel_release`. */
    method AccelRelease(id: nat)
      requires Valid() && id < |subs| && subs[id].stage.Seen?
      modifies this`subs, this`trace, slots
      ensures Took(Host(id)) && subs == old(subs)[id := old(subs[id]).(stage := Released)]
    {
      var i := SlotOf(cfg, id);
      WriteField(id, slots[i].(busy := false));
    }

    /** The device's side: it only ever sets `done`, and submissions keep what their callers gave them. */
    twostate predicate DeviceOnly()
      reads this, slots
    {
      && old(trace) <= trace && |subs| == |old(subs)|
      && (forall k :: 0 <= k < slots.Length ==>
          slots[k] == old(slots[k]).(done := slots[k].done) && (old(slots[k]).done ==> slots[k].done))
      && (forall k :: 0 <= k < |subs| ==> subs[k] == old(subs[k]).(applied := subs[k].applied))
    }

    function NextDev(): Dev
      reads this, slots
    {
      if dev.i + 1 < slots.Length then Dev(dev.i + 1, dev.t, Look) else Dev(0, now, Look)
    }

    /** The device reads `busy`, `done` or `deadline` of its slot, and goes on there or leaves it. */
    method Peek()
      requires Valid() && dev.i < slots.Length && (dev.phase.Look? || dev.phase.SawBusy? || dev.phase.NotDone?)
      modifies this`dev, this`trace
      ensures Took(Device) && old(trace) <= trace
      ensures var d := slots[old(dev.i)];
        dev == match old(dev.phase)
          case Look => if d.busy then old(dev).(phase := SawBusy) else old(NextDev())
          case SawBusy => if !d.done then old(dev).(phase := NotDone) else old(NextDev())
          case _ => if old(dev.t) >= d.deadline then old(dev).(phase := Act) else old(NextDev())
    {
      ghost var before := View();
      var d := slots[dev.i];
      var on := if dev.phase.Look? then d.busy else if dev.phase.SawBusy? then !d.done else dev.t >= d.deadline;
      if on {
        dev := dev.(phase := if dev.phase.Look? then SawBusy else if dev.phase.SawBusy? then NotDone else Act);
      } else {
        dev := NextDev();
      }
      Note(Device, before);
    }

    /** The device transforms the buffer its slot names. */
    method Transform()
      requires Valid() && dev.i < slots.Length && dev.phase.Act?
      modifies this`dev, this`subs, this`trace, mem
      ensures Took(Device) && DeviceOnly() && dev == old(dev).(phase := Mark)
    {
      ghost var before := View();
      var d := slots[dev.i];
      ActsOnWrittenSlots(cfg, trace);
      mem[d.buf] := cfg.op(mem[d.buf], d.n);
      ghost var id := last[dev.i];
      subs := subs[id := subs[id].(applied := subs[id].applied + 1)];
      dev := dev.(phase := Mark);
      Note(Device, before);
    }

    /** The device sets `done` and leaves. */
    method MarkDone()
      requires Valid() && dev.i < slots.Length && dev.phase.Mark?
      modifies this`dev, this`trace, slots
      ensures Took(Device) && DeviceOnly() && dev == old(NextDev()) && slots[old(dev.i)].done
    {
      ghost var before := View();
      slots[dev.i] := slots[dev.i].(done := true);
      dev := NextDev();
      Note(Device, before);
    }

    predicate Due(d: Slot, t: nat)
    {
      d.busy && !d.done && t >= d.deadline
    }

    /** The device loop's body at one slot. */
    method DeviceAt()
      requires Valid() && dev.phase.Look? && dev.i < slots.Length
      modifies this`dev, this`subs, this`trace, slots, mem
      ensures Valid() && DeviceOnly() && (Due(old(slots[dev.i]), old(dev.t)) ==> slots[old(dev.i)].done)
      ensures dev == old(NextDev())
    {
      hide Valid, View, Step;
      Peek();
      if dev.phase.SawBusy? {
        Peek();
        if dev.phase.NotDone? {
          Peek();
          if dev.phase.Act? {
            Transform();
            MarkDone();
          }
        }
      }
    }

    /** One sweep of the device loop with the clock reading it started with: every due slot is done at the end. */
    method Sweep()
      requires Valid() && dev == Dev(0, dev.t, Look)
      modifies this`dev, this`subs, this`trace, slots, mem
      ensures Valid() && DeviceOnly() && dev == Dev(0, now, Look)
      ensures forall k :: 0 <= k < slots.Length && Due(old(slots[k]), old(dev.t)) ==> slots[k].done
    {
      var i := 0;
      while i < slots.Length
        invariant 0 <= i <= slots.Length && Valid() && DeviceOnly()
        invariant dev == if i < slots.Length then Dev(i, old(dev.t), Look) else Dev(0, now, Look)
        invariant forall k :: 0 <= k < i && Due(old(slots[k]), old(dev.t)) ==> slots[k].done
      {
        hide Valid;
        DeviceAt();
        i := i + 1;
      }
    }

    /** Submission `id` of buffer b, whose contents were x, is with the device, or seen to be done. */
    ghost predicate Pending(id: nat, b: nat, n: nat, x: Bytes, deadline: nat, done: bool)
      reads this, slots, mem
    {
      && Valid() && dev == Dev(0, dev.t, Look) && dev.t <= now && id + 1 == |subs|
      && subs[id] == Sub(if done then Seen else Armed, b, n, x, subs[id].applied)
      && slots[SlotOf(cfg, id)] == Slot(b, n, deadline, true, slots[SlotOf(cfg, id)].done)
      && (done ==> subs[id].applied == 1 && b < mem.Length && mem[b] == cfg.op(x, n))
    }

    /** One look of the waiting caller. */
    method Ask(id: nat, ghost b: nat, ghost n: nat, ghost x: Bytes, ghost deadline: nat) returns (done: bool)
      requires Pending(id, b, n, x, deadline, false)
      modifies this`subs, this`trace
      ensures Pending(id, b, n, x, deadline, done) && old(trace) <= trace
      ensures slots[SlotOf(cfg, id)].done ==> done
    {
      done := AccelDone(id);
      hide Step, View;
    }

    /** The device while the caller sleeps. */
    method Sleep(ghost id: nat, ghost b: nat, ghost n: nat, ghost x: Bytes, ghost deadline: nat)
      requires Pending(id, b, n, x, deadline, false)
      modifies this`now, this`dev, this`subs, this`trace, slots, mem
      ensures Pending(id, b, n, x, deadline, false) && old(trace) <= trace
      ensures old(dev.t) >= deadline ==> slots[SlotOf(cfg, id)].done
      ensures dev.t == old(now) + 1000
    {
      Pass(1000);
      hide Step, View;
      Sweep();
    }

    /** `accel_encrypt`: submit, sleep until done, release. It returns once a sweep has begun after the deadline. */
    method AccelEncrypt(b: nat, n: nat)
      requires Valid() && MayFetch(cfg, View(), b) && dev == Dev(0, dev.t, Look)
      modifies this, slots, mem
      ensures Valid() && old(trace) <= trace && dev == Dev(0, dev.t, Look)
      ensures |subs| == |old(subs)| + 1 && subs[|old(subs)|].stage.Released? && subs[|old(subs)|].applied == 1
      ensures b < mem.Length && mem[b] == cfg.op(old(mem[b]), n)
    {
      var id := AccelSubmit(b, n);
      ghost var x, deadline := old(mem[b]), now + cfg.latency;
      var done := Ask(id, b, n, x, deadline);
      hide Step, View, SlotOf;
      while !done
        invariant Pending(id, b, n, x, deadline, done) && old(trace) <= trace
        decreases if done then 0 else 1, deadline - dev.t
      {
        Sleep(id, b, n, x, deadline);
        done := Ask(id, b, n, x, deadline);
      }
      AccelRelease(id);
    }
  }
}
