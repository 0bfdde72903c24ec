/** The program: the hostile server's handlers running under the preload runtime's `read`, `write` and offload. */
module HostileServer {
  import opened HandlerLock

  class Server {
    const cfg: Config
    const conns: array<Pc>
    var cur: int
    var hlockOwner: int
    var lk: bool
    var shared: int
    var total: int
    /** The steps taken so far. */
    ghost var trace: seq<Label>

    ghost function View(): State
      reads this, conns
    {
      State(conns[..], cur, hlockOwner, lk, shared, total)
    }

    ghost predicate Valid()
      reads this, conns
    {
      cfg.req > 0 && conns.Length == cfg.nconn && View() == Exec(cfg, Init(cfg), trace)
    }

    /** What one step leaves behind. */
    twostate predicate Took(l: Label)
      reads this, conns
    {
      Valid() && trace == old(trace) + [l] && View() == Step(cfg, old(View()), l)
    }

    constructor (cfg: Config)
      requires cfg.req > 0
      ensures Valid() && trace == [] && this.cfg == cfg && fresh(conns)
    {
      this.cfg := cfg;
      conns := new Pc[cfg.nconn](_ => Read(0));
      cur, hlockOwner, lk, shared, total, trace := -1, -1, false, 0, 0, [];
      new;
      assert conns[..] == Init(cfg).conns;
    }

    ghost method Note(l: Label, before: State)
      requires cfg.req > 0 && conns.Length == cfg.nconn
      requires before == Exec(cfg, Init(cfg), trace) && View() == Step(cfg, before, l)
      modifies this`trace
      ensures Valid() && trace == old(trace) + [l]
    {
      Then(cfg, trace, l);
      trace := trace + [l];
    }

    method GoTo(pc: Pc, parks: bool)
      requires 0 <= cur < conns.Length
      modifies this`cur, conns
      ensures View() == At(old(View()), old(cur), pc, parks)
    {
      conns[cur] := pc;
      if parks {
        cur := -1;
      }
    }

    /** `read` up to `real_read`: one turn of the loop in `hl_acquire`. */
    method ReadCall(ghost r: Io)
      requires Valid() && 0 <= cur < conns.Length && conns[cur].Read?
      modifies this`cur, this`hlockOwner, this`trace, conns
      ensures Took(Go(r))
      ensures if cfg.enforce && old(hlockOwner) != -1 && old(hlockOwner) != old(cur)
        then cur == -1 && hlockOwner == old(hlockOwner) && conns[old(cur)] == Spin(old(conns[cur].g))
        else conns[cur] == Recv(old(conns[cur].g)) && hlockOwner == if cfg.enforce then cur else old(hlockOwner)
    {
      ghost var before := View();
      var g, f := conns[cur].g, cur;
      if cfg.enforce && hlockOwner != f {
        if hlockOwner != -1 && hlockOwner != f {
          GoTo(Spin(g), true);
        } else {
          hlockOwner := f;
          GoTo(Recv(g), false);
        }
      } else {
        GoTo(Recv(g), false);
      }
      Note(Go(r), before);
    }

    /** `real_read` and what `read` and the handler do with its result. */
    method RealRead(r: Io)
      requires Valid() && 0 <= cur < conns.Length && conns[cur].Recv?
      modifies this`cur, this`trace, conns
      ensures Took(Go(r))
    {
      ghost var before := View();
      var g := conns[cur].g;
      match r {
        case Again => GoTo(RecvWait(g), true);
        case Fail => GoTo(Gone, true);
        case Got(n) =>
          if 0 < n && g + n <= cfg.req {
            GoTo(if g + n < cfg.req then Read(g + n) else Enter, false);
          }
      }
      Note(Go(r), before);
    }

    /** The handler's lock, its read of the counter, and the park in `accel_encrypt`. */
    method BeginUpdate(ghost r: Io)
      requires Valid() && 0 <= cur < conns.Length && conns[cur].Enter?
      modifies this`cur, this`lk, this`trace, conns
      ensures Took(Go(r)) && cur == -1
      ensures conns[old(cur)] == if cfg.locked && old(lk) then MutexWait else Encrypt(shared)
      ensures lk <==> cfg.locked || old(lk)
    {
      ghost var before := View();
      if cfg.locked && lk {
        GoTo(MutexWait, true);
      } else {
        if cfg.locked {
          lk := true;
        }
        GoTo(Encrypt(shared), true);
      }
      Note(Go(r), before);
    }

    /** After the offload: write the counter back and count the request. */
    method FinishUpdate(ghost r: Io)
      requires Valid() && 0 <= cur < conns.Length && conns[cur].Encrypt?
      modifies this`cur, this`lk, this`shared, this`total, this`trace, conns
      ensures Took(Go(r))
      ensures shared == old(conns[cur].v) + 1 && total == old(total) + 1 && (lk <==> old(lk) && !cfg.locked)
    {
      ghost var before := View();
      shared := conns[cur].v + 1;
      if cfg.locked {
        lk := false;
      }
      total := total + 1;
      GoTo(Send(0), false);
      Note(Go(r), before);
    }

    /** `write` up to `real_write`: `hl_release`. */
    method WriteCall(ghost r: Io)
      requires Valid() && 0 <= cur < conns.Length && conns[cur].Send?
      modifies this`cur, this`hlockOwner, this`trace, conns
      ensures Took(Go(r)) && cur == old(cur) && conns[cur] == Write(old(conns[cur].p))
      ensures hlockOwner == if cfg.enforce && old(hlockOwner) == cur then -1 else old(hlockOwner)
    {
      ghost var before := View();
      if cfg.enforce && hlockOwner == cur {
        hlockOwner := -1;
      }
      GoTo(Write(conns[cur].p), false);
      Note(Go(r), before);
    }

    /** `real_write` and what `write` and the handler do with its result. */
    method RealWrite(r: Io)
      requires Valid() && 0 <= cur < conns.Length && conns[cur].Write?
      modifies this`cur, this`trace, conns
      ensures Took(Go(r))
    {
      ghost var before := View();
      var p := conns[cur].p;
      match r {
        case Again => GoTo(WriteWait(p), true);
        case Fail => GoTo(Gone, true);
        case Got(n) =>
          if 0 < n && p + n <= cfg.req {
            GoTo(if p + n < cfg.req then Send(p + n) else Read(0), false);
          }
      }
      Note(Go(r), before);
    }

    /** Switch to handler f. */
    method Switch(f: nat)
      requires Valid() && cur == -1 && f < conns.Length && !conns[f].Gone?
      modifies this`cur, this`trace, conns
      ensures Took(Resume(f)) && cur == f
    {
      ghost var before := View();
      conns[f] := match conns[f]
        case Spin(g) => Read(g)
        case RecvWait(g) => Recv(g)
        case MutexWait => Enter
        case WriteWait(p) => Write(p)
        case pc => pc;
      cur := f;
      Note(Resume(f), before);
    }

    /** Calls left before the running handler makes a system call or parks. */
    ghost function Rank(): nat
      reads this, conns
    {
      if !(0 <= cur < conns.Length) then 0 else
      match conns[cur]
      case Encrypt(v) => 4
      case Send(p) => 3
      case Read(g) => 3
      case _ => 2
    }

    method Call(r: Io) returns (used: bool)
      requires Valid() && 0 <= cur < conns.Length && Awake(conns[cur])
      modifies this`cur, this`hlockOwner, this`lk, this`shared, this`total, this`trace, conns
      ensures Took(Go(r)) && (!used || r.Again? ==> Rank() < old(Rank()))
      ensures cur == -1 || (cur == old(cur) && Awake(conns[cur]))
    {
      used := conns[cur].Recv? || conns[cur].Write?;
      var pc := conns[cur];
      if pc.Read? {
        ReadCall(r);
      } else if pc.Recv? {
        RealRead(r);
      } else if pc.Enter? {
        BeginUpdate(r);
      } else if pc.Encrypt? {
        FinishUpdate(r);
      } else if pc.Send? {
        WriteCall(r);
      } else {
        RealWrite(r);
      }
    }

    predicate Awake(pc: Pc)
    {
      !pc.Spin? && !pc.RecvWait? && !pc.MutexWait? && !pc.WriteWait? && !pc.Gone?
    }

    /** Run handler f to its next yield; `io` are the results of its system calls, which block when those are used up.
        A guarded server has lost nothing at the yield. */
    method Run(f: nat, io: seq<Io>)
      requires Valid() && cur == -1 && f < conns.Length && !conns[f].Gone?
      modifies this`cur, this`hlockOwner, this`lk, this`shared, this`total, this`trace, conns
      ensures Valid() && cur == -1 && old(trace) + [Resume(f)] <= trace
      ensures forall k :: |old(trace)| < k < |trace| ==> trace[k].Go?
      ensures Guarded(cfg) ==> shared == total
    {
      Switch(f);
      var i := 0;
      while cur != -1
        invariant Valid() && (cur == -1 || (cur == f && Awake(conns[f]))) && 0 <= i <= |io|
        invariant old(trace) + [Resume(f)] <= trace && forall k :: |old(trace)| < k < |trace| ==> trace[k].Go?
        decreases |io| - i, Rank()
      {
        var used := Call(if i < |io| then io[i] else Again);
        if used && i < |io| {
          i := i + 1;
        }
      }
      if Guarded(cfg) {
        GuardedLosesNothing(cfg, trace, 0, 0);
      }
    }
  }
}
