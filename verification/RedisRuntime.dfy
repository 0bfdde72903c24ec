/** The detector's and the Redis module's programs: version and protection tables, counters, gates with their rings of
    waiting jobs, and the worker queue. */
module RedisRuntime {
  import opened Distinct
  import opened RedisGates
  import opened RedisModule
  import opened Rings
  import opened Sums
  import opened VersionClock

  class Detector {
    const pver: array<nat>
    const writable: array<bool>
    var gclk: nat
    var conflicts: nat
    var faults: nat

    ghost function View(): Det
      reads this, pver, writable
    {
      Det(gclk, pver[..], writable[..], conflicts, faults)
    }

    constructor (maxpg: nat, pages: nat)
      ensures View() == Det(0, seq(maxpg, _ => 0), seq(pages, _ => false), 0, 0) && fresh(pver) && fresh(writable)
    {
      pver := new nat[maxpg](_ => 0);
      writable := new bool[pages](_ => false);
      gclk, conflicts, faults := 0, 0, 0;
    }

    /** `protect_regions(PROT_READ)`. */
    method Protect()
      modifies writable
      ensures View() == Protected(old(View()))
    {
      for i := 0 to writable.Length
        invariant forall n :: 0 <= n < i ==> !writable[n]
        invariant pver[..] == old(pver[..])
      {
        writable[i] := false;
      }
      assert writable[..] == seq(|old(writable[..])|, _ => false);
    }

    /** A store to page p by the current fiber: the fault handler runs if the page is protected. */
    method Store(p: nat, active: bool, park: nat)
      requires p < writable.Length
      modifies this, pver, writable
      ensures View() == Stored(old(View()), p, active, park)
      ensures old(writable[p]) ==> View() == old(View())
      ensures !old(writable[p]) ==> faults == old(faults) + 1 && writable[..] == old(writable[..])[p := true]
      ensures !old(writable[p]) && p < pver.Length ==>
        && gclk == old(gclk) + 1 && pver[..] == old(pver[..])[p := gclk]
        && conflicts == old(conflicts) + if active && old(pver[..])[p] > park then 1 else 0
      ensures !old(writable[p]) && p >= pver.Length ==>
        gclk == old(gclk) && pver[..] == old(pver[..]) && conflicts == old(conflicts)
    {
      if !writable[p] {
        if p < pver.Length {
          if active && pver[p] > park {
            conflicts := conflicts + 1;
          }
          gclk := gclk + 1;
          pver[p] := gclk;
        }
        faults := faults + 1;
        writable[p] := true;
      }
    }
  }

  /** `pend`, `ph` and `pt`: a ring of waiting jobs for each gate. */
  class Gates {
    const cells: array2<nat>
    const ph: array<nat>
    const pt: array<nat>

    ghost predicate Valid()
      reads this, ph, pt
    {
      && cells.Length0 == ph.Length == pt.Length && cells.Length1 > 0 && ph != pt
      && forall g :: 0 <= g < ph.Length ==> pt[g] <= ph[g] <= pt[g] + cells.Length1
    }

    function Cell(k: nat): (c: nat)
      requires cells.Length1 > 0
      ensures c < cells.Length1
    {
      k % cells.Length1
    }

    /** The jobs waiting at gate g, oldest first. */
    ghost function Waiting(g: nat): (s: seq<nat>)
      requires Valid() && g < ph.Length
      reads this, ph, pt, cells
      ensures |s| == ph[g] - pt[g]
    {
      seq<nat>(ph[g] - pt[g],
        n requires 0 <= n < ph[g] - pt[g] && Valid() reads this, ph, pt, cells => cells[g, Cell(pt[g] + n)])
    }

    ghost function View(): (s: seq<seq<nat>>)
      requires Valid()
      reads this, ph, pt, cells
      ensures |s| == ph.Length && forall g :: 0 <= g < ph.Length ==> s[g] == Waiting(g)
    {
      seq(ph.Length, g requires 0 <= g < ph.Length && Valid() reads this, ph, pt, cells => Waiting(g))
    }

    constructor (gates: nat, cap: nat)
      requires cap > 0
      ensures Valid() && View() == seq(gates, _ => []) && cells.Length1 == cap
      ensures fresh(cells) && fresh(ph) && fresh(pt)
    {
      cells := new nat[gates, cap];
      ph := new nat[gates](_ => 0);
      pt := new nat[gates](_ => 0);
    }

    method Push(g: nat, id: nat)
      requires Valid() && g < ph.Length && ph[g] - pt[g] < cells.Length1
      modifies cells, ph
      ensures Valid() && View() == old(View())[g := old(View())[g] + [id]]
    {
      forall c: nat | pt[g] <= c < ph[g] ensures Cell(c) != Cell(ph[g]) {
        Ring<nat>.Remainder(c, ph[g], cells.Length1);
      }
      hide Cell;
      ghost var s := View();
      cells[g, Cell(ph[g])] := id;
      ph[g] := ph[g] + 1;
      assert Waiting(g) == s[g] + [id];
      assert forall h :: 0 <= h < ph.Length && h != g ==> Waiting(h) == s[h];
    }

    method Pop(g: nat) returns (id: nat)
      requires Valid() && g < ph.Length && pt[g] < ph[g]
      modifies pt
      ensures Valid() && id == old(View())[g][0] && View() == old(View())[g := old(View())[g][1..]]
    {
      hide Cell;
      ghost var s := View();
      id := cells[g, Cell(pt[g])];
      pt[g] := pt[g] + 1;
      assert Waiting(g) == s[g][1..];
      assert forall h :: 0 <= h < ph.Length && h != g ==> Waiting(h) == s[h];
    }
  }

  /** What `DET.STATS` replies. */
  datatype Stats = Stats(mode: Mode, total: nat, sum: int, lost: int, conflicts: nat, faults: nat)

  /** `accepted` is the `slot` field of every job ever allocated. */
  class Module {
    const cfg: Config
    const cnt: array<int>
    const inflight: array<bool>
    const gates: Gates
    const queue: Ring<nat>
    const det: Detector
    var jobs: map<nat, Job>
    var total: nat
    var accepted: seq<nat>
    ghost var cur: seq<seq<nat>>
    ghost var replies: seq<Done>

    ghost function Repr(): set<object>
    {
      {this, cnt, inflight, gates, gates.cells, gates.ph, gates.pt, queue, queue.data, det, det.pver, det.writable}
    }

    ghost predicate Valid()
      reads Repr()
    {
      && cnt.Length == inflight.Length == gates.ph.Length == cfg.nslots > 0
      && gates.Valid() && queue.Valid() && |cur| == cfg.nslots
      && queue.data != gates.ph && queue.data != gates.pt && queue.data != det.pver
      && det.pver != gates.ph && det.pver != gates.pt && inflight != det.writable
    }

    ghost function View(): State
      requires Valid()
      reads Repr()
    {
      State(cnt[..], inflight[..], gates.View(), queue.Contents(), jobs, det.View(), total, accepted, cur, replies)
    }

    constructor (cfg: Config, pendn: nat, qn: nat)
      requires cfg.nslots > 0 && pendn > 0 && qn > 0
      ensures this.cfg == cfg && Valid() && View() == Init(cfg)
    {
      this.cfg := cfg;
      cnt := new int[cfg.nslots](_ => 0);
      inflight := new bool[cfg.nslots](_ => false);
      gates := new Gates(cfg.nslots, pendn);
      queue := new Ring<nat>(qn);
      det := new Detector(cfg.nslots, cfg.nslots);
      jobs, total := map[], 0;
      accepted, replies, cur := [], [], seq(cfg.nslots, _ => []);
      new;
      hide Gates.View, Gates.Waiting;
      assert queue.Contents() == [];
    }

    /** `begin` and `enqueue_offload`. */
    method Begin(id: nat, k: nat)
      requires Valid() && Shaped(cfg, View()) && id < |accepted| && accepted[id] == k < cfg.nslots
      requires queue.head - queue.tail < queue.cap
      modifies this`jobs, this`cur, queue`head, queue.data, det, det.writable
      ensures Valid() && View() == Begun(cfg, old(View()), id) && jobs.Keys == old(jobs).Keys + {id}
    {
      hide Shaped, Protected, Gates.View, Gates.Waiting, Ring<nat>.Contents;
      var v, park := cnt[k], 0;
      if cfg.mode != Lock {
        park := det.gclk;
        det.Protect();
      }
      jobs := jobs[id := Job(k, v, park, Queued)];
      queue.Push(id);
      cur := if cfg.mode == Naive then cur else cur[if cfg.mode == Lock then 0 else k := [id]];
    }

    /** There is room for one more job in the worker queue and at gate g: the capacities are not checked. */
    ghost predicate Room(g: nat)
      requires Valid() && g < cfg.nslots
      reads Repr()
    {
      queue.head - queue.tail < queue.cap && gates.ph[g] - gates.pt[g] < gates.cells.Length1
    }

    /** `cmd_rmw`. */
    method CmdRmw(k: nat)
      requires Valid() && Shaped(cfg, View()) && k < cfg.nslots && Room(Gate(cfg, k))
      modifies this`jobs, this`cur, this`accepted, inflight, gates.cells, gates.ph
      modifies queue`head, queue.data, det, det.writable
      ensures Valid() && View() == Commanded(cfg, old(View()), k)
      ensures var busy := cfg.mode != Naive && old(inflight[..])[if cfg.mode == Lock then 0 else k];
        jobs.Keys == if busy then old(jobs).Keys else old(jobs).Keys + {old(|accepted|)}
    {
      hide Begun;
      var id, g := |accepted|, if cfg.mode == Lock then 0 else k;
      accepted := accepted + [k];
      if cfg.mode == Naive {
        Begin(id, k);
      } else if !inflight[g] {
        inflight[g] := true;
        Begin(id, k);
      } else {
        gates.Push(g, id);
      }
    }

    /** A worker takes the oldest job. */
    method WorkerTake()
      requires Valid() && Shaped(cfg, View()) && queue.tail < queue.head && View().queue[0] in jobs
      modifies this`jobs, queue`tail
      ensures Valid() && View() == Step(cfg, old(View()), Take)
      ensures queue.tail == old(queue.tail) + 1
      ensures var id := old(View()).queue[0]; id in jobs && jobs[id].stage == Offloading
    {
      var id := queue.Pop();
      jobs := jobs[id := jobs[id].(stage := Offloading)];
    }

    /** The offload of a job is over; the client is unblocked. */
    method WorkerFinish(id: nat)
      requires Valid() && Shaped(cfg, View()) && id in jobs && jobs[id].stage == Offloading
      modifies this`jobs
      ensures Valid() && View() == Step(cfg, old(View()), Finish(id)) && jobs[id].stage == Finished
    {
      jobs := jobs[id := jobs[id].(stage := Finished)];
    }

    /** The write phase of `reply_cb`. */
    method Write(id: nat)
      requires Valid() && Shaped(cfg, View()) && id in jobs
      modifies this`jobs, this`total, this`replies, cnt, det, det.pver, det.writable
      ensures Valid() && View() == Written(cfg, old(View()), id)
    {
      ghost var entry := Entry(cfg, View(), id);
      hide Shaped, Stored, Stale;
      var j := jobs[id];
      SlotInRange(id);
      if cfg.mode != Lock {
        det.Protect();
        det.Store(j.slot, true, j.park);
      }
      cnt[j.slot] := j.v + 1;
      total := total + 1;
      jobs := jobs - {id};
      replies := replies + [entry];
    }

    lemma PopKeepsShape(s: State, g: nat)
      requires Shaped(cfg, s) && g < cfg.nslots && |s.pend[g]| > 0
      ensures Shaped(cfg, s.(pend := s.pend[g := s.pend[g][1..]]))
    {
    }

    lemma SlotInRange(id: nat)
      requires Valid() && Shaped(cfg, View()) && id in jobs
      ensures jobs[id].slot < cfg.nslots == det.writable.Length
    {
    }

    /** `reply_cb`: the write phase, then the gate goes to the next waiting job or becomes idle. */
    method ReplyCb(id: nat)
      requires Valid() && Shaped(cfg, View()) && id in jobs && queue.head - queue.tail < queue.cap
      requires var p := View().pend[Gate(cfg, jobs[id].slot)];
        cfg.mode != Naive && |p| > 0 ==> p[0] < |accepted| && accepted[p[0]] < cfg.nslots
      modifies this`jobs, this`cur, this`total, this`replies, cnt, inflight, gates.pt
      modifies queue`head, queue.data, det, det.pver, det.writable
      ensures Valid() && View() == Replied(cfg, old(View()), id)
    {
      hide Begun, Shaped;
      SlotInRange(id);
      var g := if cfg.mode == Lock then 0 else jobs[id].slot;
      Write(id);
      ghost var w := View();
      if cfg.mode != Naive {
        if gates.ph[g] != gates.pt[g] {
          var next := gates.Pop(g);
          PopKeepsShape(w, g);
          Begin(next, accepted[next]);
        } else {
          inflight[g] := false;
          cur := cur[g := []];
        }
      }
    }

    ghost predicate Good()
      reads Repr()
    {
      Valid() && Inv(cfg, View())
    }

    lemma NextInRange(id: nat)
      requires Good() && id in jobs
      ensures var p := View().pend[Gate(cfg, jobs[id].slot)];
        cfg.mode != Naive && |p| > 0 ==> p[0] < |accepted| && accepted[p[0]] < cfg.nslots
    {
      if cfg.mode != Naive {
        assert GateOk(cfg, View(), Gate(cfg, jobs[id].slot));
        AtTheGate(cfg, View(), Gate(cfg, jobs[id].slot));
      }
    }

    /** The event can happen now, and the rings it may add to have room. */
    ghost predicate Possible(l: Label)
      requires Good()
      reads this, cnt, inflight, gates, gates.cells, gates.ph, gates.pt, queue, queue.data, det, det.pver, det.writable
    {
      match l
      case Command(k) => k < cfg.nslots && Room(Gate(cfg, k))
      case Take => queue.tail < queue.head
      case Finish(id) => id in jobs && jobs[id].stage == Offloading
      case Reply(id) => id in jobs && jobs[id].stage == Finished && queue.head - queue.tail < queue.cap
    }

    lemma StepOverlaps(l: Label)
      requires Good() && Possible(l)
      ensures l.Command? ==> var s := View();
        |s.accepted| in Step(cfg, s, l).jobs
        <==> match cfg.mode case Naive => true case Detect => Idle(s, l.k) case Lock => s.jobs == map[]
      ensures l.Reply? ==>
        forall w: nat :: w in Step(cfg, View(), l).jobs <==> (w in jobs && w != l.id) || IsNext(cfg, View(), l.id, w)
    {
      hide Inv, Step;
      if l.Command? {
        BeginsIffFree(cfg, View(), l.k);
      } else if l.Reply? {
        OldestGoesNext(cfg, View(), l.id);
      }
    }

    /** One event of the server: a command, a worker taking or finishing a job, a reply callback. Commands and replies
        that would overflow a ring are not part of the model. */
    method Serve(l: Label)
      requires Good() && Possible(l)
      modifies this, cnt, inflight, gates.cells, gates.ph, gates.pt, queue, queue.data, det, det.pver, det.writable
      ensures Good() && View() == Step(cfg, old(View()), l)
      ensures l.Command? && cfg.mode == Detect ==> (old(|accepted|) in jobs <==> old(Idle(View(), l.k)))
      ensures l.Command? && cfg.mode == Lock ==> (old(|accepted|) in jobs <==> old(jobs) == map[])
      ensures l.Reply? ==>
        forall w: nat :: w in jobs <==> (w in old(jobs) && w != l.id) || old(IsNext(cfg, View(), l.id, w))
    {
      StepKeeps(cfg, View(), l);
      StepOverlaps(l);
      match l {
        case Command(k) =>
          hide Inv, Commanded;
          CmdRmw(k);
        case Take =>
          hide Inv;
          WorkerTake();
        case Finish(id) =>
          hide Inv;
          WorkerFinish(id);
        case Reply(id) =>
          hide Inv, Replied;
          NextInRange(id);
          ReplyCb(id);
      }
    }

    /** `cmd_stats`: mode, total, sum, lost, conflicts and faults. */
    method CmdStats() returns (stats: Stats)
      requires Good()
      ensures stats.mode == cfg.mode && stats.total == total && stats.sum == Sum(View().cnt)
      ensures stats.conflicts == det.conflicts && stats.faults == det.faults
      ensures stats.lost == total - stats.sum >= 0 && (stats.lost == 0 <==> stats.conflicts == 0)
      ensures cfg.mode != Naive ==> stats.lost == 0
      ensures cfg.mode != Lock ==> stats.faults == total
    {
      var sum := SumOfCounters();
      stats := Stats(cfg.mode, total, sum, total - sum, det.conflicts, det.faults);
      LossIffReported(cfg, View());
      hide Sum;
    }

    method SumOfCounters() returns (sum: int)
      requires Valid()
      ensures sum == Sum(View().cnt)
    {
      sum := 0;
      var i := 0;
      while i < cnt.Length
        invariant 0 <= i <= cnt.Length && sum == Sum(cnt[..i])
      {
        assert cnt[..i + 1] == cnt[..i] + [cnt[i]];
        SumAppend(cnt[..i], cnt[i]);
        sum := sum + cnt[i];
        i := i + 1;
      }
      assert cnt[..i] == cnt[..];
    }
  }
}
