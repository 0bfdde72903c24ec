/** The allocator's program: arrays for the free stack, the owners and the batch queue, and the handlers' critical
    sections. */
module AllocatorRuntime {
  import opened BlockAllocator
  import opened Distinct

  class Server {
    const cfg: Config
    const freeList: array<nat>
    const owner: array<int>
    /** The batch queue's entries: handler and iteration. They are written and never read. */
    const qBuf: array<(nat, nat)>
    const handlers: array<Handler>
    var freeTop: nat
    var doubleAlloc: nat
    var qHead: nat
    var qTail: nat
    var handled: nat
    /** The critical sections so far. */
    ghost var trace: seq<nat>

    ghost function Blocks(): Pool
      requires freeTop <= freeList.Length
      reads this, freeList, owner
    {
      Pool(freeList[..freeTop], owner[..], doubleAlloc)
    }

    ghost function View(): State
      requires freeTop <= freeList.Length
      reads this, freeList, owner, handlers
    {
      State(Blocks(), handlers[..], qHead, qTail, handled)
    }

    ghost predicate Shape()
      reads this
    {
      freeTop <= freeList.Length == owner.Length == cfg.nblock && handlers.Length == cfg.nthread && qBuf.Length > 0
    }

    ghost predicate Valid()
      reads this, freeList, owner, handlers
    {
      Shape() && View() == Exec(cfg, Init(cfg), trace)
    }

    constructor (cfg: Config, qn: nat)
      requires qn > 0
      ensures Valid() && trace == [] && this.cfg == cfg
      ensures fresh(freeList) && fresh(owner) && fresh(qBuf) && fresh(handlers)
    {
      this.cfg := cfg;
      freeList := new nat[cfg.nblock]((i: nat) => i);
      owner := new int[cfg.nblock](_ => -1);
      qBuf := new (nat, nat)[qn](_ => (0, 0));
      handlers := new Handler[cfg.nthread](_ => Handler(0, Idle, []));
      freeTop, doubleAlloc, qHead, qTail, handled, trace := cfg.nblock, 0, 0, 0, 0, [];
      new;
      assert freeList[..freeTop] == Init(cfg).pool.free;
      assert owner[..] == Init(cfg).pool.owner;
      assert handlers[..] == Init(cfg).handlers;
    }

    ghost method Note(id: nat, before: State)
      requires Shape() && before == Exec(cfg, Init(cfg), trace) && View() == Step(cfg, before, id)
      modifies this`trace
      ensures Valid() && trace == old(trace) + [id]
    {
      trace := trace + [id];
      assert trace[..|trace| - 1] == old(trace);
    }

    /** Put the request into the batch queue, or stop after the last iteration. */
    method Schedule(id: nat)
      requires Valid() && id < handlers.Length && handlers[id].pc.Idle?
      modifies this`qHead, this`trace, qBuf, handlers
      ensures Valid() && trace == old(trace) + [id] && View() == Step(cfg, old(View()), id)
    {
      ghost var before := View();
      var h := handlers[id];
      if h.it < cfg.iters {
        qBuf[qHead % qBuf.Length] := (id, h.it);
        qHead := qHead + 1;
        handlers[id] := h.(pc := Queued);
      } else {
        handlers[id] := h.(pc := Finished);
      }
      Note(id, before);
    }

    /** One turn of the allocation loop. */
    method AllocateOne(id: nat, ghost mine: seq<int>) returns (blk: int)
      requires Shape() && (forall k :: 0 <= k < freeTop ==> freeList[k] < owner.Length)
      modifies this`freeTop, this`doubleAlloc, owner
      ensures Shape() && (Blocks(), mine + [blk]) == TakeOne(old(Blocks()), id, mine)
      ensures blk == if old(freeTop) > 0 then freeList[old(freeTop) - 1] else -1
      ensures old(freeTop) > 0 ==> freeTop == old(freeTop) - 1 && owner[..] == old(owner[..])[blk := id]
      ensures freeTop <= old(freeTop)
    {
      if freeTop > 0 {
        freeTop := freeTop - 1;
        blk := freeList[freeTop];
        if owner[blk] != -1 {
          doubleAlloc := doubleAlloc + 1;
        }
        owner[blk] := id;
        assert freeList[..freeTop] == old(Blocks()).free[..freeTop];
      } else {
        blk := -1;
      }
    }

    method AllocateAll(id: nat) returns (mine: seq<int>)
      requires Shape() && (forall k :: 0 <= k < freeTop ==> freeList[k] < owner.Length)
      modifies this`freeTop, this`doubleAlloc, owner
      ensures Shape() && (Blocks(), mine) == Take(old(Blocks()), id, cfg.nreq)
    {
      mine := [];
      var b := 0;
      while b < cfg.nreq
        invariant 0 <= b <= cfg.nreq && Shape() && (Blocks(), mine) == Take(old(Blocks()), id, b)
        invariant forall k :: 0 <= k < freeTop ==> freeList[k] < owner.Length
      {
        hide TakeOne;
        var blk := AllocateOne(id, mine);
        mine := mine + [blk];
        b := b + 1;
      }
    }

    /** The allocation section. */
    method Allocate(id: nat)
      requires Valid() && id < handlers.Length && handlers[id].pc.Queued?
      modifies this`freeTop, this`doubleAlloc, this`trace, owner, handlers
      ensures Valid() && trace == old(trace) + [id] && View() == Step(cfg, old(View()), id)
    {
      ghost var before := View();
      Always(cfg, trace);
      assert forall k :: 0 <= k < freeTop ==> freeList[k] == before.pool.free[k];
      hide Take;
      var mine := AllocateAll(id);
      handlers[id] := handlers[id].(pc := Holding, mine := mine);
      Note(id, before);
    }

    /** One turn of the loop that frees. */
    method FreeOne(blk: int)
      requires Shape() && -1 <= blk < cfg.nblock && (blk >= 0 ==> freeTop < cfg.nblock)
      modifies this`freeTop, freeList, owner
      ensures Shape() && Blocks() == GiveOne(old(Blocks()), blk)
      ensures blk >= 0 ==> freeTop == old(freeTop) + 1 && freeList[old(freeTop)] == blk && owner[blk] == -1
    {
      if blk >= 0 {
        owner[blk] := -1;
        freeList[freeTop] := blk;
        freeTop := freeTop + 1;
      }
    }

    lemma Room(id: nat, mine: seq<int>, b: nat)
      requires Shape() && PoolOk(cfg, Blocks()) && b < |mine| && MineOk(cfg, Blocks(), id, mine[b..])
      ensures -1 <= mine[b] < cfg.nblock && (mine[b] >= 0 ==> freeTop < cfg.nblock)
    {
      assert mine[b..][0] == mine[b];
      Pigeonhole(Blocks().free, cfg.nblock);
      assert mine[b] in mine[b..];
    }

    /** The loop that frees. */
    method FreeAll(id: nat, mine: seq<int>)
      requires Shape() && PoolOk(cfg, Blocks()) && MineOk(cfg, Blocks(), id, mine)
      modifies this`freeTop, freeList, owner
      ensures Shape() && Blocks() == Give(old(Blocks()), mine)
    {
      ghost var p := Blocks();
      var b := 0;
      assert mine[..0] == [];
      while b < |mine|
        invariant 0 <= b <= |mine| && Shape() && Blocks() == Give(p, mine[..b])
      {
        GiveOk(cfg, p, id, mine, b);
        Room(id, mine, b);
        assert mine[..b + 1][..b] == mine[..b];
        hide PoolOk, MineOk, GiveOne;
        FreeOne(mine[b]);
        b := b + 1;
      }
      assert mine[..b] == mine;
    }

    /** The section that frees and dequeues. */
    method Free(id: nat)
      requires Valid() && id < handlers.Length && handlers[id].pc.Holding?
      modifies this`freeTop, this`qTail, this`handled, this`trace, freeList, owner, handlers
      ensures Valid() && trace == old(trace) + [id] && View() == Step(cfg, old(View()), id)
    {
      ghost var before := View();
      Always(cfg, trace);
      assert HandlerOk(cfg, before.pool, id, before.handlers[id]);
      hide Inv, HandlerOk, PoolOk, MineOk, Give;
      FreeAll(id, handlers[id].mine);
      if qTail < qHead {
        qTail := qTail + 1;
      }
      handled := handled + 1;
      handlers[id] := Handler(handlers[id].it + 1, Idle, []);
      Note(id, before);
    }

    /** A handler's next critical section. */
    method Turn(id: nat)
      requires Valid() && id < handlers.Length
      modifies this, freeList, owner, qBuf, handlers
      ensures Valid() && trace == old(trace) + [id] && View() == Step(cfg, old(View()), id)
    {
      match handlers[id].pc {
        case Idle => Schedule(id);
        case Queued => Allocate(id);
        case Holding => Free(id);
        case Finished => Note(id, View());
      }
    }

    /** The end-of-run check: blocks missing from the stack, and blocks still owned. They agree whenever it is made, and
        nothing is missing once every handler has finished. */
    method Integrity() returns (leaked: int, stillOwned: nat)
      requires Valid()
      ensures leaked == cfg.nblock - freeTop && stillOwned == |Owned(owner[..])| == leaked
      ensures (forall h :: 0 <= h < handlers.Length ==> handlers[h].pc.Finished?) ==> leaked == 0 && doubleAlloc == 0
    {
      stillOwned := CountOwned();
      leaked := owner.Length - freeTop;
      MissingAreOwned(cfg, trace);
      CompleteRun(cfg, trace);
      Always(cfg, trace);
      assert (forall h :: 0 <= h < handlers.Length ==> handlers[h].pc.Finished?) ==>
        forall h :: 0 <= h < |View().handlers| ==> View().handlers[h].pc.Finished?;
    }

    method CountOwned() returns (n: nat)
      ensures n == |Owned(owner[..])|
    {
      n := 0;
      for i := 0 to owner.Length
        invariant n == |Owned(owner[..i])|
      {
        if owner[i] != -1 {
          n := n + 1;
        }
        assert Owned(owner[..i + 1]) == Owned(owner[..i]) + if owner[i] != -1 then {i as nat} else {};
      }
      assert owner[..owner.Length] == owner[..];
    }
  }
}
