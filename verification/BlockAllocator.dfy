/**
 The paged-cache block allocator and its batch queue in locked mode, as a specification: a stack of free blocks, an
 owner per block, and handlers that enqueue, take blocks, compute, and give them back. A step is one critical
 section.
 */
module BlockAllocator {
  import opened Distinct
  import opened Sums

  datatype Pc = Idle | Queued | Holding | Finished

  /** `mine`: the blocks taken in this iteration, -1 where the stack was empty. */
  datatype Handler = Handler(it: nat, pc: Pc, mine: seq<int>)

  /** The allocator: `free` is the stack, its top last; `owner[b]` is -1 or a handler; `dup` counts blocks handed
      out twice. */
  datatype Pool = Pool(free: seq<nat>, owner: seq<int>, dup: nat)

  datatype State = State(pool: Pool, handlers: seq<Handler>, head: nat, tail: nat, handled: nat)

  datatype Config = Config(nblock: nat, nreq: nat, nthread: nat, iters: nat)

  function Init(cfg: Config): State
  {
    State(Pool(seq(cfg.nblock, (i: nat) => i), seq(cfg.nblock, _ => -1), 0),
          seq(cfg.nthread, _ => Handler(0, Idle, [])), 0, 0, 0)
  }

  // ---------- Taking and giving back ----------

  /** Take n blocks for handler `id`, one after the other; `-1` for each that is not there. */
  function Take(p: Pool, id: nat, n: nat): (Pool, seq<int>)
  {
    if n == 0 then (p, [])
    else
      var (q, mine) := Take(p, id, n - 1);
      TakeOne(q, id, mine)
  }

  function TakeOne(p: Pool, id: nat, mine: seq<int>): (Pool, seq<int>)
  {
    if |p.free| == 0 then (p, mine + [-1])
    else
      var b := p.free[|p.free| - 1];
      var dup := if b < |p.owner| && p.owner[b] != -1 then p.dup + 1 else p.dup;
      (Pool(p.free[..|p.free| - 1], if b < |p.owner| then p.owner[b := id] else p.owner, dup), mine + [b])
  }

  function Give(p: Pool, mine: seq<int>): Pool
    decreases |mine|
  {
    if |mine| == 0 then p else GiveOne(Give(p, mine[..|mine| - 1]), mine[|mine| - 1])
  }

  function GiveOne(p: Pool, b: int): Pool
  {
    if b < 0 then p else Pool(p.free + [b], if b < |p.owner| then p.owner[b := -1] else p.owner, p.dup)
  }

  // ---------- Steps ----------

  function Step(cfg: Config, s: State, id: nat): State
  {
    if id >= |s.handlers| then s else
    var h := s.handlers[id];
    match h.pc
    case Idle =>
      if h.it < cfg.iters then s.(head := s.head + 1, handlers := s.handlers[id := h.(pc := Queued)])
      else s.(handlers := s.handlers[id := h.(pc := Finished)])
    case Queued =>
      var (pool, mine) := Take(s.pool, id, cfg.nreq);
      s.(pool := pool, handlers := s.handlers[id := h.(pc := Holding, mine := mine)])
    case Holding =>
      s.(pool := Give(s.pool, h.mine), tail := if s.tail < s.head then s.tail + 1 else s.tail, handled := s.handled + 1,
         handlers := s.handlers[id := Handler(h.it + 1, Idle, [])])
    case Finished => s
  }

  /** An arbitrary schedule of critical sections. */
  function Exec(cfg: Config, s: State, ids: seq<nat>): State
    decreases |ids|
  {
    if |ids| == 0 then s else Step(cfg, Exec(cfg, s, ids[..|ids| - 1]), ids[|ids| - 1])
  }

  // ---------- The invariant ----------

  /** The free stack is duplicate-free and holds exactly the unowned blocks; no block was ever handed out twice. */
  ghost predicate PoolOk(cfg: Config, p: Pool)
  {
    && |p.owner| == cfg.nblock && NoDup(p.free) && p.dup == 0
    && (forall k :: 0 <= k < |p.free| ==> p.free[k] < cfg.nblock)
    && (forall b: nat :: b < cfg.nblock ==> (p.owner[b] == -1 <==> b in p.free))
  }

  /** `mine` lists the blocks that `id` owns, each once. */
  ghost predicate MineOk(cfg: Config, p: Pool, id: nat, mine: seq<int>)
    requires |p.owner| == cfg.nblock
  {
    && (forall k :: 0 <= k < |mine| ==> -1 <= mine[k] < cfg.nblock)
    && (forall j, k :: 0 <= j < k < |mine| && mine[j] == mine[k] ==> mine[j] == -1)
    && (forall b: nat :: b < cfg.nblock ==> (p.owner[b] == id <==> b in mine))
  }

  /** Only blocks that are free or id's change hands, and only between the two. */
  ghost predicate OthersKeep(p: Pool, q: Pool, id: nat)
  {
    |p.owner| == |q.owner| && forall b: nat :: b < |p.owner| ==>
      p.owner[b] == q.owner[b] || (p.owner[b] in {-1, id as int} && q.owner[b] in {-1, id as int})
  }

  function Count(mine: seq<int>): nat
  {
    if |mine| == 0 then 0 else Count(mine[..|mine| - 1]) + if mine[|mine| - 1] >= 0 then 1 else 0
  }

  /** What n blocks taken from p for `id` leave behind. */
  ghost predicate Taken(cfg: Config, p: Pool, id: nat, n: nat, q: Pool, mine: seq<int>)
  {
    && PoolOk(cfg, q) && MineOk(cfg, q, id, mine) && OthersKeep(p, q, id)
    && |mine| == n && |q.free| + Count(mine) == |p.free|
    && Count(mine) <= n && (|p.free| >= n ==> Count(mine) == n)
  }

  lemma {:induction false} TakeOneMore(cfg: Config, p: Pool, id: nat, n: nat, q: Pool, mine: seq<int>)
    requires Taken(cfg, p, id, n, q, mine)
    ensures var r := TakeOne(q, id, mine); Taken(cfg, p, id, n + 1, r.0, r.1)
  {
    var r := TakeOne(q, id, mine);
    assert |r.1| == n + 1;
    hide PoolOk, MineOk, OthersKeep, TakeOne, Count;
  }

  lemma {:induction false} TakeOk(cfg: Config, p: Pool, id: nat, n: nat)
    requires PoolOk(cfg, p) && MineOk(cfg, p, id, [])
    ensures Taken(cfg, p, id, n, Take(p, id, n).0, Take(p, id, n).1)
    decreases n
  {
    if n > 0 {
      hide Taken;
      TakeOk(cfg, p, id, n - 1);
      TakeOneMore(cfg, p, id, n - 1, Take(p, id, n - 1).0, Take(p, id, n - 1).1);
    }
  }

  lemma {:induction false} GiveOneOk(cfg: Config, p: Pool, id: nat, rest: seq<int>)
    requires PoolOk(cfg, p) && MineOk(cfg, p, id, rest) && |rest| > 0
    ensures var q := GiveOne(p, rest[0]);
      && PoolOk(cfg, q) && MineOk(cfg, q, id, rest[1..]) && OthersKeep(p, q, id)
      && |q.free| == |p.free| + if rest[0] >= 0 then 1 else 0
  {
    var b := rest[0];
    var q := GiveOne(p, b);
    assert b in rest;
    if b >= 0 {
      assert p.owner[b] == id;
      AddLast(p.free, b);
    }
    forall c: nat | c < cfg.nblock ensures q.owner[c] == id <==> c in rest[1..] {
      assert c in rest <==> c == b || c in rest[1..];
    }
  }

  /** Give back the first k of `mine`. */
  lemma {:induction false} GiveOk(cfg: Config, p: Pool, id: nat, mine: seq<int>, k: nat)
    requires PoolOk(cfg, p) && MineOk(cfg, p, id, mine) && k <= |mine|
    ensures var q := Give(p, mine[..k]);
      && PoolOk(cfg, q) && MineOk(cfg, q, id, mine[k..]) && OthersKeep(p, q, id)
      && |q.free| == |p.free| + Count(mine[..k])
    decreases k
  {
    if k > 0 {
      GiveOk(cfg, p, id, mine, k - 1);
      assert mine[..k][..k - 1] == mine[..k - 1];
      assert mine[k - 1..][1..] == mine[k..];
      var q := Give(p, mine[..k - 1]);
      hide PoolOk, MineOk, OthersKeep, GiveOne;
      GiveOneOk(cfg, q, id, mine[k - 1..]);
    } else {
      assert mine[0..] == mine;
    }
  }

  // ---------- All handlers ----------

  ghost predicate HandlerOk(cfg: Config, p: Pool, id: nat, h: Handler)
    requires |p.owner| == cfg.nblock
  {
    && MineOk(cfg, p, id, h.mine)
    && (if h.pc.Holding? then |h.mine| == cfg.nreq else h.mine == [])
    && (if h.pc.Finished? then h.it == cfg.iters else if h.pc.Idle? then h.it <= cfg.iters else h.it < cfg.iters)
  }

  /** 1 for a handler between its enqueue and its free. */
  function Busy(h: Handler): nat
  {
    if h.pc.Queued? || h.pc.Holding? then 1 else 0
  }

  function Busies(hs: seq<Handler>): (r: seq<int>)
    ensures |r| == |hs| && forall i :: 0 <= i < |r| ==> r[i] == Busy(hs[i])
  {
    seq(|hs|, i requires 0 <= i < |hs| => Busy(hs[i]))
  }

  function Its(hs: seq<Handler>): (r: seq<int>)
    ensures |r| == |hs| && forall i :: 0 <= i < |r| ==> r[i] == hs[i].it
  {
    seq(|hs|, i requires 0 <= i < |hs| => hs[i].it)
  }

  function Helds(hs: seq<Handler>): (r: seq<int>)
    ensures |r| == |hs| && forall i :: 0 <= i < |r| ==> r[i] == Count(hs[i].mine)
  {
    seq(|hs|, i requires 0 <= i < |hs| => Count(hs[i].mine))
  }

  ghost predicate CountsOk(cfg: Config, s: State)
  {
    && s.head == s.tail + Sum(Busies(s.handlers)) && s.tail == s.handled == Sum(Its(s.handlers))
    && |s.pool.free| + Sum(Helds(s.handlers)) == cfg.nblock
  }

  ghost predicate HandlersOk(cfg: Config, p: Pool, hs: seq<Handler>)
  {
    && |p.owner| == cfg.nblock && |hs| == cfg.nthread
    && (forall b: nat :: b < cfg.nblock ==> -1 <= p.owner[b] < cfg.nthread)
    && (forall id: nat :: id < cfg.nthread ==> HandlerOk(cfg, p, id, hs[id]))
  }

  ghost predicate Inv(cfg: Config, s: State)
  {
    PoolOk(cfg, s.pool) && HandlersOk(cfg, s.pool, s.handlers) && CountsOk(cfg, s)
  }

  lemma {:induction false} InitOk(cfg: Config)
    ensures Inv(cfg, Init(cfg))
  {
    var s := Init(cfg);
    assert PoolOk(cfg, s.pool) by {
      forall b: nat | b < cfg.nblock ensures b in s.pool.free {
        assert s.pool.free[b] == b;
      }
    }
    assert HandlersOk(cfg, s.pool, s.handlers);
    SumConstant(Busies(s.handlers), 0);
    SumConstant(Its(s.handlers), 0);
    SumConstant(Helds(s.handlers), 0);
  }

  /** Handler id becomes h: what the sums become. */
  lemma {:induction false} SumsMove(hs: seq<Handler>, id: nat, h: Handler)
    requires id < |hs|
    ensures Sum(Busies(hs[id := h])) == Sum(Busies(hs)) - Busy(hs[id]) + Busy(h)
    ensures Sum(Its(hs[id := h])) == Sum(Its(hs)) - hs[id].it + h.it
    ensures Sum(Helds(hs[id := h])) == Sum(Helds(hs)) - Count(hs[id].mine) + Count(h.mine)
  {
    var hs' := hs[id := h];
    SumUpdate(Busies(hs), id, Busy(h));
    assert Busies(hs') == Busies(hs)[id := Busy(h)];
    SumUpdate(Its(hs), id, h.it);
    assert Its(hs') == Its(hs)[id := h.it];
    SumUpdate(Helds(hs), id, Count(h.mine));
    assert Helds(hs') == Helds(hs)[id := Count(h.mine)];
  }

  lemma {:induction false} CountsMove(cfg: Config, s: State, s': State, id: nat)
    requires CountsOk(cfg, s) && id < |s.handlers| == |s'.handlers| && s'.handlers == s.handlers[id := s'.handlers[id]]
    requires s'.head - s.head == s'.tail - s.tail + Busy(s'.handlers[id]) - Busy(s.handlers[id])
    requires s'.tail - s.tail == s'.handled - s.handled == s'.handlers[id].it - s.handlers[id].it
    requires |s'.pool.free| + Count(s'.handlers[id].mine) == |s.pool.free| + Count(s.handlers[id].mine)
    ensures CountsOk(cfg, s')
  {
    hide Sum, Count, Busy, Busies, Its, Helds;
    SumsMove(s.handlers, id, s'.handlers[id]);
  }

  /** Some handler is busy: the queue is not empty. */
  lemma {:induction false} BusyCounts(hs: seq<Handler>, id: nat)
    requires id < |hs| && (hs[id].pc.Queued? || hs[id].pc.Holding?)
    ensures Sum(Busies(hs)) >= 1
  {
    SumUpdate(Busies(hs), id, 0);
    SumNonNegative(Busies(hs)[id := 0]);
  }

  /** Blocks move between the free stack and handler id only. */
  lemma {:induction false} HandlerMoves(cfg: Config, p: Pool, hs: seq<Handler>, id: nat, q: Pool, h: Handler)
    requires HandlersOk(cfg, p, hs) && id < cfg.nthread && OthersKeep(p, q, id) && HandlerOk(cfg, q, id, h)
    ensures HandlersOk(cfg, q, hs[id := h])
  {
    var hs' := hs[id := h];
    forall i: nat | i < cfg.nthread ensures HandlerOk(cfg, q, i, hs'[i]) {
      assert HandlerOk(cfg, p, i, hs[i]);
    }
  }

  lemma {:induction false} TakeStepKeeps(cfg: Config, s: State, id: nat)
    requires Inv(cfg, s) && id < cfg.nthread && s.handlers[id].pc.Queued?
    ensures Inv(cfg, Step(cfg, s, id))
  {
    var h := s.handlers[id];
    assert HandlerOk(cfg, s.pool, id, h);
    TakeOk(cfg, s.pool, id, cfg.nreq);
    var (pool, mine) := Take(s.pool, id, cfg.nreq);
    var h' := h.(pc := Holding, mine := mine);
    HandlerMoves(cfg, s.pool, s.handlers, id, pool, h');
    hide PoolOk, OthersKeep, HandlersOk, HandlerOk, MineOk, Take, CountsOk;
    CountsMove(cfg, s, Step(cfg, s, id), id);
  }

  lemma {:induction false} GiveStepKeeps(cfg: Config, s: State, id: nat)
    requires Inv(cfg, s) && id < cfg.nthread && s.handlers[id].pc.Holding?
    ensures Inv(cfg, Step(cfg, s, id))
  {
    var h := s.handlers[id];
    assert HandlerOk(cfg, s.pool, id, h);
    GiveOk(cfg, s.pool, id, h.mine, |h.mine|);
    assert h.mine[..|h.mine|] == h.mine && h.mine[|h.mine|..] == [];
    var h' := Handler(h.it + 1, Idle, []);
    HandlerMoves(cfg, s.pool, s.handlers, id, Give(s.pool, h.mine), h');
    BusyCounts(s.handlers, id);
    assert s.tail < s.head;
    hide PoolOk, OthersKeep, HandlersOk, HandlerOk, MineOk, Give, CountsOk;
    CountsMove(cfg, s, Step(cfg, s, id), id);
  }

  lemma {:induction false} IdleStepKeeps(cfg: Config, s: State, id: nat)
    requires Inv(cfg, s) && id < cfg.nthread && s.handlers[id].pc.Idle?
    ensures Inv(cfg, Step(cfg, s, id))
  {
    var h := s.handlers[id];
    assert HandlerOk(cfg, s.pool, id, h);
    var h' := if h.it < cfg.iters then h.(pc := Queued) else h.(pc := Finished);
    HandlerMoves(cfg, s.pool, s.handlers, id, s.pool, h');
    hide PoolOk, OthersKeep, HandlersOk, HandlerOk, MineOk, CountsOk;
    CountsMove(cfg, s, Step(cfg, s, id), id);
  }

  lemma {:induction false} StepKeeps(cfg: Config, s: State, id: nat)
    requires Inv(cfg, s)
    ensures Inv(cfg, Step(cfg, s, id))
  {
    if id < cfg.nthread {
      assert |s.handlers| == cfg.nthread;
      hide Inv;
      match s.handlers[id].pc
      case Idle => IdleStepKeeps(cfg, s, id);
      case Queued => TakeStepKeeps(cfg, s, id);
      case Holding => GiveStepKeeps(cfg, s, id);
      case Finished =>
    }
  }

  lemma {:induction false} Always(cfg: Config, ids: seq<nat>)
    ensures Inv(cfg, Exec(cfg, Init(cfg), ids))
    decreases |ids|
  {
    if |ids| == 0 {
      InitOk(cfg);
    } else {
      Always(cfg, ids[..|ids| - 1]);
      StepKeeps(cfg, Exec(cfg, Init(cfg), ids[..|ids| - 1]), ids[|ids| - 1]);
    }
  }

  // ---------- Theorems: for every schedule ----------

  /** The free stack is duplicate-free and is exactly the unowned blocks; every other block is in the list of
      exactly one handler; no block has been handed out twice; and no block is lost. */
  lemma {:induction false} EveryBlockInOnePlace(cfg: Config, ids: seq<nat>, b: nat)
    requires b < cfg.nblock
    ensures var s := Exec(cfg, Init(cfg), ids);
      && s.pool.dup == 0 && NoDup(s.pool.free)
      && (b in s.pool.free ==> forall h: nat :: h < |s.handlers| ==> b !in s.handlers[h].mine)
      && (b !in s.pool.free ==> exists h: nat :: h < |s.handlers| && b in s.handlers[h].mine)
      && (forall h: nat, g: nat ::
            h < |s.handlers| && g < |s.handlers| && b in s.handlers[h].mine && b in s.handlers[g].mine ==> h == g)
      && |s.pool.free| + Sum(Helds(s.handlers)) == cfg.nblock
  {
    Always(cfg, ids);
    var s := Exec(cfg, Init(cfg), ids);
    assert forall h: nat :: h < cfg.nthread ==>
        HandlerOk(cfg, s.pool, h, s.handlers[h]) && (s.pool.owner[b] == h <==> b in s.handlers[h].mine);
    if b !in s.pool.free {
      var h: nat := s.pool.owner[b];
      assert b in s.handlers[h].mine;
    }
  }

  /** The blocks that have an owner. */
  function Owned(owner: seq<int>): (bs: set<nat>)
    ensures forall b: nat :: b in bs <==> b < |owner| && owner[b] != -1
  {
    set b: nat | b < |owner| && owner[b] != -1
  }

  /** Under every schedule as many blocks are missing from the free stack as have an owner, and as handlers hold. */
  lemma {:induction false} MissingAreOwned(cfg: Config, ids: seq<nat>)
    ensures var s := Exec(cfg, Init(cfg), ids);
      cfg.nblock - |s.pool.free| == |Owned(s.pool.owner)| == Sum(Helds(s.handlers))
  {
    Always(cfg, ids);
    var p := Exec(cfg, Init(cfg), ids).pool;
    hide Exec;
    if cfg.nblock > 0 {
      EveryBlockInOnePlace(cfg, ids, 0);
    }
    assert Elems(p.free) + Owned(p.owner) == Ids(cfg.nblock) && Elems(p.free) !! Owned(p.owner);
    NoDupCard(p.free);
  }

  /** The queue holds one entry for each handler between its enqueue and its free. */
  lemma {:induction false} QueueIsBusyHandlers(cfg: Config, ids: seq<nat>)
    ensures var s := Exec(cfg, Init(cfg), ids);
      s.head - s.tail == Sum(Busies(s.handlers)) && s.tail == s.handled
  {
    Always(cfg, ids);
  }

  lemma {:induction false} OwnedIsListed(cfg: Config, s: State, b: nat)
    requires Inv(cfg, s) && b < cfg.nblock
    ensures s.pool.owner[b] < 0 || b in s.handlers[s.pool.owner[b]].mine
  {
    if s.pool.owner[b] >= 0 {
      assert HandlerOk(cfg, s.pool, s.pool.owner[b], s.handlers[s.pool.owner[b]]);
    }
  }

  /** When everybody has finished, nobody owns anything. */
  lemma {:induction false} FinishedOwnNothing(cfg: Config, s: State)
    requires Inv(cfg, s) && forall h :: 0 <= h < |s.handlers| ==> s.handlers[h].pc.Finished?
    ensures |s.pool.owner| == cfg.nblock
    ensures forall b: nat :: b < cfg.nblock ==> s.pool.owner[b] == -1 && b in s.pool.free
    ensures Sum(Helds(s.handlers)) == Sum(Busies(s.handlers)) == 0 && Sum(Its(s.handlers)) == cfg.nthread * cfg.iters
  {
    var hs := s.handlers;
    assert forall h: nat :: h < cfg.nthread ==> HandlerOk(cfg, s.pool, h, hs[h]);
    forall b: nat | b < cfg.nblock ensures s.pool.owner[b] == -1 && b in s.pool.free {
      OwnedIsListed(cfg, s, b);
    }
    hide HandlersOk, PoolOk;
    SumConstant(Busies(hs), 0);
    SumConstant(Its(hs), cfg.iters);
    SumConstant(Helds(hs), 0);
  }

  /** A complete run ends as it began: all blocks free, each once, an empty queue, every iteration handled. */
  lemma {:induction false} CompleteRun(cfg: Config, ids: seq<nat>)
    ensures var s := Exec(cfg, Init(cfg), ids);
      (forall h :: 0 <= h < |s.handlers| ==> s.handlers[h].pc.Finished?) ==>
        && |s.pool.free| == cfg.nblock && multiset(s.pool.free) == multiset(Init(cfg).pool.free)
        && |s.pool.owner| == cfg.nblock && (forall b: nat :: b < cfg.nblock ==> s.pool.owner[b] == -1)
        && s.head == s.tail == s.handled == cfg.nthread * cfg.iters
  {
    Always(cfg, ids);
    InitOk(cfg);
    var s := Exec(cfg, Init(cfg), ids);
    if forall h :: 0 <= h < |s.handlers| ==> s.handlers[h].pc.Finished? {
      FinishedOwnNothing(cfg, s);
      SameMultiset(s.pool.free, Init(cfg).pool.free);
    }
  }

  /** Duplicate-free sequences with the same elements are permutations of each other. */
  lemma {:induction false} SameMultiset(a: seq<nat>, b: seq<nat>)
    requires NoDup(a) && NoDup(b) && forall x: nat :: x in a <==> x in b
    ensures multiset(a) == multiset(b)
  {
    forall x: nat ensures multiset(a)[x] == multiset(b)[x] {
      OnceAtMost(a, x);
      OnceAtMost(b, x);
    }
  }

  lemma {:induction false} OnceAtMost(a: seq<nat>, x: nat)
    requires NoDup(a)
    ensures multiset(a)[x] == if x in a then 1 else 0
    decreases |a|
  {
    if |a| > 0 {
      var front := a[..|a| - 1];
      OnceAtMost(front, x);
      assert a == front + [a[|a| - 1]];
    }
  }

  /** How often handler id had its turn. */
  function Turns(ids: seq<nat>, id: nat): nat
  {
    if |ids| == 0 then 0 else Turns(ids[..|ids| - 1], id) + if ids[|ids| - 1] == id then 1 else 0
  }

  /** Where a handler is after n turns: an iteration takes three, and one more ends it. */
  ghost predicate IsAfter(cfg: Config, h: Handler, n: nat)
  {
    if n > 3 * cfg.iters then h.pc.Finished? && h.it == cfg.iters
    else h.it == n / 3 && h.pc == if n % 3 == 0 then Idle else if n % 3 == 1 then Queued else Holding
  }

  /** Under every schedule a handler is as far as its own turns have brought it: no turn is lost, and nobody waits. */
  lemma {:induction false} TurnsDecide(cfg: Config, ids: seq<nat>, id: nat)
    requires id < cfg.nthread
    ensures var s := Exec(cfg, Init(cfg), ids);
      |s.handlers| == cfg.nthread && IsAfter(cfg, s.handlers[id], Turns(ids, id))
    decreases |ids|
  {
    if |ids| > 0 {
      TurnsDecide(cfg, ids[..|ids| - 1], id);
      hide Take, Give;
    }
  }

  /** When every handler has had its turns, the run is complete: all blocks are free again and everything is handled. */
  lemma {:induction false} EnoughTurnsComplete(cfg: Config, ids: seq<nat>)
    requires forall id: nat :: id < cfg.nthread ==> Turns(ids, id) > 3 * cfg.iters
    ensures var s := Exec(cfg, Init(cfg), ids);
      |s.pool.free| == cfg.nblock && s.head == s.tail == s.handled == cfg.nthread * cfg.iters
  {
    Always(cfg, ids);
    var s := Exec(cfg, Init(cfg), ids);
    forall h: nat | h < |s.handlers| ensures s.handlers[h].pc.Finished? {
      TurnsDecide(cfg, ids, h);
    }
    CompleteRun(cfg, ids);
  }

  /** Some handler was refused a block. */
  ghost predicate Short(cfg: Config, s: State)
  {
    exists h: nat :: h < |s.handlers| && s.handlers[h].pc.Holding? && Count(s.handlers[h].mine) < cfg.nreq
  }

  ghost predicate NeverShort(cfg: Config)
  {
    forall ids: seq<nat> :: !Short(cfg, Exec(cfg, Init(cfg), ids))
  }

  /** There are blocks enough for all handlers at once. */
  predicate Enough(cfg: Config)
  {
    cfg.nthread * cfg.nreq <= cfg.nblock
  }

  ghost predicate AllServed(cfg: Config, s: State)
  {
    forall h: nat :: h < |s.handlers| && s.handlers[h].pc.Holding? ==> Count(s.handlers[h].mine) == cfg.nreq
  }

  /** With blocks enough, a handler that holds none finds its share on the stack. */
  lemma {:induction false} ShareIsLeft(cfg: Config, s: State, id: nat)
    requires Inv(cfg, s) && AllServed(cfg, s) && Enough(cfg) && id < cfg.nthread && s.handlers[id].pc.Queued?
    ensures |s.pool.free| >= cfg.nreq
  {
    var hs := s.handlers;
    var most := seq(cfg.nthread, _ => cfg.nreq as int);
    SumConstant(most, cfg.nreq);
    SumUpdate(most, id, 0);
    forall h: nat | h < cfg.nthread ensures Helds(hs)[h] <= most[id := 0][h] {
      assert HandlerOk(cfg, s.pool, h, hs[h]);
    }
    SumMonotone(Helds(hs), most[id := 0]);
  }

  lemma {:induction false} StepServes(cfg: Config, s: State, id: nat)
    requires Inv(cfg, s) && AllServed(cfg, s) && Enough(cfg)
    ensures AllServed(cfg, Step(cfg, s, id))
  {
    if id < cfg.nthread && s.handlers[id].pc.Queued? {
      assert HandlerOk(cfg, s.pool, id, s.handlers[id]);
      ShareIsLeft(cfg, s, id);
      TakeOk(cfg, s.pool, id, cfg.nreq);
    }
  }

  lemma {:induction false} EnoughServes(cfg: Config, ids: seq<nat>)
    requires Enough(cfg)
    ensures AllServed(cfg, Exec(cfg, Init(cfg), ids))
    decreases |ids|
  {
    if |ids| > 0 {
      EnoughServes(cfg, ids[..|ids| - 1]);
      Always(cfg, ids[..|ids| - 1]);
      StepServes(cfg, Exec(cfg, Init(cfg), ids[..|ids| - 1]), ids[|ids| - 1]);
    }
  }

  /** The first k handlers take their blocks before anybody gives any back. */
  lemma {:induction false} AllTake(cfg: Config, k: nat) returns (ids: seq<nat>)
    requires cfg.iters > 0 && k <= cfg.nthread
    ensures var s := Exec(cfg, Init(cfg), ids);
      |s.handlers| == cfg.nthread
      && forall h: nat :: h < cfg.nthread ==>
          if h < k then s.handlers[h].pc.Holding? else s.handlers[h] == Handler(0, Idle, [])
  {
    ids := [];
    if k > 0 {
      var front := AllTake(cfg, k - 1);
      ids := front + [k - 1, k - 1];
      assert ids[..|ids| - 1] == front + [k - 1];
      assert (front + [k - 1])[..|front|] == front;
      assert Exec(cfg, Init(cfg), front + [k - 1]) == Step(cfg, Exec(cfg, Init(cfg), front), k - 1);
    }
  }

  lemma {:induction false} CountAtMost(mine: seq<int>)
    ensures Count(mine) <= |mine|
    decreases |mine|
  {
    if |mine| > 0 {
      CountAtMost(mine[..|mine| - 1]);
    }
  }

  lemma {:induction false} AllTakingNeedsEnough(cfg: Config, s: State)
    requires Inv(cfg, s) && !Short(cfg, s) && forall h: nat :: h < cfg.nthread ==> s.handlers[h].pc.Holding?
    ensures Enough(cfg)
  {
    var hs := s.handlers;
    forall h: nat | h < cfg.nthread ensures Helds(hs)[h] == cfg.nreq {
      assert HandlerOk(cfg, s.pool, h, hs[h]);
      CountAtMost(hs[h].mine);
    }
    SumConstant(Helds(hs), cfg.nreq);
  }

  /** Every handler always gets all its blocks exactly when there are enough for all of them at once. */
  lemma {:induction false} ServedIffEnough(cfg: Config)
    requires cfg.iters > 0
    ensures NeverShort(cfg) <==> Enough(cfg)
  {
    if Enough(cfg) {
      forall ids: seq<nat> ensures !Short(cfg, Exec(cfg, Init(cfg), ids)) {
        EnoughServes(cfg, ids);
      }
    } else {
      var ids := AllTake(cfg, cfg.nthread);
      Always(cfg, ids);
      if !Short(cfg, Exec(cfg, Init(cfg), ids)) {
        AllTakingNeedsEnough(cfg, Exec(cfg, Init(cfg), ids));
      }
    }
  }
}
