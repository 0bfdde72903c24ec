/**
 The speculate-or-serialize conflict detector, as a specification: coroutines read a shared
 versioned entry, park at the accelerator and commit later. A step is what happens between two
 accesses another agent can interleave with: the device finishing a slot, the dispatcher noticing
 a finished slot, or the dispatcher running one coroutine up to its next yield.
 */
module ConflictDetector {
  import opened Distinct
  import opened Sums

  datatype Mode = Naive | Detect | Serial | Lock

  datatype Entry = Entry(val: int, ver: nat)

  datatype Slot = Slot(active: bool, done: bool)

  /** `iter`, `v` and `ver` are the body's locals; `parked` is its program counter: inside
      `coro_offload` when true, at the head of iteration `iter` when false. */
  datatype Coro = Coro(iter: nat, parked: bool, waiting: bool, finished: bool, v: int, ver: nat)

  /** History entry: coroutine `id` committed its iteration `iter` on `key`, computed from version `base`. */
  datatype Commit = Commit(id: nat, iter: nat, key: nat, base: nat)

  /** `post(id, iter, v)` is the post-processing applied to the value read. */
  datatype Config = Config(mode: Mode, nkey: nat, ncoro: nat, iters: nat, post: (nat, nat, int) -> int)

  datatype State = State(
    cache: seq<Entry>, locks: seq<bool>, coros: seq<Coro>, slots: seq<Slot>,
    commits: nat, fallbacks: nat, lockwaits: nat, hist: seq<Commit>)

  datatype Label = Device(j: nat) | Reap(j: nat) | Dispatch(j: nat)

  /** The entry that coroutine `id` touches in iteration `i`: 32-bit unsigned arithmetic. */
  function Key(cfg: Config, id: nat, i: nat): (k: nat)
    requires cfg.nkey > 0
    ensures k < cfg.nkey
  {
    ((id * 2654435761 + i * 40503) % 0x1_0000_0000) % cfg.nkey
  }

  /** `uint32_t` arithmetic: every operation wraps. */
  function Add32(a: nat, b: nat): nat
  {
    (a + b) % 0x1_0000_0000
  }

  function Mul32(a: nat, b: nat): nat
  {
    a * b % 0x1_0000_0000
  }

  lemma {:induction false} WrapsAgain(a: nat, q: nat)
    ensures (q * 0x1_0000_0000 + a) % 0x1_0000_0000 == a % 0x1_0000_0000
  {
  }

  /** The key is the one that 32-bit machine arithmetic computes from the two integers, operation by operation. */
  lemma {:induction false} KeyByMachine(cfg: Config, id: nat, i: nat)
    requires cfg.nkey > 0
    ensures var a, b := Mul32(id % 0x1_0000_0000, 2654435761), Mul32(i % 0x1_0000_0000, 40503);
      Key(cfg, id, i) == Add32(a, b) % cfg.nkey
  {
    var x, y := id % 0x1_0000_0000 * 2654435761, i % 0x1_0000_0000 * 40503;
    var q := id / 0x1_0000_0000 * 2654435761 + i / 0x1_0000_0000 * 40503;
    var a, b := x % 0x1_0000_0000, y % 0x1_0000_0000;
    assert id * 2654435761 + i * 40503 == (q + x / 0x1_0000_0000 + y / 0x1_0000_0000) * 0x1_0000_0000 + (a + b);
    WrapsAgain(a + b, q + x / 0x1_0000_0000 + y / 0x1_0000_0000);
  }

  ghost predicate Shaped(cfg: Config, s: State)
  {
    && cfg.nkey > 0
    && |s.cache| == |s.locks| == cfg.nkey
    && |s.coros| == |s.slots| == cfg.ncoro
  }

  function Init(cfg: Config): State
  {
    State(seq(cfg.nkey, _ => Entry(0, 0)), seq(cfg.nkey, _ => false),
          seq(cfg.ncoro, _ => Coro(0, false, false, false, 0, 0)), seq(cfg.ncoro, _ => Slot(false, false)),
          0, 0, 0, [])
  }

  // ---------- Steps ----------

  function MyKey(cfg: Config, s: State, j: nat): (k: nat)
    requires Shaped(cfg, s) && j < cfg.ncoro
    ensures k < cfg.nkey
  {
    Key(cfg, j, s.coros[j].iter)
  }

  /** Park coroutine j at the accelerator, remembering what it read. */
  function Offload(cfg: Config, s: State, j: nat, e: Entry): State
    requires Shaped(cfg, s) && j < cfg.ncoro
  {
    s.(coros := s.coros[j := s.coros[j].(parked := true, waiting := true, v := e.val, ver := e.ver)],
       slots := s.slots[j := Slot(true, false)])
  }

  /** Write the post-processed value and bump the version. */
  function CommitOn(cfg: Config, s: State, j: nat, e: Entry): State
    requires Shaped(cfg, s) && j < cfg.ncoro
  {
    var k := MyKey(cfg, s, j);
    s.(cache := s.cache[k := Entry(cfg.post(j, s.coros[j].iter, e.val), s.cache[k].ver + 1)],
       commits := s.commits + 1,
       hist := s.hist + [Commit(j, s.coros[j].iter, k, e.ver)])
  }

  /** From the head of the loop to the next yield, or to the end of the body. */
  function Begin(cfg: Config, s: State, j: nat): State
    requires Shaped(cfg, s) && j < cfg.ncoro
  {
    var k := MyKey(cfg, s, j);
    if s.coros[j].iter >= cfg.iters then s.(coros := s.coros[j := s.coros[j].(finished := true)])
    else match cfg.mode
      case Lock =>
        if s.locks[k] then s.(lockwaits := s.lockwaits + 1)
        else Offload(cfg, s.(locks := s.locks[k := true]), j, s.cache[k])
      case Serial => var s' := CommitOn(cfg, s, j, s.cache[k]); Offload(cfg, s', j, s.cache[k])
      case _ => Offload(cfg, s, j, s.cache[k])
  }

  /** From the return of the offload to the end of the iteration. */
  function Finish(cfg: Config, s: State, j: nat): State
    requires Shaped(cfg, s) && j < cfg.ncoro
  {
    var k := MyKey(cfg, s, j);
    var c := s.coros[j];
    var read := Entry(c.v, c.ver);
    var s1 := match cfg.mode
      case Lock => CommitOn(cfg, s, j, read).(locks := s.locks[k := false])
      case Serial => s
      case Naive => CommitOn(cfg, s, j, read)
      case Detect =>
        if s.cache[k].ver != c.ver then CommitOn(cfg, s, j, s.cache[k]).(fallbacks := s.fallbacks + 1)
        else CommitOn(cfg, s, j, read);
    s1.(coros := s1.coros[j := c.(iter := c.iter + 1, parked := false)])
  }

  function Resume(cfg: Config, s: State, j: nat): State
    requires Shaped(cfg, s) && j < cfg.ncoro
  {
    Begin(cfg, if s.coros[j].parked then Finish(cfg, s, j) else s, j)
  }

  function Step(cfg: Config, s: State, l: Label): (s': State)
    requires Shaped(cfg, s)
    ensures Shaped(cfg, s')
  {
    if l.j >= cfg.ncoro then s else
    var c := s.coros[l.j];
    var d := s.slots[l.j];
    match l
    case Device(j) => if d.active && !d.done then s.(slots := s.slots[j := d.(done := true)]) else s
    case Reap(j) =>
      if c.waiting && d.done then
        s.(coros := s.coros[j := c.(waiting := false)], slots := s.slots[j := d.(active := false)])
      else s
    case Dispatch(j) => if c.finished || c.waiting then s else Resume(cfg, s, j)
  }

  /** An arbitrary schedule of device and dispatcher steps. */
  function Exec(cfg: Config, s: State, labels: seq<Label>): (s': State)
    requires Shaped(cfg, s)
    ensures Shaped(cfg, s')
    decreases |labels|
  {
    if |labels| == 0 then s
    else Step(cfg, Exec(cfg, s, labels[..|labels| - 1]), labels[|labels| - 1])
  }

  // ---------- The meaning of a history ----------

  /** The commits on key k, oldest first: the n-th of them produced version n + 1. */
  function Log(hist: seq<Commit>, k: nat): (log: seq<Commit>)
    ensures |log| <= |hist|
  {
    if |hist| == 0 then []
    else
      var log := Log(hist[..|hist| - 1], k);
      if hist[|hist| - 1].key == k then log + [hist[|hist| - 1]] else log
  }

  /** The value of version n: the post-processing applied along the chain of versions it was computed from. */
  function ValueAt(cfg: Config, log: seq<Commit>, n: nat): int
  {
    if n == 0 || n > |log| || log[n - 1].base >= n then 0
    else cfg.post(log[n - 1].id, log[n - 1].iter, ValueAt(cfg, log, log[n - 1].base))
  }

  /** The atomic reference: every committed read-modify-write applied in one go, in commit order. */
  function Replay(cfg: Config, hist: seq<Commit>): (vals: seq<int>)
    ensures |vals| == cfg.nkey
  {
    if |hist| == 0 then seq(cfg.nkey, _ => 0)
    else
      var vals := Replay(cfg, hist[..|hist| - 1]);
      var c := hist[|hist| - 1];
      if c.key < cfg.nkey then vals[c.key := cfg.post(c.id, c.iter, vals[c.key])] else vals
  }

  function Vals(s: State): (vals: seq<int>)
    ensures |vals| == |s.cache| && forall k :: 0 <= k < |vals| ==> vals[k] == s.cache[k].val
  {
    seq(|s.cache|, k requires 0 <= k < |s.cache| => s.cache[k].val)
  }

  function Vers(s: State): (vers: seq<int>)
    ensures |vers| == |s.cache| && forall k :: 0 <= k < |vers| ==> vers[k] == s.cache[k].ver
  {
    seq(|s.cache|, k requires 0 <= k < |s.cache| => s.cache[k].ver)
  }

  /** Every commit was computed from the version that was current when it committed. */
  ghost predicate Current(hist: seq<Commit>)
  {
    |hist| == 0 ||
    (Current(hist[..|hist| - 1]) && hist[|hist| - 1].base == |Log(hist[..|hist| - 1], hist[|hist| - 1].key)|)
  }

  lemma {:induction false} ValueStable(cfg: Config, log: seq<Commit>, more: seq<Commit>, n: nat)
    requires n <= |log|
    ensures ValueAt(cfg, log + more, n) == ValueAt(cfg, log, n)
    decreases n
  {
    if n > 0 && log[n - 1].base < n {
      ValueStable(cfg, log, more, log[n - 1].base);
    }
  }

  /** When every commit is current, version by version is the same as one after the other. */
  lemma {:induction false} CurrentIsSerial(cfg: Config, hist: seq<Commit>, k: nat)
    requires Current(hist) && k < cfg.nkey
    ensures Replay(cfg, hist)[k] == ValueAt(cfg, Log(hist, k), |Log(hist, k)|)
    decreases |hist|
  {
    if |hist| > 0 {
      var front, c := hist[..|hist| - 1], hist[|hist| - 1];
      CurrentIsSerial(cfg, front, k);
      if c.key == k {
        ValueStable(cfg, Log(front, k), [c], |Log(front, k)|);
      }
    }
  }

  // ---------- The invariant ----------

  ghost predicate CacheOk(cfg: Config, s: State)
    requires Shaped(cfg, s)
  {
    forall k: nat :: k < cfg.nkey ==>
      s.cache[k].ver == |Log(s.hist, k)| && s.cache[k].val == ValueAt(cfg, Log(s.hist, k), |Log(s.hist, k)|)
  }

  /** What a parked coroutine remembers is some version of its key, with that version's value. */
  ghost predicate Remembers(cfg: Config, s: State, j: nat)
    requires Shaped(cfg, s) && j < cfg.ncoro
  {
    var c, log := s.coros[j], Log(s.hist, MyKey(cfg, s, j));
    c.parked && cfg.mode != Serial ==> c.ver <= |log| && c.v == ValueAt(cfg, log, c.ver)
  }

  ghost predicate Holds(cfg: Config, s: State, j: nat, k: nat)
    requires Shaped(cfg, s)
  {
    j < cfg.ncoro && s.coros[j].parked && MyKey(cfg, s, j) == k
  }

  /** Lock mode: key k is locked exactly while one coroutine is parked on it, and that one read the current version. */
  ghost predicate LocksOk(cfg: Config, s: State)
    requires Shaped(cfg, s)
  {
    cfg.mode == Lock ==>
      && (forall j: nat, k: nat :: Holds(cfg, s, j, k) ==> s.locks[k] && s.coros[j].ver == s.cache[k].ver)
      && (forall j1: nat, j2: nat, k: nat :: Holds(cfg, s, j1, k) && Holds(cfg, s, j2, k) ==> j1 == j2)
      && (forall k: nat :: k < cfg.nkey && s.locks[k] ==> exists j: nat :: Holds(cfg, s, j, k))
  }

  ghost predicate FlagsOk(cfg: Config, s: State)
    requires Shaped(cfg, s)
  {
    forall j: nat :: j < cfg.ncoro ==>
      var c, d := s.coros[j], s.slots[j];
      && c.waiting == d.active
      && (c.waiting ==> c.parked)
      && (c.parked ==> c.iter < cfg.iters)
      && (c.finished ==> !c.parked && c.iter == cfg.iters)
      && c.iter <= cfg.iters
  }

  function Credit(cfg: Config, c: Coro): nat
  {
    c.iter + if cfg.mode == Serial && c.parked then 1 else 0
  }

  function Credits(cfg: Config, s: State): (r: seq<int>)
    ensures |r| == |s.coros| && forall j :: 0 <= j < |r| ==> r[j] == Credit(cfg, s.coros[j])
  {
    seq(|s.coros|, j requires 0 <= j < |s.coros| => Credit(cfg, s.coros[j]))
  }

  /** The history is each coroutine's program order, interleaved. */
  ghost predicate HistOk(cfg: Config, s: State)
    requires Shaped(cfg, s)
  {
    && s.commits == |s.hist| == Sum(Credits(cfg, s)) == Sum(Vers(s))
    && (forall n :: 0 <= n < |s.hist| ==>
          s.hist[n].id < cfg.ncoro && s.hist[n].key == Key(cfg, s.hist[n].id, s.hist[n].iter)
          && s.hist[n].iter < Credit(cfg, s.coros[s.hist[n].id]))
    && (forall m, n :: 0 <= m < n < |s.hist| && s.hist[m].id == s.hist[n].id ==> s.hist[m].iter < s.hist[n].iter)
    && (cfg.mode != Naive ==> Current(s.hist))
  }

  ghost predicate Inv(cfg: Config, s: State)
  {
    && Shaped(cfg, s) && CacheOk(cfg, s) && LocksOk(cfg, s) && FlagsOk(cfg, s) && HistOk(cfg, s)
    && (forall j: nat :: j < cfg.ncoro ==> Remembers(cfg, s, j))
  }

  lemma {:induction false} InitOk(cfg: Config)
    requires cfg.nkey > 0
    ensures Inv(cfg, Init(cfg))
  {
    var s := Init(cfg);
    SumConstant(Credits(cfg, s), 0);
    SumConstant(Vers(s), 0);
    assert HistOk(cfg, s);
    assert FlagsOk(cfg, s);
    assert LocksOk(cfg, s);
    forall k: nat | k < cfg.nkey ensures Log(s.hist, k) == [] && s.cache[k] == Entry(0, 0) {}
  }

  /** What a commit does to the log of one key. */
  lemma {:induction false} CommitLog(cfg: Config, s: State, j: nat, e: Entry, k: nat)
    requires Shaped(cfg, s) && j < cfg.ncoro
    ensures Log(CommitOn(cfg, s, j, e).hist, k)
         == Log(s.hist, k) + if k == MyKey(cfg, s, j) then [Commit(j, s.coros[j].iter, k, e.ver)] else []
    ensures forall n: nat :: n <= |Log(s.hist, k)| ==>
      ValueAt(cfg, Log(CommitOn(cfg, s, j, e).hist, k), n) == ValueAt(cfg, Log(s.hist, k), n)
  {
    var c := Commit(j, s.coros[j].iter, MyKey(cfg, s, j), e.ver);
    var more := if k == MyKey(cfg, s, j) then [c] else [];
    forall n: nat | n <= |Log(s.hist, k)|
      ensures ValueAt(cfg, Log(s.hist, k) + more, n) == ValueAt(cfg, Log(s.hist, k), n)
    {
      ValueStable(cfg, Log(s.hist, k), more, n);
    }
  }

  ghost predicate Readable(cfg: Config, s: State, j: nat, e: Entry)
    requires Shaped(cfg, s) && j < cfg.ncoro
  {
    var log := Log(s.hist, MyKey(cfg, s, j));
    e.ver <= |log| && e.val == ValueAt(cfg, log, e.ver)
  }

  lemma {:induction false} CommitKeepsCache(cfg: Config, s: State, j: nat, e: Entry)
    requires Shaped(cfg, s) && j < cfg.ncoro && CacheOk(cfg, s) && Readable(cfg, s, j, e)
    ensures CacheOk(cfg, CommitOn(cfg, s, j, e))
  {
    var s' := CommitOn(cfg, s, j, e);
    forall k: nat | k < cfg.nkey
      ensures s'.cache[k].ver == |Log(s'.hist, k)|
      ensures s'.cache[k].val == ValueAt(cfg, Log(s'.hist, k), |Log(s'.hist, k)|)
    {
      CommitLog(cfg, s, j, e, k);
    }
  }

  lemma {:induction false} CommitKeepsMemory(cfg: Config, s: State, j: nat, e: Entry, i: nat)
    requires Shaped(cfg, s) && j < cfg.ncoro && i < cfg.ncoro && Remembers(cfg, s, i)
    ensures Remembers(cfg, CommitOn(cfg, s, j, e), i)
  {
    CommitLog(cfg, s, j, e, MyKey(cfg, s, i));
  }

  lemma {:induction false} CommitCounts(cfg: Config, s: State, j: nat, e: Entry)
    requires Shaped(cfg, s) && j < cfg.ncoro
    ensures Sum(Vers(CommitOn(cfg, s, j, e))) == Sum(Vers(s)) + 1
    ensures Current(s.hist) && e.ver == |Log(s.hist, MyKey(cfg, s, j))| ==> Current(CommitOn(cfg, s, j, e).hist)
  {
    var k := MyKey(cfg, s, j);
    var s' := CommitOn(cfg, s, j, e);
    assert s'.hist[..|s.hist|] == s.hist;
    assert Vers(s') == Vers(s)[k := s.cache[k].ver + 1];
    SumUpdate(Vers(s), k, s.cache[k].ver + 1);
  }

  /** A commit by coroutine j, followed by its moving on, keeps the history in program order. */
  lemma {:induction false} CommitKeepsHist(cfg: Config, s: State, j: nat, e: Entry, c: Coro, s': State)
    requires Shaped(cfg, s) && j < cfg.ncoro && HistOk(cfg, s)
    requires cfg.mode != Naive ==> e.ver == |Log(s.hist, MyKey(cfg, s, j))|
    requires Credit(cfg, s.coros[j]) == s.coros[j].iter || cfg.mode != Serial
    requires Credit(cfg, c) == s.coros[j].iter + 1
    requires var s1 := CommitOn(cfg, s, j, e);
      && Shaped(cfg, s') && s'.cache == s1.cache && s'.hist == s1.hist
      && s'.commits == s1.commits && s'.coros == s.coros[j := c]
    ensures HistOk(cfg, s')
  {
    CommitCounts(cfg, s, j, e);
    assert Vers(s') == Vers(CommitOn(cfg, s, j, e));
    assert Credits(cfg, s') == Credits(cfg, s)[j := Credit(cfg, c)];
    SumUpdate(Credits(cfg, s), j, Credit(cfg, c));
  }

  /** The entry that the end of an iteration commits: what was read, or a fresh read after a conflict. */
  function Used(cfg: Config, s: State, j: nat): Entry
    requires Shaped(cfg, s) && j < cfg.ncoro
  {
    var e := s.cache[MyKey(cfg, s, j)];
    if cfg.mode == Detect && e.ver != s.coros[j].ver then e else Entry(s.coros[j].v, s.coros[j].ver)
  }

  lemma {:induction false} FinishKeepsHist(cfg: Config, s: State, j: nat)
    requires Shaped(cfg, s) && j < cfg.ncoro && s.coros[j].parked && CacheOk(cfg, s) && LocksOk(cfg, s)
    requires HistOk(cfg, s) && Remembers(cfg, s, j)
    ensures CacheOk(cfg, Finish(cfg, s, j)) && HistOk(cfg, Finish(cfg, s, j))
  {
    var s' := Finish(cfg, s, j);
    if cfg.mode == Serial {
      QuietStep(cfg, s, s');
    } else {
      var e := Used(cfg, s, j);
      assert Holds(cfg, s, j, MyKey(cfg, s, j));
      CommitKeepsCache(cfg, s, j, e);
      CommitKeepsHist(cfg, s, j, e, s'.coros[j], s');
    }
  }

  lemma {:induction false} FinishKeepsMemory(cfg: Config, s: State, j: nat, i: nat)
    requires Shaped(cfg, s) && j < cfg.ncoro && i < cfg.ncoro && s.coros[j].parked && Remembers(cfg, s, i)
    ensures Remembers(cfg, Finish(cfg, s, j), i)
  {
    if cfg.mode != Serial && i != j {
      CommitKeepsMemory(cfg, s, j, Used(cfg, s, j), i);
      assert MyKey(cfg, Finish(cfg, s, j), i) == MyKey(cfg, s, i);
    }
  }

  lemma {:induction false} FinishKeeps(cfg: Config, s: State, j: nat)
    requires Inv(cfg, s) && j < cfg.ncoro && s.coros[j].parked && !s.coros[j].waiting
    ensures Inv(cfg, Finish(cfg, s, j))
  {
    assert Remembers(cfg, s, j);
    FinishKeepsHist(cfg, s, j);
    FinishKeepsLocks(cfg, s, j);
    forall i: nat | i < cfg.ncoro ensures Remembers(cfg, Finish(cfg, s, j), i) {
      FinishKeepsMemory(cfg, s, j, i);
    }
    assert FlagsOk(cfg, Finish(cfg, s, j)) by {
      FinishKeepsFlags(cfg, s, j);
    }
  }

  lemma FinishKeepsFlags(cfg: Config, s: State, j: nat)
    requires Shaped(cfg, s) && FlagsOk(cfg, s) && j < cfg.ncoro && s.coros[j].parked && !s.coros[j].waiting
    ensures FlagsOk(cfg, Finish(cfg, s, j))
  {
    assert Finish(cfg, s, j).slots == s.slots;
  }

  lemma {:induction false} FinishKeepsLocks(cfg: Config, s: State, j: nat)
    requires Shaped(cfg, s) && j < cfg.ncoro && s.coros[j].parked && LocksOk(cfg, s)
    ensures LocksOk(cfg, Finish(cfg, s, j))
  {
    var s' := Finish(cfg, s, j);
    if cfg.mode == Lock {
      assert Holds(cfg, s, j, MyKey(cfg, s, j));
      forall i: nat, k: nat ensures Holds(cfg, s', i, k) <==> (i != j && Holds(cfg, s, i, k)) {}
    }
  }

  /** A step that commits nothing keeps the cache and the history as they are. */
  lemma {:induction false} QuietStep(cfg: Config, s: State, s': State)
    requires Shaped(cfg, s) && Shaped(cfg, s') && CacheOk(cfg, s) && HistOk(cfg, s)
    requires s'.cache == s.cache && s'.hist == s.hist && s'.commits == s.commits
    requires forall i :: 0 <= i < cfg.ncoro ==> Credit(cfg, s'.coros[i]) == Credit(cfg, s.coros[i])
    ensures CacheOk(cfg, s') && HistOk(cfg, s')
  {
    assert Vers(s') == Vers(s);
    assert Credits(cfg, s') == Credits(cfg, s);
  }

  lemma {:induction false} BeginKeepsHist(cfg: Config, s: State, j: nat)
    requires Shaped(cfg, s) && j < cfg.ncoro && !s.coros[j].parked && CacheOk(cfg, s) && HistOk(cfg, s)
    ensures CacheOk(cfg, Begin(cfg, s, j)) && HistOk(cfg, Begin(cfg, s, j))
  {
    var s' := Begin(cfg, s, j);
    if s.coros[j].iter < cfg.iters && cfg.mode == Serial {
      var e := s.cache[MyKey(cfg, s, j)];
      CommitKeepsCache(cfg, s, j, e);
      CommitKeepsHist(cfg, s, j, e, s'.coros[j], s');
    } else {
      QuietStep(cfg, s, s');
    }
  }

  lemma {:induction false} BeginKeeps(cfg: Config, s: State, j: nat)
    requires Inv(cfg, s) && j < cfg.ncoro && !s.coros[j].parked && !s.coros[j].finished
    ensures Inv(cfg, Begin(cfg, s, j))
  {
    BeginKeepsHist(cfg, s, j);
    BeginKeepsLocks(cfg, s, j);
    BeginKeepsFlags(cfg, s, j);
    hide CacheOk, HistOk, LocksOk, FlagsOk, Remembers, Begin;
    forall i: nat | i < cfg.ncoro ensures Remembers(cfg, Begin(cfg, s, j), i) {
      assert Remembers(cfg, s, i);
    }
  }

  lemma {:induction false} BeginKeepsFlags(cfg: Config, s: State, j: nat)
    requires Shaped(cfg, s) && j < cfg.ncoro && !s.coros[j].parked && !s.coros[j].finished && FlagsOk(cfg, s)
    ensures Shaped(cfg, Begin(cfg, s, j)) && FlagsOk(cfg, Begin(cfg, s, j))
  {
  }

  lemma {:induction false} BeginKeepsLocks(cfg: Config, s: State, j: nat)
    requires Shaped(cfg, s) && j < cfg.ncoro && !s.coros[j].parked && LocksOk(cfg, s)
    ensures LocksOk(cfg, Begin(cfg, s, j))
  {
    var s' := Begin(cfg, s, j);
    if cfg.mode == Lock {
      forall i: nat, k: nat
        ensures Holds(cfg, s', i, k)
           <==> Holds(cfg, s, i, k) || (i == j && s'.coros[j].parked && k == MyKey(cfg, s, j))
      {}
      if s'.coros[j].parked {
        assert Holds(cfg, s', j, MyKey(cfg, s, j));
      }
    }
  }

  lemma {:induction false} FlagStepKeepsLocks(cfg: Config, s: State, l: Label)
    requires Shaped(cfg, s) && LocksOk(cfg, s) && !l.Dispatch?
    ensures LocksOk(cfg, Step(cfg, s, l))
  {
    var s' := Step(cfg, s, l);
    forall i: nat, k: nat ensures Holds(cfg, s', i, k) <==> Holds(cfg, s, i, k) {}
  }

  lemma {:induction false} FlagStepKeeps(cfg: Config, s: State, l: Label)
    requires Inv(cfg, s) && !l.Dispatch?
    ensures Inv(cfg, Step(cfg, s, l))
  {
    var s' := Step(cfg, s, l);
    QuietStep(cfg, s, s');
    FlagStepKeepsLocks(cfg, s, l);
    hide CacheOk, HistOk, LocksOk, ValueAt, Log;
    forall i: nat | i < cfg.ncoro ensures Remembers(cfg, s', i) {
      assert Remembers(cfg, s, i);
      assert MyKey(cfg, s', i) == MyKey(cfg, s, i);
    }
  }

  /** Every step of every agent, in every mode, keeps the invariant. */
  lemma {:induction false} StepKeeps(cfg: Config, s: State, l: Label)
    requires Inv(cfg, s)
    ensures Inv(cfg, Step(cfg, s, l))
  {
    if l.Dispatch? && l.j < cfg.ncoro && !s.coros[l.j].finished && !s.coros[l.j].waiting {
      if s.coros[l.j].parked {
        FinishKeeps(cfg, s, l.j);
        BeginKeeps(cfg, Finish(cfg, s, l.j), l.j);
      } else {
        BeginKeeps(cfg, s, l.j);
      }
    } else if !l.Dispatch? {
      FlagStepKeeps(cfg, s, l);
    }
  }

  lemma {:induction false} ExecKeeps(cfg: Config, s: State, labels: seq<Label>)
    requires Inv(cfg, s)
    ensures Inv(cfg, Exec(cfg, s, labels))
    decreases |labels|
  {
    if |labels| > 0 {
      ExecKeeps(cfg, s, labels[..|labels| - 1]);
      StepKeeps(cfg, Exec(cfg, s, labels[..|labels| - 1]), labels[|labels| - 1]);
    }
  }

  // ---------- Main results ----------

  /** Detect, lock and serial mode are serializable under every schedule: the cache holds what the
      committed read-modify-writes give when applied one after the other in commit order. */
  lemma {:induction false} Serializable(cfg: Config, labels: seq<Label>)
    requires cfg.nkey > 0 && cfg.mode != Naive
    ensures var s := Exec(cfg, Init(cfg), labels);
      Vals(s) == Replay(cfg, s.hist)
  {
    InitOk(cfg);
    ExecKeeps(cfg, Init(cfg), labels);
    var s := Exec(cfg, Init(cfg), labels);
    forall k: nat | k < cfg.nkey ensures Vals(s)[k] == Replay(cfg, s.hist)[k] {
      CurrentIsSerial(cfg, s.hist, k);
    }
  }

  ghost predicate Increments(cfg: Config)
  {
    forall id: nat, i: nat, v: int :: cfg.post(id, i, v) == v + 1
  }

  /** The commits on a key whose effect is still in version n: those on its chain of origins. */
  function Survivors(log: seq<Commit>, n: nat): (ids: set<nat>)
    ensures forall i :: i in ids ==> i < n && i < |log|
  {
    if n == 0 || n > |log| || log[n - 1].base >= n then {}
    else Survivors(log, log[n - 1].base) + {n - 1}
  }

  /** The updates of a key that are lost: committed, but not on the chain of the latest version. */
  function Lost(log: seq<Commit>): (ids: set<nat>)
    ensures forall i: nat :: i in ids <==> i < |log| && i !in Survivors(log, |log|)
  {
    Ids(|log|) - Survivors(log, |log|)
  }

  lemma {:induction false} SurvivorsCount(cfg: Config, log: seq<Commit>, n: nat)
    requires Increments(cfg)
    ensures ValueAt(cfg, log, n) == |Survivors(log, n)|
    decreases n
  {
    if 0 < n <= |log| && log[n - 1].base < n {
      SurvivorsCount(cfg, log, log[n - 1].base);
      assert n - 1 !in Survivors(log, log[n - 1].base);
    }
  }

  function Losses(cfg: Config, s: State): (r: seq<int>)
    ensures |r| == cfg.nkey && forall k: nat :: k < cfg.nkey ==> r[k] == |Lost(Log(s.hist, k))|
  {
    seq(cfg.nkey, (k: nat) => |Lost(Log(s.hist, k))|)
  }

  lemma {:induction false} SumDifference(a: seq<int>, b: seq<int>, c: seq<int>)
    requires |a| == |b| == |c| && forall i :: 0 <= i < |a| ==> a[i] == b[i] + c[i]
    ensures Sum(a) == Sum(b) + Sum(c)
    decreases |a|
  {
    if |a| > 0 {
      SumDifference(a[..|a| - 1], b[..|a| - 1], c[..|a| - 1]);
    }
  }

  lemma {:induction false} LossOf(cfg: Config, s: State)
    requires Inv(cfg, s) && Increments(cfg)
    ensures Sum(Vers(s)) - Sum(Vals(s)) == Sum(Losses(cfg, s)) >= 0
    ensures forall k: nat :: k < cfg.nkey ==> s.cache[k].ver - s.cache[k].val == |Lost(Log(s.hist, k))|
    ensures cfg.mode != Naive ==> Vals(s) == Vers(s)
  {
    assert Shaped(cfg, s);
    hide Inv, Log, Lost, Sum, Increments;
    forall k: nat | k < cfg.nkey
      ensures s.cache[k].ver - s.cache[k].val == |Lost(Log(s.hist, k))|
      ensures cfg.mode != Naive ==> s.cache[k].val == s.cache[k].ver
    {
      KeyLoss(cfg, s, k);
    }
    SumDifference(Vers(s), Vals(s), Losses(cfg, s));
    SumNonNegative(Losses(cfg, s));
  }

  /** The oracle of every mode, for increments: the commits not in the sum are exactly the lost updates,
      so the reported loss is never negative, and it is zero in every mode but the naive one. */
  lemma {:induction false} LossAccount(cfg: Config, labels: seq<Label>)
    requires cfg.nkey > 0 && Increments(cfg)
    ensures var s := Exec(cfg, Init(cfg), labels);
      && s.commits == |s.hist| == Sum(Vers(s))
      && s.commits - Sum(Vals(s)) == Sum(Losses(cfg, s)) >= 0
      && (forall k: nat :: k < cfg.nkey ==> s.cache[k].ver - s.cache[k].val == |Lost(Log(s.hist, k))|)
      && (cfg.mode != Naive ==> Sum(Vals(s)) == s.commits && Vals(s) == Vers(s))
  {
    InitOk(cfg);
    ExecKeeps(cfg, Init(cfg), labels);
    var s := Exec(cfg, Init(cfg), labels);
    assert s.commits == |s.hist| == Sum(Vers(s));
    hide Inv, Exec, Init, Log, Lost, Sum, Losses, Increments;
    LossOf(cfg, s);
  }

  lemma {:induction false} KeyLoss(cfg: Config, s: State, k: nat)
    requires Inv(cfg, s) && Increments(cfg) && k < cfg.nkey
    ensures s.cache[k].ver - s.cache[k].val == |Lost(Log(s.hist, k))|
    ensures cfg.mode != Naive ==> s.cache[k].val == s.cache[k].ver
  {
    var log := Log(s.hist, k);
    SurvivorsCount(cfg, log, |log|);
    assert Survivors(log, |log|) <= Ids(|log|);
    if cfg.mode != Naive {
      CurrentIsSerial(cfg, s.hist, k);
      ReplayCounts(cfg, s.hist, k);
    }
  }

  lemma {:induction false} ReplayCounts(cfg: Config, hist: seq<Commit>, k: nat)
    requires Increments(cfg) && k < cfg.nkey
    ensures Replay(cfg, hist)[k] == |Log(hist, k)|
    decreases |hist|
  {
    if |hist| > 0 {
      ReplayCounts(cfg, hist[..|hist| - 1], k);
    }
  }

  /** Lock mode: at most one coroutine is parked on a key, and what it read is what its key still holds. */
  lemma {:induction false} LockExcludes(cfg: Config, labels: seq<Label>, i: nat, j: nat)
    requires cfg.nkey > 0 && cfg.mode == Lock && i < cfg.ncoro && j < cfg.ncoro
    ensures var s := Exec(cfg, Init(cfg), labels);
      && (s.coros[i].parked && s.coros[j].parked && MyKey(cfg, s, i) == MyKey(cfg, s, j) ==> i == j)
      && (s.coros[i].parked ==> s.locks[MyKey(cfg, s, i)] && s.coros[i].v == s.cache[MyKey(cfg, s, i)].val)
  {
    InitOk(cfg);
    ExecKeeps(cfg, Init(cfg), labels);
    var s := Exec(cfg, Init(cfg), labels);
    assert Remembers(cfg, s, i);
    assert s.coros[i].parked ==> Holds(cfg, s, i, MyKey(cfg, s, i));
    assert s.coros[j].parked ==> Holds(cfg, s, j, MyKey(cfg, s, j));
  }

  // ---------- When detect mode falls back ----------

  ghost predicate OnKey(hist: seq<Commit>, from: nat, k: nat)
  {
    exists n :: from <= n < |hist| && hist[n].key == k
  }

  lemma {:induction false} LogGrows(hist: seq<Commit>, from: nat, k: nat)
    requires from <= |hist|
    ensures |Log(hist[..from], k)| <= |Log(hist, k)|
    ensures |Log(hist[..from], k)| < |Log(hist, k)| <==> OnKey(hist, from, k)
    decreases |hist| - from
  {
    if from < |hist| {
      LogGrows(hist, from + 1, k);
      assert hist[..from + 1] == hist[..from] + [hist[from]];
    } else {
      assert hist[..from] == hist;
    }
  }

  /** From s to s2 the past is kept, and so are a parked coroutine's locals while it stays in its iteration. */
  ghost predicate Freezes(s: State, s2: State, j: nat)
  {
    && j < |s.coros| == |s2.coros|
    && s.hist <= s2.hist && s.fallbacks <= s2.fallbacks
    && s.coros[j].iter <= s2.coros[j].iter
    && (s.coros[j].parked && s2.coros[j].iter == s.coros[j].iter ==>
          s2.coros[j].parked && s2.coros[j].v == s.coros[j].v && s2.coros[j].ver == s.coros[j].ver)
  }

  lemma FinishFreezes(cfg: Config, s: State, i: nat, j: nat)
    requires Shaped(cfg, s) && i < cfg.ncoro && j < cfg.ncoro && s.coros[i].parked
    ensures Freezes(s, Finish(cfg, s, i), j)
  {
    var s1 := match cfg.mode case Serial => s case _ => CommitOn(cfg, s, i, Used(cfg, s, i));
    assert s1.coros == s.coros && s.hist <= s1.hist;
  }

  lemma BeginFreezes(cfg: Config, s: State, i: nat, j: nat)
    requires Shaped(cfg, s) && i < cfg.ncoro && j < cfg.ncoro && !s.coros[i].parked
    ensures Freezes(s, Begin(cfg, s, i), j)
  {
  }

  lemma {:induction false} StepFreezes(cfg: Config, s: State, l: Label, j: nat)
    requires Shaped(cfg, s) && j < cfg.ncoro
    ensures Freezes(s, Step(cfg, s, l), j)
  {
    if l.Dispatch? && l.j < cfg.ncoro && !s.coros[l.j].finished && !s.coros[l.j].waiting {
      var s1 := if s.coros[l.j].parked then Finish(cfg, s, l.j) else s;
      if s.coros[l.j].parked {
        FinishFreezes(cfg, s, l.j, j);
      }
      BeginFreezes(cfg, s1, l.j, j);
      assert Step(cfg, s, l) == Begin(cfg, s1, l.j);
    }
  }

  lemma {:induction false} ExecFreezes(cfg: Config, s: State, labels: seq<Label>, j: nat)
    requires Shaped(cfg, s) && j < cfg.ncoro
    ensures Freezes(s, Exec(cfg, s, labels), j)
    decreases |labels|
  {
    if |labels| > 0 {
      var front := labels[..|labels| - 1];
      ExecFreezes(cfg, s, front, j);
      StepFreezes(cfg, Exec(cfg, s, front), labels[|labels| - 1], j);
    }
  }

  /** Detect mode falls back exactly when another commit hit the key between the read (state `read`)
      and the commit; for increments, exactly when the value read is stale. */
  lemma {:induction false} FallbackIffConflict(cfg: Config, read: State, labels: seq<Label>, j: nat)
    requires Inv(cfg, read) && cfg.mode == Detect && j < cfg.ncoro && read.coros[j].parked
    requires read.coros[j].ver == read.cache[MyKey(cfg, read, j)].ver
    requires Exec(cfg, read, labels).coros[j].iter == read.coros[j].iter
    ensures var s := Exec(cfg, read, labels);
      && Finish(cfg, s, j).fallbacks == s.fallbacks + (if OnKey(s.hist, |read.hist|, MyKey(cfg, s, j)) then 1 else 0)
      && (Increments(cfg) ==>
            (OnKey(s.hist, |read.hist|, MyKey(cfg, s, j)) <==> s.coros[j].v != s.cache[MyKey(cfg, s, j)].val))
  {
    ExecFreezes(cfg, read, labels, j);
    ExecKeeps(cfg, read, labels);
    var s := Exec(cfg, read, labels);
    var k := MyKey(cfg, s, j);
    LogGrows(s.hist, |read.hist|, k);
    assert s.hist[..|read.hist|] == read.hist;
    if Increments(cfg) {
      KeyLoss(cfg, s, k);
      KeyLoss(cfg, read, k);
      assert Remembers(cfg, read, j);
    }
  }

  /** On every run: let coroutine j have just read after the labels `before`, and still be in that iteration after
      `labels`. If it finishes now it falls back exactly when the key was committed to in between. */
  lemma {:induction false} FallsBackIffStale(cfg: Config, before: seq<Label>, labels: seq<Label>, j: nat)
    requires cfg.nkey > 0 && cfg.mode == Detect && j < cfg.ncoro
    ensures var read := Exec(cfg, Init(cfg), before);
      var s := Exec(cfg, read, labels);
      var k := MyKey(cfg, s, j);
      (read.coros[j].parked && read.coros[j].ver == read.cache[MyKey(cfg, read, j)].ver
       && s.coros[j].iter == read.coros[j].iter) ==>
        && Finish(cfg, s, j).fallbacks == s.fallbacks + (if OnKey(s.hist, |read.hist|, k) then 1 else 0)
        && (Increments(cfg) ==> (OnKey(s.hist, |read.hist|, k) <==> s.coros[j].v != s.cache[k].val))
  {
    InitOk(cfg);
    ExecKeeps(cfg, Init(cfg), before);
    var read := Exec(cfg, Init(cfg), before);
    hide Inv, Exec, Finish, Increments;
    if read.coros[j].parked && read.coros[j].ver == read.cache[MyKey(cfg, read, j)].ver
      && Exec(cfg, read, labels).coros[j].iter == read.coros[j].iter {
      FallbackIffConflict(cfg, read, labels, j);
    }
  }

  // ---------- Detect mode without conflicts is naive mode ----------

  lemma {:induction false} QuietStepIsNaive(cfg: Config, s: State, l: Label)
    requires Shaped(cfg, s) && cfg.mode == Detect && Step(cfg, s, l).fallbacks == s.fallbacks
    ensures Step(cfg.(mode := Naive), s, l) == Step(cfg, s, l)
  {
    var naive := cfg.(mode := Naive);
    if l.Dispatch? && l.j < cfg.ncoro && s.coros[l.j].parked {
      assert Finish(cfg, s, l.j).fallbacks == s.fallbacks ==> Finish(naive, s, l.j) == Finish(cfg, s, l.j);
    }
  }

  lemma FallbacksGrow(cfg: Config, s: State, l: Label)
    requires Shaped(cfg, s)
    ensures s.fallbacks <= Step(cfg, s, l).fallbacks
  {
    if l.j < cfg.ncoro {
      StepFreezes(cfg, s, l, l.j);
    }
  }

  /** A detect run that never falls back is, state for state, the naive run under the same schedule. */
  lemma {:induction false} QuietDetectIsNaive(cfg: Config, labels: seq<Label>)
    requires cfg.nkey > 0 && cfg.mode == Detect
    requires Exec(cfg, Init(cfg), labels).fallbacks == 0
    ensures Exec(cfg.(mode := Naive), Init(cfg), labels) == Exec(cfg, Init(cfg), labels)
    decreases |labels|
  {
    if |labels| > 0 {
      var front, l := labels[..|labels| - 1], labels[|labels| - 1];
      var s := Exec(cfg, Init(cfg), front);
      hide Step;
      FallbacksGrow(cfg, s, l);
      QuietDetectIsNaive(cfg, front);
      QuietStepIsNaive(cfg, s, l);
    }
  }

  // ---------- Progress ----------

  /** Steps coroutine c can still make, given its slot d. */
  function Rank(cfg: Config, c: Coro, d: Slot): nat
  {
    var left := if c.iter < cfg.iters then cfg.iters - c.iter else 0;
    if c.finished then 0
    else if !c.parked then 4 * left + 1
    else if left == 0 then 0
    else if !c.waiting then 4 * left - 2
    else if d.done then 4 * left - 1
    else 4 * left
  }

  function Ranks(cfg: Config, s: State): (r: seq<int>)
    requires Shaped(cfg, s)
    ensures |r| == cfg.ncoro && forall j :: 0 <= j < |r| ==> r[j] == Rank(cfg, s.coros[j], s.slots[j])
  {
    seq(cfg.ncoro, j requires 0 <= j < cfg.ncoro => Rank(cfg, s.coros[j], s.slots[j]))
  }

  ghost function Work(cfg: Config, s: State): nat
    requires Shaped(cfg, s)
  {
    SumNonNegative(Ranks(cfg, s));
    Sum(Ranks(cfg, s))
  }

  /** The step does something other than retry a held lock. */
  ghost predicate Effective(cfg: Config, s: State, l: Label)
    requires Shaped(cfg, s) && l.j < cfg.ncoro
  {
    var c, d := s.coros[l.j], s.slots[l.j];
    match l
    case Device(j) => d.active && !d.done
    case Reap(j) => c.waiting && d.done
    case Dispatch(j) =>
      !c.finished && !c.waiting
      && (c.parked || c.iter >= cfg.iters || cfg.mode != Lock || !s.locks[MyKey(cfg, s, j)])
  }

  lemma {:induction false} RankDrops(cfg: Config, s: State, l: Label, i: nat)
    requires Inv(cfg, s) && l.j < cfg.ncoro && i < cfg.ncoro && Effective(cfg, s, l)
    ensures var s' := Step(cfg, s, l);
      if i == l.j then Rank(cfg, s'.coros[i], s'.slots[i]) < Rank(cfg, s.coros[i], s.slots[i])
      else s'.coros[i] == s.coros[i] && s'.slots[i] == s.slots[i]
  {
    if l.Dispatch? {
      var s1 := if s.coros[l.j].parked then Finish(cfg, s, l.j) else s;
      assert i != l.j ==> s1.coros[i] == s.coros[i];
      assert s1.slots == s.slots;
      assert Step(cfg, s, l) == Begin(cfg, s1, l.j);
    }
  }

  /** An effective step lowers the work left; any other step only counts a lock retry. */
  lemma {:induction false} StepWorks(cfg: Config, s: State, l: Label)
    requires Inv(cfg, s) && l.j < cfg.ncoro
    ensures var s' := Step(cfg, s, l);
      if Effective(cfg, s, l) then Work(cfg, s') < Work(cfg, s)
      else s' == s.(lockwaits := s'.lockwaits) && Work(cfg, s') == Work(cfg, s)
  {
    var s' := Step(cfg, s, l);
    if Effective(cfg, s, l) {
      forall i: nat | i < cfg.ncoro
        ensures Ranks(cfg, s')[i] <= Ranks(cfg, s)[i] && (i == l.j ==> Ranks(cfg, s')[i] < Ranks(cfg, s)[i])
      {
        RankDrops(cfg, s, l, i);
      }
      SumMonotone(Ranks(cfg, s'), Ranks(cfg, s));
    } else {
      assert Ranks(cfg, s') == Ranks(cfg, s);
    }
  }

  /** Since `start` work got done, or else nothing but lock retries happened. */
  ghost predicate Progress(cfg: Config, start: State, s: State)
    requires Shaped(cfg, start) && Shaped(cfg, s)
  {
    && Work(cfg, s) <= Work(cfg, start)
    && (Work(cfg, s) == Work(cfg, start) ==> s == start.(lockwaits := s.lockwaits))
  }

  /** State s is reached from `origin` by the labels in `trace`. */
  ghost predicate Reached(cfg: Config, origin: State, trace: seq<Label>, s: State)
  {
    Shaped(cfg, origin) && Inv(cfg, s) && s == Exec(cfg, origin, trace)
  }

  /** One more step on the way from `origin`: if no work got done since `start`, the label had no effect there. */
  lemma {:induction false} Extend(cfg: Config, origin: State, trace: seq<Label>, s: State, l: Label, start: State)
    requires Reached(cfg, origin, trace, s) && l.j < cfg.ncoro && Shaped(cfg, start) && Progress(cfg, start, s)
    ensures Reached(cfg, origin, trace + [l], Step(cfg, s, l))
    ensures Progress(cfg, start, Step(cfg, s, l))
    ensures Work(cfg, Step(cfg, s, l)) <= Work(cfg, s)
    ensures Work(cfg, Step(cfg, s, l)) == Work(cfg, start) ==> !Effective(cfg, start, l)
  {
    assert (trace + [l])[..|trace|] == trace;
    StepKeeps(cfg, s, l);
    StepWorks(cfg, s, l);
  }

  ghost predicate Outstanding(s: State, j: nat)
  {
    j < |s.slots| && s.slots[j].active && !s.slots[j].done
  }

  ghost predicate AllFinished(s: State)
  {
    forall j :: 0 <= j < |s.coros| ==> s.coros[j].finished
  }

  /** No deadlock: when neither reaping nor dispatching anyone has an effect, the run is over or an offload is
      outstanding. */
  lemma {:induction false} NoDeadlock(cfg: Config, s: State)
    requires Inv(cfg, s) && !AllFinished(s)
    requires forall j: nat :: j < cfg.ncoro ==> !Effective(cfg, s, Reap(j)) && !Effective(cfg, s, Dispatch(j))
    ensures exists j: nat :: Outstanding(s, j)
  {
    var j: nat :| j < |s.coros| && !s.coros[j].finished;
    assert !Effective(cfg, s, Reap(j)) && !Effective(cfg, s, Dispatch(j));
    if s.coros[j].waiting {
      assert Outstanding(s, j);
    } else {
      var h: nat :| Holds(cfg, s, h, MyKey(cfg, s, j));
      assert !Effective(cfg, s, Reap(h)) && !Effective(cfg, s, Dispatch(h));
      assert Outstanding(s, h);
    }
  }

  /** When all coroutines have finished, every iteration of every coroutine has committed once. */
  lemma {:induction false} FinishedCounts(cfg: Config, s: State)
    requires Inv(cfg, s) && AllFinished(s)
    ensures s.commits == cfg.ncoro * cfg.iters
  {
    SumConstant(Credits(cfg, s), cfg.iters);
  }

  /** Under every schedule and in every mode: a run that is over has made exactly one commit per iteration, and a run
      that is not over can go on, unless it waits for the device to finish an offload. */
  lemma {:induction false} RunsToTheEnd(cfg: Config, labels: seq<Label>)
    requires cfg.nkey > 0
    ensures var s := Exec(cfg, Init(cfg), labels);
      if AllFinished(s) then s.commits == cfg.ncoro * cfg.iters
      else
        || (exists j: nat :: Outstanding(s, j))
        || (exists j: nat :: j < cfg.ncoro && (Effective(cfg, s, Reap(j)) || Effective(cfg, s, Dispatch(j))))
  {
    InitOk(cfg);
    ExecKeeps(cfg, Init(cfg), labels);
    var s := Exec(cfg, Init(cfg), labels);
    hide Inv, Exec, Effective, Outstanding;
    if AllFinished(s) {
      FinishedCounts(cfg, s);
    } else if forall j: nat :: j < cfg.ncoro ==> !Effective(cfg, s, Reap(j)) && !Effective(cfg, s, Dispatch(j)) {
      NoDeadlock(cfg, s);
    }
  }
}
