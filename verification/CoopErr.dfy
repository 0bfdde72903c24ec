/**
 The cooperative-coroutine experiment: coroutines on one thread stamp the thread's `errno` and error queue, park, and
 check them when they resume; the runtime may save and restore both around the park.
 */
module CoopErr {

  const ERRBUF: nat := 64
  const ERR_LIB_USER: nat := 128

  /** An error code, as its library and reason. */
  datatype Code = Code(lib: nat, reason: nat)

  /** `r` rounds are behind the coroutine; `parked`: it is inside the yield of the next. */
  datatype Co = Co(r: nat, parked: bool, done: bool, savedErrno: int, saved: seq<Code>)

  /** `queue`: the thread's error queue, oldest first. */
  datatype State = State(errno: int, queue: seq<Code>, cos: seq<Co>, checks: nat, badErrno: nat, badQueue: nat)

  datatype Config = Config(nco: nat, rounds: nat, save: bool)

  function Init(cfg: Config): State
  {
    State(0, [], seq(cfg.nco, _ => Co(0, false, false, 0, [])), 0, 0, 0)
  }

  function MyErrno(id: nat): int
  {
    1000 + id
  }

  function MyCode(id: nat): Code
  {
    Code(ERR_LIB_USER, 0x100 + id)
  }

  // ---------- Draining and restoring ----------

  /** The codes `err_drain` keeps, and the queue it leaves: it pops one more than it can keep. */
  function Drained(q: seq<Code>): (seq<Code>, seq<Code>)
  {
    if |q| <= ERRBUF then (q, []) else (q[..ERRBUF], q[ERRBUF + 1..])
  }

  /** Whatever is in the queue is saved, or left, in order, except the one code that is popped with the buffer full. */
  lemma {:induction false} DrainLosesOne(q: seq<Code>)
    ensures var (saved, left) := Drained(q);
      && q == saved + (if |q| > 64 then [q[64]] else []) + left
      && (|left| > 0 ==> |saved| == 64) && (|saved| < 64 ==> saved == q)
  {
  }

  // ---------- Steps ----------

  function Save(s: State, i: nat): State
    requires i < |s.cos|
  {
    var (saved, left) := Drained(s.queue);
    s.(queue := left, cos := s.cos[i := s.cos[i].(savedErrno := s.errno, saved := saved)])
  }

  function Restore(s: State, i: nat): State
    requires i < |s.cos|
  {
    s.(errno := s.cos[i].savedErrno, queue := s.cos[i].saved)
  }

  function Stamp(s: State, i: nat): State
  {
    s.(errno := MyErrno(i), queue := [MyCode(i)])
  }

  predicate ErrnoLost(s: State, i: nat)
  {
    s.errno != MyErrno(i)
  }

  predicate QueueLost(s: State, i: nat)
  {
    |s.queue| == 0 || s.queue[|s.queue| - 1].reason != MyCode(i).reason
  }

  /** After the offload: read back what was stamped. */
  function Check(s: State, i: nat): State
    requires i < |s.cos|
  {
    s.(checks := s.checks + 1,
       badErrno := s.badErrno + if ErrnoLost(s, i) then 1 else 0,
       badQueue := s.badQueue + if QueueLost(s, i) then 1 else 0,
       cos := s.cos[i := s.cos[i].(r := s.cos[i].r + 1, parked := false)])
  }

  /** From the head of the loop to the yield, or to the end of the body. */
  function Begin(cfg: Config, s: State, i: nat): State
    requires i < |s.cos|
  {
    if s.cos[i].r >= cfg.rounds then s.(cos := s.cos[i := s.cos[i].(done := true)])
    else
      var t := Stamp(s, i);
      var u := if cfg.save then Save(t, i) else t;
      u.(cos := u.cos[i := u.cos[i].(parked := true)])
  }

  /** Coroutine i runs to its next yield. */
  function Step(cfg: Config, s: State, i: nat): (s': State)
    ensures |s'.cos| == |s.cos|
  {
    if i >= |s.cos| || s.cos[i].done then s
    else if !s.cos[i].parked then Begin(cfg, s, i)
    else Begin(cfg, Check(if cfg.save then Restore(s, i) else s, i), i)
  }

  function Exec(cfg: Config, s: State, ids: seq<nat>): (s': State)
    ensures |s'.cos| == |s.cos|
    decreases |ids|
  {
    if |ids| == 0 then s else Step(cfg, Exec(cfg, s, ids[..|ids| - 1]), ids[|ids| - 1])
  }

  // ---------- With save and restore ----------

  /** Saving and, after anything else has used the thread's state, restoring gives errno and the queue back, exactly
      when the queue fits the buffer; a longer one loses everything from the buffer's size on. */
  lemma {:induction false} RestoresIffFits(s: State, i: nat, later: State)
    requires i < |s.cos| && |later.cos| == |s.cos| && later.cos[i] == Save(s, i).cos[i]
    ensures Restore(later, i).errno == s.errno
    ensures Restore(later, i).queue == s.queue <==> |s.queue| <= ERRBUF
    ensures Restore(later, i).queue == if |s.queue| <= ERRBUF then s.queue else s.queue[..ERRBUF]
  {
  }

  ghost predicate SavedOk(cfg: Config, s: State)
  {
    && cfg.save && s.badErrno == s.badQueue == 0
    && forall i: nat :: i < |s.cos| && s.cos[i].parked ==>
        s.cos[i].savedErrno == MyErrno(i) && s.cos[i].saved == [MyCode(i)]
  }

  /** With save and restore no schedule corrupts anything. */
  lemma {:induction false} SavedIsClean(cfg: Config, ids: seq<nat>)
    requires cfg.save
    ensures var s := Exec(cfg, Init(cfg), ids); s.badErrno == 0 && s.badQueue == 0 && SavedOk(cfg, s)
    decreases |ids|
  {
    if |ids| > 0 {
      SavedIsClean(cfg, ids[..|ids| - 1]);
    }
  }

  // ---------- Without ----------

  /** The coroutine that was the last to stamp, -1 before the first. */
  function LastStamp(cfg: Config, ids: seq<nat>): int
    decreases |ids|
  {
    if |ids| == 0 then -1
    else
      var s, i := Exec(cfg, Init(cfg), ids), ids[|ids| - 1];
      if i < |s.cos| && s.cos[i].parked then i else LastStamp(cfg, ids[..|ids| - 1])
  }

  /** The turns of parked coroutines, and those of them that came after another coroutine had stamped. */
  function Returns(cfg: Config, ids: seq<nat>, overtaken: bool): nat
    decreases |ids|
  {
    if |ids| == 0 then 0
    else
      var front, i := ids[..|ids| - 1], ids[|ids| - 1];
      var s := Exec(cfg, Init(cfg), front);
      Returns(cfg, front, overtaken)
      + if i < |s.cos| && s.cos[i].parked && (overtaken ==> LastStamp(cfg, front) != i) then 1 else 0
  }

  ghost predicate StampsOk(s: State, last: int)
  {
    && (last >= 0 ==> s.errno == MyErrno(last) && s.queue == [MyCode(last)])
    && (forall i: nat :: i < |s.cos| && s.cos[i].parked ==> last >= 0 && !s.cos[i].done)
  }

  /** Under every schedule each return is checked once; without save and restore, errno and the queue are found
      corrupted exactly by the coroutines that were overtaken. */
  lemma {:induction false} OvertakenIsCorrupted(cfg: Config, ids: seq<nat>)
    ensures var s := Exec(cfg, Init(cfg), ids);
      && s.checks == Returns(cfg, ids, false)
      && (!cfg.save ==> s.badErrno == s.badQueue == Returns(cfg, ids, true) && StampsOk(s, LastStamp(cfg, ids)))
      && forall i: nat :: i < |s.cos| && s.cos[i].parked ==> !s.cos[i].done
    decreases |ids|
  {
    if |ids| > 0 {
      OvertakenIsCorrupted(cfg, ids[..|ids| - 1]);
    }
  }

  // ---------- Round-robin without ----------

  /** Where coroutine j is in pass p, before or after its turn. */
  ghost predicate CoAt(cfg: Config, c: Co, p: nat, turned: bool)
  {
    if !turned then !c.done && (if p == 0 then c.r == 0 && !c.parked else c.r == p - 1 && c.parked)
    else if p < cfg.rounds then !c.done && c.r == p && c.parked
    else c.done && c.r == cfg.rounds && !c.parked
  }

  /** Checks made when i coroutines have had their turn in pass p. */
  function ChecksAt(cfg: Config, p: nat, i: nat): nat
  {
    if p == 0 then 0 else (p - 1) * cfg.nco + i
  }

  /** Everyone finds its predecessor's stamp, except the last coroutine in the last pass, which finds its own. */
  function BadAt(cfg: Config, p: nat, i: nat): int
  {
    if p == cfg.rounds && i == cfg.nco && p > 0 then ChecksAt(cfg, p, i) - 1 else ChecksAt(cfg, p, i)
  }

  /** The coroutine that stamped last. */
  function Stamper(cfg: Config, p: nat, i: nat): int
  {
    if p == cfg.rounds || i == 0 then (if p == 0 then -1 else cfg.nco - 1) else i - 1
  }

  /** Pass p of the round-robin loop, after the turns of the first i coroutines. */
  ghost predicate AtTurn(cfg: Config, s: State, p: nat, i: nat)
  {
    && p <= cfg.rounds && i <= cfg.nco == |s.cos| && s.checks == ChecksAt(cfg, p, i)
    && (forall j: nat :: j < cfg.nco ==> CoAt(cfg, s.cos[j], p, j < i))
    && (!cfg.save && cfg.nco >= 2 ==>
          && s.badErrno == s.badQueue == BadAt(cfg, p, i)
          && (Stamper(cfg, p, i) >= 0 ==>
              s.errno == MyErrno(Stamper(cfg, p, i)) && s.queue == [MyCode(Stamper(cfg, p, i))]))
  }

  lemma {:induction false} NextTurn(cfg: Config, s: State, p: nat, i: nat)
    requires AtTurn(cfg, s, p, i) && i < cfg.nco
    ensures AtTurn(cfg, Step(cfg, s, i), p, i + 1)
  {
    assert CoAt(cfg, s.cos[i], p, false);
  }

  lemma {:induction false} NextPass(cfg: Config, s: State, p: nat)
    requires AtTurn(cfg, s, p, cfg.nco) && p < cfg.rounds && cfg.nco > 0
    ensures AtTurn(cfg, s, p + 1, 0)
  {
    assert p * cfg.nco == (p - 1) * cfg.nco + cfg.nco;
  }

  /** One pass of the round-robin loop over the first i coroutines, and p whole passes. */
  function Turns(i: nat): (ids: seq<nat>)
    ensures |ids| == i
  {
    if i == 0 then [] else Turns(i - 1) + [i - 1]
  }

  function Passes(nco: nat, p: nat): seq<nat>
  {
    if p == 0 then [] else Passes(nco, p - 1) + Turns(nco)
  }

  lemma ExecOneMore(cfg: Config, front: seq<nat>, i: nat)
    ensures Exec(cfg, Init(cfg), front + [i]) == Step(cfg, Exec(cfg, Init(cfg), front), i)
  {
    assert (front + [i])[..|front|] == front;
  }

  /** The loop's schedule, p whole passes and i turns of the next. */
  function Upto(nco: nat, p: nat, i: nat): seq<nat>
  {
    Passes(nco, p) + Turns(i)
  }

  lemma UptoNext(nco: nat, p: nat, i: nat)
    ensures Upto(nco, p, i + 1) == Upto(nco, p, i) + [i]
    ensures Upto(nco, p + 1, 0) == Upto(nco, p, nco)
    ensures Upto(nco, 0, 0) == []
  {
  }

  lemma {:induction false} PassesReach(cfg: Config, p: nat, i: nat)
    requires cfg.nco > 0 && p <= cfg.rounds && i <= cfg.nco
    ensures AtTurn(cfg, Exec(cfg, Init(cfg), Upto(cfg.nco, p, i)), p, i)
    decreases p, i
  {
    hide AtTurn, Exec, Step, Upto, Init;
    if i > 0 {
      PassesReach(cfg, p, i - 1);
      UptoNext(cfg.nco, p, i - 1);
      var front := Upto(cfg.nco, p, i - 1);
      ExecOneMore(cfg, front, i - 1);
      NextTurn(cfg, Exec(cfg, Init(cfg), front), p, i - 1);
    } else if p > 0 {
      PassesReach(cfg, p - 1, cfg.nco);
      UptoNext(cfg.nco, p - 1, 0);
      NextPass(cfg, Exec(cfg, Init(cfg), Upto(cfg.nco, p - 1, cfg.nco)), p - 1);
    } else {
      UptoNext(cfg.nco, 0, 0);
      FirstTurn(cfg);
    }
  }

  lemma FirstTurn(cfg: Config)
    ensures AtTurn(cfg, Exec(cfg, Init(cfg), []), 0, 0)
  {
  }

  /** A coroutine that is alone, or has no rounds to run, finds what it stamped. */
  ghost predicate Undisturbed(cfg: Config, s: State)
  {
    && s.badErrno == s.badQueue == 0 && |s.cos| == cfg.nco
    && forall i: nat :: i < |s.cos| && s.cos[i].parked ==>
        cfg.rounds > 0 && s.errno == MyErrno(i) && s.queue == [MyCode(i)]
  }

  lemma {:induction false} UndisturbedIsClean(cfg: Config, ids: seq<nat>)
    requires !cfg.save && (cfg.nco <= 1 || cfg.rounds == 0)
    ensures Undisturbed(cfg, Exec(cfg, Init(cfg), ids))
    decreases |ids|
  {
    if |ids| > 0 {
      UndisturbedIsClean(cfg, ids[..|ids| - 1]);
    }
  }

  /** The round-robin loop ends after one pass more than there are rounds, with every round checked. Without save and
      restore, two or more coroutines then have corrupted every check of errno and every check of the queue but one, and
      a coroutine alone none. */
  lemma {:induction false} RoundRobinCorrupts(cfg: Config)
    requires cfg.nco > 0
    ensures var s := Exec(cfg, Init(cfg), Passes(cfg.nco, cfg.rounds + 1));
      && |s.cos| == cfg.nco && (forall j :: 0 <= j < cfg.nco ==> s.cos[j].done)
      && s.checks == cfg.nco * cfg.rounds
      && s.badErrno == s.badQueue
           == if !cfg.save && cfg.nco >= 2 && cfg.rounds >= 1 then cfg.nco * cfg.rounds - 1 else 0
  {
    var ids := Passes(cfg.nco, cfg.rounds + 1);
    assert ids == Upto(cfg.nco, cfg.rounds, cfg.nco);
    hide Exec, AtTurn, Upto, Passes, Init;
    PassesReach(cfg, cfg.rounds, cfg.nco);
    if cfg.save {
      SavedIsClean(cfg, ids);
    } else if cfg.nco <= 1 || cfg.rounds == 0 {
      UndisturbedIsClean(cfg, ids);
    }
  }

  /** No schedule corrupts anything. */
  ghost predicate AlwaysClean(cfg: Config)
  {
    forall ids: seq<nat> :: Exec(cfg, Init(cfg), ids).badErrno == 0 && Exec(cfg, Init(cfg), ids).badQueue == 0
  }

  /** Exactly when the state is saved and restored, or there is nobody to disturb it. */
  lemma {:induction false} CleanIffSaved(cfg: Config)
    ensures AlwaysClean(cfg) <==> cfg.save || cfg.nco <= 1 || cfg.rounds == 0
  {
    if cfg.save || cfg.nco <= 1 || cfg.rounds == 0 {
      forall ids: seq<nat> ensures Exec(cfg, Init(cfg), ids).badErrno == 0 && Exec(cfg, Init(cfg), ids).badQueue == 0 {
        if cfg.save {
          SavedIsClean(cfg, ids);
        } else {
          UndisturbedIsClean(cfg, ids);
        }
      }
    } else {
      RoundRobinCorrupts(cfg);
      assert cfg.nco * cfg.rounds >= 2;
      assert Exec(cfg, Init(cfg), Passes(cfg.nco, cfg.rounds + 1)).badErrno > 0;
    }
  }
}
