/**
 The Redis command as a specification: `DET.RMW` reads a counter, offloads, and writes it back from the reply
 callback; gates serialize the commands of one key (detect mode) or all commands (lock mode); a pool of workers takes
 jobs from a FIFO queue and finishes them in any order.
 */
module RedisModule {
  import opened Distinct
  import opened Sums
  import opened VersionClock

  datatype Mode = Naive | Detect | Lock

  /** In the worker queue, at the device, or ready for its reply callback. */
  datatype Stage = Queued | Offloading | Finished

  datatype Job = Job(slot: nat, v: int, park: nat, stage: Stage)

  /** Command `id` on counter `slot` was replied to; `stale`: its write was reported as a conflict. */
  datatype Done = Done(id: nat, slot: nat, stale: bool)

  /** Command n was for counter `accepted[n]`; `jobs` holds the commands between `begin` and reply; `pend[g]` are the
      commands waiting at gate g; `cur[g]` is the history of who holds the gate; `replies` are in order. */
  datatype State = State(
    cnt: seq<int>, inflight: seq<bool>, pend: seq<seq<nat>>, queue: seq<nat>, jobs: map<nat, Job>, det: Det, total: nat,
    accepted: seq<nat>, cur: seq<seq<nat>>, replies: seq<Done>)

  datatype Config = Config(mode: Mode, nslots: nat)

  datatype Label = Command(k: nat) | Take | Finish(id: nat) | Reply(id: nat)

  ghost predicate Shaped(cfg: Config, s: State)
  {
    && |s.cnt| == |s.inflight| == |s.pend| == |s.cur| == |s.det.pver| == |s.det.writable| == cfg.nslots > 0
    && (forall id :: id in s.jobs ==> s.jobs[id].slot < cfg.nslots)
    && (forall n :: 0 <= n < |s.accepted| ==> s.accepted[n] < cfg.nslots)
  }

  function Init(cfg: Config): State
  {
    State(seq(cfg.nslots, _ => 0), seq(cfg.nslots, _ => false), seq(cfg.nslots, _ => []), [], map[],
          Det(0, seq(cfg.nslots, _ => 0), seq(cfg.nslots, _ => false), 0, 0), 0, [], seq(cfg.nslots, _ => []), [])
  }

  function Gate(cfg: Config, k: nat): nat
  {
    if cfg.mode == Lock then 0 else k
  }

  // ---------- Steps ----------

  /** `begin`: read the counter, note the clock and protect the pages (except in lock mode), queue the job. */
  function Begun(cfg: Config, s: State, id: nat): (s': State)
    requires Shaped(cfg, s) && id < |s.accepted|
    ensures Shaped(cfg, s')
  {
    var k := s.accepted[id];
    var watched := cfg.mode != Lock;
    s.(jobs := s.jobs[id := Job(k, s.cnt[k], if watched then s.det.clk else 0, Queued)],
       det := if watched then Protected(s.det) else s.det,
       queue := s.queue + [id],
       cur := if cfg.mode == Naive then s.cur else s.cur[Gate(cfg, k) := [id]])
  }

  /** `cmd_rmw`: begin at once, unless the gate is busy. */
  function Commanded(cfg: Config, s: State, k: nat): (s': State)
    requires Shaped(cfg, s) && k < cfg.nslots
    ensures Shaped(cfg, s')
  {
    var id, g, s1 := |s.accepted|, Gate(cfg, k), s.(accepted := s.accepted + [k]);
    if cfg.mode == Naive then Begun(cfg, s1, id)
    else if !s.inflight[g] then Begun(cfg, s1.(inflight := s.inflight[g := true]), id)
    else s1.(pend := s.pend[g := s.pend[g] + [id]])
  }

  /** The detector will report this job's write. */
  predicate WritesStale(cfg: Config, s: State, id: nat)
    requires Shaped(cfg, s) && id in s.jobs
  {
    cfg.mode != Lock && Stale(s.det, s.jobs[id].slot, true, s.jobs[id].park)
  }

  function Entry(cfg: Config, s: State, id: nat): (d: Done)
    requires Shaped(cfg, s) && id in s.jobs
    ensures d.id == id && d.slot == s.jobs[id].slot
  {
    Done(id, s.jobs[id].slot, WritesStale(cfg, s, id))
  }

  /** The write of the reply callback, as the detector sees it. */
  function Written(cfg: Config, s: State, id: nat): (s': State)
    requires Shaped(cfg, s) && id in s.jobs
    ensures Shaped(cfg, s')
  {
    var j := s.jobs[id];
    s.(cnt := s.cnt[j.slot := j.v + 1],
       det := if cfg.mode == Lock then s.det else Stored(Protected(s.det), j.slot, true, j.park),
       total := s.total + 1, jobs := s.jobs - {id}, replies := s.replies + [Entry(cfg, s, id)])
  }

  /** `reply_cb`: write the counter back and pass the gate on. */
  function Replied(cfg: Config, s: State, id: nat): (s': State)
    requires Shaped(cfg, s) && id in s.jobs
    ensures Shaped(cfg, s')
  {
    var g, s1 := Gate(cfg, s.jobs[id].slot), Written(cfg, s, id);
    if cfg.mode == Naive then s1
    else if |s.pend[g]| > 0 && s.pend[g][0] < |s.accepted| then
      Begun(cfg, s1.(pend := s.pend[g := s.pend[g][1..]]), s.pend[g][0])
    else s1.(inflight := s.inflight[g := false], cur := s.cur[g := []])
  }

  function Staged(s: State, id: nat, stage: Stage): State
    requires id in s.jobs
  {
    s.(jobs := s.jobs[id := s.jobs[id].(stage := stage)])
  }

  function Step(cfg: Config, s: State, l: Label): (s': State)
    requires Shaped(cfg, s)
    ensures Shaped(cfg, s')
  {
    match l
    case Command(k) => if k < cfg.nslots then Commanded(cfg, s, k) else s
    case Take =>
      if |s.queue| > 0 && s.queue[0] in s.jobs then Staged(s, s.queue[0], Offloading).(queue := s.queue[1..]) else s
    case Finish(id) => if id in s.jobs && s.jobs[id].stage == Offloading then Staged(s, id, Finished) else s
    case Reply(id) => if id in s.jobs && s.jobs[id].stage == Finished then Replied(cfg, s, id) else s
  }

  function Exec(cfg: Config, s: State, labels: seq<Label>): (s': State)
    requires Shaped(cfg, s)
    ensures Shaped(cfg, s')
    decreases |labels|
  {
    if |labels| == 0 then s
    else Step(cfg, Exec(cfg, s, labels[..|labels| - 1]), labels[|labels| - 1])
  }

  // ---------- The detector's clock ----------

  /** One more than the position of the last reply that wrote counter k, 0 if there is none. */
  function LastWrite(replies: seq<Done>, k: nat): (n: nat)
    ensures n <= |replies|
  {
    if |replies| == 0 then 0
    else if replies[|replies| - 1].slot == k then |replies|
    else LastWrite(replies[..|replies| - 1], k)
  }

  lemma {:induction false} LastWriteSince(replies: seq<Done>, k: nat, since: nat)
    ensures LastWrite(replies, k) > since <==> exists n :: since <= n < |replies| && replies[n].slot == k
    decreases |replies|
  {
    if |replies| > 0 && replies[|replies| - 1].slot != k {
      LastWriteSince(replies[..|replies| - 1], k, since);
      var front := replies[..|replies| - 1];
      forall n | since <= n < |replies| && replies[n].slot == k ensures since <= n < |front| && front[n].slot == k {}
    }
  }

  /** One fault per reply: the clock counts replies, and a page's version says when it was last written. */
  ghost predicate ClockOk(cfg: Config, s: State)
    requires Shaped(cfg, s)
  {
    && s.total == |s.replies|
    && (cfg.mode != Lock ==>
          && s.det.clk == s.det.faults == |s.replies|
          && (forall k: nat :: k < cfg.nslots ==> s.det.pver[k] == LastWrite(s.replies, k))
          && (forall id :: id in s.jobs ==> s.jobs[id].park <= s.det.clk))
  }

  lemma {:induction false} StepKeepsClock(cfg: Config, s: State, l: Label)
    requires Shaped(cfg, s) && ClockOk(cfg, s)
    ensures ClockOk(cfg, Step(cfg, s, l))
  {
    var s' := Step(cfg, s, l);
    if l.Reply? && l.id in s.jobs {
      var r := s.replies + [Entry(cfg, s, l.id)];
      assert r[..|r| - 1] == s.replies;
    }
  }

  /** A job is in the worker queue exactly while it is queued, and only once. */
  ghost predicate QueueOk(s: State)
  {
    NoDup(s.queue) && forall id :: id in s.queue <==> id in s.jobs && s.jobs[id].stage == Queued
  }

  /** Commands in flight and replies are accepted commands; in naive mode every accepted command is one or the
      other. */
  ghost predicate IdsOk(cfg: Config, s: State)
  {
    && (forall id :: id in s.jobs ==> id < |s.accepted| && s.accepted[id] == s.jobs[id].slot)
    && (forall n :: 0 <= n < |s.replies| ==>
          s.replies[n].id < |s.accepted| && s.accepted[s.replies[n].id] == s.replies[n].slot)
    && (cfg.mode == Naive ==> |s.accepted| == |s.replies| + |s.jobs|)
  }

  // ---------- Naive mode ----------

  /** The number of replies on counter k. */
  function Hits(replies: seq<Done>, k: nat): nat
  {
    if |replies| == 0 then 0
    else Hits(replies[..|replies| - 1], k) + if replies[|replies| - 1].slot == k then 1 else 0
  }

  lemma HitsAppend(replies: seq<Done>, d: Done, k: nat)
    ensures Hits(replies + [d], k) == Hits(replies, k) + if d.slot == k then 1 else 0
  {
    assert (replies + [d])[..|replies|] == replies;
  }

  /** A counter that was written since has more replies than then. */
  lemma {:induction false} HitsSince(replies: seq<Done>, k: nat, since: nat)
    requires since <= |replies|
    ensures Hits(replies[..since], k) <= Hits(replies, k)
    ensures LastWrite(replies, k) > since ==> Hits(replies[..since], k) < Hits(replies, k)
    decreases |replies|
  {
    if since == |replies| {
      assert replies[..since] == replies;
    } else {
      var front := replies[..|replies| - 1];
      HitsSince(front, k, since);
      assert front[..since] == replies[..since];
    }
  }

  /** The replies, counter by counter. */
  function AllHits(cfg: Config, replies: seq<Done>): (r: seq<int>)
    ensures |r| == cfg.nslots && forall k: nat :: k < cfg.nslots ==> r[k] == Hits(replies, k)
  {
    seq(cfg.nslots, (k: nat) => Hits(replies, k))
  }

  lemma {:induction false} HitsSum(cfg: Config, replies: seq<Done>)
    requires forall n :: 0 <= n < |replies| ==> replies[n].slot < cfg.nslots
    ensures Sum(AllHits(cfg, replies)) == |replies|
    decreases |replies|
  {
    if |replies| == 0 {
      SumConstant(AllHits(cfg, replies), 0);
    } else {
      var front, k := replies[..|replies| - 1], replies[|replies| - 1].slot;
      HitsSum(cfg, front);
      assert AllHits(cfg, replies) == AllHits(cfg, front)[k := Hits(front, k) + 1];
      SumUpdate(AllHits(cfg, front), k, Hits(front, k) + 1);
    }
  }

  /** No reply on counter k was reported. */
  ghost predicate Clean(replies: seq<Done>, k: nat)
  {
    forall n :: 0 <= n < |replies| && replies[n].slot == k ==> !replies[n].stale
  }

  /** A job in flight read a value that replies up to then account for; unless its counter was written since, it is
      still the value. */
  ghost predicate ReadOk(cfg: Config, s: State, id: nat)
    requires Shaped(cfg, s) && id in s.jobs
  {
    var j := s.jobs[id];
    && j.park <= |s.replies| && j.v <= Hits(s.replies[..j.park], j.slot)
    && (LastWrite(s.replies, j.slot) <= j.park ==> s.cnt[j.slot] == j.v)
  }

  /** A counter has all its replies, or has lost some and then one of them was reported. */
  ghost predicate CounterOk(cfg: Config, s: State, k: nat)
    requires Shaped(cfg, s) && k < cfg.nslots
  {
    s.cnt[k] <= Hits(s.replies, k) && (s.cnt[k] == Hits(s.replies, k) <==> Clean(s.replies, k))
  }

  ghost predicate NaiveOk(cfg: Config, s: State)
    requires Shaped(cfg, s)
  {
    && (forall n :: 0 <= n < |s.replies| ==> s.replies[n].slot < cfg.nslots)
    && (forall id :: id in s.jobs ==> ReadOk(cfg, s, id))
    && (forall k: nat :: k < cfg.nslots ==> CounterOk(cfg, s, k))
    && (s.det.conflicts == 0 <==> forall n :: 0 <= n < |s.replies| ==> !s.replies[n].stale)
  }

  /** A reply leaves its counter below its replies if it is reported or the counter was below already. */
  lemma {:induction false} ReplyKeepsCounter(cfg: Config, s: State, id: nat, k: nat)
    requires Shaped(cfg, s) && cfg.mode == Naive && ClockOk(cfg, s) && id in s.jobs && k < cfg.nslots
    requires ReadOk(cfg, s, id) && CounterOk(cfg, s, k)
    ensures CounterOk(cfg, Written(cfg, s, id), k)
  {
    var j, d := s.jobs[id], Entry(cfg, s, id);
    HitsAppend(s.replies, d, k);
    HitsSince(s.replies, j.slot, j.park);
    assert forall n :: 0 <= n < |s.replies| ==> (s.replies + [d])[n] == s.replies[n];
    assert (s.replies + [d])[|s.replies|] == d;
    assert d.stale <==> LastWrite(s.replies, j.slot) > j.park;
  }

  lemma {:induction false} ReplyKeepsRead(cfg: Config, s: State, id: nat, i: nat)
    requires Shaped(cfg, s) && id in s.jobs && i in s.jobs && i != id && ReadOk(cfg, s, i)
    ensures ReadOk(cfg, Written(cfg, s, id), i)
  {
    var j, r := s.jobs[i], s.replies + [Entry(cfg, s, id)];
    assert r[..j.park] == s.replies[..j.park];
    assert r[..|s.replies|] == s.replies;
  }

  lemma {:induction false} NaiveReply(cfg: Config, s: State, id: nat)
    requires Shaped(cfg, s) && cfg.mode == Naive && ClockOk(cfg, s) && NaiveOk(cfg, s) && id in s.jobs
    ensures NaiveOk(cfg, Written(cfg, s, id))
  {
    var s' := Written(cfg, s, id);
    var d := Entry(cfg, s, id);
    assert s'.replies == s.replies + [d];
    assert s'.det.conflicts == s.det.conflicts + if d.stale then 1 else 0;
    assert forall n :: 0 <= n < |s.replies| ==> s'.replies[n] == s.replies[n];
    assert s'.replies[|s.replies|] == d;
    hide CounterOk, ReadOk, Written, ClockOk;
    forall k: nat | k < cfg.nslots ensures CounterOk(cfg, s', k) {
      ReplyKeepsCounter(cfg, s, id, k);
    }
    forall i | i in s'.jobs ensures ReadOk(cfg, s', i) {
      ReplyKeepsRead(cfg, s, id, i);
    }
  }

  lemma {:induction false} NaiveCommand(cfg: Config, s: State, k: nat)
    requires Shaped(cfg, s) && cfg.mode == Naive && ClockOk(cfg, s) && NaiveOk(cfg, s) && k < cfg.nslots
    ensures NaiveOk(cfg, Commanded(cfg, s, k))
  {
    var s' := Commanded(cfg, s, k);
    var id := |s.accepted|;
    assert s'.jobs[id].park == |s.replies| && s'.jobs[id].v == s.cnt[k] && s.replies[..|s.replies|] == s.replies;
    assert CounterOk(cfg, s, k);
    forall i | i in s'.jobs ensures ReadOk(cfg, s', i) {
      assert i != id ==> ReadOk(cfg, s, i);
    }
    forall j: nat | j < cfg.nslots ensures CounterOk(cfg, s', j) {
      assert CounterOk(cfg, s, j);
    }
  }

  lemma {:induction false} NaiveStage(cfg: Config, s: State, l: Label)
    requires Shaped(cfg, s) && NaiveOk(cfg, s) && (l.Take? || l.Finish?)
    ensures NaiveOk(cfg, Step(cfg, s, l))
  {
    hide Clean, Hits, LastWrite;
    var s' := Step(cfg, s, l);
    forall i | i in s'.jobs ensures ReadOk(cfg, s', i) {
      assert ReadOk(cfg, s, i);
    }
    forall k: nat | k < cfg.nslots ensures CounterOk(cfg, s', k) {
      assert CounterOk(cfg, s, k);
    }
  }

  lemma {:induction false} NaiveKeeps(cfg: Config, s: State, l: Label)
    requires Shaped(cfg, s) && cfg.mode == Naive && ClockOk(cfg, s) && NaiveOk(cfg, s)
    ensures NaiveOk(cfg, Step(cfg, s, l))
  {
    hide NaiveOk, ClockOk, Written, Commanded;
    if l.Reply? {
      if l.id in s.jobs && s.jobs[l.id].stage == Finished {
        NaiveReply(cfg, s, l.id);
      }
    } else if l.Command? {
      if l.k < cfg.nslots {
        NaiveCommand(cfg, s, l.k);
      }
    } else {
      NaiveStage(cfg, s, l);
    }
  }

  // ---------- Gated modes ----------

  /** The commands for gate g, in order of arrival. */
  function Arrivals(cfg: Config, accepted: seq<nat>, g: nat): (ids: seq<nat>)
    ensures forall n :: 0 <= n < |ids| ==> ids[n] < |accepted| && Gate(cfg, accepted[ids[n]]) == g
    ensures forall m, n :: 0 <= m < n < |ids| ==> ids[m] < ids[n]
    ensures forall id: nat :: id < |accepted| && Gate(cfg, accepted[id]) == g ==> id in ids
  {
    if |accepted| == 0 then []
    else
      var n := |accepted| - 1;
      var front := Arrivals(cfg, accepted[..n], g);
      if Gate(cfg, accepted[n]) == g then front + [n] else front
  }

  /** The commands of gate g that were replied to, in order of reply. */
  function Departures(cfg: Config, replies: seq<Done>, g: nat): seq<nat>
  {
    if |replies| == 0 then []
    else
      var n := |replies| - 1;
      var front := Departures(cfg, replies[..n], g);
      if Gate(cfg, replies[n].slot) == g then front + [replies[n].id] else front
  }

  /** First come, first served: replied to, then in flight (one at most), then waiting; nobody waits at an idle gate. */
  ghost predicate Fifo(arrived: seq<nat>, departed: seq<nat>, cur: seq<nat>, pend: seq<nat>, busy: bool)
  {
    && arrived == departed + cur + pend
    && |cur| == (if busy then 1 else 0)
    && (|pend| > 0 ==> busy)
  }

  ghost predicate GateOk(cfg: Config, s: State, g: nat)
    requires Shaped(cfg, s) && g < cfg.nslots
  {
    && Fifo(Arrivals(cfg, s.accepted, g), Departures(cfg, s.replies, g), s.cur[g], s.pend[g], s.inflight[g])
    && (s.inflight[g] ==> s.cur[g][0] in s.jobs && Gate(cfg, s.jobs[s.cur[g][0]].slot) == g)
  }

  lemma FifoDepart(a: seq<nat>, d: seq<nat>, c: seq<nat>, p: seq<nat>, busy: bool, id: nat)
    requires Fifo(a, d, c, p, busy) && c == [id]
    ensures if |p| > 0 then Fifo(a, d + [id], [p[0]], p[1..], true) else Fifo(a, d + [id], [], p, false)
  {
  }

  /** A command in flight holds its gate and has read what its counter still holds. */
  ghost predicate JobOk(cfg: Config, s: State, id: nat)
    requires Shaped(cfg, s) && id in s.jobs
  {
    var j := s.jobs[id];
    && s.cur[Gate(cfg, j.slot)] == [id]
    && j.v == s.cnt[j.slot]
    && (cfg.mode == Detect ==> s.det.pver[j.slot] <= j.park)
  }

  ghost predicate CountsOk(cfg: Config, s: State)
    requires Shaped(cfg, s)
  {
    && s.det.conflicts == 0 && Sum(s.cnt) == s.total
    && forall k: nat :: k < cfg.nslots ==> s.cnt[k] == Hits(s.replies, k)
  }

  ghost predicate GatedOk(cfg: Config, s: State)
    requires Shaped(cfg, s)
  {
    && (forall g: nat :: g < cfg.nslots ==> GateOk(cfg, s, g))
    && (forall id :: id in s.jobs ==> JobOk(cfg, s, id))
    && CountsOk(cfg, s)
  }

  lemma {:induction false} ArrivalsAppend(cfg: Config, accepted: seq<nat>, k: nat, g: nat)
    ensures Arrivals(cfg, accepted + [k], g)
         == Arrivals(cfg, accepted, g) + if Gate(cfg, k) == g then [|accepted|] else []
  {
    assert (accepted + [k])[..|accepted|] == accepted;
  }

  lemma {:induction false} DeparturesAppend(cfg: Config, replies: seq<Done>, d: Done, g: nat)
    ensures Departures(cfg, replies + [d], g)
         == Departures(cfg, replies, g) + if Gate(cfg, d.slot) == g then [d.id] else []
  {
    assert (replies + [d])[..|replies|] == replies;
  }

  /** The command in flight and the oldest one waiting are commands of this gate. */
  lemma {:induction false} AtTheGate(cfg: Config, s: State, g: nat)
    requires Shaped(cfg, s) && g < cfg.nslots && GateOk(cfg, s, g)
    ensures s.inflight[g] ==> s.cur[g][0] < |s.accepted| && Gate(cfg, s.accepted[s.cur[g][0]]) == g
    ensures |s.pend[g]| > 0 ==> s.pend[g][0] < |s.accepted| && Gate(cfg, s.accepted[s.pend[g][0]]) == g
  {
    var ids, d := Arrivals(cfg, s.accepted, g), Departures(cfg, s.replies, g);
    hide Arrivals, Departures;
    assert s.inflight[g] ==> ids[|d|] == s.cur[g][0];
    assert |s.pend[g]| > 0 ==> ids[|d| + 1] == s.pend[g][0];
  }

  /** A command in terms of its gate: it begins, or waits. */
  lemma SeeCommanded(cfg: Config, s: State, k: nat)
    requires Shaped(cfg, s) && k < cfg.nslots && cfg.mode != Naive
    ensures var g, id, r := Gate(cfg, k), |s.accepted|, Commanded(cfg, s, k);
      && r.accepted == s.accepted + [k] && r.replies == s.replies
      && if s.inflight[g] then
           r.cur == s.cur && r.pend == s.pend[g := s.pend[g] + [id]] && r.inflight == s.inflight && r.jobs == s.jobs
         else
           r.cur == s.cur[g := [id]] && r.pend == s.pend && r.inflight == s.inflight[g := true]
           && r.jobs == s.jobs[id := r.jobs[id]] && r.jobs[id].slot == k
  {
  }

  lemma {:induction false} CommandKeepsGate(cfg: Config, s: State, k: nat, g: nat)
    requires Shaped(cfg, s) && k < cfg.nslots && g < cfg.nslots && cfg.mode != Naive && GateOk(cfg, s, g)
    ensures GateOk(cfg, Commanded(cfg, s, k), g)
  {
    hide Arrivals, Departures, Commanded;
    ArrivalsAppend(cfg, s.accepted, k, g);
    AtTheGate(cfg, s, g);
    SeeCommanded(cfg, s, k);
  }

  /** The reply callback in terms of the gate: the writing command leaves, and the oldest waiting one, if any,
      begins. */
  lemma SeeReplied(cfg: Config, s: State, id: nat)
    requires Shaped(cfg, s) && id in s.jobs && cfg.mode != Naive
    ensures var g, r := Gate(cfg, s.jobs[id].slot), Replied(cfg, s, id);
      && r.accepted == s.accepted && r.replies == s.replies + [Entry(cfg, s, id)]
      && if |s.pend[g]| > 0 && s.pend[g][0] < |s.accepted| then
           && r.cur == s.cur[Gate(cfg, s.accepted[s.pend[g][0]]) := [s.pend[g][0]]]
           && r.pend == s.pend[g := s.pend[g][1..]] && r.inflight == s.inflight
           && r.jobs.Keys == s.jobs.Keys - {id} + {s.pend[g][0]}
           && r.jobs[s.pend[g][0]].slot == s.accepted[s.pend[g][0]]
           && (forall i :: i in s.jobs && i != id && i != s.pend[g][0] ==> r.jobs[i] == s.jobs[i])
         else
           && r.cur == s.cur[g := []] && r.pend == s.pend
           && r.inflight == s.inflight[g := false] && r.jobs == s.jobs - {id}
  {
  }

  lemma {:induction false} ReplyKeepsOwnGate(cfg: Config, s: State, id: nat)
    requires Shaped(cfg, s) && cfg.mode != Naive && id in s.jobs && JobOk(cfg, s, id)
    requires GateOk(cfg, s, Gate(cfg, s.jobs[id].slot))
    ensures GateOk(cfg, Replied(cfg, s, id), Gate(cfg, s.jobs[id].slot))
  {
    var g := Gate(cfg, s.jobs[id].slot);
    DeparturesAppend(cfg, s.replies, Entry(cfg, s, id), g);
    AtTheGate(cfg, s, g);
    SeeReplied(cfg, s, id);
    FifoDepart(Arrivals(cfg, s.accepted, g), Departures(cfg, s.replies, g), s.cur[g], s.pend[g], s.inflight[g], id);
    hide Arrivals, Departures, Replied;
  }

  lemma {:induction false} ReplyKeepsOtherGate(cfg: Config, s: State, id: nat, g: nat)
    requires Shaped(cfg, s) && g < cfg.nslots && cfg.mode != Naive && id in s.jobs && g != Gate(cfg, s.jobs[id].slot)
    requires GateOk(cfg, s, g) && GateOk(cfg, s, Gate(cfg, s.jobs[id].slot))
    ensures GateOk(cfg, Replied(cfg, s, id), g)
  {
    assert Gate(cfg, s.jobs[id].slot) < cfg.nslots;
    hide Arrivals, Departures, Replied, Gate, Entry;
    var r, g0 := Replied(cfg, s, id), Gate(cfg, s.jobs[id].slot);
    DeparturesAppend(cfg, s.replies, Entry(cfg, s, id), g);
    AtTheGate(cfg, s, g);
    AtTheGate(cfg, s, g0);
    SeeReplied(cfg, s, id);
    assert r.cur[g] == s.cur[g] && r.pend[g] == s.pend[g] && r.inflight[g] == s.inflight[g];
    if s.inflight[g] {
      var c := s.cur[g][0];
      assert c in r.jobs && r.jobs[c] == s.jobs[c];
    }
  }

  /** A command in flight elsewhere is not disturbed, and one that begins is in order. */
  lemma {:induction false} ReplyKeepsJob(cfg: Config, s: State, id: nat, i: nat)
    requires Shaped(cfg, s) && cfg.mode != Naive && id in s.jobs && JobOk(cfg, s, id) && ClockOk(cfg, s)
    requires GateOk(cfg, s, Gate(cfg, s.jobs[id].slot)) && (i in s.jobs ==> JobOk(cfg, s, i))
    requires i in Replied(cfg, s, id).jobs
    ensures JobOk(cfg, Replied(cfg, s, id), i)
  {
    var g := Gate(cfg, s.jobs[id].slot);
    AtTheGate(cfg, s, g);
    StepKeepsClock(cfg, s.(jobs := s.jobs[id := s.jobs[id].(stage := Finished)]), Reply(id));
  }

  lemma {:induction false} CommandKeepsJob(cfg: Config, s: State, k: nat, i: nat)
    requires Shaped(cfg, s) && cfg.mode != Naive && k < cfg.nslots && GateOk(cfg, s, Gate(cfg, k)) && ClockOk(cfg, s)
    requires i in Commanded(cfg, s, k).jobs && (i in s.jobs ==> JobOk(cfg, s, i) && i < |s.accepted|)
    ensures JobOk(cfg, Commanded(cfg, s, k), i)
  {
    hide Arrivals, Departures;
  }

  lemma {:induction false} ReplyKeepsCounts(cfg: Config, s: State, id: nat)
    requires Shaped(cfg, s) && cfg.mode != Naive && id in s.jobs && JobOk(cfg, s, id) && CountsOk(cfg, s)
    ensures CountsOk(cfg, Replied(cfg, s, id))
  {
    var j := s.jobs[id];
    SumUpdate(s.cnt, j.slot, j.v + 1);
    var w := Written(cfg, s, id);
    forall k: nat | k < cfg.nslots ensures w.cnt[k] == Hits(w.replies, k) {
      HitsAppend(s.replies, Entry(cfg, s, id), k);
    }
    assert CountsOk(cfg, w);
    hide Hits, Written;
    assert Replied(cfg, s, id).det.conflicts == w.det.conflicts;
  }

  lemma {:induction false} GatedKeeps(cfg: Config, s: State, l: Label)
    requires Shaped(cfg, s) && cfg.mode != Naive && ClockOk(cfg, s) && GatedOk(cfg, s) && IdsOk(cfg, s)
    ensures GatedOk(cfg, Step(cfg, s, l))
  {
    var s' := Step(cfg, s, l);
    if l.Command? && l.k < cfg.nslots {
      assert GateOk(cfg, s, Gate(cfg, l.k));
      forall g: nat | g < cfg.nslots ensures GateOk(cfg, s', g) {
        CommandKeepsGate(cfg, s, l.k, g);
      }
      forall i | i in s'.jobs ensures JobOk(cfg, s', i) {
        CommandKeepsJob(cfg, s, l.k, i);
      }
    } else if l.Reply? && s' != s {
      assert JobOk(cfg, s, l.id) && GateOk(cfg, s, Gate(cfg, s.jobs[l.id].slot));
      hide Replied;
      forall g: nat | g < cfg.nslots ensures GateOk(cfg, s', g) {
        if g == Gate(cfg, s.jobs[l.id].slot) {
          ReplyKeepsOwnGate(cfg, s, l.id);
        } else {
          ReplyKeepsOtherGate(cfg, s, l.id, g);
        }
      }
      forall i | i in s'.jobs ensures JobOk(cfg, s', i) {
        ReplyKeepsJob(cfg, s, l.id, i);
      }
      ReplyKeepsCounts(cfg, s, l.id);
    } else if s' != s {
      StageKeeps(cfg, s, l);
    }
  }

  lemma StageKeeps(cfg: Config, s: State, l: Label)
    requires Shaped(cfg, s) && GatedOk(cfg, s) && (l.Take? || l.Finish?)
    ensures GatedOk(cfg, Step(cfg, s, l))
  {
    hide Fifo, Arrivals, Departures, Hits;
    var s' := Step(cfg, s, l);
    forall i | i in s'.jobs ensures JobOk(cfg, s', i) {
      assert JobOk(cfg, s, i);
    }
    forall g: nat | g < cfg.nslots ensures GateOk(cfg, s', g) {
      assert GateOk(cfg, s, g);
    }
  }

  /** The command that begins after a reply is not one already in flight. */
  lemma {:induction false} NextIsNew(cfg: Config, s: State, id: nat)
    requires Inv(cfg, s) && cfg.mode != Naive && id in s.jobs && |s.pend[Gate(cfg, s.jobs[id].slot)]| > 0
    ensures s.pend[Gate(cfg, s.jobs[id].slot)][0] !in s.jobs
  {
    var g := Gate(cfg, s.jobs[id].slot);
    var p := s.pend[g][0];
    assert JobOk(cfg, s, id) && GateOk(cfg, s, g);
    AtTheGate(cfg, s, g);
    var ids, d := Arrivals(cfg, s.accepted, g), Departures(cfg, s.replies, g);
    assert ids[|d|] == id && ids[|d| + 1] == p;
    assert p in s.jobs ==> JobOk(cfg, s, p);
  }

  lemma {:induction false} TakeKeepsQueue(cfg: Config, s: State)
    requires Shaped(cfg, s) && QueueOk(s)
    ensures QueueOk(Step(cfg, s, Take))
  {
    if |s.queue| > 0 {
      DropFirst(s.queue);
    }
  }

  lemma {:induction false} CommandKeepsQueue(cfg: Config, s: State, k: nat)
    requires Shaped(cfg, s) && QueueOk(s) && IdsOk(cfg, s) && k < cfg.nslots
    ensures QueueOk(Commanded(cfg, s, k))
  {
    var id := |s.accepted|;
    assert id !in s.jobs && id !in s.queue;
    AddLast(s.queue, id);
  }

  lemma {:induction false} ReplyKeepsQueue(cfg: Config, s: State, id: nat)
    requires Shaped(cfg, s) && QueueOk(s) && id in s.jobs && s.jobs[id].stage == Finished
    requires var p := s.pend[Gate(cfg, s.jobs[id].slot)];
      cfg.mode != Naive && |p| > 0 ==> p[0] !in s.jobs
    ensures QueueOk(Replied(cfg, s, id))
  {
    var p := s.pend[Gate(cfg, s.jobs[id].slot)];
    assert id !in s.queue;
    if cfg.mode != Naive && |p| > 0 {
      AddLast(s.queue, p[0]);
    }
  }

  /** Every job that begins goes through the worker queue exactly once. */
  lemma {:induction false} QueueKeeps(cfg: Config, s: State, l: Label)
    requires Inv(cfg, s)
    ensures QueueOk(Step(cfg, s, l))
  {
    match l
    case Take => TakeKeepsQueue(cfg, s);
    case Command(k) =>
      if k < cfg.nslots {
        CommandKeepsQueue(cfg, s, k);
      }
    case Reply(id) =>
      if id in s.jobs && s.jobs[id].stage == Finished {
        if cfg.mode != Naive && |s.pend[Gate(cfg, s.jobs[id].slot)]| > 0 {
          NextIsNew(cfg, s, id);
        }
        hide ClockOk, GatedOk, NaiveOk, IdsOk, QueueOk;
        ReplyKeepsQueue(cfg, s, id);
      }
    case Finish(id) => FinishKeepsQueue(cfg, s, id);
  }

  lemma FinishKeepsQueue(cfg: Config, s: State, id: nat)
    requires Shaped(cfg, s) && QueueOk(s)
    ensures QueueOk(Step(cfg, s, Finish(id)))
  {
  }

  lemma {:induction false} IdsKeep(cfg: Config, s: State, l: Label)
    requires Shaped(cfg, s) && IdsOk(cfg, s)
    ensures IdsOk(cfg, Step(cfg, s, l))
  {
    match l
    case Command(k) => if k < cfg.nslots { CommandKeepsIds(cfg, s, k); }
    case Reply(id) => if id in s.jobs && s.jobs[id].stage == Finished { ReplyKeepsIds(cfg, s, id); }
    case Take => if |s.queue| > 0 && s.queue[0] in s.jobs { StageKeepsIds(cfg, s, s.queue[0], Offloading); }
    case Finish(id) => if id in s.jobs { StageKeepsIds(cfg, s, id, Finished); }
  }

  lemma {:induction false} CommandKeepsIds(cfg: Config, s: State, k: nat)
    requires Shaped(cfg, s) && IdsOk(cfg, s) && k < cfg.nslots
    ensures IdsOk(cfg, Commanded(cfg, s, k))
  {
    assert |s.accepted| !in s.jobs;
  }

  lemma {:induction false} ReplyKeepsIds(cfg: Config, s: State, id: nat)
    requires Shaped(cfg, s) && IdsOk(cfg, s) && id in s.jobs
    ensures IdsOk(cfg, Replied(cfg, s, id))
  {
    assert (s.jobs - {id}).Keys == s.jobs.Keys - {id};
  }

  lemma {:induction false} StageKeepsIds(cfg: Config, s: State, id: nat, stage: Stage)
    requires Shaped(cfg, s) && IdsOk(cfg, s) && id in s.jobs
    ensures Shaped(cfg, Staged(s, id, stage)) && IdsOk(cfg, Staged(s, id, stage))
  {
    assert Staged(s, id, stage).jobs.Keys == s.jobs.Keys;
  }

  ghost predicate Inv(cfg: Config, s: State)
  {
    && Shaped(cfg, s) && ClockOk(cfg, s) && IdsOk(cfg, s) && QueueOk(s)
    && if cfg.mode == Naive then NaiveOk(cfg, s) else GatedOk(cfg, s)
  }

  lemma {:induction false} StepKeeps(cfg: Config, s: State, l: Label)
    requires Inv(cfg, s)
    ensures Inv(cfg, Step(cfg, s, l))
  {
    StepKeepsClock(cfg, s, l);
    IdsKeep(cfg, s, l);
    QueueKeeps(cfg, s, l);
    if cfg.mode == Naive {
      NaiveKeeps(cfg, s, l);
    } else {
      GatedKeeps(cfg, s, l);
    }
  }

  lemma {:induction false} InitOk(cfg: Config)
    requires cfg.nslots > 0
    ensures Inv(cfg, Init(cfg))
  {
    SumConstant(Init(cfg).cnt, 0);
  }

  lemma {:induction false} ExecKeeps(cfg: Config, s: State, labels: seq<Label>)
    requires Inv(cfg, s)
    ensures Inv(cfg, Exec(cfg, s, labels))
    decreases |labels|
  {
    if |labels| > 0 {
      ExecKeeps(cfg, s, labels[..|labels| - 1]);
      StepKeeps(cfg, Exec(cfg, s, labels[..|labels| - 1]), labels[|labels| - 1]);
    }
  }

  // ---------- Main results ----------

  /** Detect and lock mode under every schedule: no update is lost (each counter is the number of replies on it), no
      conflict is reported, every command in flight is alone at its gate and has read the current value. */
  lemma {:induction false} GatedIsSerial(cfg: Config, labels: seq<Label>)
    requires cfg.nslots > 0 && cfg.mode != Naive
    ensures var s := Exec(cfg, Init(cfg), labels);
      && s.total == |s.replies| == Sum(s.cnt) && s.det.conflicts == 0
      && (forall k: nat :: k < cfg.nslots ==> s.cnt[k] == Hits(s.replies, k))
      && (forall id :: id in s.jobs ==> s.jobs[id].v == s.cnt[s.jobs[id].slot])
      && (forall i, j ::
            i in s.jobs && j in s.jobs && Gate(cfg, s.jobs[i].slot) == Gate(cfg, s.jobs[j].slot) ==> i == j)
  {
    InitOk(cfg);
    ExecKeeps(cfg, Init(cfg), labels);
    var s := Exec(cfg, Init(cfg), labels);
    forall id | id in s.jobs
      ensures s.jobs[id].v == s.cnt[s.jobs[id].slot] && s.cur[Gate(cfg, s.jobs[id].slot)] == [id]
    {
      assert JobOk(cfg, s, id);
    }
  }

  /** First come, first served: at every gate, the commands that arrived are, in order, those replied to, the one in
      flight, and those waiting; nobody waits at an idle gate. */
  lemma {:induction false} GatesAreFifo(cfg: Config, labels: seq<Label>, g: nat)
    requires cfg.nslots > 0 && cfg.mode != Naive && g < cfg.nslots
    ensures var s := Exec(cfg, Init(cfg), labels);
      && Fifo(Arrivals(cfg, s.accepted, g), Departures(cfg, s.replies, g), s.cur[g], s.pend[g], s.inflight[g])
      && (s.inflight[g] ==> s.cur[g][0] in s.jobs)
      && |Arrivals(cfg, s.accepted, g)| == |Departures(cfg, s.replies, g)|
          + (if s.inflight[g] then 1 else 0) + |s.pend[g]|
  {
    InitOk(cfg);
    ExecKeeps(cfg, Init(cfg), labels);
    assert GateOk(cfg, Exec(cfg, Init(cfg), labels), g);
  }

  lemma {:induction false} NaiveLoss(cfg: Config, s: State)
    requires Shaped(cfg, s) && cfg.mode == Naive && NaiveOk(cfg, s)
    ensures Sum(s.cnt) <= |s.replies| && (Sum(s.cnt) == |s.replies| <==> s.det.conflicts == 0)
  {
    var hits := AllHits(cfg, s.replies);
    HitsSum(cfg, s.replies);
    hide Hits, AllHits;
    forall k: nat | k < cfg.nslots ensures s.cnt[k] <= hits[k] && (s.cnt[k] == hits[k] <==> Clean(s.replies, k)) {
      assert CounterOk(cfg, s, k);
    }
    SumMonotone(s.cnt, hits);
    if s.det.conflicts == 0 {
      assert forall k: nat :: k < cfg.nslots ==> Clean(s.replies, k);
      assert s.cnt == hits;
    } else {
      var n :| 0 <= n < |s.replies| && s.replies[n].stale;
      assert !Clean(s.replies, s.replies[n].slot);
    }
  }

  /** What the statistics show, in every mode: the loss is never negative, and there is one exactly when a conflict was
      reported; outside lock mode there is one fault per reply. */
  lemma {:induction false} LossIffReported(cfg: Config, s: State)
    requires Inv(cfg, s)
    ensures Sum(s.cnt) <= s.total && (Sum(s.cnt) == s.total <==> s.det.conflicts == 0)
    ensures cfg.mode != Lock ==> s.det.faults == s.total
    ensures cfg.mode != Naive ==> s.det.conflicts == 0
  {
    if cfg.mode == Naive {
      NaiveLoss(cfg, s);
    }
  }

  /** Naive mode: every command accepted is in flight or replied to; counter by counter and in total, the loss is never
      negative, and there is one exactly when a reply was reported. */
  lemma {:induction false} NaiveLossIffReported(cfg: Config, labels: seq<Label>)
    requires cfg.nslots > 0 && cfg.mode == Naive
    ensures var s := Exec(cfg, Init(cfg), labels);
      && s.total == |s.replies| && |s.accepted| == |s.replies| + |s.jobs|
      && Sum(s.cnt) <= s.total && (Sum(s.cnt) == s.total <==> s.det.conflicts == 0)
      && forall k: nat :: k < cfg.nslots ==>
           s.cnt[k] <= Hits(s.replies, k) && (s.cnt[k] == Hits(s.replies, k) <==> Clean(s.replies, k))
  {
    InitOk(cfg);
    ExecKeeps(cfg, Init(cfg), labels);
    var s := Exec(cfg, Init(cfg), labels);
    hide Exec, Hits, Clean;
    LossIffReported(cfg, s);
    forall k: nat | k < cfg.nslots
      ensures s.cnt[k] <= Hits(s.replies, k) && (s.cnt[k] == Hits(s.replies, k) <==> Clean(s.replies, k))
    {
      assert CounterOk(cfg, s, k);
    }
  }

  /** From its begin to its reply a job keeps its counter, the value it read and its clock reading. */
  lemma {:induction false} JobIsFixed(cfg: Config, s: State, l: Label, id: nat)
    requires Inv(cfg, s) && id in s.jobs && id in Step(cfg, s, l).jobs
    ensures Step(cfg, s, l).jobs[id] == s.jobs[id].(stage := Step(cfg, s, l).jobs[id].stage)
  {
    if l.Reply? && l.id in s.jobs && s.jobs[l.id].stage == Finished {
      ReplyFixes(cfg, s, l.id, id);
    } else {
      hide ClockOk, GatedOk, NaiveOk, QueueOk, Replied;
    }
  }

  lemma {:induction false} ReplyFixes(cfg: Config, s: State, reply: nat, id: nat)
    requires Inv(cfg, s) && reply in s.jobs && id in s.jobs && id in Replied(cfg, s, reply).jobs
    ensures Replied(cfg, s, reply).jobs[id] == s.jobs[id]
  {
    if cfg.mode != Naive {
      if |s.pend[Gate(cfg, s.jobs[reply].slot)]| > 0 {
        NextIsNew(cfg, s, reply);
      }
      SeeReplied(cfg, s, reply);
      hide Inv, Replied, Gate;
    } else {
      hide ClockOk, NaiveOk, QueueOk, IdsOk;
    }
  }

  /** Some reply from number `since` on wrote counter k. */
  ghost predicate WrittenSince(s: State, since: nat, k: nat)
  {
    exists n :: since <= n < |s.replies| && s.replies[n].slot == k
  }

  /** Outside lock mode a reply is reported exactly when some other reply wrote its counter since it began; in
      particular whenever it overwrites a counter that no longer holds the value it read. */
  lemma {:induction false} ReportedIffWritten(cfg: Config, s: State, id: nat)
    requires Inv(cfg, s) && cfg.mode != Lock && id in s.jobs
    ensures var j := s.jobs[id];
      && Replied(cfg, s, id).det.conflicts == s.det.conflicts + (if WrittenSince(s, j.park, j.slot) then 1 else 0)
      && (s.cnt[j.slot] != j.v ==> WrittenSince(s, j.park, j.slot))
  {
    LastWriteSince(s.replies, s.jobs[id].slot, s.jobs[id].park);
    if cfg.mode == Naive {
      assert ReadOk(cfg, s, id);
    } else {
      assert JobOk(cfg, s, id);
    }
    hide Hits, LastWrite, Arrivals, Departures;
  }

  /** What a job that begins in this step takes along: the counter and the number of replies as the step leaves them. */
  lemma {:induction false} BeginsWith(cfg: Config, s: State, l: Label, id: nat)
    requires Inv(cfg, s) && id !in s.jobs && id in Step(cfg, s, l).jobs
    ensures JustRead(cfg, Step(cfg, s, l), id)
  {
    StepKeepsClock(cfg, s, l);
    hide NaiveOk, QueueOk, IdsOk, GatedOk, LastWrite, Stored, Protected;
  }

  ghost predicate JustRead(cfg: Config, b: State, id: nat)
    requires Shaped(cfg, b)
  {
    && id in b.jobs && b.jobs[id].v == b.cnt[b.jobs[id].slot]
    && (cfg.mode != Lock ==> b.jobs[id].park == |b.replies|)
  }

  /** The job is in flight from state b on, through the whole run. */
  ghost predicate InFlight(cfg: Config, b: State, labels: seq<Label>, id: nat)
    requires Shaped(cfg, b)
  {
    forall n :: 0 <= n <= |labels| ==> id in Exec(cfg, b, labels[..n]).jobs
  }

  lemma {:induction false} StaysFixed(cfg: Config, b: State, labels: seq<Label>, id: nat)
    requires Inv(cfg, b) && InFlight(cfg, b, labels, id)
    ensures id in b.jobs && id in Exec(cfg, b, labels).jobs
    ensures Exec(cfg, b, labels).jobs[id] == b.jobs[id].(stage := Exec(cfg, b, labels).jobs[id].stage)
    decreases |labels|
  {
    assert labels[..|labels|] == labels;
    assert labels[..0] == [];
    if |labels| > 0 {
      var front, l := labels[..|labels| - 1], labels[|labels| - 1];
      assert forall n :: 0 <= n <= |front| ==> front[..n] == labels[..n];
      StaysFixed(cfg, b, front, id);
      ExecKeeps(cfg, b, front);
      hide Inv;
      JobIsFixed(cfg, Exec(cfg, b, front), l, id);
    }
  }

  /** Job `id` began in state b and is replied to in state s: it writes back one more than its counter held then,
      and is reported exactly when another reply wrote the counter in between, in particular whenever the counter
      has changed. */
  ghost predicate Overlaps(cfg: Config, b: State, s: State, id: nat)
    requires Shaped(cfg, b) && Shaped(cfg, s)
  {
    && id in b.jobs && id in s.jobs
    && var k := b.jobs[id].slot;
       && Written(cfg, s, id).cnt == s.cnt[k := b.cnt[k] + 1]
       && Replied(cfg, s, id).det.conflicts == s.det.conflicts + (if WrittenSince(s, |b.replies|, k) then 1 else 0)
       && (s.cnt[k] != b.cnt[k] ==> WrittenSince(s, |b.replies|, k))
  }

  lemma WritesBack(cfg: Config, s: State, id: nat)
    requires Shaped(cfg, s) && id in s.jobs
    ensures Written(cfg, s, id).cnt == s.cnt[s.jobs[id].slot := s.jobs[id].v + 1]
  {
  }

  lemma {:induction false} OverlapIsReported(cfg: Config, b: State, s: State, id: nat)
    requires Shaped(cfg, b) && Inv(cfg, s) && cfg.mode != Lock && JustRead(cfg, b, id)
    requires id in s.jobs && s.jobs[id] == b.jobs[id].(stage := s.jobs[id].stage)
    ensures Overlaps(cfg, b, s, id)
  {
    assert Shaped(cfg, s);
    hide Inv, Shaped, Replied, Written, WrittenSince;
    ReportedIffWritten(cfg, s, id);
    WritesBack(cfg, s, id);
  }

  /** On every run outside lock mode: let job `id` begin in step l after the labels `before`, stay in flight during
      `labels`, and then be replied to. */
  lemma {:induction false} ReportedIffOverlapped(cfg: Config, before: seq<Label>, l: Label, labels: seq<Label>, id: nat)
    requires cfg.nslots > 0 && cfg.mode != Lock
    ensures var s0 := Exec(cfg, Init(cfg), before);
      var b := Step(cfg, s0, l);
      id !in s0.jobs && InFlight(cfg, b, labels, id) ==> Overlaps(cfg, b, Exec(cfg, b, labels), id)
  {
    InitOk(cfg);
    ExecKeeps(cfg, Init(cfg), before);
    var s0 := Exec(cfg, Init(cfg), before);
    var b := Step(cfg, s0, l);
    StepKeeps(cfg, s0, l);
    hide Inv, Step, Init, Exec, Overlaps, JustRead;
    if id !in s0.jobs && InFlight(cfg, b, labels, id) {
      StaysFixed(cfg, b, labels, id);
      BeginsWith(cfg, s0, l, id);
      ExecKeeps(cfg, b, labels);
      OverlapIsReported(cfg, b, Exec(cfg, b, labels), id);
    }
  }
}
