/**
 What the Redis module's three modes let overlap, told from the commands in flight and the replies alone: naive mode
 everything, detect mode commands on different counters, lock mode nothing; and who goes next.
 */
module RedisGates {
  import opened Distinct
  import opened RedisModule
  import opened Sums
  import opened VersionClock

  /** Command w has been accepted, has not begun, and was not replied to. */
  ghost predicate Waits(s: State, w: nat)
  {
    && w < |s.accepted| && w !in s.jobs
    && forall n :: 0 <= n < |s.replies| ==> s.replies[n].id != w
  }

  /** Command w waits for what command id occupies: its counter in detect mode, the server in lock mode. */
  ghost predicate WaitsFor(cfg: Config, s: State, id: nat, w: nat)
    requires id in s.jobs
  {
    && Waits(s, w)
    && (cfg.mode == Lock || (cfg.mode == Detect && s.accepted[w] == s.jobs[id].slot))
  }

  /** It is the oldest that does. */
  ghost predicate IsNext(cfg: Config, s: State, id: nat, w: nat)
    requires id in s.jobs
  {
    WaitsFor(cfg, s, id, w) && forall v: nat :: v < w ==> !WaitsFor(cfg, s, id, v)
  }

  ghost predicate Idle(s: State, k: nat)
  {
    forall id :: id in s.jobs ==> s.jobs[id].slot != k
  }

  // ---------- Gates ----------

  lemma {:induction false} DepartedIsReplied(cfg: Config, replies: seq<Done>, g: nat, id: nat)
    ensures id in Departures(cfg, replies, g)
       <==> exists n :: 0 <= n < |replies| && replies[n].id == id && Gate(cfg, replies[n].slot) == g
    decreases |replies|
  {
    if |replies| > 0 {
      var n, front := |replies| - 1, replies[..|replies| - 1];
      DepartedIsReplied(cfg, front, g, id);
      hide Gate;
      assert forall m :: 0 <= m < n ==> front[m] == replies[m];
    }
  }

  /** A gate is busy exactly while a command of it is in flight. */
  lemma {:induction false} BusyIffInFlight(cfg: Config, s: State, g: nat)
    requires Inv(cfg, s) && cfg.mode != Naive && g < cfg.nslots
    ensures s.inflight[g] <==> exists id :: id in s.jobs && Gate(cfg, s.jobs[id].slot) == g
  {
    assert GateOk(cfg, s, g);
    forall id | id in s.jobs && Gate(cfg, s.jobs[id].slot) == g ensures s.inflight[g] {
      assert JobOk(cfg, s, id);
    }
    hide ClockOk, QueueOk, IdsOk, CountsOk;
  }

  /** What is known of gate g. */
  ghost predicate Line(arrived: seq<nat>, departed: seq<nat>, cur: seq<nat>, pend: seq<nat>)
  {
    && arrived == departed + cur + pend
    && forall m, n :: 0 <= m < n < |arrived| ==> arrived[m] < arrived[n]
  }

  /** Each is in one part only, and the waiting ones stand in order. */
  lemma {:induction false} LineIsOrdered(a: seq<nat>, d: seq<nat>, c: seq<nat>, p: seq<nat>, w: nat)
    requires Line(a, d, c, p)
    ensures w in a <==> w in d || w in c || w in p
    ensures w in p ==> w !in d && w !in c && p[0] <= w
  {
    assert forall n :: 0 <= n < |p| ==> p[n] == a[|d| + |c| + n];
    assert forall n :: 0 <= n < |c| ==> c[n] == a[|d| + n];
    assert forall n :: 0 <= n < |d| ==> d[n] == a[n];
    assert forall n :: 0 <= n < |a| ==> a[n] in d || a[n] in c || a[n] in p;
  }

  /** The commands in a gate's line are the ones that wait for it. */
  lemma {:induction false} PendIffWaits(cfg: Config, s: State, g: nat, w: nat)
    requires Inv(cfg, s) && cfg.mode != Naive && g < cfg.nslots
    ensures w in s.pend[g] <==> Waits(s, w) && Gate(cfg, s.accepted[w]) == g
    ensures w in s.pend[g] ==> s.pend[g][0] <= w
  {
    var a, d := Arrivals(cfg, s.accepted, g), Departures(cfg, s.replies, g);
    assert GateOk(cfg, s, g);
    DepartedIsReplied(cfg, s.replies, g, w);
    LineIsOrdered(a, d, s.cur[g], s.pend[g], w);
    if w in s.pend[g] {
      PendWaits(cfg, s, g, w);
    }
    hide Arrivals, Departures, ClockOk, QueueOk, CountsOk;
  }

  lemma {:induction false} PendWaits(cfg: Config, s: State, g: nat, w: nat)
    requires Inv(cfg, s) && cfg.mode != Naive && g < cfg.nslots && w in s.pend[g]
    requires w < |s.accepted| && Gate(cfg, s.accepted[w]) == g
    requires w !in Departures(cfg, s.replies, g) && w !in s.cur[g]
    ensures Waits(s, w)
  {
    assert w in s.jobs ==> JobOk(cfg, s, w);
    assert |s.cur[g]| > 0 ==> s.cur[g][0] in s.cur[g];
    forall n | 0 <= n < |s.replies| ensures s.replies[n].id != w {
      DepartedIsReplied(cfg, s.replies, g, w);
    }
  }

  // ---------- One step ----------

  /** A command begins at once in naive mode; in detect mode exactly if none on its counter is in flight; in lock mode
      exactly if none at all is; and if it does not begin, it waits. */
  lemma {:induction false} BeginsIffFree(cfg: Config, s: State, k: nat)
    requires Inv(cfg, s) && k < cfg.nslots
    ensures var s', id := Step(cfg, s, Command(k)), |s.accepted|;
      && s'.accepted == s.accepted + [k] && s'.replies == s.replies && id !in s.jobs
      && (id in s'.jobs <==> match cfg.mode case Naive => true case Detect => Idle(s, k) case Lock => s.jobs == map[])
      && (if id in s'.jobs then s'.jobs == s.jobs[id := s'.jobs[id]] && s'.jobs[id].slot == k else s'.jobs == s.jobs)
  {
    if cfg.mode != Naive {
      BusyIffInFlight(cfg, s, Gate(cfg, k));
    }
    hide GatedOk, NaiveOk, ClockOk, QueueOk, Protected;
  }

  /** After a reply, exactly the oldest command that waits for what the replied one occupied has begun. */
  lemma {:induction false} OldestGoesNext(cfg: Config, s: State, id: nat)
    requires Inv(cfg, s) && id in s.jobs && s.jobs[id].stage == Finished
    ensures var s' := Step(cfg, s, Reply(id));
      && s'.accepted == s.accepted && |s'.replies| == |s.replies| + 1 && s'.replies[|s.replies|].id == id
      && forall w: nat :: w in s'.jobs <==> (w in s.jobs && w != id) || IsNext(cfg, s, id, w)
  {
    var s' := Step(cfg, s, Reply(id));
    if cfg.mode == Naive {
    } else {
      var g := Gate(cfg, s.jobs[id].slot);
      SeeReplied(cfg, s, id);
      forall w: nat ensures IsNext(cfg, s, id, w) <==> |s.pend[g]| > 0 && w == s.pend[g][0] {
        NextIsFirst(cfg, s, id, w);
      }
      if |s.pend[g]| > 0 {
        PendIffWaits(cfg, s, g, s.pend[g][0]);
      }
      hide Inv, Replied, IsNext, Waits;
    }
  }

  lemma {:induction false} NextIsFirst(cfg: Config, s: State, id: nat, w: nat)
    requires Inv(cfg, s) && cfg.mode != Naive && id in s.jobs
    ensures var p := s.pend[Gate(cfg, s.jobs[id].slot)]; IsNext(cfg, s, id, w) <==> |p| > 0 && w == p[0]
  {
    var g := Gate(cfg, s.jobs[id].slot);
    forall v: nat ensures WaitsFor(cfg, s, id, v) <==> v in s.pend[g] {
      PendIffWaits(cfg, s, g, v);
    }
    forall v: nat | v in s.pend[g] ensures s.pend[g][0] <= v {
      PendIffWaits(cfg, s, g, v);
    }
    assert |s.pend[g]| > 0 ==> s.pend[g][0] in s.pend[g];
    hide Inv, Gate, WaitsFor;
  }

  // ---------- Every run ----------

  function At(cfg: Config, labels: seq<Label>): (s: State)
    requires cfg.nslots > 0
    ensures Shaped(cfg, s)
  {
    Exec(cfg, Init(cfg), labels)
  }

  lemma {:induction false} Reaches(cfg: Config, labels: seq<Label>, l: Label)
    requires cfg.nslots > 0
    ensures Inv(cfg, At(cfg, labels)) && At(cfg, labels + [l]) == Step(cfg, At(cfg, labels), l)
  {
    InitOk(cfg);
    ExecKeeps(cfg, Init(cfg), labels);
    assert (labels + [l])[..|labels|] == labels;
  }

  /** On every run: the next command is in flight at once in naive mode; in detect mode exactly if none on its counter
      is, so that different counters overlap; and in lock mode exactly if none at all is. */
  lemma {:induction false} CommandsOverlap(cfg: Config, labels: seq<Label>, k: nat)
    requires cfg.nslots > 0 && k < cfg.nslots
    ensures var s, s', id := At(cfg, labels), At(cfg, labels + [Command(k)]), |At(cfg, labels).accepted|;
      && (cfg.mode == Naive ==> id in s'.jobs)
      && (cfg.mode == Detect ==> (id in s'.jobs <==> forall j :: j in s.jobs ==> s.jobs[j].slot != k))
      && (cfg.mode == Lock ==> (id in s'.jobs <==> s.jobs == map[]))
      && (forall j :: j in s.jobs ==> j in s'.jobs && s'.jobs[j] == s.jobs[j])
      && (forall j :: j in s'.jobs ==> j in s.jobs || (j == id && s'.jobs[j].slot == k))
      && (id !in s'.jobs ==> Waits(s', id) && s'.accepted[id] == k)
  {
    Reaches(cfg, labels, Command(k));
    assert IdsOk(cfg, At(cfg, labels));
    hide Inv, At, Step;
    BeginsIffFree(cfg, At(cfg, labels), k);
  }

  /** On every run: in lock mode at most one command is in flight, in detect mode at most one on each counter. */
  lemma {:induction false} InFlightAlone(cfg: Config, labels: seq<Label>)
    requires cfg.nslots > 0
    ensures var s := At(cfg, labels);
      && (cfg.mode == Lock ==> |s.jobs| <= 1)
      && (cfg.mode == Detect ==>
            forall i, j :: i in s.jobs && j in s.jobs && s.jobs[i].slot == s.jobs[j].slot ==> i == j)
  {
    if cfg.mode != Naive {
      GatedIsSerial(cfg, labels);
    }
    var s := At(cfg, labels);
    if i :| cfg.mode == Lock && i in s.jobs {
      assert s.jobs.Keys == {i};
    } else if cfg.mode == Lock {
      assert s.jobs.Keys == {};
    }
  }

  /** On every run: when a command has been replied to, the oldest one that waits for its counter, in detect mode, or
      the oldest of all, in lock mode, has begun, and no other. */
  lemma {:induction false} RepliesPassOn(cfg: Config, labels: seq<Label>, id: nat)
    requires cfg.nslots > 0 && id in At(cfg, labels).jobs && At(cfg, labels).jobs[id].stage == Finished
    ensures var s, s' := At(cfg, labels), At(cfg, labels + [Reply(id)]);
      forall w: nat :: w in s'.jobs <==> (w in s.jobs && w != id) || IsNext(cfg, s, id, w)
  {
    Reaches(cfg, labels, Reply(id));
    hide Inv, At, Step, IsNext;
    OldestGoesNext(cfg, At(cfg, labels), id);
  }

  /** On every run: a worker gets the oldest queued job to the device, from where it is finished; nothing else moves. */
  lemma {:induction false} WorkersMoveJobs(cfg: Config, labels: seq<Label>, id: nat)
    requires cfg.nslots > 0
    ensures var s, t := At(cfg, labels), At(cfg, labels + [Take]);
      |s.queue| > 0 ==>
        && s.queue[0] in s.jobs && t.queue == s.queue[1..]
        && t == s.(queue := t.queue, jobs := s.jobs[s.queue[0] := s.jobs[s.queue[0]].(stage := Offloading)])
    ensures var s, f := At(cfg, labels), At(cfg, labels + [Finish(id)]);
      id in s.jobs && s.jobs[id].stage == Offloading ==> f == s.(jobs := s.jobs[id := s.jobs[id].(stage := Finished)])
  {
    Reaches(cfg, labels, Take);
    Reaches(cfg, labels, Finish(id));
    hide At, Shaped, ClockOk, IdsOk, NaiveOk, GatedOk, NoDup;
  }

  lemma {:induction false} BeginProtects(cfg: Config, s: State, l: Label, id: nat)
    requires Shaped(cfg, s) && cfg.mode != Lock && id !in s.jobs && id in Step(cfg, s, l).jobs
    ensures forall p: nat :: p < cfg.nslots ==> !Step(cfg, s, l).det.writable[p]
  {
    hide Stored;
  }

  /** On every run: outside lock mode a command begins with every page protected, so that the next write is seen. */
  lemma {:induction false} BeginsProtected(cfg: Config, labels: seq<Label>, l: Label, id: nat)
    requires cfg.nslots > 0 && cfg.mode != Lock
    requires id !in At(cfg, labels).jobs && id in At(cfg, labels + [l]).jobs
    ensures forall p: nat :: p < cfg.nslots ==> !At(cfg, labels + [l]).det.writable[p]
  {
    hide At, Inv, Step;
    Reaches(cfg, labels, l);
    BeginProtects(cfg, At(cfg, labels), l, id);
  }
}
