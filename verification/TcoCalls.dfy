/**
 What becomes of the results of the coroutine server's system calls, told from the steps of a run: every byte delivered
 is taken in and every byte accepted was sent, a call that would block is a pause, and a connection ends exactly when
 one of its own calls returns end of stream or an error.
 */
module TcoCalls {
  import opened Bytes
  import opened Keystream
  import opened TcoServer
  import opened TcoProgress

  function Least(a: nat, b: nat): nat
  {
    if a < b then a else b
  }

  /** The last step of the run is a system call of connection i. */
  predicate Called(cfg: Config, labels: seq<Label>, i: nat)
    requires |labels| > 0
  {
    var w, l := After(cfg, labels[..|labels| - 1]), labels[|labels| - 1];
    && l.Run? && l.i == i < |w.conns| && w.batch == {} && CanRun(w, i, l.io)
    && (w.conns[i].phase.Reading? || w.conns[i].phase.Writing?)
  }

  /** End of stream for a read, or an error. */
  predicate Hopeless(io: Io)
  {
    io.Closed? || io.Fail?
  }

  /** A call of connection i has returned end of stream or an error. */
  predicate Failed(cfg: Config, labels: seq<Label>, i: nat)
    decreases |labels|
  {
    |labels| > 0 &&
    (Failed(cfg, labels[..|labels| - 1], i) || (Called(cfg, labels, i) && Hopeless(labels[|labels| - 1].io)))
  }

  /** The bytes that connection i's calls have delivered, in order, */
  function Received(cfg: Config, labels: seq<Label>, i: nat): seq<Byte>
    decreases |labels|
  {
    if |labels| == 0 then []
    else
      var io := if Called(cfg, labels, i) then labels[|labels| - 1].io else Again;
      Received(cfg, labels[..|labels| - 1], i) + if io.Data? then io.bytes else []
  }

  /** and how many they have taken. */
  function Sent(cfg: Config, labels: seq<Label>, i: nat): nat
    decreases |labels|
  {
    if |labels| == 0 then 0
    else
      var io := if Called(cfg, labels, i) then labels[|labels| - 1].io else Again;
      Sent(cfg, labels[..|labels| - 1], i) + if io.Room? then io.n else 0
  }

  /** How many connections have been attempted. */
  function Attempts(labels: seq<Label>): nat
    decreases |labels|
  {
    if |labels| == 0 then 0
    else Attempts(labels[..|labels| - 1]) + if labels[|labels| - 1].Accept? then 1 else 0
  }

  /** The time at which connection i last wrote a deadline. */
  function TimedAt(cfg: Config, labels: seq<Label>, i: nat): nat
    decreases |labels|
  {
    if |labels| == 0 then 0
    else
      var w, w' := After(cfg, labels[..|labels| - 1]), After(cfg, labels);
      if i < |w.conns| && i < |w'.conns|
         && w.conns[i].phase == Submitting(Cleared) && w'.conns[i].phase == Submitting(Timed) then w.now
      else TimedAt(cfg, labels[..|labels| - 1], i)
  }

  predicate Over(c: Conn)
  {
    c.state == Dead || c.state == Gone
  }

  // ---------- One step ----------

  lemma {:induction false} StepOf(cfg: Config, labels: seq<Label>)
    ensures Inv(cfg, After(cfg, labels))
    ensures |labels| > 0 ==> After(cfg, labels) == Step(cfg, After(cfg, labels[..|labels| - 1]), labels[|labels| - 1])
  {
    Always(cfg, labels);
  }

  /** A call: what it delivers and takes, and whether it ends the connection. */
  lemma {:induction false} CallDoes(cfg: Config, w: World, i: nat, io: Io)
    requires Shaped(w) && i < |w.conns| && w.batch == {} && CanRun(w, i, io)
    requires w.conns[i].phase.Reading? || w.conns[i].phase.Writing?
    ensures var c, c' := w.conns[i], Step(cfg, w, Run(i, io)).conns[i];
      && c'.inp == c.inp + (if io.Data? then io.bytes else []) && |c'.outp| == |c.outp| + (if io.Room? then io.n else 0)
      && (Over(c') <==> Hopeless(io))
  {
    var c := w.conns[i];
    assert Step(cfg, w, Run(i, io)).conns[i] == Advance(cfg, c, io);
    hide Transform, SeqMask, Step, RunOne, Transformed;
    if c.phase.Reading? {
      assert Advance(cfg, c, io) == ReadTurn(c, io);
    } else {
      assert Advance(cfg, c, io) == WriteTurn(c, io);
    }
  }

  /** Any other step of any agent. */
  lemma {:induction false} OthersDo(cfg: Config, w: World, l: Label, i: nat)
    requires Shaped(w) && i < |w.conns|
    requires !(l.Run? && l.i == i && w.batch == {} && CanRun(w, i, l.io)
               && (w.conns[i].phase.Reading? || w.conns[i].phase.Writing?))
    ensures var w' := Step(cfg, w, l);
      i < |w'.conns| && w'.conns[i].inp == w.conns[i].inp && w'.conns[i].outp == w.conns[i].outp
      && (Over(w'.conns[i]) <==> Over(w.conns[i]))
  {
    hide Transform, SeqMask;
  }

  lemma {:induction false} Joins(cfg: Config, w: World, l: Label)
    requires Shaped(w)
    ensures var w' := Step(cfg, w, l);
      && |w'.conns| == (if l.Accept? && |w.conns| < cfg.maxconn then |w.conns| + 1 else |w.conns|)
      && (|w'.conns| > |w.conns| ==>
            var c := w'.conns[|w.conns|];
            c.state == Runnable && c.phase == Reading(0) && c.inp == c.outp == [] && w'.armed[|w.conns|] == Some(In))
  {
  }

  // ---------- Every run ----------

  /** A connection is over exactly when one of its own calls has returned end of stream or an error, what it has taken
      in is what its calls delivered, and it has sent as much as they took. */
  lemma {:induction false} CallsDecide(cfg: Config, labels: seq<Label>, i: nat)
    ensures var w := After(cfg, labels);
      if i < |w.conns| then
        && (Over(w.conns[i]) <==> Failed(cfg, labels, i))
        && w.conns[i].inp == Received(cfg, labels, i) && |w.conns[i].outp| == Sent(cfg, labels, i)
      else !Failed(cfg, labels, i) && Received(cfg, labels, i) == [] && Sent(cfg, labels, i) == 0
    decreases |labels|
  {
    if |labels| > 0 {
      var front, l := labels[..|labels| - 1], labels[|labels| - 1];
      var w := After(cfg, front);
      CallsDecide(cfg, front, i);
      StepOf(cfg, labels);
      hide Inv, Step, After;
      Joins(cfg, w, l);
      if i < |w.conns| {
        if Called(cfg, labels, i) {
          CallDoes(cfg, w, i, l.io);
        } else {
          OthersDo(cfg, w, l, i);
        }
      }
    }
  }

  // ---------- A call that would block ----------

  function Direction(phase: Phase): Interest
  {
    if phase.Reading? then In else Out
  }

  /** It parks the connection, armed for its direction, and changes nothing else of it. */
  lemma {:induction false} AgainParks(cfg: Config, w: World, i: nat)
    requires Shaped(w) && i < |w.conns| && w.batch == {} && w.conns[i].state == Runnable
    requires w.conns[i].phase.Reading? || w.conns[i].phase.Writing?
    ensures var c, w', to := w.conns[i], Step(cfg, w, Run(i, Again)), Direction(w.conns[i].phase);
      && w'.conns == w.conns[i := c.(state := WaitIo, ioEv := to)] && w'.armed == w.armed[i := Some(to)]
      && w' == w.(conns := w'.conns, armed := w'.armed)
  {
    hide Transform, SeqMask;
    assert w.slots[i := w.slots[i]] == w.slots;
  }

  /** Until its event is reported, and then until it is delivered, nothing happens to it. */
  lemma {:induction false} StaysParked(cfg: Config, w: World, l: Label, i: nat, reported: bool)
    requires Shaped(w) && Waits(w, i, reported) && l != Deliver(i) && l != Event(i)
    ensures Waits(Step(cfg, w, l), i, reported) && Step(cfg, w, l).conns[i] == w.conns[i]
  {
    hide Advance;
  }

  lemma {:induction false} StaysParkedOver(cfg: Config, w: World, ls: seq<Label>, i: nat, reported: bool)
    requires Shaped(w) && Waits(w, i, reported) && Deliver(i) !in ls && Event(i) !in ls
    ensures Waits(Exec(cfg, w, ls), i, reported) && Exec(cfg, w, ls).conns[i] == w.conns[i]
    decreases |ls|
  {
    if |ls| > 0 {
      StaysParkedOver(cfg, w, ls[..|ls| - 1], i, reported);
      hide Step, Waits;
      StaysParked(cfg, Exec(cfg, w, ls[..|ls| - 1]), ls[|ls| - 1], i, reported);
    }
  }

  /** The event is reported, and later delivered. */
  lemma {:induction false} EventResumes(cfg: Config, w: World, i: nat)
    requires Shaped(w)
    ensures Waits(w, i, false) ==>
      Waits(Step(cfg, w, Event(i)), i, true) && Step(cfg, w, Event(i)).conns[i] == w.conns[i]
    ensures Waits(w, i, true) ==> Step(cfg, w, Deliver(i)).conns[i] == w.conns[i].(state := Runnable)
  {
  }

  /** The run from w in which connection i's call would block, and its event is then reported and delivered, with other
      steps in between. */
  function Paused(cfg: Config, w: World, i: nat, first: seq<Label>, second: seq<Label>): (w': World)
    requires Shaped(w)
    ensures Shaped(w')
  {
    var w1 := Exec(cfg, Step(cfg, w, Run(i, Again)), first);
    Step(cfg, Exec(cfg, Step(cfg, w1, Event(i)), second), Deliver(i))
  }

  /** A call that would block is a pause: whatever the others do meanwhile, when its event has been delivered the
      connection is where it was, and the next call has the same effect on it as if there had been no pause. */
  lemma {:induction false} AgainIsAPause(cfg: Config, labels: seq<Label>, i: nat, first: seq<Label>, second: seq<Label>,
                                         io: Io)
    requires var w := After(cfg, labels);
      && i < |w.conns| && w.batch == {} && w.conns[i].state == Runnable
      && (w.conns[i].phase.Reading? || w.conns[i].phase.Writing?) && Legal(w.conns[i].phase, io)
    requires Deliver(i) !in first + second && Event(i) !in first + second
    ensures var w := After(cfg, labels);
      var w' := Paused(cfg, w, i, first, second);
      && i < |w'.conns| && w'.conns[i] == w.conns[i].(ioEv := Direction(w.conns[i].phase))
      && (w'.batch == {} ==>
            Step(cfg, w', Run(i, io)).conns[i].(ioEv := In) == Step(cfg, w, Run(i, io)).conns[i].(ioEv := In))
  {
    var w := After(cfg, labels);
    AgainParks(cfg, w, i);
    hide Step, Exec;
    var w1 := Step(cfg, w, Run(i, Again));
    StaysParkedOver(cfg, w1, first, i, false);
    var w2 := Exec(cfg, w1, first);
    EventResumes(cfg, w2, i);
    var w3 := Step(cfg, w2, Event(i));
    StaysParkedOver(cfg, w3, second, i, true);
    EventResumes(cfg, Exec(cfg, w3, second), i);
    SameTurn(cfg, w, Paused(cfg, w, i, first, second), i, io);
  }

  /** A turn does not depend on what the connection last waited for. */
  lemma {:induction false} SameAdvance(cfg: Config, c: Conn, e: Interest, io: Io)
    requires |c.buf| == REQ && Legal(c.phase, io)
    ensures Advance(cfg, c.(ioEv := e), io).(ioEv := In) == Advance(cfg, c, io).(ioEv := In)
  {
    hide Transform, SeqMask, ReadTurn, WriteTurn;
    SameCall(c, e, io);
  }

  lemma {:induction false} SameCall(c: Conn, e: Interest, io: Io)
    requires |c.buf| == REQ && Legal(c.phase, io)
    ensures c.phase.Reading? ==> ReadTurn(c.(ioEv := e), io).(ioEv := In) == ReadTurn(c, io).(ioEv := In)
    ensures c.phase.Writing? ==> WriteTurn(c.(ioEv := e), io).(ioEv := In) == WriteTurn(c, io).(ioEv := In)
  {
  }

  lemma {:induction false} SameTurn(cfg: Config, w: World, w': World, i: nat, io: Io)
    requires Shaped(w) && Shaped(w') && i < |w.conns| && i < |w'.conns| && w.batch == {} && CanRun(w, i, io)
    requires w'.conns[i] == w.conns[i].(ioEv := w'.conns[i].ioEv)
    ensures w'.batch == {} ==>
      Step(cfg, w', Run(i, io)).conns[i].(ioEv := In) == Step(cfg, w, Run(i, io)).conns[i].(ioEv := In)
  {
    SameAdvance(cfg, w.conns[i], w'.conns[i].ioEv, io);
    hide Advance, SlotAfter;
    assert Step(cfg, w, Run(i, io)).conns[i] == Advance(cfg, w.conns[i], io);
    assert w'.batch == {} ==> Step(cfg, w', Run(i, io)).conns[i] == Advance(cfg, w'.conns[i], io);
  }

  /** An event is reported once for each time the descriptor is armed, and a delivery hands it over once. */
  lemma {:induction false} EventsAreOneShot(cfg: Config, labels: seq<Label>, i: nat)
    requires i < |After(cfg, labels).conns|
    ensures var w := After(cfg, labels);
      && (if w.armed[i] == None then Step(cfg, w, Event(i)) == w
          else Step(cfg, w, Event(i)) == w.(armed := w.armed[i := None], batch := w.batch + {i}))
      && Step(cfg, w, Deliver(i)).batch == w.batch - {i}
  {
    var w := After(cfg, labels);
    assert w.batch - {i} == if i in w.batch then w.batch - {i} else w.batch;
  }

  /** A turn concerns the connection and its slot; epoll only if it parks for an event. */
  lemma {:induction false} TurnIsLocal(cfg: Config, labels: seq<Label>, i: nat, io: Io)
    requires var w := After(cfg, labels); i < |w.conns| && w.batch == {} && CanRun(w, i, io)
    ensures var w, w' := After(cfg, labels), Step(cfg, After(cfg, labels), Run(i, io));
      && i < |w'.conns| && i < |w'.slots|
      && w' == w.(conns := w.conns[i := w'.conns[i]], slots := w.slots[i := w'.slots[i]], armed := w'.armed)
      && w'.armed == if w'.conns[i].state == WaitIo then w.armed[i := Some(Direction(w.conns[i].phase))] else w.armed
  {
    var w := After(cfg, labels);
    StepOf(cfg, labels);
    AdvanceParks(cfg, w.conns[i], io);
    TurnKeepsPhase(cfg, w.conns[i], io);
    hide After, Inv, Advance;
  }

  lemma {:induction false} TurnKeepsPhase(cfg: Config, c: Conn, io: Io)
    requires |c.buf| == REQ && c.state == Runnable && Legal(c.phase, io)
    ensures var c' := Advance(cfg, c, io); c'.state == WaitIo ==> c'.phase == c.phase && io == Again
  {
    hide Transform, SeqMask;
  }

  // ---------- Joining, submitting, leaving ----------

  /** Every attempt to connect adds a connection until the table is full. */
  lemma {:induction false} AttemptsJoin(cfg: Config, labels: seq<Label>)
    ensures |After(cfg, labels).conns| == Least(Attempts(labels), cfg.maxconn)
    decreases |labels|
  {
    if |labels| > 0 {
      AttemptsJoin(cfg, labels[..|labels| - 1]);
      StepOf(cfg, labels);
      hide Step, Inv, After;
      Joins(cfg, After(cfg, labels[..|labels| - 1]), labels[|labels| - 1]);
    }
  }

  /** A deadline, once written, stays until the next submission's. */
  predicate HasDeadline(c: Conn)
  {
    c.phase == Submitting(Timed) || c.phase.Offloading?
  }

  lemma {:induction false} DeadlineStays(cfg: Config, w: World, l: Label, i: nat)
    requires Shaped(w) && i < |w.conns|
    ensures var w' := Step(cfg, w, l);
      && i < |w'.conns|
      && (w.conns[i].phase == Submitting(Cleared) && w'.conns[i].phase == Submitting(Timed) ==>
            w'.slots[i].deadline == w.now + cfg.latency)
      && (HasDeadline(w'.conns[i]) ==> HasDeadline(w.conns[i]) || w.conns[i].phase == Submitting(Cleared))
      && (HasDeadline(w.conns[i]) ==> w'.slots[i].deadline == w.slots[i].deadline)
      && (w.conns[i].phase == Submitting(Cleared) ==>
            w'.conns[i].phase == Submitting(Cleared) || w'.conns[i].phase == Submitting(Timed))
  {
    hide Transform, SeqMask;
  }

  /** The deadline of a submission is one latency after the time at which it was written. */
  lemma {:induction false} DeadlineIsLatency(cfg: Config, labels: seq<Label>, i: nat)
    ensures var w := After(cfg, labels);
      i < |w.conns| && HasDeadline(w.conns[i]) ==> w.slots[i].deadline == TimedAt(cfg, labels, i) + cfg.latency
    decreases |labels|
  {
    if |labels| > 0 {
      var w, l := After(cfg, labels[..|labels| - 1]), labels[|labels| - 1];
      DeadlineIsLatency(cfg, labels[..|labels| - 1], i);
      StepOf(cfg, labels);
      hide Inv, Step, After;
      Joins(cfg, w, l);
      if i < |w.conns| {
        DeadlineStays(cfg, w, l, i);
      }
    }
  }

  /** At the end of a pass, which leaves everybody parked, exactly the connections that failed are closed. */
  lemma {:induction false} FailedAreClosed(cfg: Config, labels: seq<Label>, i: nat)
    requires AllParked(After(cfg, labels))
    ensures i in After(cfg, labels).closed <==> Failed(cfg, labels, i)
  {
    var w := After(cfg, labels);
    CallsDecide(cfg, labels, i);
    StepOf(cfg, labels);
    assert i < |w.conns| ==> Attended(w, i);
    hide After, InStep, Served;
  }

  /** A connection that has ended is closed by the next removal, and its descriptor is not armed again. */
  lemma {:induction false} DeadIsRemoved(cfg: Config, labels: seq<Label>, i: nat)
    requires var w := After(cfg, labels); i < |w.conns| && w.conns[i].state == Dead && w.batch == {}
    ensures var w, w' := After(cfg, labels), Step(cfg, After(cfg, labels), Remove(i));
      && w'.closed == w.closed + [i] && w'.armed == w.armed[i := None] && i < |w'.conns|
      && w'.conns == w.conns[i := w.conns[i].(state := Gone)] && i !in w.closed
  {
    StepOf(cfg, labels);
    assert Attended(After(cfg, labels), i);
    hide After, InStep, Served;
  }
}
