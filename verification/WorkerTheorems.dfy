/** What the worker promises, over every run from an empty directory. */
module WorkerTheorems {
  import opened Prelude
  import opened Acks
  import opened Journal
  import opened Worker
  import opened WorkerInvariant
  import opened WorkerLimits
  import opened WorkerRuns

  /** The slot of an attempt after a run from an empty directory. */
  function Later(epoch: nat, moves: seq<Move>, a: AttemptId): Slot
    requires Run(Fresh(epoch), moves)
  {
    SlotOf(After(Fresh(epoch), moves), a)
  }

  /** The slot after a further run. */
  function LaterStill(epoch: nat, moves: seq<Move>, more: seq<Move>, a: AttemptId): Slot
    requires Run(Fresh(epoch), moves) && Run(After(Fresh(epoch), moves), more)
  {
    SlotOf(After(After(Fresh(epoch), moves), more), a)
  }

  /**
   * Over every run, restarts included, an attempt's handler task is created at most once, its
   * handler is called at most once, and both only after a confirmation or a continue decision.
   */
  lemma HandlerStartsAtMostOnce(epoch: nat, moves: seq<Move>, a: AttemptId)
    requires Run(Fresh(epoch), moves)
    ensures var p := Later(epoch, moves, a).past;
            p.begins <= p.spawns <= 1 && (p.spawns == 1 ==> p.confirmed)
  {
    Reached(epoch, moves, a);
    hide Run, After, EntryFits, TasksFit;
  }

  /**
   * The premise about Core is what this rests on. Where it is dropped, a confirmation and a
   * continue decision create a second handler task exactly when the record is ack_sent again
   * (for a continue decision also in the snapshot) and the attempt is not terminal. Such a
   * record is always one that was created after Core had acknowledged the Result.
   */
  lemma SecondStartIff(sh: Shared, x: Slot, id: TaskId, reconnect: bool)
    requires Inv(sh, x) && !sh.poisoned && x.past.spawns == 1
    ensures x.claim == AwaitConfirm ==>
              (ConfirmStep(sh, x).past.spawns == 2 <==> Acknowledging(x) && !x.terminal)
    ensures id in x.tasks && x.tasks[id].Ticket? ==>
              (ContinueStep(sh, x, id, x.tasks[id].state, reconnect).past.spawns == 2
               <==> x.tasks[id].state == AckSent && Acknowledging(x) && !x.terminal)
    ensures Acknowledging(x) ==> x.past.late && x.past.resultAcked && !x.active
  {
    AcknowledgingAgain(sh, x);
    if x.claim == AwaitConfirm {
      SecondConfirmIff(sh, x);
    }
    if id in x.tasks && x.tasks[id].Ticket? {
      SecondContinueIff(sh, x, id, reconnect);
    }
    hide *;
  }

  lemma AcknowledgingAgain(sh: Shared, x: Slot)
    requires Inv(sh, x) && !sh.poisoned && x.past.spawns == 1
    ensures Acknowledging(x) ==> x.past.late && x.past.resultAcked && !x.active
  {
    hide Sound, Meaning, PendingSeqs, TasksFit, EventsKnown, HandlerFits, LockFits, GoneFits, FinalFits, StoppedFits;
  }

  lemma SecondConfirmIff(sh: Shared, x: Slot)
    requires Inv(sh, x) && !sh.poisoned && x.past.spawns == 1 && x.claim == AwaitConfirm
    ensures ConfirmStep(sh, x).past.spawns == 2 <==> Acknowledging(x) && !x.terminal
  {
    hide Sound, Meaning, PendingSeqs, TasksFit, EventsKnown, HandlerFits, LockFits, GoneFits, FinalFits, StoppedFits;
  }

  lemma SecondContinueIff(sh: Shared, x: Slot, id: TaskId, reconnect: bool)
    requires Inv(sh, x) && !sh.poisoned && x.past.spawns == 1 && id in x.tasks && x.tasks[id].Ticket?
    ensures ContinueStep(sh, x, id, x.tasks[id].state, reconnect).past.spawns == 2
       <==> x.tasks[id].state == AckSent && Acknowledging(x) && !x.terminal
  {
    assert TaskFits(x, sh.epoch, id, x.tasks[id]);
    hide Sound, Meaning, PendingSeqs, TasksFit, EventsKnown, HandlerFits, LockFits, GoneFits, FinalFits, StoppedFits;
  }

  lemma {:induction false} RunExtends(w: World, moves: seq<Move>, m: Move)
    requires Run(w, moves) && Allowed(After(w, moves), m)
    ensures Run(w, moves + [m]) && After(w, moves + [m]) == Next(After(w, moves), m)
    decreases |moves|
  {
    hide Allowed, Next;
    if moves == [] {
      assert [m][1..] == [];
    } else {
      assert (moves + [m])[1..] == moves[1..] + [m];
      RunExtends(Next(w, moves[0]), moves[1..], m);
    }
  }

  /** `moves` is a run from an empty directory that takes the attempt to `x`, without fault or fence. */
  ghost predicate Leads(moves: seq<Move>, a: AttemptId, x: Slot) {
    Run(Fresh(0), moves) && After(Fresh(0), moves).sh == Fresh(0).sh && Later(0, moves, a) == x
  }

  lemma OneMore(moves: seq<Move>, a: AttemptId, x: Slot, step: Step, y: Slot) returns (longer: seq<Move>)
    requires Leads(moves, a, x) && Enabled(Fresh(0).sh, x, step) && y == Apply(Fresh(0).sh, x, step)
    requires step.Offer? ==> step.identity.attempt == a
    ensures Leads(longer, a, y)
  {
    hide Enabled, Apply;
    longer := moves + [Act(a, step)];
    RunExtends(Fresh(0), moves, Act(a, step));
  }

  /** The stages of an attempt without Events, from the offer to the Result on the wire. */
  function OfferedSlot(identity: Identity, input: Fields): Slot {
    EMPTY_SLOT.(entry := Some(Entry(NewAssignment(identity, input).(state := AckSent), map[], None)),
                claim := AwaitConfirm, past := EMPTY_PAST.(offered := Some(identity)))
  }

  function StartedSlot(identity: Identity, input: Fields, phase: Phase, begins: nat): Slot {
    EMPTY_SLOT.(
      entry := Some(Entry(NewAssignment(identity, input).(state := Started), map[], None)),
      handler := Some(Handler(phase, false)), active := true, permit := Some(Permit(true, true)),
      past := EMPTY_PAST.(
        offered := Some(identity), confirmed := true, startedIn := Some(0), spawns := 1, begins := begins))
  }

  function StoredSlot(identity: Identity, input: Fields, body: Fields): Slot {
    var r := Result(identity, Uuid(0), 0, Payload(body, Some(Uuid(0)), Some(0)));
    var rec := Assignment(identity, input, Finished, 0, Window(0, []), Some(Uuid(0)), 0);
    var x := StartedSlot(identity, input, Done, 1);
    x.(entry := Some(Entry(rec, map[], Some(r))), past := x.past.(result := Some(r)))
  }

  function SentSlot(identity: Identity, input: Fields, body: Fields): Slot {
    var x := StoredSlot(identity, input, body);
    var r := x.entry.value.result.value;
    x.(lock := Some(0), tasks := map[0 := SendingResult(r, false)], past := x.past.(sentResults := [r]))
  }

  function AckedSlot(identity: Identity, input: Fields, body: Fields): Slot {
    var x := SentSlot(identity, input, body);
    x.(entry := None, active := false, permit := None, lock := None, tasks := map[],
       past := x.past.(resultAcked := true))
  }

  lemma OfferedIs(identity: Identity, input: Fields)
    requires identity.epoch == 0
    ensures Enabled(Fresh(0).sh, EMPTY_SLOT, Offer(identity, input, true))
    ensures Apply(Fresh(0).sh, EMPTY_SLOT, Offer(identity, input, true)) == OfferedSlot(identity, input)
  {
  }

  lemma StartedIs(identity: Identity, input: Fields)
    ensures var x, y := OfferedSlot(identity, input), StartedSlot(identity, input, Spawned, 0);
            && Enabled(Fresh(0).sh, x, Confirm) && Apply(Fresh(0).sh, x, Confirm) == y
            && Enabled(Fresh(0).sh, y, Begin)
            && Apply(Fresh(0).sh, y, Begin) == StartedSlot(identity, input, Running, 1)
  {
  }

  lemma StartExample(identity: Identity, input: Fields) returns (moves: seq<Move>)
    requires identity.epoch == 0
    ensures Leads(moves, identity.attempt, StartedSlot(identity, input, Running, 1))
  {
    var a := identity.attempt;
    moves := [];
    assert Leads(moves, a, EMPTY_SLOT);
    OfferedIs(identity, input);
    StartedIs(identity, input);
    hide Leads, Enabled, Apply;
    moves := OneMore(moves, a, EMPTY_SLOT, Offer(identity, input, true), OfferedSlot(identity, input));
    moves := OneMore(moves, a, OfferedSlot(identity, input), Confirm, StartedSlot(identity, input, Spawned, 0));
    moves := OneMore(moves, a, StartedSlot(identity, input, Spawned, 0), Begin,
                     StartedSlot(identity, input, Running, 1));
  }

  lemma ReturnedIs(identity: Identity, input: Fields)
    ensures var x := StartedSlot(identity, input, Running, 1);
            && Enabled(Fresh(0).sh, x, Return)
            && Apply(Fresh(0).sh, x, Return) == StartedSlot(identity, input, Storing, 1)
  {
  }

  lemma StoredIs(identity: Identity, input: Fields, body: Fields)
    ensures var x := StartedSlot(identity, input, Storing, 1);
            && Enabled(Fresh(0).sh, x, StoreResult(body, 0))
            && Apply(Fresh(0).sh, x, StoreResult(body, 0)) == StoredSlot(identity, input, body)
  {
  }

  lemma StoredExample(identity: Identity, input: Fields, body: Fields) returns (moves: seq<Move>)
    requires identity.epoch == 0
    ensures Leads(moves, identity.attempt, StoredSlot(identity, input, body))
  {
    var a := identity.attempt;
    ReturnedIs(identity, input);
    StoredIs(identity, input, body);
    hide Leads, Enabled, Apply;
    moves := StartExample(identity, input);
    var x := StartedSlot(identity, input, Storing, 1);
    moves := OneMore(moves, a, StartedSlot(identity, input, Running, 1), Return, x);
    moves := OneMore(moves, a, x, StoreResult(body, 0), StoredSlot(identity, input, body));
  }

  lemma SentExample(identity: Identity, input: Fields, body: Fields) returns (moves: seq<Move>)
    requires identity.epoch == 0
    ensures Leads(moves, identity.attempt, SentSlot(identity, input, body))
  {
    var a := identity.attempt;
    hide Leads;
    moves := StoredExample(identity, input, body);
    var x := StoredSlot(identity, input, body);
    var y := x.(tasks := map[0 := FlushWaiting]);
    moves := OneMore(moves, a, x, FlushSpawn(0), y);
    assert PendingSeqs(y.entry.value) == {};
    moves := OneMore(moves, a, y, FlushLock(0), SentSlot(identity, input, body));
  }

  lemma AckedExample(identity: Identity, input: Fields, body: Fields) returns (moves: seq<Move>)
    requires identity.epoch == 0
    ensures Leads(moves, identity.attempt, AckedSlot(identity, input, body))
  {
    hide Leads;
    moves := SentExample(identity, input, body);
    moves := OneMore(moves, identity.attempt, SentSlot(identity, input, body), ResultAck(0),
                     AckedSlot(identity, input, body));
  }

  /** Such a record does come about: after the Result is acknowledged, the offer can be made again. */
  lemma SecondStartExample(identity: Identity, input: Fields, body: Fields) returns (moves: seq<Move>)
    requires identity.epoch == 0
    ensures Run(Fresh(0), moves)
    ensures var x := Later(0, moves, identity.attempt);
            x.claim == AwaitConfirm && ConfirmStep(Fresh(0).sh, x).past.spawns == 2
  {
    moves := AckedExample(identity, input, body);
    var x := AckedSlot(identity, input, body);
    OfferedAgain(identity, input, body);
    hide Enabled, Apply, ConfirmStep, AckedSlot, Leads;
    var y := Apply(Fresh(0).sh, x, Offer(identity, input, true));
    moves := OneMore(moves, identity.attempt, x, Offer(identity, input, true), y);
    LeadsTo(moves, identity.attempt, y);
  }

  lemma LeadsTo(moves: seq<Move>, a: AttemptId, x: Slot)
    requires Leads(moves, a, x)
    ensures Run(Fresh(0), moves) && Later(0, moves, a) == x
  {
  }

  lemma OfferedAgain(identity: Identity, input: Fields, body: Fields)
    requires identity.epoch == 0
    ensures var x, step := AckedSlot(identity, input, body), Offer(identity, input, true);
            && Enabled(Fresh(0).sh, x, step)
            && var y := Apply(Fresh(0).sh, x, step);
               y.claim == AwaitConfirm && ConfirmStep(Fresh(0).sh, y).past.spawns == 2
  {
    hide Noted;
    NotedSpawns();
  }

  lemma NotedSpawns()
    ensures forall p, before, after, epoch :: Noted(p, before, after, epoch).spawns == p.spawns
  {
  }

  /**
   * When a flush learns that Core acknowledged the Result, every Event 1..final has had a
   * matching acknowledgement, the record reads exactly that, and no later Event can come.
   */
  lemma DeliveryIsComplete(epoch: nat, moves: seq<Move>, more: seq<Move>, a: AttemptId, id: TaskId)
    requires Run(Fresh(epoch), moves) && Run(After(Fresh(epoch), moves), more)
    requires Enabled(After(Fresh(epoch), moves).sh, Later(epoch, moves, a), ResultAck(id))
    ensures var x := Later(epoch, moves, a);
            var r := x.tasks[id].result;
            && x.entry.Some? && x.entry.value.result == Some(r)
            && r.finalSeq == x.entry.value.rec.finalSeq == x.entry.value.rec.last
            && x.entry.value.rec.acks == Window(r.finalSeq, [])
            && (forall n: nat :: 1 <= n <= r.finalSeq ==> n in x.past.acked && n in x.past.ever)
            && LaterStill(epoch, moves, more, a).past.ever == x.past.ever
  {
    Reached(epoch, moves, a);
    RunOnward(After(Fresh(epoch), moves), more, a);
    hide Run, After;
    AcknowledgedIsComplete(After(Fresh(epoch), moves).sh, Later(epoch, moves, a), id);
  }

  lemma AcknowledgedIsComplete(sh: Shared, x: Slot, id: TaskId)
    requires Inv(sh, x) && Enabled(sh, x, ResultAck(id))
    ensures var r := x.tasks[id].result;
            && x.entry.Some? && x.entry.value.result == Some(r) && x.past.result == Some(r)
            && r.finalSeq == x.entry.value.rec.finalSeq == x.entry.value.rec.last
            && x.entry.value.rec.acks == Window(r.finalSeq, [])
            && (forall n: nat :: 1 <= n <= r.finalSeq ==> n in x.past.acked && n in x.past.ever)
  {
    hide PastFits, HandlerFits, TasksFit;
    assert ResultLive(x, x.tasks[id].result);
    var e := x.entry.value;
    forall n: nat | 1 <= n <= e.rec.last ensures Acked(e.rec.acks, n) && n in e.events && n in Meaning(e.rec.acks) {
      assert n !in PendingSeqs(e) && n in UpTo(e.rec.last);
    }
    CompleteIff(e.rec.acks, e.rec.last);
  }

  function Durable(x: Slot): Option<Result> {
    if x.entry.Some? then x.entry.value.result else None
  }

  /**
   * Every send of an Event is of one record, with the id, sequence and kind under which it was
   * first durable, every send of the Result is of the first durable Result, and no other Result
   * is ever durable. A record holds the payload as its file has it; what a send reads of the
   * object in memory is another matter, settled in the module WorkerWire.
   */
  lemma WireIdentityIsStable(epoch: nat, moves: seq<Move>, more: seq<Move>, a: AttemptId)
    requires Run(Fresh(epoch), moves) && Run(After(Fresh(epoch), moves), more)
    ensures var x := Later(epoch, moves, a);
            var y := LaterStill(epoch, moves, more, a);
            && (forall e, f :: e in x.past.sentEvents && f in y.past.sentEvents && e.seq_ == f.seq_ ==> e == f)
            && (forall r, s :: r in x.past.sentResults && s in y.past.sentResults ==> r == s)
            && (Durable(x).Some? && Durable(y).Some? ==> Durable(x) == Durable(y))
            && x.past.sentEvents <= y.past.sentEvents && x.past.sentResults <= y.past.sentResults
  {
    var w := After(Fresh(epoch), moves);
    Reached(epoch, moves, a);
    RunKeeps(w, more);
    RunOnward(w, more, a);
    hide Run, After, WorldInv, HandlerFits, TasksFit, Sound, Meaning, Live;
    var x := Later(epoch, moves, a);
    var y := LaterStill(epoch, moves, more, a);
    assert Inv(After(w, more).sh, y) by { assert WorldInv(After(w, more)); }
    forall e, f | e in x.past.sentEvents && f in y.past.sentEvents && e.seq_ == f.seq_ ensures e == f {
      assert IsEver(x.past, e) && IsEver(y.past, f);
    }
  }

  /**
   * A "stopped" cancellation is truthful: when it has been sent, no handler of the attempt
   * runs, and none is created or called in this process, whatever other tasks do.
   */
  lemma StoppedIsTruthful(epoch: nat, moves: seq<Move>, more: seq<Move>, a: AttemptId)
    requires Run(Fresh(epoch), moves) && Run(After(Fresh(epoch), moves), more)
    requires Later(epoch, moves, a).past.stopped && !HasRestart(more)
    ensures var x := Later(epoch, moves, a);
            var y := LaterStill(epoch, moves, more, a);
            HandlerOver(x) && HandlerOver(y) && y.past.spawns == x.past.spawns && y.past.begins == x.past.begins
  {
    var w := After(Fresh(epoch), moves);
    Reached(epoch, moves, a);
    RunKeeps(w, more);
    RunOnward(w, more, a);
    assert Inv(After(w, more).sh, LaterStill(epoch, moves, more, a));
    hide Run, After, WorldInv, HandlerFits, TasksFit, EntryFits, PastFits, Live;
  }

  /**
   * Once a revocation is carried through, no Event or Result of the attempt is sent again and
   * its handler is never called again: in this process or any later one.
   */
  lemma RevocationIsFinal(epoch: nat, moves: seq<Move>, more: seq<Move>, a: AttemptId)
    requires Run(Fresh(epoch), moves) && Run(After(Fresh(epoch), moves), more)
    requires Later(epoch, moves, a).past.finalised
    ensures var p := Later(epoch, moves, a).past;
            var q := LaterStill(epoch, moves, more, a).past;
            && q.sentEvents == p.sentEvents && q.sentResults == p.sentResults
            && q.spawns == p.spawns && q.begins == p.begins
    ensures LaterStill(epoch, moves, more, a).entry == None
  {
    var w := After(Fresh(epoch), moves);
    Reached(epoch, moves, a);
    RunKeeps(w, more);
    RunOnward(w, more, a);
    assert Inv(After(w, more).sh, LaterStill(epoch, moves, more, a));
    hide Run, After, WorldInv, HandlerFits, TasksFit, EntryFits, PastFits, Live;
  }

  /**
   * What a flush first sends: the first pending Event if Events are allowed, and the Result
   * only if it is allowed and no Event is pending.
   */
  lemma FlushSendsWhatIsAllowed(sh: Shared, x: Slot, id: TaskId)
    requires Enabled(sh, x, FlushLock(id))
    ensures var p := x.past;
            var q := FlushStep(x, id).past;
            && (q.sentEvents == p.sentEvents
                || (x.entry.Some? && x.permit.Some? && x.permit.value.events && Pending(x.entry.value) != []
                    && q == p.(sentEvents := p.sentEvents + [Pending(x.entry.value)[0]])))
            && (q.sentResults == p.sentResults
                || (x.entry.Some? && x.permit.Some? && x.permit.value.result && PendingSeqs(x.entry.value) == {}
                    && x.entry.value.result.Some?
                    && q == p.(sentResults := p.sentResults + [x.entry.value.result.value])))
  {
    hide Pending;
  }

  predicate GrantsTo(m: Move, a: AttemptId) {
    m.Act? && m.attempt == a && Grants(m.step)
  }

  /**
   * From a restart on, or from any state in which nothing is granted, no Event and no Result of
   * an attempt is sent before Core offers, confirms or continues it or allows its upload.
   */
  lemma {:induction false} NothingIsSentUnasked(w: World, moves: seq<Move>, a: AttemptId)
    requires Run(w, moves) && Silent(SlotOf(w, a))
    requires forall i :: 0 <= i < |moves| ==> !GrantsTo(moves[i], a)
    ensures var x, y := SlotOf(w, a), SlotOf(After(w, moves), a);
            Silent(y) && y.past.sentEvents == x.past.sentEvents && y.past.sentResults == x.past.sentResults
    decreases |moves|
  {
    if moves != [] {
      var x := SlotOf(w, a);
      assert !GrantsTo(moves[0], a);
      hide Enabled, CutShort, Apply;
      match moves[0] {
        case Act(b, step) => if b == a { StepSilent(w.sh, x, step); }
        case Fault(b, step, left) => if b == a && left != x { CutShortSilent(w.sh, x, step, left); }
        case Fence =>
        case Restart => RestartSilent(x);
      }
      NothingIsSentUnasked(Next(w, moves[0]), moves[1..], a);
    }
  }

  /** From the drain fence to the next restart no record becomes ack_sent that was not already. */
  lemma {:induction false} FenceHolds(w: World, moves: seq<Move>, a: AttemptId)
    requires Run(w, moves) && w.sh.draining && !HasRestart(moves)
    requires !Acknowledging(SlotOf(w, a))
    ensures !Acknowledging(SlotOf(After(w, moves), a))
    decreases |moves|
  {
    if moves != [] {
      var x := SlotOf(w, a);
      hide Enabled, CutShort, Apply, Acknowledging;
      match moves[0] {
        case Act(b, step) => if b == a { StepFence(w.sh, x, step); }
        case Fault(b, step, left) => if b == a && left != x { CutShortFence(w.sh, x, step, left); }
        case _ =>
      }
      FenceHolds(Next(w, moves[0]), moves[1..], a);
    }
  }
}
