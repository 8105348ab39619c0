/**
 * Draining over the worker: the numbers that drain observes are the records and the active
 * handlers of the worker's slots, and once it has seen none, none of its attempts does
 * anything more in this process than refuse offers.
 */
module WorkerDrain {
  import opened Prelude
  import opened Journal
  import opened Ranges
  import opened Worker
  import opened WorkerInvariant
  import opened WorkerHistory
  import opened WorkerRuns
  import D = Draining

  // ---------------------------------------------------------------- one attempt, after it was seen empty

  /** A record without a spool, and one that no handler was started for. */
  predicate Barren(e: Entry) {
    e.rec.state in {Received, RejectSent, Rejected, Revoked} && e.events == map[] && e.result == None
  }

  /** Nothing of the attempt is active; a record it may have is that of a refused offer. */
  predicate Refused(x: Slot) {
    !x.active && (x.entry.Some? ==> Barren(x.entry.value) && HandlerOver(x))
  }

  /** Nothing was sent, started or made durable for Core between the two. */
  predicate Idle(p: Past, q: Past) {
    && q.sentEvents == p.sentEvents && q.sentResults == p.sentResults
    && q.spawns == p.spawns && q.begins == p.begins && q.ever == p.ever && q.result == p.result
  }

  predicate Rests(x: Slot, y: Slot) {
    Refused(y) && Idle(x.past, y.past)
  }

  lemma CommitRests(sh: Shared, x: Slot, after: Option<Entry>)
    requires Refused(x) && (after.Some? ==> Barren(after.value) && HandlerOver(x))
    ensures Rests(x, Commit(sh, x, after))
  {
  }

  lemma QuietRests(sh: Shared, x: Slot, step: Step)
    requires Refused(x) && Enabled(sh, x, step) && Quiet(step)
    ensures Rests(x, Apply(sh, x, step))
  {
  }

  lemma SendRests(x: Slot, id: TaskId, allowed: bool)
    requires Refused(x)
    ensures Rests(x, ResultPhase(x, id, allowed))
  {
  }

  lemma FlushRests(sh: Shared, x: Slot, step: Step)
    requires Refused(x) && Enabled(sh, x, step) && Flushes(step)
    ensures Rests(x, Apply(sh, x, step))
  {
    match step
    case FlushLock(id) =>
      if x.entry.Some? { NothingPending(x.entry.value); }
      if x.permit.Some? { SendRests(x, id, x.permit.value.result); }
      hide Pending, ResultPhase;
    case Missing(_, ranges, events) =>
      NothingToReplay(x, ranges, events);
    case _ =>
      hide SendNext, ReplayNext, Deleted;
  }

  lemma NothingPending(e: Entry)
    requires e.events == map[]
    ensures PendingSeqs(e) == {} && Pending(e) == []
  {
  }

  /** No range can be replayed from a record without Events. */
  lemma NothingToReplay(x: Slot, ranges: seq<Range>, events: seq<Event>)
    requires x.entry.Some? && Replayable(ranges) && ranges != []
    ensures Selects(x.entry.value.events, Expanded(ranges), events) ==> x.entry.value.events != map[]
  {
    ExpandedMembers(ranges);
    assert Covers(ranges, ranges[0].start);
    assert Expanded(ranges) != [];
    hide Replayable, Expanded;
  }

  lemma OfferRests(sh: Shared, x: Slot, identity: Identity, input: Fields)
    requires Refused(x) && SpawnFits(x)
    ensures Rests(x, OfferStep(sh, x, identity, input, false))
    ensures !x.terminal && CreatedEntry(x, identity, input).Ok? ==>
              Rests(x, CreatedSlot(sh, x, identity, CreatedEntry(x, identity, input).value))
  {
    if !x.terminal && CreatedEntry(x, identity, input).Ok? {
      var e := CreatedEntry(x, identity, input).value;
      var y := CreatedSlot(sh, x, identity, e);
      CommitRests(sh, x, Some(e));
      if e.rec.state == Received {
        CommitRests(sh, y, Some(Advanced(e, RejectSent).value));
      }
      hide Noted, CreatedEntry, SpawnFits;
    }
  }

  /** No confirmation or continue decision starts anything from such a record. */
  lemma NoStart(sh: Shared, x: Slot)
    requires Refused(x)
    ensures Start(sh, x) == x && AdvancedEntry(x, Confirmed).Err?
  {
  }

  lemma ClaimRests(sh: Shared, x: Slot, step: Step)
    requires Refused(x) && SpawnFits(x) && Enabled(sh, x, step) && sh.draining && Claims(step)
    ensures Rests(x, Apply(sh, x, step))
  {
    match step
    case Offer(identity, input, _) =>
      OfferRests(sh, x, identity, input);
      hide Rests, OfferStep;
    case Confirm =>
      hide Start, Advanced;
      NoStart(sh, x);
    case RejectAccepted =>
      if AdvancedEntry(x, Rejected).Ok? { RejectRests(sh, x, x.(claim := NoClaim)); }
      hide Advanced, Commit;
    case Continue(id, _) =>
      hide Start, Advanced;
      NoStart(sh, x);
      NoStart(sh, Vouched(Release(x, id)));
  }

  /** The rejection, from the record that `y` shares with `x`. */
  lemma RejectRests(sh: Shared, x: Slot, y: Slot)
    requires Refused(x) && Rests(x, y) && y.entry == x.entry && AdvancedEntry(y, Rejected).Ok?
    ensures var e := AdvancedEntry(y, Rejected).value;
            && Rests(x, Commit(sh, y, Some(e)))
            && Rests(x, Commit(sh, Commit(sh, y, Some(e)), if Deletable(e) then None else Some(e)))
  {
    var e := AdvancedEntry(y, Rejected).value;
    CommitRests(sh, y, Some(e));
    CommitRests(sh, Commit(sh, y, Some(e)), if Deletable(e) then None else Some(e));
    hide Commit;
  }

  lemma ClearRests(sh: Shared, x: Slot, id: TaskId, acked: bool)
    requires Refused(x)
    ensures Rests(x, ClearStep(sh, x, id, acked))
  {
    var y := Release(x, id);
    if x.entry.Some? && acked {
      var e := x.entry.value;
      CommitRests(sh, y, Some(e));
      if EventsCleared(e).Ok? {
        var z := Commit(sh, y, Some(e));
        CommitRests(sh, z, Some(EventsCleared(e).value));
        CommitRests(sh, Commit(sh, z, Some(EventsCleared(e).value)), None);
      }
      hide Commit;
    }
  }

  lemma FinaliseRests(sh: Shared, x: Slot, id: TaskId)
    requires Refused(x)
    ensures Rests(x, FinaliseStep(sh, x, id))
  {
  }

  lemma HandlerRests(sh: Shared, x: Slot, step: Step)
    requires Refused(x) && SpawnFits(x) && Enabled(sh, x, step)
    requires step.Begin? || step.Emit? || step.StoreResult?
    ensures Rests(x, Apply(sh, x, step))
  {
    assert step.Emit? || step.StoreResult? ==> x.entry == None;
    hide Noted, Appended, ResultStoredFile;
  }

  lemma StepRests(sh: Shared, x: Slot, step: Step)
    requires Refused(x) && SpawnFits(x) && Enabled(sh, x, step) && sh.draining
    ensures Rests(x, Apply(sh, x, step))
  {
    if Quiet(step) {
      QuietRests(sh, x, step);
    } else if Flushes(step) {
      FlushRests(sh, x, step);
    } else if Claims(step) {
      ClaimRests(sh, x, step);
    } else {
      match step
      case Clear(id) => ClearRests(sh, x, id, x.tasks[id].acked);
      case Finalise(id) => FinaliseRests(sh, x, id);
      case _ => HandlerRests(sh, x, step);
    }
    hide Rests, Refused, SpawnFits, ClearStep, FinaliseStep;
  }

  lemma DeletionRests(sh: Shared, x: Slot, y: Slot)
    requires Refused(x) && x.entry.Some? && DeletionCut(sh, x, y)
    ensures Rests(x, y)
  {
    var e := x.entry.value;
    CommitRests(sh, x, None);
    if EventsCleared(e).Ok? {
      CommitRests(sh, x, Some(EventsCleared(e).value));
    }
    hide Commit;
  }

  lemma RevokeRests(sh: Shared, x: Slot, y: Slot)
    requires Refused(x) && x.entry.Some?
    requires var e := RevokedEntry(x.entry.value);
             y in {Commit(sh, x, Some(e)), Commit(sh, x, Some(Discarded(e).value)), Commit(sh, x, None)}
    ensures Rests(x, y)
  {
    var e := RevokedEntry(x.entry.value);
    CommitRests(sh, x, Some(e));
    CommitRests(sh, x, Some(Discarded(e).value));
    CommitRests(sh, x, None);
    hide Commit;
  }

  lemma ClaimCutRests(sh: Shared, x: Slot, step: Step, y: Slot)
    requires Refused(x) && SpawnFits(x) && Enabled(sh, x, step) && sh.draining && CutShort(sh, x, step, y)
    requires Claims(step)
    ensures Rests(x, y)
  {
    match step
    case Offer(identity, input, _) =>
      OfferRests(sh, x, identity, input);
      hide OfferStep, CreatedSlot, CreatedEntry;
    case Confirm =>
      hide Start, Advanced;
      NoStart(sh, x);
    case RejectAccepted =>
      RejectRests(sh, x, x);
      RejectRests(sh, x, x.(claim := NoClaim));
      hide Advanced, Commit;
    case Continue(id, _) =>
      hide Start, Advanced;
      NoStart(sh, x);
      NoStart(sh, Vouched(Release(x, id)));
  }

  lemma CutShortRests(sh: Shared, x: Slot, step: Step, y: Slot)
    requires Refused(x) && SpawnFits(x) && Enabled(sh, x, step) && sh.draining && CutShort(sh, x, step, y)
    ensures Rests(x, y)
  {
    if Claims(step) {
      ClaimCutRests(sh, x, step, y);
    } else if step.Clear? || step.ResultAck? {
      DeletionRests(sh, if step.Clear? then x else x.(past := x.past.(resultAcked := true)), y);
    } else if step.Finalise? {
      RevokeRests(sh, x, y);
    } else {
      StepRests(sh, x, step);
      hide Noted, Appended, ResultStoredFile, EventAcked;
    }
  }

  // ---------------------------------------------------------------- draining while the worker works

  function Held(w: World): set<AttemptId> {
    set a | a in w.slots && w.slots[a].entry.Some?
  }

  function Busy(w: World): set<AttemptId> {
    set a | a in w.slots && w.slots[a].active
  }

  /** The worker, its drain task, and the worlds in which drain first saw nothing and won the stop. */
  datatype Drained = Drained(world: World, drain: D.State, seen: Option<World>, atStop: Option<World>)

  datatype Turn = Work(move: Move) | Drain(step: D.Step)

  function Begun(w: World, hooked: bool): Drained {
    Drained(w, D.Start(hooked, |Held(w)|, |Busy(w)|), None, None)
  }

  /** One process: the worker's tasks, their faults, and the drain task, but no restart. */
  ghost predicate MayTurn(s: Drained, t: Turn) {
    match t
    case Work(m) => (m.Act? || m.Fault?) && Allowed(s.world, m)
    case Drain(step) => !step.Others? && D.Enabled(s.drain, step)
  }

  function Turned(s: Drained, t: Turn): Drained
    requires MayTurn(s, t)
  {
    match t
    case Work(m) =>
      var v := Next(s.world, m);
      s.(world := v, drain := D.Apply(s.drain, D.Others(|Held(v)|, |Busy(v)|)))
    case Drain(step) =>
      var d := D.Apply(s.drain, step);
      Drained(if d.draining then Next(s.world, Fence) else s.world, d,
              if d.past.sawEmpty && s.seen == None then Some(s.world) else s.seen,
              if d.past.leftAtStop.Some? && s.atStop == None then Some(s.world) else s.atStop)
  }

  ghost predicate Turns(s: Drained, turns: seq<Turn>)
    decreases |turns|
  {
    turns == [] || (MayTurn(s, turns[0]) && Turns(Turned(s, turns[0]), turns[1..]))
  }

  function AtEnd(s: Drained, turns: seq<Turn>): Drained
    requires Turns(s, turns)
    decreases |turns|
  {
    if turns == [] then s else AtEnd(Turned(s, turns[0]), turns[1..])
  }

  ghost predicate Empty(w: World) {
    forall a :: SlotOf(w, a).entry == None && !SlotOf(w, a).active
  }

  ghost predicate AllRest(w: World, v: World) {
    forall a :: Rests(SlotOf(w, a), SlotOf(v, a))
  }

  ghost predicate Counted(w: World, d: D.State) {
    d.spool == |Held(w)| && d.active == |Busy(w)| && (d.draining ==> w.sh.draining)
  }

  ghost predicate DrainInv(s: Drained) {
    && WorldInv(s.world) && D.Inv(s.drain) && Counted(s.world, s.drain)
    && (s.drain.past.sawEmpty ==> s.drain.draining)
    && (s.drain.past.sawEmpty <==> s.seen.Some?)
    && (s.seen.Some? ==> s.seen.value.sh.draining && Empty(s.seen.value) && AllRest(s.seen.value, s.world))
    && (s.drain.past.leftAtStop.Some? <==> s.atStop.Some?)
    && (s.atStop.Some? ==>
          && s.drain.past.leftAtStop == Some(|Held(s.atStop.value)| + |Busy(s.atStop.value)|)
          && s.seen.Some? && AllRest(s.seen.value, s.atStop.value))
  }

  lemma CountsAreZeroIff(w: World)
    ensures Empty(w) <==> |Held(w)| + |Busy(w)| == 0
  {
    assert Empty(w) <==> Held(w) == {} && Busy(w) == {} by {
      if Held(w) == {} && Busy(w) == {} {
        forall a ensures SlotOf(w, a).entry == None && !SlotOf(w, a).active {
          assert a !in Held(w) && a !in Busy(w);
        }
      }
      if Empty(w) {
        forall a ensures a !in Held(w) && a !in Busy(w) {
          assert SlotOf(w, a).entry == None;
        }
      }
    }
  }

  lemma EmptyRests(w: World)
    requires Empty(w)
    ensures AllRest(w, w)
  {
  }

  lemma MoveRests(w: World, v: World, m: Move)
    requires WorldInv(v) && AllRest(w, v) && v.sh.draining && Allowed(v, m) && (m.Act? || m.Fault?)
    ensures AllRest(w, Next(v, m))
  {
    var x := SlotOf(v, m.attempt);
    assert Inv(v.sh, x) && Rests(SlotOf(w, m.attempt), x);
    assert SpawnFits(x);
    hide Inv, WorldInv, Enabled, Apply, CutShort, Refused, SpawnFits;
    if m.Act? {
      StepRests(v.sh, x, m.step);
    } else if m.left != x {
      CutShortRests(v.sh, x, m.step, m.left);
    }
    forall a ensures Rests(SlotOf(w, a), SlotOf(Next(v, m), a)) {
      assert Rests(SlotOf(w, a), SlotOf(v, a));
    }
  }

  lemma WorkKeeps(s: Drained, m: Move)
    requires DrainInv(s) && MayTurn(s, Work(m))
    ensures DrainInv(Turned(s, Work(m)))
  {
    NextKeeps(s.world, m);
    if s.seen.Some? {
      MoveRests(s.seen.value, s.world, m);
    }
    var v := Next(s.world, m);
    D.StepKeeps(s.drain, D.Others(|Held(v)|, |Busy(v)|));
    assert v.sh.draining == s.world.sh.draining;
    hide WorldInv, Empty, AllRest, Allowed, D.Inv, Next;
  }

  lemma FenceRests(w: World, v: World)
    requires AllRest(w, v)
    ensures AllRest(w, Next(v, Fence))
  {
    hide Rests;
    forall a ensures Rests(SlotOf(w, a), SlotOf(Next(v, Fence), a)) {
      assert Rests(SlotOf(w, a), SlotOf(v, a));
    }
  }

  lemma DrainKeeps(s: Drained, step: D.Step)
    requires DrainInv(s) && MayTurn(s, Drain(step))
    ensures DrainInv(Turned(s, Drain(step)))
  {
    hide WorldInv, Empty, AllRest, Held, Busy, Allowed, D.Inv, D.Enabled, D.Apply, Next;
    D.StepKeeps(s.drain, step);
    D.StepNotes(s.drain, step);
    FencedKeeps(s.world, D.Apply(s.drain, step).draining);
    CountsAreZeroIff(s.world);
    if Empty(s.world) {
      EmptyRests(s.world);
      FenceRests(s.world, s.world);
    }
    if s.seen.Some? {
      FenceRests(s.seen.value, s.world);
    }
  }

  lemma FencedKeeps(w: World, fence: bool)
    requires WorldInv(w)
    ensures var v := if fence then Next(w, Fence) else w;
            WorldInv(v) && Held(v) == Held(w) && Busy(v) == Busy(w) && v.sh.draining == (fence || w.sh.draining)
  {
    NextKeeps(w, Fence);
  }

  lemma {:induction false} TurnsKeep(s: Drained, turns: seq<Turn>)
    requires DrainInv(s) && Turns(s, turns)
    ensures DrainInv(AtEnd(s, turns)) && AtEnd(s, turns).drain.hooked == s.drain.hooked
    decreases |turns|
  {
    hide DrainInv, D.Enabled, Next, Allowed;
    if turns != [] {
      match turns[0] {
        case Work(m) => WorkKeeps(s, m);
        case Drain(step) => DrainKeeps(s, step);
      }
      TurnsKeep(Turned(s, turns[0]), turns[1..]);
    }
  }

  /**
   * When drain returns, the fence went up, and after that there was a moment without any record
   * or active handler. From that moment on nothing was sent, no handler was started or called,
   * no Event or Result became durable, and every record there is belongs to a refused offer:
   * it was never started and has no spool. Without a hook and without a second request to Core
   * there was no record either when drain stopped the worker.
   */
  lemma DrainedWorkerIsDone(w: World, hooked: bool, turns: seq<Turn>)
    requires WorldInv(w) && Turns(Begun(w, hooked), turns)
    requires AtEnd(Begun(w, hooked), turns).drain.stage == D.Returned
    ensures var s := AtEnd(Begun(w, hooked), turns);
            && s.world.sh.draining && s.drain.inflight == Some(0) && s.drain.owner == Some(D.DrainDone)
            && s.seen.Some? && s.seen.value.sh.draining && Empty(s.seen.value)
            && AllRest(s.seen.value, s.world)
            && s.atStop.Some? && AllRest(s.seen.value, s.atStop.value)
            && (!hooked && !s.drain.past.askedAgain ==> Empty(s.atStop.value))
  {
    var s := AtEnd(Begun(w, hooked), turns);
    TurnsKeep(Begun(w, hooked), turns);
    CountsAreZeroIff(if s.atStop.Some? then s.atStop.value else w);
    hide Turns, AtEnd, WorldInv, Empty, AllRest, Held, Busy;
  }

  /** Drain saw nothing only where the run was: `seen` and `atStop` are worlds of the run. */
  lemma {:induction false} SeenOnTheWay(s: Drained, turns: seq<Turn>) returns (n: nat)
    requires Turns(s, turns) && s.seen == None && AtEnd(s, turns).seen.Some?
    ensures n <= |turns| && Turns(s, turns[..n]) && AtEnd(s, turns).seen == Some(AtEnd(s, turns[..n]).world)
    decreases |turns|
  {
    hide D.Enabled, Next, Allowed;
    var t := Turned(s, turns[0]);
    if t.seen.Some? {
      n := 0;
      SeenStays(t, turns[1..]);
      assert turns[..0] == [];
    } else {
      var k := SeenOnTheWay(t, turns[1..]);
      n := k + 1;
      assert turns[..n][1..] == turns[1..][..k] && turns[..n][0] == turns[0];
    }
  }

  lemma {:induction false} SeenStays(s: Drained, turns: seq<Turn>)
    requires Turns(s, turns) && s.seen.Some?
    ensures AtEnd(s, turns).seen == s.seen
    decreases |turns|
  {
    hide D.Enabled, Next, Allowed;
    if turns != [] {
      SeenStays(Turned(s, turns[0]), turns[1..]);
    }
  }

  // ---------------------------------------------------------------- what can be left, at an input

  ghost predicate Brings(from: Drained, turns: seq<Turn>, s: Drained) {
    Turns(from, turns) && AtEnd(from, turns) == s
  }

  lemma {:induction false} OneTurn(from: Drained, turns: seq<Turn>, s: Drained, t: Turn)
    requires Brings(from, turns, s) && MayTurn(s, t)
    ensures Brings(from, turns + [t], Turned(s, t))
    decreases |turns|
  {
    hide MayTurn, Turned;
    if turns == [] {
      assert turns + [t] == [t] && [t][1..] == [];
      assert Turns(Turned(s, t), []) && AtEnd(Turned(s, t), []) == Turned(s, t);
    } else {
      assert (turns + [t])[1..] == turns[1..] + [t];
      OneTurn(Turned(from, turns[0]), turns[1..], s, t);
    }
  }

  /** The record of an offer refused because of the fence. */
  function RefusedEntry(identity: Identity, input: Fields): Entry {
    Entry(NewAssignment(identity, input).(state := RejectSent), map[], None)
  }

  /**
   * Drain sees an empty worker while Core counts one run; before the second answer an offer
   * arrives and is refused; drain stops the worker and returns with that record in the journal.
   */
  lemma RefusedOfferIsLeft(identity: Identity, input: Fields) returns (turns: seq<Turn>)
    ensures var w := Fresh(identity.epoch);
            && Turns(Begun(w, false), turns)
            && var s := AtEnd(Begun(w, false), turns);
               && s.drain.stage == D.Returned && s.atStop.Some? && !Empty(s.atStop.value)
               && SlotOf(s.world, identity.attempt).entry == Some(RefusedEntry(identity, input))
  {
    var a := identity.attempt;
    var offer := Work(Act(a, Offer(identity, input, false)));
    var s0 := Begun(Fresh(identity.epoch), false);
    var s2;
    turns, s2 := AskedAgain(identity.epoch);
    OfferRefused(s2.world, identity, input);
    hide Next, Empty, Allowed;
    var s3 := Turned(s2, offer);
    OneTurn(s0, turns, s2, offer);
    turns := DrainEnds(s0, turns + [offer], s3);
  }

  /** The run up to the second request. */
  lemma AskedAgain(epoch: nat) returns (turns: seq<Turn>, s: Drained)
    ensures Brings(Begun(Fresh(epoch), false), turns, s)
    ensures s.drain.stage == D.RequestingAgain && !s.drain.hooked && !s.drain.stopping
    ensures s.drain.past.leftAtStop == None && s.atStop == None && s.world == World(Shared(epoch, false, true), map[])
  {
    var s0 := Begun(Fresh(epoch), false);
    assert Held(s0.world) == {} && Busy(s0.world) == {};
    var s1 := Turned(s0, Drain(D.Begin));
    s := Turned(s1, Drain(D.Answered(1)));
    hide MayTurn, Turned;
    OneTurn(s0, [], s0, Drain(D.Begin));
    OneTurn(s0, [] + [Drain(D.Begin)], s1, Drain(D.Answered(1)));
    turns := [] + [Drain(D.Begin)] + [Drain(D.Answered(1))];
  }

  /** From the second request to the return, whatever the world is by then. */
  lemma DrainEnds(from: Drained, turns: seq<Turn>, s: Drained) returns (longer: seq<Turn>)
    requires Brings(from, turns, s) && s.atStop == None && s.drain.past.leftAtStop == None
    requires s.drain.stage == D.RequestingAgain && !s.drain.hooked && !s.drain.stopping
    ensures Turns(from, longer)
    ensures var t := AtEnd(from, longer);
            t.drain.stage == D.Returned && t.atStop == Some(s.world) && t.world.slots == s.world.slots
  {
    var s1 := Turned(s, Drain(D.Answered(0)));
    var s2 := Turned(s1, Drain(D.RunDone));
    assert s2.drain.stage == D.Returned && s2.atStop == Some(s.world);
    FenceSlots(s.world);
    FenceSlots(s1.world);
    hide MayTurn, Turned;
    OneTurn(from, turns, s, Drain(D.Answered(0)));
    OneTurn(from, turns + [Drain(D.Answered(0))], s1, Drain(D.RunDone));
    longer := turns + [Drain(D.Answered(0))] + [Drain(D.RunDone)];
  }

  lemma OfferRefused(w: World, identity: Identity, input: Fields)
    requires SlotOf(w, identity.attempt) == EMPTY_SLOT && !w.sh.poisoned && w.sh.epoch == identity.epoch
    ensures var m := Act(identity.attempt, Offer(identity, input, false));
            && Allowed(w, m) && !Empty(Next(w, m))
            && SlotOf(Next(w, m), identity.attempt).entry == Some(RefusedEntry(identity, input))
  {
    var m := Act(identity.attempt, Offer(identity, input, false));
    var v := Next(w, m);
    assert SlotOf(v, identity.attempt).entry == Some(RefusedEntry(identity, input)) by {
      hide Noted;
    }
  }

  lemma FenceSlots(w: World)
    ensures Next(w, Fence).slots == w.slots
  {
  }
}
