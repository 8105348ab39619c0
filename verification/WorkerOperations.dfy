/** The store operations behind every step of the worker, on the record of one attempt. */
module WorkerOperations {
  import opened Prelude
  import opened Journal
  import opened Worker
  import opened WorkerInvariant
  import opened WorkerEffects
  import S = StoreRuns

  // ---------------------------------------------------------------- operations on one record

  function AttemptOf(op: S.Operation): AttemptId {
    match op
    case Create(identity, _) => identity.attempt
    case Advance(message, _) => message.attempt
    case Delete(message) => message.attempt
    case Append(a, _, _, _) => a
    case AckEvent(a, _, _) => a
    case StoreResult(a, _, _) => a
    case AckResult(a, _) => a
    case Clear(a) => a
    case Discard(a) => a
  }

  predicate Named(e: Option<Entry>, message: MessageId) {
    e.Some? && MessageOf(e.value.rec.identity) == message
  }

  /** The record after an operation of its attempt; an error is the operation refused. */
  function EffectAt(e: Option<Entry>, op: S.Operation): Outcome<Option<Entry>, StoreError> {
    match op
    case Create(identity, input) =>
      if e == None then Ok(Some(Entry(NewAssignment(identity, input), map[], None)))
      else if e.value.rec.identity == identity && e.value.rec.input == input then Ok(e)
      else Err(Corrupt)
    case Advance(message, to) => if Named(e, message) then Kept(Advanced(e.value, to)) else Err(NotFound)
    case Delete(message) =>
      if !Named(e, message) then Err(NotFound) else if Deletable(e.value) then Ok(None) else Err(Refused)
    case Append(_, kind, payload, freshId) =>
      if e.Some? then Kept(Appended(e.value, freshId, kind, payload)) else Err(NotFound)
    case AckEvent(_, event, n) => if e.Some? then Kept(EventAcked(e.value, event, n)) else Err(NotFound)
    case StoreResult(_, body, freshId) =>
      if e.Some? then Kept(ResultStoredFile(e.value, Payload(body, None, None), freshId)) else Err(NotFound)
    case AckResult(_, result) => if e.Some? then Kept(ResultAckedBy(e.value, result)) else Err(NotFound)
    case Clear(_) => if e.Some? then Kept(EventsCleared(e.value)) else Err(NotFound)
    case Discard(_) => if e.Some? then Kept(Discarded(e.value)) else Err(NotFound)
  }

  function Kept(r: Outcome<Entry, StoreError>): Outcome<Option<Entry>, StoreError> {
    if r.Ok? then Ok(Some(r.value)) else Err(r.error)
  }

  /** What the worker guarantees about an operation, in terms of the record alone. */
  ghost predicate IssuedAt(e: Option<Entry>, op: S.Operation) {
    && (op.Advance? ==> S.WorkerTarget(op.to))
    && (op.Append? && e.Some? ==> forall n :: n in e.value.events ==> e.value.events[n].id != op.freshId)
    && (op.StoreResult? && e.Some? ==> e.value.result == None && e.value.rec.state == Started)
  }

  /** The operations take effect one after another, each issued as the worker guarantees. */
  ghost predicate PerformsAt(a: AttemptId, e: Option<Entry>, ops: seq<S.Operation>, f: Option<Entry>)
    decreases |ops|
  {
    if ops == [] then f == e
    else
      && AttemptOf(ops[0]) == a && IssuedAt(e, ops[0]) && EffectAt(e, ops[0]).Ok?
      && PerformsAt(a, EffectAt(e, ops[0]).value, ops[1..], f)
  }

  lemma OneAt(a: AttemptId, e: Option<Entry>, op: S.Operation, f: Option<Entry>)
    requires AttemptOf(op) == a && IssuedAt(e, op) && EffectAt(e, op) == Ok(f)
    ensures PerformsAt(a, e, [op], f)
  {
    assert [op][1..] == [];
    hide IssuedAt, EffectAt;
  }

  lemma {:induction false} ThenAt(
    a: AttemptId, e: Option<Entry>, ops: seq<S.Operation>, m: Option<Entry>, more: seq<S.Operation>, f: Option<Entry>)
    requires PerformsAt(a, e, ops, m) && PerformsAt(a, m, more, f)
    ensures PerformsAt(a, e, ops + more, f)
    decreases |ops|
  {
    hide IssuedAt, EffectAt;
    if ops == [] {
      assert ops + more == more;
    } else {
      assert (ops + more)[1..] == ops[1..] + more;
      ThenAt(a, EffectAt(e, ops[0]).value, ops[1..], m, more, f);
    }
  }

  // ---------------------------------------------------------------- the operations of a step

  function MessageIn(x: Slot): MessageId
    requires x.entry.Some?
  {
    MessageOf(x.entry.value.rec.identity)
  }

  function StartOps(x: Slot): seq<S.Operation> {
    if x.active || x.terminal || AdvancedEntry(x, Started).Err? then [] else [S.Advance(MessageIn(x), Started)]
  }

  /** advance to confirmed, and the start of the handler. */
  function ConfirmOps(x: Slot): seq<S.Operation> {
    if AdvancedEntry(x, Confirmed).Err? then []
    else [S.Advance(MessageIn(x), Confirmed)] + StartOps(x.(entry := Some(AdvancedEntry(x, Confirmed).value)))
  }

  /** clear_terminal_events and delete_assignment. */
  function DeletedOps(a: AttemptId, e: Entry): seq<S.Operation> {
    if EventsCleared(e).Err? then []
    else
      var cleared := EventsCleared(e).value;
      [S.Clear(a)] + if Deletable(cleared) then [S.Delete(MessageOf(e.rec.identity))] else []
  }

  function OfferOps(x: Slot, identity: Identity, input: Fields, roomy: bool): seq<S.Operation> {
    if x.terminal || CreatedEntry(x, identity, input).Err? then []
    else
      var e := CreatedEntry(x, identity, input).value;
      [S.Create(identity, input)] +
      match e.rec.state
      case Received => [S.Advance(MessageOf(identity), if roomy then AckSent else RejectSent)]
      case Confirmed => StartOps(x.(entry := Some(e)))
      case _ => []
  }

  function RejectOps(x: Slot): seq<S.Operation> {
    if x.terminal || AdvancedEntry(x, Rejected).Err? then []
    else [S.Advance(MessageIn(x), Rejected)] +
         if Deletable(AdvancedEntry(x, Rejected).value) then [S.Delete(MessageIn(x))] else []
  }

  function AckOps(a: AttemptId, x: Slot, e: Event): seq<S.Operation> {
    if AckedEntry(x, e).Err? then [] else [S.AckEvent(a, e.id, e.seq_)]
  }

  /** ack_result, and what follows it. */
  function ResultOps(a: AttemptId, x: Slot, id: ResultId): seq<S.Operation> {
    if x.entry == None || ResultAckedBy(x.entry.value, id).Err? then []
    else [S.AckResult(a, id)] + DeletedOps(a, ResultAckedBy(x.entry.value, id).value)
  }

  function ClearOps(a: AttemptId, x: Slot, acked: bool): seq<S.Operation> {
    if x.entry == None then []
    else if x.entry.value.result.Some? then ResultOps(a, x, x.entry.value.result.value.id)
    else if acked then DeletedOps(a, x.entry.value)
    else []
  }

  function RevokeOps(x: Slot): seq<S.Operation>
    requires x.entry.Some?
  {
    if Terminal(x.entry.value.rec.state) then [] else [S.Advance(MessageIn(x), Revoked)]
  }

  function FinaliseOps(a: AttemptId, x: Slot): seq<S.Operation> {
    if x.entry == None then []
    else
      var e := Discarded(RevokedEntry(x.entry.value)).value;
      RevokeOps(x) + [S.Discard(a)] + if Deletable(e) then [S.Delete(MessageIn(x))] else []
  }

  /** The operations that a step performs when none of them fails. */
  function StepOps(sh: Shared, a: AttemptId, x: Slot, step: Step): seq<S.Operation>
    requires Enabled(sh, x, step)
  {
    match step
    case Offer(identity, input, roomy) => OfferOps(x, identity, input, roomy)
    case Confirm => if x.terminal then [] else ConfirmOps(x)
    case RejectAccepted => RejectOps(x)
    case Continue(id, _) =>
      if x.tasks[id].state == AckSent then ConfirmOps(x)
      else if x.tasks[id].state == Confirmed then StartOps(x)
      else []
    case Clear(id) => ClearOps(a, x, x.tasks[id].acked)
    case EventAck(id) => AckOps(a, x, x.tasks[id].event)
    case ReplayAck(id) => AckOps(a, x, x.tasks[id].event)
    case ResultAck(id) => ResultOps(a, x, x.tasks[id].result.id)
    case Finalise(_) => FinaliseOps(a, x)
    case Emit(freshId, kind, payload) =>
      if x.entry == None || Appended(x.entry.value, freshId, kind, payload).Err? then []
      else [S.Append(a, kind, payload, freshId)]
    case StoreResult(body, freshNumber) =>
      if x.handler.value.cancelled || x.entry == None
         || ResultStoredFile(x.entry.value, Payload(body, None, None), freshNumber).Err? then []
      else [S.StoreResult(a, body, freshNumber)]
    case _ => []
  }

  /** The record of the slot is that of the attempt. */
  predicate Belongs(a: AttemptId, x: Slot) {
    x.entry.Some? ==> x.entry.value.rec.identity.attempt == a
  }

  // ---------------------------------------------------------------- parts of steps

  lemma AdvanceAt(a: AttemptId, x: Slot, to: State)
    requires Belongs(a, x) && AdvancedEntry(x, to).Ok? && S.WorkerTarget(to)
    ensures PerformsAt(a, x.entry, [S.Advance(MessageIn(x), to)], Some(AdvancedEntry(x, to).value))
  {
    OneAt(a, x.entry, S.Advance(MessageIn(x), to), Some(AdvancedEntry(x, to).value));
  }

  lemma StartAt(sh: Shared, a: AttemptId, x: Slot)
    requires Belongs(a, x)
    ensures PerformsAt(a, x.entry, StartOps(x), Start(sh, x).entry)
  {
    if StartOps(x) != [] {
      AdvanceAt(a, x, Started);
    }
    hide Advanced, IssuedAt, EffectAt;
  }

  lemma ConfirmAt(sh: Shared, a: AttemptId, x: Slot)
    requires Belongs(a, x) && AdvancedEntry(x, Confirmed).Ok?
    ensures var e := AdvancedEntry(x, Confirmed).value;
            && |ConfirmOps(x)| >= 1 && PerformsAt(a, x.entry, ConfirmOps(x)[..1], Some(e))
            && PerformsAt(a, x.entry, ConfirmOps(x), Start(sh, x.(entry := Some(e))).entry)
  {
    var e := AdvancedEntry(x, Confirmed).value;
    var y := x.(entry := Some(e));
    AdvanceAt(a, x, Confirmed);
    StartAt(sh, a, y);
    var first := [S.Advance(MessageIn(x), Confirmed)];
    assert ConfirmOps(x)[..1] == first;
    ThenAt(a, x.entry, first, Some(e), StartOps(y), Start(sh, y).entry);
    hide StartOps, Start;
  }

  /** Clearing, then deleting: every prefix. */
  lemma DeletedAt(a: AttemptId, e: Entry)
    requires e.rec.identity.attempt == a && e.result == None && EventsCleared(e).Ok?
    ensures DeletedOps(a, e) == [S.Clear(a), S.Delete(MessageOf(e.rec.identity))]
    ensures PerformsAt(a, Some(e), DeletedOps(a, e)[..1], Some(EventsCleared(e).value))
    ensures PerformsAt(a, Some(e), DeletedOps(a, e), None)
  {
    var cleared := EventsCleared(e).value;
    var delete := S.Delete(MessageOf(e.rec.identity));
    OneAt(a, Some(e), S.Clear(a), Some(cleared));
    OneAt(a, Some(cleared), delete, None);
    ThenAt(a, Some(e), [S.Clear(a)], Some(cleared), [delete], None);
    assert DeletedOps(a, e) == [S.Clear(a)] + [delete];
    assert DeletedOps(a, e)[..1] == [S.Clear(a)];
    hide PerformsAt;
  }

  /** Acknowledging a Result, clearing, deleting: every prefix. */
  lemma ResultAt(a: AttemptId, x: Slot, id: ResultId)
    requires Belongs(a, x) && x.entry.Some? && ResultAckedBy(x.entry.value, id).Ok?
    ensures var f := ResultAckedBy(x.entry.value, id).value;
            && |ResultOps(a, x, id)| == 3 && EventsCleared(f).Ok?
            && PerformsAt(a, x.entry, ResultOps(a, x, id)[..1], Some(f))
            && PerformsAt(a, x.entry, ResultOps(a, x, id)[..2], Some(EventsCleared(f).value))
            && PerformsAt(a, x.entry, ResultOps(a, x, id), None)
  {
    var f := ResultAckedBy(x.entry.value, id).value;
    var ack := [S.AckResult(a, id)];
    var rest := DeletedOps(a, f);
    OneAt(a, x.entry, ack[0], Some(f));
    DeletedAt(a, f);
    ThenAt(a, x.entry, ack, Some(f), rest[..1], Some(EventsCleared(f).value));
    ThenAt(a, x.entry, ack, Some(f), rest, None);
    assert ResultOps(a, x, id) == ack + rest;
    assert (ack + rest)[..1] == ack && (ack + rest)[..2] == ack + rest[..1];
    hide PerformsAt;
  }

  // ---------------------------------------------------------------- whole steps

  /** Some of the operations, from the first on, took effect. */
  ghost predicate PartlyAt(a: AttemptId, e: Option<Entry>, ops: seq<S.Operation>, f: Option<Entry>) {
    exists n :: 0 <= n <= |ops| && PerformsAt(a, e, ops[..n], f)
  }

  lemma FirstAt(a: AttemptId, e: Option<Entry>, ops: seq<S.Operation>, n: nat, f: Option<Entry>)
    requires n <= |ops| && PerformsAt(a, e, ops[..n], f)
    ensures PartlyAt(a, e, ops, f)
  {
  }

  lemma AllAt(a: AttemptId, e: Option<Entry>, ops: seq<S.Operation>, f: Option<Entry>)
    requires PerformsAt(a, e, ops, f)
    ensures PartlyAt(a, e, ops, f)
  {
    assert ops[..|ops|] == ops;
  }

  lemma NoneAt(a: AttemptId, e: Option<Entry>, ops: seq<S.Operation>)
    ensures PartlyAt(a, e, ops, e)
  {
    assert ops[..0] == [];
    assert PerformsAt(a, e, ops[..0], e);
  }

  /** The step performs its operations; cut short by the store, it performs some of them, from the first on. */
  ghost predicate Performed(sh: Shared, a: AttemptId, x: Slot, step: Step)
    requires Enabled(sh, x, step)
  {
    && PerformsAt(a, x.entry, StepOps(sh, a, x, step), Apply(sh, x, step).entry)
    && forall y :: CutShort(sh, x, step, y) ==> PartlyAt(a, x.entry, StepOps(sh, a, x, step), y.entry)
  }

  /** The record after create_assignment, and what the offer makes of it. */
  lemma OfferAt(sh: Shared, a: AttemptId, x: Slot, identity: Identity, input: Fields, roomy: bool)
    requires Belongs(a, x) && identity.attempt == a
    requires !x.terminal && CreatedEntry(x, identity, input).Ok?
    ensures var e := CreatedEntry(x, identity, input).value;
            var ops := OfferOps(x, identity, input, roomy);
            && |ops| >= 1 && PerformsAt(a, x.entry, ops[..1], Some(e))
            && PerformsAt(a, x.entry, ops, OfferStep(sh, x, identity, input, roomy).entry)
  {
    var e := CreatedEntry(x, identity, input).value;
    var y := CreatedSlot(sh, x, identity, e);
    var ops := OfferOps(x, identity, input, roomy);
    var first := [S.Create(identity, input)];
    OneAt(a, x.entry, first[0], Some(e));
    OfferRest(sh, a, x, identity, input, roomy);
    ThenAt(a, x.entry, first, Some(e), ops[1..], OfferStep(sh, x, identity, input, roomy).entry);
    assert ops == first + ops[1..] && ops[..1] == first;
    hide PerformsAt, OfferStep;
  }

  lemma OfferRest(sh: Shared, a: AttemptId, x: Slot, identity: Identity, input: Fields, roomy: bool)
    requires Belongs(a, x) && identity.attempt == a
    requires !x.terminal && CreatedEntry(x, identity, input).Ok?
    ensures var ops := OfferOps(x, identity, input, roomy);
            |ops| >= 1 && ops[0] == S.Create(identity, input)
            && PerformsAt(a, Some(CreatedEntry(x, identity, input).value), ops[1..],
                          OfferStep(sh, x, identity, input, roomy).entry)
  {
    var e := CreatedEntry(x, identity, input).value;
    var z := x.(entry := Some(e));
    var y := CreatedSlot(sh, x, identity, e);
    var ops := OfferOps(x, identity, input, roomy);
    match e.rec.state
    case Received =>
      var to := if roomy then AckSent else RejectSent;
      AdvanceAt(a, z, to);
      assert ops[1..] == [S.Advance(MessageOf(identity), to)];
      hide PerformsAt, Noted;
    case Confirmed =>
      StartAt(sh, a, z);
      SameStart(sh, z, Permitted(y));
      assert ops[1..] == StartOps(z);
      hide PerformsAt, Noted, Start, StartOps;
    case _ =>
      assert ops[1..] == [];
  }

  /** What a start does to the record depends on the record and the two flags alone. */
  lemma SameStart(sh: Shared, x: Slot, y: Slot)
    requires x.entry == y.entry && x.active == y.active && x.terminal == y.terminal
    ensures Start(sh, x).entry == Start(sh, y).entry && StartOps(x) == StartOps(y)
  {
    hide Noted, Advanced;
  }

  lemma OfferPerforms(sh: Shared, a: AttemptId, x: Slot, step: Step)
    requires Enabled(sh, x, step) && Belongs(a, x) && step.Offer? && step.identity.attempt == a
    ensures Performed(sh, a, x, step)
  {
    var ops := StepOps(sh, a, x, step);
    if !x.terminal && CreatedEntry(x, step.identity, step.input).Ok? {
      var e := CreatedEntry(x, step.identity, step.input).value;
      OfferAt(sh, a, x, step.identity, step.input, step.roomy);
      FirstAt(a, x.entry, ops, 1, Some(e));
      AllAt(a, x.entry, ops, Apply(sh, x, step).entry);
    }
    hide PerformsAt, PartlyAt, OfferStep, OfferOps;
  }

  lemma ConfirmPerforms(sh: Shared, a: AttemptId, x: Slot)
    requires Enabled(sh, x, Confirm) && Belongs(a, x)
    ensures Performed(sh, a, x, Confirm)
  {
    if !x.terminal {
      ConfirmingAt(sh, a, x, x.(claim := NoClaim));
    }
    hide PerformsAt, PartlyAt, ConfirmOps, Start, Advanced, Noted;
  }

  /** The confirmation and the start, in the slot that a claim or a continue decision has left. */
  lemma ConfirmingAt(sh: Shared, a: AttemptId, x: Slot, y: Slot)
    requires Belongs(a, x) && x.entry == y.entry && x.active == y.active && x.terminal == y.terminal
    ensures var after := if AdvancedEntry(y, Confirmed).Err? then y
                         else Start(sh, Vouched(Commit(sh, y, Some(AdvancedEntry(y, Confirmed).value))));
            && PerformsAt(a, x.entry, ConfirmOps(x), after.entry)
            && PartlyAt(a, x.entry, ConfirmOps(x), after.entry)
            && PartlyAt(a, x.entry, ConfirmOps(x), ConfirmedOnly(sh, x).entry)
  {
    if AdvancedEntry(x, Confirmed).Ok? {
      var e := AdvancedEntry(x, Confirmed).value;
      ConfirmAt(sh, a, x);
      SameStart(sh, x.(entry := Some(e)), Vouched(Commit(sh, y, Some(e))));
      FirstAt(a, x.entry, ConfirmOps(x), 1, Some(e));
      AllAt(a, x.entry, ConfirmOps(x), Start(sh, x.(entry := Some(e))).entry);
      hide PerformsAt, PartlyAt, Start, ConfirmOps, Noted, Advanced;
    } else {
      NoneAt(a, x.entry, ConfirmOps(x));
    }
  }

  lemma ContinuePerforms(sh: Shared, a: AttemptId, x: Slot, step: Step)
    requires Enabled(sh, x, step) && Belongs(a, x) && step.Continue?
    ensures Performed(sh, a, x, step)
  {
    var y := Release(x, step.id);
    var ops := StepOps(sh, a, x, step);
    match x.tasks[step.id].state
    case AckSent =>
      ConfirmingAt(sh, a, x, y);
      hide PerformsAt, PartlyAt, ConfirmOps, Start, Advanced, Noted;
    case Confirmed =>
      StartAt(sh, a, x);
      SameStart(sh, x, Vouched(y));
      AllAt(a, x.entry, ops, Start(sh, x).entry);
      hide PerformsAt, PartlyAt, StartOps, Start, Advanced, Noted;
    case _ =>
      NoneAt(a, x.entry, ops);
      hide PartlyAt;
  }

  lemma RejectPerforms(sh: Shared, a: AttemptId, x: Slot)
    requires Enabled(sh, x, RejectAccepted) && Belongs(a, x)
    ensures Performed(sh, a, x, RejectAccepted)
  {
    var ops := RejectOps(x);
    if !x.terminal && AdvancedEntry(x, Rejected).Ok? {
      var e := AdvancedEntry(x, Rejected).value;
      var first := [S.Advance(MessageIn(x), Rejected)];
      AdvanceAt(a, x, Rejected);
      assert ops[..1] == first;
      FirstAt(a, x.entry, ops, 1, Some(e));
      if Deletable(e) {
        OneAt(a, Some(e), S.Delete(MessageIn(x)), None);
        ThenAt(a, x.entry, first, Some(e), [S.Delete(MessageIn(x))], None);
      }
      AllAt(a, x.entry, ops, RejectStep(sh, x).entry);
    }
    hide PerformsAt, PartlyAt, Advanced, Noted;
  }

  /** Every way in which the removal of a record can be cut short. */
  lemma DeletionAt(sh: Shared, a: AttemptId, x: Slot)
    requires Belongs(a, x) && x.entry.Some?
    ensures var e := x.entry.value;
            var ops := if e.result.Some? then ResultOps(a, x, e.result.value.id) else DeletedOps(a, e);
            && PerformsAt(a, x.entry, ops, if e.result.Some? || EventsCleared(e).Ok? then None else Some(e))
            && forall w: Slot, y :: w.entry == x.entry && DeletionCut(sh, w, y) ==> PartlyAt(a, x.entry, ops, y.entry)
  {
    var e := x.entry.value;
    if e.result.Some? {
      var id := e.result.value.id;
      var f := ResultAckedBy(e, id).value;
      var ops := ResultOps(a, x, id);
      ResultAt(a, x, id);
      FirstAt(a, x.entry, ops, 1, Some(f));
      FirstAt(a, x.entry, ops, 2, Some(EventsCleared(f).value));
      AllAt(a, x.entry, ops, None);
      hide PerformsAt, PartlyAt, ResultOps, Noted;
    } else if EventsCleared(e).Ok? {
      var ops := DeletedOps(a, e);
      DeletedAt(a, e);
      FirstAt(a, x.entry, ops, 1, Some(EventsCleared(e).value));
      AllAt(a, x.entry, ops, None);
      hide PerformsAt, PartlyAt, DeletedOps, Noted;
    }
  }

  lemma ClearPerforms(sh: Shared, a: AttemptId, x: Slot, step: Step)
    requires Enabled(sh, x, step) && Belongs(a, x) && step.Clear?
    ensures Performed(sh, a, x, step)
  {
    if x.entry.Some? {
      DeletionAt(sh, a, x);
      hide PartlyAt, DeletionCut, ResultOps, Noted, DeletedOps;
    }
  }

  lemma ResultAckPerforms(sh: Shared, a: AttemptId, x: Slot, step: Step)
    requires Inv(sh, x) && Enabled(sh, x, step) && Belongs(a, x) && step.ResultAck?
    ensures Performed(sh, a, x, step)
  {
    DeletionAt(sh, a, x);
    assert ResultLive(x, x.tasks[step.id].result);
    hide Inv, PerformsAt, PartlyAt, DeletionCut, ResultOps, Noted, PendingSeqs, DeletedOps;
  }

  /** Revoked where it is not terminal yet, then discarded, then deleted: every prefix. */
  lemma FinaliseAt(a: AttemptId, x: Slot)
    requires Belongs(a, x) && x.entry.Some?
    ensures var e := RevokedEntry(x.entry.value);
            var f := Discarded(e).value;
            var ops, n := FinaliseOps(a, x), |RevokeOps(x)|;
            && |ops| == n + 2 && Deletable(f)
            && PerformsAt(a, x.entry, ops[..n], Some(e)) && PerformsAt(a, x.entry, ops[..n + 1], Some(f))
            && PerformsAt(a, x.entry, ops, None)
            && PartlyAt(a, x.entry, ops, Some(e)) && PartlyAt(a, x.entry, ops, Some(f))
            && PartlyAt(a, x.entry, ops, None)
  {
    var e := RevokedEntry(x.entry.value);
    var f := Discarded(e).value;
    var first, discard, delete := RevokeOps(x), [S.Discard(a)], [S.Delete(MessageIn(x))];
    if first != [] {
      AdvanceAt(a, x, Revoked);
    }
    OneAt(a, Some(e), discard[0], Some(f));
    OneAt(a, Some(f), delete[0], None);
    ThenAt(a, x.entry, first, Some(e), discard, Some(f));
    ThenAt(a, x.entry, first + discard, Some(f), delete, None);
    var ops := FinaliseOps(a, x);
    assert ops == first + discard + delete;
    assert ops[..|first|] == first && ops[..|first| + 1] == first + discard;
    hide PerformsAt, PartlyAt, RevokeOps;
    FirstAt(a, x.entry, ops, |first|, Some(e));
    FirstAt(a, x.entry, ops, |first| + 1, Some(f));
    AllAt(a, x.entry, ops, None);
  }

  lemma FinalisePerforms(sh: Shared, a: AttemptId, x: Slot, step: Step)
    requires Enabled(sh, x, step) && Belongs(a, x) && step.Finalise?
    ensures Performed(sh, a, x, step)
  {
    if x.entry.Some? {
      FinaliseAt(a, x);
      hide PerformsAt, PartlyAt, FinaliseOps, RevokeOps, Noted, RevokedEntry, Discarded;
    }
  }

  lemma AckPerforms(sh: Shared, a: AttemptId, x: Slot, step: Step)
    requires Enabled(sh, x, step) && Belongs(a, x) && (step.EventAck? || step.ReplayAck?)
    ensures Performed(sh, a, x, step)
  {
    var ops := StepOps(sh, a, x, step);
    var e := x.tasks[step.id].event;
    NoneAt(a, x.entry, ops);
    if AckedEntry(x, e).Ok? {
      OneAt(a, x.entry, S.AckEvent(a, e.id, e.seq_), Some(AckedEntry(x, e).value));
      AllAt(a, x.entry, ops, Some(AckedEntry(x, e).value));
    }
    hide PerformsAt, PartlyAt, EventAcked, Noted, PendingSeqs;
  }

  lemma HandlerPerforms(sh: Shared, a: AttemptId, x: Slot, step: Step)
    requires Inv(sh, x) && Enabled(sh, x, step) && Belongs(a, x) && (step.Emit? || step.StoreResult?)
    ensures Performed(sh, a, x, step)
  {
    var ops := StepOps(sh, a, x, step);
    if ops != [] {
      RunningIsStarted(sh, x);
      OneAt(a, x.entry, ops[0], Apply(sh, x, step).entry);
      assert ops == [ops[0]];
    }
    AllAt(a, x.entry, ops, Apply(sh, x, step).entry);
    hide Inv, PerformsAt, PartlyAt, Appended, ResultStoredFile, Noted;
  }

  /** Every step of the worker is such a sequence of operations, each issued as the store's runs expect. */
  lemma StepPerforms(sh: Shared, a: AttemptId, x: Slot, step: Step)
    requires Inv(sh, x) && Enabled(sh, x, step) && Belongs(a, x) && (step.Offer? ==> step.identity.attempt == a)
    ensures Performed(sh, a, x, step)
  {
    hide Inv, Performed, Belongs;
    match step
    case Offer(_, _, _) => OfferPerforms(sh, a, x, step);
    case Confirm => ConfirmPerforms(sh, a, x);
    case RejectAccepted => RejectPerforms(sh, a, x);
    case Continue(_, _) => ContinuePerforms(sh, a, x, step);
    case Clear(_) => ClearPerforms(sh, a, x, step);
    case ResultAck(_) => ResultAckPerforms(sh, a, x, step);
    case EventAck(_) => AckPerforms(sh, a, x, step);
    case ReplayAck(_) => AckPerforms(sh, a, x, step);
    case Finalise(_) => FinalisePerforms(sh, a, x, step);
    case Emit(_, _, _) => HandlerPerforms(sh, a, x, step);
    case StoreResult(_, _) => HandlerPerforms(sh, a, x, step);
    case _ => OthersPerform(sh, a, x, step);
  }

  predicate KeepsTheRecord(step: Step) {
    !NeedsStore(step) || step.Ask? || step.FlushLock? || step.Missing? || step.CancelStart?
  }

  lemma OthersPerform(sh: Shared, a: AttemptId, x: Slot, step: Step)
    requires Enabled(sh, x, step) && KeepsTheRecord(step)
    ensures Performed(sh, a, x, step)
  {
    OthersKeepTheRecord(sh, x, step);
    hide Apply, IssuedAt, EffectAt;
  }

  /** The other steps leave the record alone. */
  lemma OthersKeepTheRecord(sh: Shared, x: Slot, step: Step)
    requires Enabled(sh, x, step) && KeepsTheRecord(step)
    ensures Apply(sh, x, step).entry == x.entry
  {
    hide PendingSeqs, Pending;
  }
}
