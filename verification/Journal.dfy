/**
 * The durable journal: one entry per attempt, the effect of every store operation on an
 * entry, the form every entry keeps, and the repair that reopening applies to an entry.
 */
module Journal {
  import opened Prelude
  import opened Acks

  type AttemptId = string
  type EventId = nat

  /** A JSON object by name: the JSON text of each of its values. */
  type Fields = map<string, string>

  datatype State =
    | Received | AckSent | Confirmed | Started | Finished
    | ResultAcked | RejectSent | Rejected | Revoked

  /** The transition table. */
  predicate MayMove(from: State, to: State) {
    match from
    case Received => to in {AckSent, RejectSent, Revoked}
    case AckSent => to in {Confirmed, Revoked}
    case Confirmed => to in {Started, Revoked}
    case Started => to in {Finished, Revoked}
    case Finished => to in {ResultAcked, Revoked}
    case RejectSent => to in {Rejected, Revoked}
    case Rejected => false
    case ResultAcked => false
    case Revoked => false
  }

  predicate Terminal(s: State) {
    s in {Rejected, ResultAcked, Revoked}
  }

  datatype Identity = Identity(attempt: AttemptId, lease: string, epoch: nat)

  /** Message ids are derived from the attempt and its lease; the derivation is injective. */
  datatype MessageId = MessageId(attempt: AttemptId, lease: string)

  function MessageOf(identity: Identity): MessageId {
    MessageId(identity.attempt, identity.lease)
  }

  /** A result id is a generated identifier or whatever text a handler supplied. */
  datatype ResultId = Uuid(n: nat) | Text(text: string)

  datatype Assignment = Assignment(
    identity: Identity, input: Fields, state: State, last: nat,
    acks: Window, resultId: Option<ResultId>, finalSeq: int)

  datatype Event = Event(identity: Identity, id: EventId, seq_: nat, kind: string, payload: Fields)

  /** A Result payload: two optional fields that the store fills in, and the rest. */
  datatype Payload = Payload(body: Fields, resultId: Option<ResultId>, finalSeq: Option<int>)

  datatype Result = Result(identity: Identity, id: ResultId, finalSeq: int, payload: Payload)

  datatype Entry = Entry(rec: Assignment, events: map<nat, Event>, result: Option<Result>)

  type Journal = map<AttemptId, Entry>

  datatype StoreError = NotFound | Corrupt | Refused | Poisoned | Closed | IoFailure

  // ---------------------------------------------------------------- operations on an entry

  function NewAssignment(identity: Identity, input: Fields): Assignment {
    Assignment(identity, input, Received, 0, Window(0, []), None, 0)
  }

  function Created(j: Journal, identity: Identity, input: Fields): Outcome<Journal, StoreError> {
    var a := identity.attempt;
    if a !in j then Ok(j[a := Entry(NewAssignment(identity, input), map[], None)])
    else if MessageOf(j[a].rec.identity) == MessageOf(identity)
            && j[a].rec.identity == identity && j[a].rec.input == input then Ok(j)
    else Err(Corrupt)
  }

  function Advanced(e: Entry, to: State): Outcome<Entry, StoreError> {
    if to == e.rec.state then Ok(e)
    else if MayMove(e.rec.state, to) then Ok(e.(rec := e.rec.(state := to)))
    else Err(Corrupt)
  }

  function NextEvent(e: Entry, id: EventId, kind: string, payload: Fields): Event {
    Event(e.rec.identity, id, e.rec.last + 1, kind, payload)
  }

  function Appended(e: Entry, id: EventId, kind: string, payload: Fields): Outcome<Entry, StoreError> {
    if e.rec.state != Started then Err(Refused)
    else
      var n := e.rec.last + 1;
      Ok(e.(events := e.events[n := NextEvent(e, id, kind, payload)], rec := e.rec.(last := n)))
  }

  function EventAcked(e: Entry, id: EventId, n: nat): Outcome<Entry, StoreError> {
    if n in e.events && e.events[n].id == id then
      Ok(e.(rec := e.rec.(acks := Applied(e.rec.acks, n))))
    else Err(Corrupt)
  }

  function FilledPayload(p: Payload, id: ResultId, final: int): Payload {
    p.(resultId := Some(id), finalSeq := Some(final))
  }

  function NewResult(e: Entry, p: Payload, freshId: nat): Result {
    var id := if p.resultId.Some? then p.resultId.value else Uuid(freshId);
    var final := if p.finalSeq.Some? then p.finalSeq.value else e.rec.last;
    Result(e.rec.identity, id, final, FilledPayload(p, id, final))
  }

  /** The assignment record after a Result was stored. */
  function WithResult(rec: Assignment, r: Result): Assignment {
    rec.(resultId := Some(r.id), finalSeq := r.finalSeq,
         state := if rec.state == Started then Finished else rec.state)
  }

  /** The in-memory store: the state is checked, and a repeat must carry the stored payload. */
  function ResultStoredMemory(e: Entry, p: Payload, freshId: nat): Outcome<Entry, StoreError> {
    if e.rec.state !in {Started, Finished} then Err(Refused)
    else if e.result.Some? then
      if e.result.value.payload != p then Err(Corrupt) else Ok(e)
    else
      var r := NewResult(e, p, freshId);
      Ok(e.(result := Some(r), rec := WithResult(e.rec, r)))
  }

  /** The file store: no state check, and a repeat may omit the two filled-in fields. */
  function ResultStoredFile(e: Entry, p: Payload, freshId: nat): Outcome<Entry, StoreError> {
    if e.result.Some? then
      var r := e.result.value;
      if r.payload != p && r.payload != FilledPayload(p, r.id, r.finalSeq) then Err(Corrupt) else Ok(e)
    else
      var r := NewResult(e, p, freshId);
      Ok(e.(result := Some(r), rec := WithResult(e.rec, r)))
  }

  function ResultAckedBy(e: Entry, id: ResultId): Outcome<Entry, StoreError> {
    if e.result.Some? && e.result.value.id == id then
      Ok(e.(rec := e.rec.(state := ResultAcked), result := None))
    else Err(Corrupt)
  }

  function EventsCleared(e: Entry): Outcome<Entry, StoreError> {
    if e.rec.state in {ResultAcked, Revoked} then Ok(e.(events := map[])) else Err(Refused)
  }

  function Discarded(e: Entry): Outcome<Entry, StoreError> {
    if Terminal(e.rec.state) then Ok(e.(events := map[], result := None)) else Err(Refused)
  }

  predicate Deletable(e: Entry) {
    Terminal(e.rec.state) && e.events == map[] && e.result == None
  }

  /** The Events that still wait for an acknowledgement, in sequence order. */
  function PendingSeqs(e: Entry): (r: set<nat>) {
    set n | n in e.events && !Acked(e.rec.acks, n)
  }

  function Pending(e: Entry): (r: seq<Event>) {
    Pick(e.events, Sorted(PendingSeqs(e)))
  }

  /** The stored Events with the given sequences, in the given order. */
  function Pick(events: map<nat, Event>, order: seq<nat>): (r: seq<Event>)
    requires forall n :: n in order ==> n in events
    ensures |r| == |order|
    ensures forall i :: 0 <= i < |r| ==> r[i] == events[order[i]]
  {
    if order == [] then []
    else
      assert order[0] in order;
      assert forall n :: n in order[1..] ==> n in order;
      [events[order[0]]] + Pick(events, order[1..])
  }

  // ---------------------------------------------------------------- the same on a journal

  predicate Names(j: Journal, message: MessageId) {
    message.attempt in j && MessageOf(j[message.attempt].rec.identity) == message
  }

  function Lifted(j: Journal, a: AttemptId, r: Outcome<Entry, StoreError>): Outcome<Journal, StoreError> {
    if r.Ok? then Ok(j[a := r.value]) else Err(r.error)
  }

  function AdvancedIn(j: Journal, message: MessageId, to: State): Outcome<Journal, StoreError> {
    if Names(j, message) then Lifted(j, message.attempt, Advanced(j[message.attempt], to)) else Err(NotFound)
  }

  function DeletedIn(j: Journal, message: MessageId): Outcome<Journal, StoreError> {
    if !Names(j, message) then Err(NotFound)
    else if Deletable(j[message.attempt]) then Ok(j - {message.attempt})
    else Err(Refused)
  }

  function AppendedIn(j: Journal, a: AttemptId, id: EventId, kind: string, payload: Fields)
    : Outcome<Journal, StoreError>
  {
    if a in j then Lifted(j, a, Appended(j[a], id, kind, payload)) else Err(NotFound)
  }

  function EventAckedIn(j: Journal, a: AttemptId, id: EventId, n: nat): Outcome<Journal, StoreError> {
    if a in j then Lifted(j, a, EventAcked(j[a], id, n)) else Err(NotFound)
  }

  function StoredMemoryIn(j: Journal, a: AttemptId, p: Payload, freshId: nat): Outcome<Journal, StoreError> {
    if a in j then Lifted(j, a, ResultStoredMemory(j[a], p, freshId)) else Err(NotFound)
  }

  function StoredFileIn(j: Journal, a: AttemptId, p: Payload, freshId: nat): Outcome<Journal, StoreError> {
    if a in j then Lifted(j, a, ResultStoredFile(j[a], p, freshId)) else Err(NotFound)
  }

  function ResultAckedIn(j: Journal, a: AttemptId, id: ResultId): Outcome<Journal, StoreError> {
    if a in j then Lifted(j, a, ResultAckedBy(j[a], id)) else Err(NotFound)
  }

  function ClearedIn(j: Journal, a: AttemptId): Outcome<Journal, StoreError> {
    if a in j then Lifted(j, a, EventsCleared(j[a])) else Err(NotFound)
  }

  function DiscardedIn(j: Journal, a: AttemptId): Outcome<Journal, StoreError> {
    if a in j then Lifted(j, a, Discarded(j[a])) else Err(NotFound)
  }

  // ---------------------------------------------------------------- the form entries keep

  ghost predicate EventsFit(e: Entry) {
    && (forall n :: n in e.events ==> EventFits(e, n))
    && (forall m, n :: m in e.events && n in e.events && e.events[m].id == e.events[n].id ==> m == n)
  }

  ghost predicate EventFits(e: Entry, n: nat)
    requires n in e.events
  {
    e.events[n].seq_ == n && e.events[n].identity == e.rec.identity && 1 <= n <= e.rec.last
  }

  ghost predicate ResultFits(e: Entry) {
    e.result.Some? ==>
      var r := e.result.value;
      && r.identity == e.rec.identity
      && r.payload.resultId == Some(r.id) && r.payload.finalSeq == Some(r.finalSeq)
      && ResultLoads(r)
  }

  ghost predicate Sound(e: Entry) {
    && EventsFit(e)
    && ResultFits(e)
    && WellFormed(e.rec.acks) && Within(e.rec.acks, e.rec.last)
    && (!Terminal(e.rec.state) ==> e.events.Keys == UpTo(e.rec.last))
    && (e.rec.state in {Received, AckSent, Confirmed, RejectSent} ==> e.rec.last == 0)
    && (!Terminal(e.rec.state) && e.rec.state != Finished ==> e.result == None && e.rec.resultId == None)
    && (e.rec.state == Finished ==>
          && e.result.Some?
          && e.rec.resultId == Some(e.result.value.id)
          && e.result.value.finalSeq == e.rec.finalSeq == e.rec.last)
  }

  ghost predicate SoundJournal(j: Journal) {
    forall a :: a in j ==> j[a].rec.identity.attempt == a && Sound(j[a])
  }

  lemma CreatedSound(j: Journal, identity: Identity, input: Fields)
    requires SoundJournal(j) && Created(j, identity, input).Ok?
    ensures SoundJournal(Created(j, identity, input).value)
  {
  }

  lemma AppendedSound(e: Entry, id: EventId, kind: string, payload: Fields)
    requires Sound(e) && Appended(e, id, kind, payload).Ok?
    requires forall n :: n in e.events ==> e.events[n].id != id
    ensures Sound(Appended(e, id, kind, payload).value)
  {
  }

  lemma EventAckedSound(e: Entry, id: EventId, n: nat)
    requires Sound(e) && EventAcked(e, id, n).Ok?
    ensures Sound(EventAcked(e, id, n).value)
    ensures Meaning(EventAcked(e, id, n).value.rec.acks) == Meaning(e.rec.acks) + {n}
  {
    assert EventFits(e, n);
    AppliedAddsOne(e.rec.acks, n);
    var f := EventAcked(e, id, n).value;
    forall k | k in f.events ensures EventFits(f, k) {
      assert EventFits(e, k);
    }
  }

  /** Storing a Result keeps the form and can be reopened at every point, exactly under this condition. */
  predicate ResultAdmissible(e: Entry, p: Payload) {
    var r := NewResult(e, p, 0);
    e.result.Some?
    || (r.id.Uuid? && 0 <= r.finalSeq
        && (Terminal(e.rec.state) || (e.rec.state == Started && r.finalSeq == e.rec.last)))
  }

  lemma ResultStoredSound(e: Entry, p: Payload, freshId: nat)
    requires Sound(e) && ResultStoredFile(e, p, freshId).Ok? && ResultAdmissible(e, p)
    ensures Sound(ResultStoredFile(e, p, freshId).value)
  {
  }

  lemma ResultAckedSound(e: Entry, id: ResultId)
    requires Sound(e) && ResultAckedBy(e, id).Ok?
    ensures Sound(ResultAckedBy(e, id).value)
  {
  }

  lemma DroppedSound(e: Entry)
    requires Sound(e)
    ensures EventsCleared(e).Ok? ==> Sound(EventsCleared(e).value)
    ensures Discarded(e).Ok? ==> Sound(Discarded(e).value)
  {
  }

  // ---------------------------------------------------------------- reopening

  /** The first repair: an Event written ahead of its assignment record is adopted. */
  function Bumped(e: Entry): Outcome<Entry, StoreError> {
    var top := |e.events.Keys|;
    if e.events.Keys != UpTo(top) then Err(Corrupt)
    else if top < e.rec.last || e.rec.last + 1 < top then Err(Corrupt)
    else Ok(e.(rec := e.rec.(last := top)))
  }

  /** The second repair: a Result written ahead of its assignment record is adopted. */
  function Adopted(e: Entry): Outcome<Entry, StoreError> {
    if e.result.Some? then
      var r := e.result.value;
      if r.finalSeq != e.rec.last then Err(Corrupt)
      else if e.rec.state == Started && e.rec.resultId == None then Ok(e.(rec := WithResult(e.rec, r)))
      else if e.rec.resultId != Some(r.id) then Err(Corrupt)
      else Ok(e)
    else if e.rec.state == Finished then Err(Corrupt)
    else Ok(e)
  }

  /** The checks made on a Result record when it is read back. */
  predicate ResultLoads(r: Result) {
    r.id.Uuid? && 0 <= r.finalSeq
  }

  /** What reopening makes of the records of one attempt. */
  function Repaired(e: Entry): Outcome<Entry, StoreError> {
    if e.result.Some? && !ResultLoads(e.result.value) then Err(Corrupt)
    else if Terminal(e.rec.state) then Ok(Entry(e.rec, map[], None))
    else if Bumped(e).Err? then Err(Corrupt)
    else Adopted(Bumped(e).value)
  }

  function Recovered(j: Journal): Outcome<Journal, StoreError> {
    if AllRepair(j) then Ok(RepairedAll(j)) else Err(Corrupt)
  }

  predicate AllRepair(j: Journal) {
    forall a :: a in j ==> Repaired(j[a]).Ok?
  }

  function RepairedAll(j: Journal): (r: Journal)
    requires AllRepair(j)
    ensures r.Keys == j.Keys
    ensures forall a :: a in j ==> r[a] == Repaired(j[a]).value
  {
    map a | a in j :: Repaired(j[a]).value
  }

  /** An entry without the spool of a terminal attempt. */
  function Settled(e: Entry): Entry {
    if Terminal(e.rec.state) then Entry(e.rec, map[], None) else e
  }

  lemma {:induction false} UpToSize(n: nat)
    ensures |UpTo(n)| == n
  {
    if n > 0 {
      UpToSize(n - 1);
      assert n !in UpTo(n - 1);
    }
  }

  /** Sound records reopen as they are, apart from terminal spools. */
  lemma RepairedSound(e: Entry)
    requires Sound(e)
    ensures Repaired(e) == Ok(Settled(e))
    ensures Sound(Settled(e))
  {
    UpToSize(e.rec.last);
  }

  /** Reopening is a fixed point, and stopping between its two writes changes nothing. */
  lemma RepairedIdempotent(e: Entry)
    requires Repaired(e).Ok?
    ensures Repaired(Repaired(e).value) == Repaired(e)
    ensures !Terminal(e.rec.state) ==> Repaired(Bumped(e).value) == Repaired(e)
  {
  }

  lemma AppendedKeys(e: Entry, id: EventId, kind: string, payload: Fields)
    requires Sound(e) && Appended(e, id, kind, payload).Ok?
    ensures Appended(e, id, kind, payload).value.events.Keys == UpTo(e.rec.last + 1)
  {
  }

  lemma BumpedTo(e: Entry, top: nat)
    requires e.events.Keys == UpTo(top) && e.rec.last <= top <= e.rec.last + 1
    ensures Bumped(e) == Ok(e.(rec := e.rec.(last := top)))
  {
    UpToSize(top);
  }

  /** An Event file without its journal update reopens as the finished append. */
  lemma EventAheadRepairs(e: Entry, id: EventId, kind: string, payload: Fields)
    requires Sound(e) && Appended(e, id, kind, payload).Ok?
    ensures var f := Appended(e, id, kind, payload).value;
            Repaired(e.(events := f.events)) == Ok(f)
  {
    var f := Appended(e, id, kind, payload).value;
    AppendedKeys(e, id, kind, payload);
    BumpedTo(e.(events := f.events), f.rec.last);
  }

  /** A Result file without its journal update reopens as the finished store. */
  lemma ResultAheadRepairs(e: Entry, p: Payload, freshId: nat)
    requires Sound(e) && e.result == None && ResultAdmissible(e, p)
    ensures var f := ResultStoredFile(e, p, freshId).value;
            Repaired(e.(result := f.result)) == Ok(Settled(if Terminal(e.rec.state) then e else f))
  {
    UpToSize(e.rec.last);
  }

  /** Outside that condition some stop inside the operation cannot be reopened. */
  lemma ResultInadmissibleFails(e: Entry, p: Payload, freshId: nat)
    requires Sound(e) && e.result == None && !ResultAdmissible(e, p)
    ensures var f := ResultStoredFile(e, p, freshId).value;
            Repaired(e.(result := f.result)).Err?
  {
  }

  /**
   * The transition table admits Finished from Started without a Result. An advance leaves
   * records that reopen exactly when it does not take that step.
   */
  lemma AdvanceReopensIff(e: Entry, to: State)
    requires Sound(e) && Advanced(e, to).Ok?
    ensures Sound(Advanced(e, to).value) <==> (to == Finished ==> e.rec.state == Finished)
    ensures Repaired(Advanced(e, to).value).Ok? <==> (to == Finished ==> e.rec.state == Finished)
  {
    if to == Finished ==> e.rec.state == Finished {
      RepairedSound(Advanced(e, to).value);
    }
  }

  /** The advance does not take an attempt to Finished, unless it already is there. */
  predicate ClaimsNoResult(j: Journal, message: MessageId, to: State) {
    to == Finished ==> Names(j, message) && j[message.attempt].rec.state == Finished
  }

  lemma AdvanceInSound(j: Journal, message: MessageId, to: State)
    requires SoundJournal(j) && AdvancedIn(j, message, to).Ok? && ClaimsNoResult(j, message, to)
    ensures SoundJournal(AdvancedIn(j, message, to).value)
  {
  }

  /** Storing a Result can be stopped and reopened at every point exactly when it is admissible. */
  lemma StoreResultReopensIff(e: Entry, p: Payload, freshId: nat)
    requires Sound(e) && ResultStoredFile(e, p, freshId).Ok?
    ensures var f := ResultStoredFile(e, p, freshId).value;
            ResultAdmissible(e, p)
            <==> Repaired(e.(result := f.result)).Ok? && Repaired(f).Ok?
  {
    if e.result.Some? {
      RepairedSound(e);
    } else if ResultAdmissible(e, p) {
      ResultStoredSound(e, p, freshId);
      RepairedSound(ResultStoredFile(e, p, freshId).value);
      ResultAheadRepairs(e, p, freshId);
    } else {
      ResultInadmissibleFails(e, p, freshId);
    }
  }

  /**
   * The two stores give the same answer to store_result exactly when the assignment is
   * started or finished and a repeat either carries the stored payload or another body.
   */
  lemma StoreResultAgreesIff(e: Entry, p: Payload, freshId: nat)
    requires Sound(e)
    ensures ResultStoredFile(e, p, freshId) == ResultStoredMemory(e, p, freshId)
       <==> && e.rec.state in {Started, Finished}
            && (e.result.Some? ==> e.result.value.payload == p || e.result.value.payload.body != p.body)
  {
  }

  // ---------------------------------------------------------------- inputs at which they fail

  const EXAMPLE: Identity := Identity("attempt", "lease", 1)

  /** The record right after create_assignment. */
  const RECEIVED: Entry := Entry(NewAssignment(EXAMPLE, map["question" := "42"]), map[], None)

  const STARTED: Entry := RECEIVED.(rec := RECEIVED.rec.(state := Started))

  const ANSWER: Payload := Payload(map["output" := "{}"], None, None)

  /** A Result stored for an attempt that was only received: the stop after its first write cannot be reopened. */
  lemma EarlyResultExample()
    ensures Sound(RECEIVED) && ResultStoredFile(RECEIVED, ANSWER, 0).Ok? && !ResultAdmissible(RECEIVED, ANSWER)
    ensures Repaired(RECEIVED.(result := ResultStoredFile(RECEIVED, ANSWER, 0).value.result)).Err?
    ensures ResultStoredMemory(RECEIVED, ANSWER, 0).Err?
  {
    FreshIsSound();
    ResultInadmissibleFails(RECEIVED, ANSWER, 0);
  }

  /** The same Result stored twice: the file store repeats it, the in-memory store sees a conflict. */
  lemma RepeatedResultExample()
    ensures ResultStoredFile(STARTED, ANSWER, 0) == ResultStoredMemory(STARTED, ANSWER, 0)
    ensures var e := ResultStoredFile(STARTED, ANSWER, 0).value;
            && Sound(e) && ResultStoredFile(e, ANSWER, 1) == Ok(e)
            && ResultStoredMemory(e, ANSWER, 1) == Err(Corrupt)
  {
    FreshIsSound();
    ResultStoredSound(STARTED, ANSWER, 0);
  }

  /** A started attempt moved to finished by the table alone cannot be reopened. */
  lemma BareFinishExample()
    ensures Sound(STARTED) && Advanced(STARTED, Finished).Ok?
    ensures Repaired(Advanced(STARTED, Finished).value).Err?
  {
    FreshIsSound();
    AdvanceReopensIff(STARTED, Finished);
  }

  lemma FreshIsSound()
    ensures Sound(RECEIVED) && Sound(STARTED)
  {
    assert Meaning(Window(0, [])) == {};
  }
}
