/**
 * What the operations of the journal mean, field by field: when each of them succeeds, what it
 * changes, and that it changes nothing else.
 */
module JournalMeaning {
  import opened Prelude
  import opened Acks
  import opened Journal

  // ---------------------------------------------------------------- states

  /** The moves of the table, one by one. */
  const EDGES: set<(State, State)> := {
    (Received, AckSent), (Received, RejectSent), (Received, Revoked), (AckSent, Confirmed), (AckSent, Revoked),
    (Confirmed, Started), (Confirmed, Revoked), (Started, Finished), (Started, Revoked),
    (Finished, ResultAcked), (Finished, Revoked), (RejectSent, Rejected), (RejectSent, Revoked)}

  lemma TableIs(from: State, to: State)
    ensures MayMove(from, to) <==> (from, to) in EDGES
  {
  }

  /** How far an attempt has come. */
  function Stage(s: State): nat {
    match s
    case Received => 0
    case AckSent => 1
    case RejectSent => 1
    case Confirmed => 2
    case Started => 3
    case Finished => 4
    case _ => 5
  }

  /** No move goes back, a state is terminal exactly if none leaves it, and every other can be revoked. */
  lemma MovesGoOn(from: State, to: State)
    ensures MayMove(from, to) ==> Stage(from) < Stage(to)
    ensures Terminal(from) <==> forall t: State :: !MayMove(from, t)
    ensures !Terminal(from) ==> MayMove(from, Revoked)
  {
    if !Terminal(from) {
      assert MayMove(from, Revoked);
    }
  }

  lemma AdvancedMeans(e: Entry, to: State)
    ensures Advanced(e, to).Ok? <==> to == e.rec.state || (e.rec.state, to) in EDGES
    ensures Advanced(e, to).Ok? ==> Advanced(e, to).value == e.(rec := e.rec.(state := to))
    ensures Advanced(e, to).Err? ==> Advanced(e, to).error == Corrupt
  {
    TableIs(e.rec.state, to);
  }

  // ---------------------------------------------------------------- assignments

  /** Whatever happens to one attempt leaves the others alone. */
  predicate OnlyAt(j: Journal, k: Journal, a: AttemptId) {
    j - {a} == k - {a}
  }

  /** A new record is received and has nothing; an offer that comes again finds its record; another is a conflict. */
  lemma CreatedMeans(j: Journal, identity: Identity, input: Fields)
    ensures var a, r := identity.attempt, Created(j, identity, input);
            if a !in j then
              && r.Ok? && OnlyAt(j, r.value, a) && a in r.value
              && r.value[a].events == map[] && r.value[a].result == None
              && r.value[a].rec == Assignment(identity, input, Received, 0, Window(0, []), None, 0)
            else if j[a].rec.identity == identity && j[a].rec.input == input then r == Ok(j)
            else r == Err(Corrupt)
  {
  }

  /** A record can be deleted exactly when it is terminal and has no spool. */
  lemma DeletedMeans(j: Journal, message: MessageId)
    ensures var a, r := message.attempt, DeletedIn(j, message);
            && (r.Ok? <==>
                  && a in j && MessageOf(j[a].rec.identity) == message
                  && j[a].rec.state in {Rejected, ResultAcked, Revoked} && j[a].events == map[] && j[a].result == None)
            && (r.Ok? ==> a !in r.value && OnlyAt(j, r.value, a))
  {
  }

  // ---------------------------------------------------------------- Events

  /** A started attempt takes the next sequence, under the id given, and no other attempt takes any. */
  lemma AppendedMeans(e: Entry, id: EventId, kind: string, payload: Fields)
    ensures var r, n := Appended(e, id, kind, payload), e.rec.last + 1;
            if e.rec.state == Started then
              && r.Ok? && r.value.rec == e.rec.(last := n) && r.value.result == e.result
              && r.value.events == e.events[n := Event(e.rec.identity, id, n, kind, payload)]
            else r == Err(Refused)
  {
  }

  /** An acknowledgement names a stored Event by sequence and id, and adds that sequence. */
  lemma EventAckedMeans(e: Entry, id: EventId, n: nat)
    requires WellFormed(e.rec.acks)
    ensures var r := EventAcked(e, id, n);
            && (r.Ok? <==> n in e.events && e.events[n].id == id)
            && (r.Ok? ==> r.value == e.(rec := e.rec.(acks := r.value.rec.acks)))
            && (r.Ok? && n > 0 ==> Meaning(r.value.rec.acks) == Meaning(e.rec.acks) + {n})
  {
    if n in e.events && n > 0 {
      AppliedAddsOne(e.rec.acks, n);
    }
  }

  /** Pending are the stored Events without an acknowledgement, in ascending order. */
  lemma PendingMeans(e: Entry)
    ensures forall n: nat :: n > 0 ==> (n in PendingSeqs(e) <==> n in e.events && n !in Meaning(e.rec.acks))
    ensures |Pending(e)| == |Sorted(PendingSeqs(e))|
    ensures forall i :: 0 <= i < |Pending(e)| ==>
              Sorted(PendingSeqs(e))[i] in e.events && Pending(e)[i] == e.events[Sorted(PendingSeqs(e))[i]]
  {
  }

  // ---------------------------------------------------------------- the Result

  /** The first Result: the id and final sequence given, or a new id and the last sequence. */
  lemma FirstResultMeans(e: Entry, p: Payload, freshId: nat)
    requires e.result == None
    ensures var id := if p.resultId.Some? then p.resultId.value else Uuid(freshId);
            var final := if p.finalSeq.Some? then p.finalSeq.value else e.rec.last;
            var r := Result(e.rec.identity, id, final, Payload(p.body, Some(id), Some(final)));
            var state := if e.rec.state == Started then Finished else e.rec.state;
            var f := Entry(e.rec.(resultId := Some(id), finalSeq := final, state := state), e.events, Some(r));
            && ResultStoredFile(e, p, freshId) == Ok(f)
            && ResultStoredMemory(e, p, freshId)
               == (if e.rec.state in {Started, Finished} then Ok(f) else Err(Refused))
  {
  }

  /** A repeat changes nothing; the file store also takes one that differs in the two generated fields. */
  lemma RepeatedResultMeans(e: Entry, p: Payload, freshId: nat)
    requires e.result.Some?
    requires var r := e.result.value; r.payload == FilledPayload(r.payload, r.id, r.finalSeq)
    ensures ResultStoredFile(e, p, freshId) == if p.body == e.result.value.payload.body then Ok(e) else Err(Corrupt)
    ensures ResultStoredMemory(e, p, freshId)
         == if e.rec.state !in {Started, Finished} then Err(Refused)
            else if p == e.result.value.payload then Ok(e) else Err(Corrupt)
  {
  }

  /** Its acknowledgement names it, and takes it away whatever the state is. */
  lemma ResultAckedMeans(e: Entry, id: ResultId)
    ensures var r := ResultAckedBy(e, id);
            && (r.Ok? <==> e.result.Some? && e.result.value.id == id)
            && (r.Ok? ==> r.value == Entry(e.rec.(state := ResultAcked), e.events, None))
  {
  }

  /** What is left of a terminal attempt goes in two ways. */
  lemma RemovalMeans(e: Entry)
    ensures EventsCleared(e)
         == if e.rec.state in {ResultAcked, Revoked} then Ok(Entry(e.rec, map[], e.result)) else Err(Refused)
    ensures Discarded(e)
         == if e.rec.state in {Rejected, ResultAcked, Revoked} then Ok(Entry(e.rec, map[], None)) else Err(Refused)
  {
  }

  // ---------------------------------------------------------------- reopening

  /** The Result found agrees with the record, or is ahead of it by the one write that was not made. */
  predicate ResultAgrees(e: Entry, last: nat) {
    if e.result == None then e.rec.state != Finished
    else
      && e.result.value.finalSeq == last
      && (e.rec.resultId == Some(e.result.value.id) || (e.rec.state == Started && e.rec.resultId == None))
  }

  /** The Events found are 1..n, and n is the last sequence of the record or the next. */
  predicate EventsAgree(e: Entry, n: nat) {
    e.events.Keys == UpTo(n) && e.rec.last <= n <= e.rec.last + 1
  }

  /**
   * Which records reopen, and as what: a terminal one without its spool; any other with its
   * Events and Result, if they are no more than one write ahead of it, and with that write made.
   */
  lemma RepairedMeans(e: Entry)
    ensures var loads := e.result.Some? ==> e.result.value.id.Uuid? && e.result.value.finalSeq >= 0;
            var n := |e.events|;
            var r := Repaired(e);
            && (r.Ok? <==> loads && (Terminal(e.rec.state) || (EventsAgree(e, n) && ResultAgrees(e, n))))
            && (r.Ok? && Terminal(e.rec.state) ==> r.value == Entry(e.rec, map[], None))
            && (r.Ok? && !Terminal(e.rec.state) ==>
                  && r.value.events == e.events && r.value.result == e.result
                  && r.value.rec
                     == if e.result.Some? && e.rec.resultId == None then
                          e.rec.(last := n, state := Finished, resultId := Some(e.result.value.id),
                                 finalSeq := e.result.value.finalSeq)
                        else e.rec.(last := n))
  {
    assert |e.events.Keys| == |e.events|;
  }
}
