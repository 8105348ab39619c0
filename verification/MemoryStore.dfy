/**
 * The in-memory store: four dictionaries that its operations reassign. `View` is the
 * journal they stand for, and every operation is the journal operation of the same name.
 */
module MemoryStores {
  import opened Prelude
  import opened Acks
  import opened Journal
  import opened Ranges

  /** The index and the records name each other; no spool without an assignment. */
  ghost predicate Consistent(
    assignments: map<MessageId, Assignment>, attempts: map<AttemptId, MessageId>,
    events: map<AttemptId, map<nat, Event>>, results: map<AttemptId, Result>)
  {
    && (forall a :: a in attempts ==> attempts[a].attempt == a && attempts[a] in assignments)
    && (forall m :: m in assignments ==>
          MessageOf(assignments[m].identity) == m && m.attempt in attempts && attempts[m.attempt] == m)
    && events.Keys <= attempts.Keys
    && results.Keys <= attempts.Keys
  }

  function SpoolIn(events: map<AttemptId, map<nat, Event>>, a: AttemptId): map<nat, Event> {
    if a in events then events[a] else map[]
  }

  function ResultIn(results: map<AttemptId, Result>, a: AttemptId): Option<Result> {
    if a in results then Some(results[a]) else None
  }

  /** The journal that four consistent dictionaries stand for. */
  ghost function Assembled(
    assignments: map<MessageId, Assignment>, attempts: map<AttemptId, MessageId>,
    events: map<AttemptId, map<nat, Event>>, results: map<AttemptId, Result>): (j: Journal)
    requires Consistent(assignments, attempts, events, results)
    ensures j.Keys == attempts.Keys
    ensures forall a :: a in j ==> j[a] == Entry(assignments[attempts[a]], SpoolIn(events, a), ResultIn(results, a))
  {
    map a | a in attempts :: Entry(assignments[attempts[a]], SpoolIn(events, a), ResultIn(results, a))
  }

  ghost predicate SameElsewhere(
    events: map<AttemptId, map<nat, Event>>, results: map<AttemptId, Result>,
    events': map<AttemptId, map<nat, Event>>, results': map<AttemptId, Result>, a: AttemptId)
  {
    forall b :: b != a ==> SpoolIn(events, b) == SpoolIn(events', b) && ResultIn(results, b) == ResultIn(results', b)
  }

  lemma PutKeepsConsistency(
    assignments: map<MessageId, Assignment>, attempts: map<AttemptId, MessageId>,
    events: map<AttemptId, map<nat, Event>>, results: map<AttemptId, Result>,
    rec: Assignment, events': map<AttemptId, map<nat, Event>>, results': map<AttemptId, Result>)
    requires Consistent(assignments, attempts, events, results)
    requires rec.identity.attempt in attempts ==> attempts[rec.identity.attempt] == MessageOf(rec.identity)
    requires events'.Keys <= events.Keys + {rec.identity.attempt}
    requires results'.Keys <= results.Keys + {rec.identity.attempt}
    ensures Consistent(assignments[MessageOf(rec.identity) := rec],
                       attempts[rec.identity.attempt := MessageOf(rec.identity)], events', results')
  {
  }

  /** Replacing the records of one attempt in the dictionaries replaces its entry and nothing else. */
  lemma PutAssembles(
    assignments: map<MessageId, Assignment>, attempts: map<AttemptId, MessageId>,
    events: map<AttemptId, map<nat, Event>>, results: map<AttemptId, Result>,
    rec: Assignment, events': map<AttemptId, map<nat, Event>>, results': map<AttemptId, Result>,
    assignments': map<MessageId, Assignment>, attempts': map<AttemptId, MessageId>)
    requires Consistent(assignments, attempts, events, results)
    requires Consistent(assignments', attempts', events', results')
    requires SameElsewhere(events, results, events', results', rec.identity.attempt)
    requires assignments' == assignments[MessageOf(rec.identity) := rec]
    requires attempts' == attempts[rec.identity.attempt := MessageOf(rec.identity)]
    ensures var a := rec.identity.attempt;
            Assembled(assignments', attempts', events', results')
            == Assembled(assignments, attempts, events, results)
                 [a := Entry(rec, SpoolIn(events', a), ResultIn(results', a))]
  {
    hide Assembled, SpoolIn, ResultIn;
    var a := rec.identity.attempt;
    var before := Assembled(assignments, attempts, events, results);
    var after := Assembled(assignments', attempts', events', results');
    var wanted := before[a := Entry(rec, SpoolIn(events', a), ResultIn(results', a))];
    assert after.Keys == wanted.Keys;
    forall b | b in after ensures after[b] == wanted[b] {
    }
  }

  function WithSpool(events: map<AttemptId, map<nat, Event>>, a: AttemptId, spool: map<nat, Event>)
    : (r: map<AttemptId, map<nat, Event>>)
    ensures forall b :: SpoolIn(r, b) == if b == a then spool else SpoolIn(events, b)
    ensures r.Keys <= events.Keys + {a}
  {
    if spool == map[] then events - {a} else events[a := spool]
  }

  function WithOutcome(results: map<AttemptId, Result>, a: AttemptId, result: Option<Result>)
    : (r: map<AttemptId, Result>)
    ensures forall b :: ResultIn(r, b) == if b == a then result else ResultIn(results, b)
    ensures r.Keys <= results.Keys + {a}
  {
    if result.Some? then results[a := result.value] else results - {a}
  }

  lemma AssembledNames(
    assignments: map<MessageId, Assignment>, attempts: map<AttemptId, MessageId>,
    events: map<AttemptId, map<nat, Event>>, results: map<AttemptId, Result>, a: AttemptId)
    requires Consistent(assignments, attempts, events, results) && a in attempts
    ensures MessageOf(Assembled(assignments, attempts, events, results)[a].rec.identity) == attempts[a]
  {
  }

  lemma PutStep(
    assignments: map<MessageId, Assignment>, attempts: map<AttemptId, MessageId>,
    events: map<AttemptId, map<nat, Event>>, results: map<AttemptId, Result>,
    rec: Assignment, spool: map<nat, Event>, result: Option<Result>)
    requires Consistent(assignments, attempts, events, results)
    requires var j := Assembled(assignments, attempts, events, results);
             rec.identity.attempt in j ==> MessageOf(j[rec.identity.attempt].rec.identity) == MessageOf(rec.identity)
    ensures var a := rec.identity.attempt;
            var events', results' := WithSpool(events, a, spool), WithOutcome(results, a, result);
            var assignments' := assignments[MessageOf(rec.identity) := rec];
            var attempts' := attempts[a := MessageOf(rec.identity)];
            && Consistent(assignments', attempts', events', results')
            && Assembled(assignments', attempts', events', results')
               == Assembled(assignments, attempts, events, results)[a := Entry(rec, spool, result)]
  {
    hide Consistent, Assembled, SpoolIn, ResultIn, WithSpool, WithOutcome;
    var a := rec.identity.attempt;
    var events', results' := WithSpool(events, a, spool), WithOutcome(results, a, result);
    if a in attempts {
      AssembledNames(assignments, attempts, events, results, a);
    }
    PutKeepsConsistency(assignments, attempts, events, results, rec, events', results');
    PutAssembles(assignments, attempts, events, results, rec, events', results',
                 assignments[MessageOf(rec.identity) := rec], attempts[a := MessageOf(rec.identity)]);
  }

  lemma DropStep(
    assignments: map<MessageId, Assignment>, attempts: map<AttemptId, MessageId>,
    events: map<AttemptId, map<nat, Event>>, results: map<AttemptId, Result>, message: MessageId)
    requires Consistent(assignments, attempts, events, results)
    requires message in assignments && message.attempt !in results
    ensures var assignments', attempts', events' :=
              assignments - {message}, attempts - {message.attempt}, events - {message.attempt};
            && Consistent(assignments', attempts', events', results)
            && Assembled(assignments', attempts', events', results)
               == Assembled(assignments, attempts, events, results) - {message.attempt}
  {
    hide Assembled;
  }

  /** Only the assignment record of `a` differs, and its identity and Event count stay. */
  ghost predicate RecordReplaced(before: Journal, after: Journal, a: AttemptId, rec: Assignment) {
    && a in before
    && rec.identity.attempt == a && rec.identity == before[a].rec.identity && rec.last == before[a].rec.last
    && after == before[a := before[a].(rec := rec)]
  }

  class MemoryStore {
    var assignments: map<MessageId, Assignment>
    var attempts: map<AttemptId, MessageId>
    var events: map<AttemptId, map<nat, Event>>
    var results: map<AttemptId, Result>
    var closed: bool

    /** The journal that the dictionaries stand for. */
    ghost var view: Journal

    ghost predicate Valid()
      reads this
    {
      && Consistent(assignments, attempts, events, results)
      && view == Assembled(assignments, attempts, events, results)
    }

    ghost function View(): Journal
      reads this
    {
      view
    }

    function EventsOf(a: AttemptId): (r: map<nat, Event>)
      requires Valid()
      reads this
      ensures r == if a in View() then View()[a].events else map[]
    {
      SpoolIn(events, a)
    }

    function ResultOf(a: AttemptId): (r: Option<Result>)
      requires Valid()
      reads this
      ensures r == if a in View() then View()[a].result else None
    {
      ResultIn(results, a)
    }

    constructor ()
      ensures Valid() && View() == map[] && !closed
    {
      assignments, attempts, events, results := map[], map[], map[], map[];
      closed := false;
      view := map[];
    }

    // ------------------------------------------------ the dictionary updates

    /** The records of one attempt after an operation; an empty spool leaves no dictionary entry. */
    method Put(rec: Assignment, spool: map<nat, Event>, result: Option<Result>)
      requires Valid()
      requires rec.identity.attempt in View() ==>
                 MessageOf(View()[rec.identity.attempt].rec.identity) == MessageOf(rec.identity)
      modifies this`assignments, this`attempts, this`events, this`results, this`view
      ensures Valid() && View() == old(View())[rec.identity.attempt := Entry(rec, spool, result)]
    {
      hide Consistent, Assembled;
      PutStep(assignments, attempts, events, results, rec, spool, result);
      var a := rec.identity.attempt;
      assignments := assignments[MessageOf(rec.identity) := rec];
      attempts := attempts[a := MessageOf(rec.identity)];
      events, results := WithSpool(events, a, spool), WithOutcome(results, a, result);
      view := view[a := Entry(rec, spool, result)];
    }

    method DropAssignment(message: MessageId)
      requires Valid() && Names(View(), message)
      requires View()[message.attempt].events == map[] && View()[message.attempt].result == None
      modifies this`assignments, this`attempts, this`events, this`view
      ensures Valid() && View() == old(View()) - {message.attempt}
    {
      assert message in assignments && message.attempt !in results;
      hide Consistent, Assembled;
      DropStep(assignments, attempts, events, results, message);
      events := events - {message.attempt};
      assignments := assignments - {message};
      attempts := attempts - {message.attempt};
      view := view - {message.attempt};
    }

    // ------------------------------------------------ lookups

    method FindMessage(message: MessageId) returns (r: Outcome<Assignment, StoreError>)
      requires Valid()
      ensures closed ==> r == Err(Closed)
      ensures !closed && r.Err? ==> r == Err(NotFound)
      ensures !closed ==> (r.Ok? <==> Names(View(), message))
      ensures r.Ok? ==> r.value == View()[message.attempt].rec && message in assignments
    {
      if closed {
        return Err(Closed);
      }
      if message !in assignments {
        return Err(NotFound);
      }
      r := Ok(assignments[message]);
    }

    method StateOf(a: AttemptId) returns (state: State)
      requires Valid() && a in View()
      ensures state == View()[a].rec.state
    {
      state := assignments[attempts[a]].state;
    }

    lemma KnownAttempts()
      requires Valid()
      ensures attempts.Keys == View().Keys
    {
    }

    method Knows(a: AttemptId) returns (known: bool)
      requires Valid()
      ensures known <==> a in View()
    {
      known := a in attempts;
    }

    method FindAttempt(a: AttemptId) returns (r: Outcome<Assignment, StoreError>)
      requires Valid()
      ensures a !in View() ==> r == Err(NotFound)
      ensures a in View() && closed ==> r == Err(Closed)
      ensures a in View() && !closed ==> r == Ok(View()[a].rec) && r.value.identity.attempt == a
    {
      if a !in attempts {
        return Err(NotFound);
      }
      r := FindMessage(attempts[a]);
    }

    method PendingEvents(a: AttemptId) returns (r: Outcome<seq<Event>, StoreError>)
      requires Valid()
      ensures r.Ok? <==> a in View() && !closed
      ensures r.Ok? ==> r.value == Pending(View()[a])
    {
      var found := FindAttempt(a);
      if found.Err? {
        return Err(found.error);
      }
      r := Ok(Pending(Entry(found.value, EventsOf(a), ResultOf(a))));
    }

    method ReplayEvents(a: AttemptId, ranges: seq<Range>) returns (r: Outcome<seq<Event>, StoreError>)
      requires Valid()
      ensures r.Ok? <==> a in View() && !closed && Replayable(ranges)
                         && forall n :: Covers(ranges, n) ==> 0 <= n && n in View()[a].events
      ensures r.Ok? ==> Selects(View()[a].events, Expanded(ranges), r.value)
    {
      var found := FindAttempt(a);
      if found.Err? {
        return Err(found.error);
      }
      r := EventsInRanges(EventsOf(a), ranges);
    }

    // ------------------------------------------------ operations

    method CreateAssignment(identity: Identity, input: Fields) returns (r: Outcome<Assignment, StoreError>)
      requires Valid()
      modifies this
      ensures Valid() && closed == old(closed)
      ensures closed ==> r == Err(Closed) && View() == old(View())
      ensures !closed ==>
                var spec := Created(old(View()), identity, input);
                && (r.Ok? <==> spec.Ok?)
                && View() == (if spec.Ok? then spec.value else old(View()))
                && (r.Ok? ==> r.value == View()[identity.attempt].rec)
    {
      if closed {
        return Err(Closed);
      }
      var message := MessageOf(identity);
      if message in assignments {
        var existing := assignments[message];
        if existing.identity == identity && existing.input == input {
          return Ok(existing);
        }
        return Err(Corrupt);
      }
      if identity.attempt in attempts {
        return Err(Corrupt);
      }
      Put(NewAssignment(identity, input), map[], None);
      r := Ok(NewAssignment(identity, input));
    }

    method AdvanceAssignment(message: MessageId, to: State) returns (r: Outcome<Assignment, StoreError>)
      requires Valid()
      modifies this
      ensures Valid() && closed == old(closed)
      ensures r.Err? ==> View() == old(View())
      ensures r.Ok? <==> !closed && AdvancedIn(old(View()), message, to).Ok?
      ensures r.Ok? ==> View() == AdvancedIn(old(View()), message, to).value
      ensures r.Ok? ==> RecordReplaced(old(View()), View(), message.attempt, r.value)
      ensures r.Ok? ==> r.value == View()[message.attempt].rec
    {
      var found := FindMessage(message);
      if found.Err? {
        return found;
      }
      var rec := found.value;
      if to == rec.state {
        return Ok(rec);
      }
      if !MayMove(rec.state, to) {
        return Err(Corrupt);
      }
      rec := rec.(state := to);
      Put(rec, EventsOf(message.attempt), ResultOf(message.attempt));
      r := Ok(rec);
    }

    method DeleteAssignment(message: MessageId) returns (r: Outcome<(), StoreError>)
      requires Valid()
      modifies this
      ensures Valid() && closed == old(closed)
      ensures r.Err? ==> View() == old(View())
      ensures r.Ok? <==> !closed && DeletedIn(old(View()), message).Ok?
      ensures r.Ok? ==> View() == DeletedIn(old(View()), message).value
    {
      var found := FindMessage(message);
      if found.Err? {
        return Err(found.error);
      }
      if !Terminal(found.value.state) {
        return Err(Refused);
      }
      if EventsOf(message.attempt) != map[] || ResultOf(message.attempt) != None {
        return Err(Refused);
      }
      DropAssignment(message);
      r := Ok(());
    }

    method AppendEvent(a: AttemptId, kind: string, payload: Fields, freshId: EventId)
      returns (r: Outcome<Event, StoreError>)
      requires Valid()
      modifies this
      ensures Valid() && closed == old(closed)
      ensures r.Err? ==> View() == old(View())
      ensures r.Ok? <==> !closed && AppendedIn(old(View()), a, freshId, kind, payload).Ok?
      ensures r.Ok? ==> View() == AppendedIn(old(View()), a, freshId, kind, payload).value
      ensures r.Ok? ==> a in old(View()) && r.value == NextEvent(old(View())[a], freshId, kind, payload)
    {
      var found := FindAttempt(a);
      if found.Err? {
        return Err(found.error);
      }
      var rec := found.value;
      if rec.state != Started {
        return Err(Refused);
      }
      var event := Event(rec.identity, freshId, rec.last + 1, kind, payload);
      ghost var e := View()[a];
      assert e == Entry(rec, EventsOf(a), ResultOf(a));
      var spool := EventsOf(a)[event.seq_ := event];
      assert Appended(e, freshId, kind, payload) == Ok(Entry(rec.(last := event.seq_), spool, ResultOf(a)));
      Put(rec.(last := event.seq_), spool, ResultOf(a));
      r := Ok(event);
    }

    method AckEvent(a: AttemptId, id: EventId, n: nat) returns (r: Outcome<(), StoreError>)
      requires Valid()
      modifies this
      ensures Valid() && closed == old(closed)
      ensures r.Err? ==> View() == old(View())
      ensures r.Ok? <==> !closed && EventAckedIn(old(View()), a, id, n).Ok?
      ensures r.Ok? ==> View() == EventAckedIn(old(View()), a, id, n).value
      ensures r.Ok? ==> a in View() && RecordReplaced(old(View()), View(), a, View()[a].rec)
    {
      var found := FindAttempt(a);
      if found.Err? {
        return Err(found.error);
      }
      var stored := EventsOf(a);
      if n !in stored || stored[n].id != id {
        return Err(Corrupt);
      }
      var record := new AckRecord(found.value.acks);
      record.Apply(n);
      Put(found.value.(acks := Window(record.prefix, record.ahead)), stored, ResultOf(a));
      r := Ok(());
    }

    method StoreResult(a: AttemptId, payload: Payload, freshId: nat) returns (r: Outcome<Result, StoreError>)
      requires Valid()
      modifies this
      ensures Valid() && closed == old(closed)
      ensures r.Err? ==> View() == old(View())
      ensures r.Ok? <==> !closed && StoredMemoryIn(old(View()), a, payload, freshId).Ok?
      ensures r.Ok? ==> View() == StoredMemoryIn(old(View()), a, payload, freshId).value
      ensures r.Ok? ==> a in View() && View()[a].result == Some(r.value)
    {
      var found := FindAttempt(a);
      if found.Err? {
        return Err(found.error);
      }
      var rec := found.value;
      if rec.state !in {Started, Finished} {
        return Err(Refused);
      }
      if a in results {
        if results[a].payload != payload {
          return Err(Corrupt);
        }
        return Ok(results[a]);
      }
      var id := if payload.resultId.Some? then payload.resultId.value else Uuid(freshId);
      var final := if payload.finalSeq.Some? then payload.finalSeq.value else rec.last;
      var result := Result(rec.identity, id, final, payload.(resultId := Some(id), finalSeq := Some(final)));
      Put(WithResult(rec, result), EventsOf(a), Some(result));
      r := Ok(result);
    }

    method AckResult(a: AttemptId, id: ResultId) returns (r: Outcome<(), StoreError>)
      requires Valid()
      modifies this
      ensures Valid() && closed == old(closed)
      ensures r.Err? ==> View() == old(View())
      ensures r.Ok? <==> !closed && ResultAckedIn(old(View()), a, id).Ok?
      ensures r.Ok? ==> View() == ResultAckedIn(old(View()), a, id).value
    {
      var found := FindAttempt(a);
      if found.Err? {
        return Err(found.error);
      }
      if a !in results || results[a].id != id {
        return Err(Corrupt);
      }
      Put(found.value.(state := ResultAcked), EventsOf(a), None);
      r := Ok(());
    }

    method ClearTerminalEvents(a: AttemptId) returns (r: Outcome<(), StoreError>)
      requires Valid()
      modifies this
      ensures Valid() && closed == old(closed)
      ensures r.Err? ==> View() == old(View())
      ensures r.Ok? <==> !closed && ClearedIn(old(View()), a).Ok?
      ensures r.Ok? ==> View() == ClearedIn(old(View()), a).value
    {
      var found := FindAttempt(a);
      if found.Err? {
        return Err(found.error);
      }
      if found.value.state !in {ResultAcked, Revoked} {
        return Err(Refused);
      }
      Put(found.value, map[], ResultOf(a));
      r := Ok(());
    }

    method DiscardTerminalSpool(a: AttemptId) returns (r: Outcome<(), StoreError>)
      requires Valid()
      modifies this
      ensures Valid() && closed == old(closed)
      ensures r.Err? ==> View() == old(View())
      ensures r.Ok? <==> !closed && DiscardedIn(old(View()), a).Ok?
      ensures r.Ok? ==> View() == DiscardedIn(old(View()), a).value
    {
      var found := FindAttempt(a);
      if found.Err? {
        return Err(found.error);
      }
      if !Terminal(found.value.state) {
        return Err(Refused);
      }
      Put(found.value, map[], None);
      r := Ok(());
    }

    method Close()
      requires Valid()
      modifies this`closed
      ensures Valid() && closed
    {
      closed := true;
    }
  }
}
