/** What the steps of the worker do to the record, the handler and the wire, in reachable states. */
module WorkerEffects {
  import opened Prelude
  import opened Acks
  import opened Journal
  import opened Ranges
  import opened Worker
  import opened WorkerInvariant
  import opened WorkerHandling

  /** An accepted rejection ends with the record gone. */
  lemma RejectionDeletes(sh: Shared, x: Slot)
    requires Inv(sh, x) && Enabled(sh, x, RejectAccepted)
    requires !x.terminal && x.entry.Some? && x.entry.value.rec.state == RejectSent
    ensures RejectStep(sh, x).entry == None && RejectStep(sh, x).claim == NoClaim
  {
    RecordFits(sh, x);
    hide Meaning, PendingSeqs;
    var e := x.entry.value;
    assert e.events.Keys == UpTo(0);
    assert e.events == map[];
  }

  /**
   * The acknowledgement of an Event is in the record before anything else is sent; then the
   * next of the Events read at the start of the flush follows, and the Result only after the last.
   */
  lemma AckPrecedesNextSend(sh: Shared, x: Slot, id: TaskId)
    requires Enabled(sh, x, EventAck(id)) && AckedEntry(x, x.tasks[id].event).Ok?
    ensures var t := x.tasks[id];
            var y := Apply(sh, x, EventAck(id));
            && y.entry == Some(AckedEntry(x, t.event).value)
            && Acked(y.entry.value.rec.acks, t.event.seq_) && t.event.seq_ in y.past.acked
            && y.past.sentEvents == x.past.sentEvents + t.rest[..if t.rest == [] then 0 else 1]
            && (t.rest != [] ==> y.past.sentResults == x.past.sentResults)
  {
    var t := x.tasks[id];
    AppliedAcks(x.entry.value.rec.acks, t.event.seq_);
    hide Applied, PendingSeqs, Acked, Noted;
    NotedSends(NoteAck(x, t.event).past, x.entry, Some(AckedEntry(x, t.event).value), sh.epoch);
    assert t.rest != [] ==> t.rest[..1] == [t.rest[0]];
  }

  lemma AppliedAcks(w: Window, n: nat)
    ensures Acked(Applied(w, n), n)
  {
  }

  lemma NotedSends(p: Past, before: Option<Entry>, after: Option<Entry>, epoch: nat)
    ensures var q := Noted(p, before, after, epoch);
            q.sentEvents == p.sentEvents && q.sentResults == p.sentResults && q.acked == p.acked
  {
  }

  /** A replay sends the stored Events of the ranges one by one, each after the one before was acknowledged. */
  lemma ReplaySendsTheRanges(sh: Shared, x: Slot, id: TaskId, ranges: seq<Range>, events: seq<Event>)
    requires Inv(sh, x) && Enabled(sh, x, Missing(id, ranges, events))
    ensures |events| == |Expanded(ranges)| > 0
    ensures forall i :: 0 <= i < |events| ==> SelectsAt(x.entry.value.events, Expanded(ranges)[i], events[i])
    ensures var y := Apply(sh, x, Missing(id, ranges, events));
            && y.past.sentEvents == x.past.sentEvents + [events[0]] && y.past.sentResults == x.past.sentResults
            && y.tasks[id] == Replaying(events[0], events[1..], x.tasks[id].result) && y.entry == x.entry
  {
    hide Inv, ResultLive;
    assert Expanded(ranges) != [] by {
      ExpandedMembers(ranges);
      assert Covers(ranges, ranges[0].start);
    }
  }

  /** The acknowledged Result leaves nothing of the attempt in the journal, nor of the flush that sent it. */
  lemma AcknowledgedResultIsGone(sh: Shared, x: Slot, id: TaskId)
    requires Inv(sh, x) && Enabled(sh, x, ResultAck(id))
    ensures var y := Apply(sh, x, ResultAck(id));
            y.entry == None && !y.active && y.permit == None && y.lock == None && id !in y.tasks
  {
    assert ResultLive(x, x.tasks[id].result) && TaskFits(x, sh.epoch, id, x.tasks[id]);
    hide Inv, PendingSeqs;
  }

  /** So does a resume that learns of the acknowledgement of a stored Result. */
  lemma ClearedResultIsGone(sh: Shared, x: Slot, id: TaskId)
    requires Enabled(sh, x, Clear(id)) && x.entry.Some? && x.entry.value.result.Some?
    ensures var y := Apply(sh, x, Clear(id));
            y.entry == None && !y.active && y.permit == None && id !in y.tasks
  {
  }

  /** From its first step a cancellation has marked the attempt terminal and cancelled a handler that is not over. */
  lemma CancellationCancels(sh: Shared, x: Slot, id: TaskId)
    requires Inv(sh, x) && Enabled(sh, x, CancelStart(id))
    ensures var y := Apply(sh, x, CancelStart(id));
            y.terminal && (!HandlerOver(x) ==> y.handler == Some(x.handler.value.(cancelled := true)))
  {
    hide Always, JournalLive, TasksLive;
  }

  /** A running handler appends the next Event, under a sequence that never had one, or finds its record gone. */
  lemma EmitAppends(sh: Shared, x: Slot, freshId: EventId, kind: string, payload: Fields)
    requires Inv(sh, x) && Enabled(sh, x, Emit(freshId, kind, payload))
    ensures var y := EmitStep(sh, x, freshId, kind, payload);
            if x.entry == None then y == x
            else
              var e := x.entry.value;
              var n := e.rec.last + 1;
              var event := Event(e.rec.identity, freshId, n, kind, payload);
              && e.rec.state == Started && n !in x.past.ever
              && y.entry.Some? && y.entry.value.rec == e.rec.(last := n) && y.entry.value.events == e.events[n := event]
              && y.past.ever == x.past.ever[n := event] && y.past.sentEvents == x.past.sentEvents
  {
    if x.entry.Some? {
      RecordFits(sh, x);
      RunningIsStarted(sh, x);
      hide Inv, EntryFits, PastFits;
      AppendFits(x.entry.value, x.past, freshId, kind, payload, sh.epoch);
      AppendedIs(x.entry.value, freshId, kind, payload);
      hide Appended, Noted, Enabled;
    }
  }

  lemma AppendedIs(e: Entry, freshId: EventId, kind: string, payload: Fields)
    requires e.rec.state == Started
    ensures var n := e.rec.last + 1;
            var event := Event(e.rec.identity, freshId, n, kind, payload);
            Appended(e, freshId, kind, payload) == Ok(Entry(e.rec.(last := n), e.events[n := event], e.result))
  {
  }

  /** While a handler is not over its record, if there is one, is started and has no Result. */
  lemma RunningIsStarted(sh: Shared, x: Slot)
    requires Inv(sh, x) && !sh.poisoned && x.entry.Some? && !HandlerOver(x)
    ensures x.entry.value.rec.state == Started && x.entry.value.result == None && x.past.result == None
  {
    hide PendingSeqs, Meaning;
  }

  /** The Result of a handler that was not cancelled is the first of its attempt, and finishes the record. */
  lemma StoreFinishes(sh: Shared, x: Slot, body: Fields, freshNumber: nat)
    requires Inv(sh, x) && Enabled(sh, x, StoreResult(body, freshNumber))
    ensures var y := Apply(sh, x, StoreResult(body, freshNumber));
            && y.handler.value.phase == Done
            && (if x.handler.value.cancelled || x.entry == None then y.entry == x.entry
                else
                  var e := x.entry.value;
                  var p := Payload(body, Some(Uuid(freshNumber)), Some(e.rec.last));
                  var r := Result(e.rec.identity, Uuid(freshNumber), e.rec.last, p);
                  && e.rec.state == Started && e.result == None && x.past.result == None
                  && y.past.result == Some(r) && y.permit == Some(Permit(true, true))
                  && y.entry.Some? && y.entry.value.result == Some(r) && y.entry.value.events == e.events
                  && y.entry.value.rec == e.rec.(state := Finished, resultId := Some(r.id), finalSeq := e.rec.last))
  {
    if x.entry.Some? {
      RunningIsStarted(sh, x);
    }
    hide Inv;
  }
}
