/**
 * The file store: every operation changes the in-memory journal and writes or removes record
 * files one by one. A failed write poisons the store until the directory is opened again.
 */
module FileStores {
  import opened Prelude
  import opened Journal
  import opened Ranges
  import opened Disks
  import opened MemoryStores

  /**
   * How an operation with the journal effect `spec` ends. A store that is closed or poisoned
   * leaves the disk alone; a refused operation changes nothing; otherwise it either takes
   * effect or poisons the store.
   */
  ghost predicate Performed(
    wasReady: bool, isPoisoned: bool, ok: bool, before: Journal,
    spec: Outcome<Journal, StoreError>, after: Journal, steps: seq<Files>)
  {
    if !wasReady then steps == []
    else if spec.Err? then !ok && !isPoisoned && after == before && steps == []
    else if ok then !isPoisoned && after == spec.value
    else isPoisoned
  }

  /** No Event of the journal is numbered beyond its assignment's last sequence. */
  ghost predicate Numbered(j: Journal) {
    forall a :: a in j ==> forall n :: n in j[a].events ==> n <= j[a].rec.last
  }

  /** Every state of the disk during the operation reopens as its start or its end. */
  ghost predicate CrashSafe(premise: bool, before: Journal, spec: Outcome<Journal, StoreError>, steps: seq<Files>) {
    premise && SoundJournal(before) && spec.Ok? ==> StepsReopen(steps, before, spec.value)
  }

  /** A write that was found to fit keeps the limits, and the accounting follows it. */
  lemma FittingWrite(files: Files, p: Path, c: Content, length: nat, maxBytes: nat, maxRecords: nat)
    requires var sizes := SizesOf(files);
             var previous := if p in sizes then sizes[p] else 0;
             && Total(sizes) + (if length > previous then length - previous else 0) <= maxBytes
             && |sizes| + (if p in sizes then 0 else 1) <= maxRecords
    ensures WithinLimits(files[p := File(c, length)], maxBytes, maxRecords)
    ensures SizesOf(files[p := File(c, length)]) == SizesOf(files)[p := length]
  {
    var target := files[p := File(c, length)];
    SizesWritten(files, p, c, length);
    SizesCardinality(target);
    SizesGrow(SizesOf(files), p, length);
    TotalUpdated(SizesOf(files), p, length);
    hide Total, SizesOf;
  }

  lemma SizesWritten(files: Files, p: Path, c: Content, length: nat)
    ensures SizesOf(files[p := File(c, length)]) == SizesOf(files)[p := length]
  {
    var written, expected := SizesOf(files[p := File(c, length)]), SizesOf(files)[p := length];
    assert written.Keys == expected.Keys;
    forall q | q in written ensures written[q] == expected[q] {
    }
  }

  lemma SizesGrow(sizes: map<Path, nat>, p: Path, n: nat)
    ensures |sizes[p := n]| == |sizes| + if p in sizes then 0 else 1
  {
    assert sizes[p := n].Keys == sizes.Keys + {p};
    assert |sizes[p := n].Keys| == |sizes[p := n]| && |sizes.Keys| == |sizes|;
  }

  lemma SizesCardinality(files: Files)
    ensures |SizesOf(files)| == |files|
  {
    assert SizesOf(files).Keys == files.Keys;
    assert |SizesOf(files).Keys| == |SizesOf(files)|;
    assert |files.Keys| == |files|;
  }

  class FileStore {
    const base: MemoryStore
    const disk: Disk
    const maxBytes: nat
    const maxRecords: nat
    var fileSizes: map<Path, nat>
    var poisoned: bool

    ghost predicate Accurate()
      reads this, disk
    {
      fileSizes == SizesOf(disk.files)
    }

    /** The limits hold now and have held in every state of the disk so far. */
    ghost predicate Bounded()
      reads this, disk
    {
      && WithinLimits(disk.files, maxBytes, maxRecords) && StepsWithin(disk.trace, maxBytes, maxRecords)
      && disk.Latest()
    }

    /** Limits hold always; memory and accounting agree with the disk while not poisoned. */
    ghost predicate Valid()
      reads this, base, disk
    {
      && base.Valid()
      && Bounded()
      && (!poisoned ==> Represents(disk.files, base.View()) && Accurate() && Numbered(base.View()))
      && (poisoned ==> disk.failed)
    }

    /** Memory and accounting agree with the disk, and the store can be used. */
    ghost predicate Loaded()
      reads this, base, disk
    {
      base.Valid() && Ready() && Bounded() && Accurate() && Represents(disk.files, View())
    }

    predicate Ready()
      reads this, base
    {
      !base.closed && !poisoned
    }

    ghost function View(): Journal
      reads this, base
    {
      base.View()
    }

    /** The states the disk went through since its trace had length `n`. */
    ghost function Since(n: nat): seq<Files>
      reads this, disk
    {
      if n <= |disk.trace| then disk.trace[n..] else []
    }

    constructor (disk: Disk, maxBytes: nat, maxRecords: nat)
      ensures this.disk == disk && this.maxBytes == maxBytes && this.maxRecords == maxRecords
      ensures fresh(base) && base.Valid() && base.View() == map[] && !base.closed
      ensures fileSizes == map[] && !poisoned
    {
      this.base := new MemoryStore();
      this.disk, this.maxBytes, this.maxRecords := disk, maxBytes, maxRecords;
      fileSizes, poisoned := map[], false;
    }

    // ------------------------------------------------ record writes and removals

    method UsedBytes() returns (used: nat)
      ensures used == Total(fileSizes)
    {
      var rest := fileSizes;
      used := 0;
      while rest != map[]
        invariant used + Total(rest) == Total(fileSizes)
        decreases |rest|
      {
        var p :| p in rest;
        TotalSplits(rest, p);
        used := used + rest[p];
        rest := rest - {p};
      }
    }

    /** Fixed limits on bytes and records, and a reserve of free space, where the probe finds out about it. */
    method EnsureCapacity(additionalBytes: nat, additionalRecords: nat, free: Option<nat>, reserve: nat)
      returns (ok: bool)
      ensures ok <==> && Total(fileSizes) + additionalBytes <= maxBytes
                      && |fileSizes| + additionalRecords <= maxRecords
                      && free.Some? && free.value - additionalBytes >= reserve
    {
      var used := UsedBytes();
      if used + additionalBytes > maxBytes {
        return false;
      }
      if |fileSizes| + additionalRecords > maxRecords {
        return false;
      }
      if free == None {
        return false;
      }
      ok := free.value - additionalBytes >= reserve;
    }

    /** Write one record file. The encrypted size is whatever the envelope happens to take. */
    method WriteRecord(p: Path, c: Content) returns (ok: bool, ghost wrote: bool, ghost size: nat)
      requires Bounded() && Accurate()
      modifies this`fileSizes, disk
      ensures Bounded() && disk.failed == (old(disk.failed) || !ok)
      ensures ok ==> wrote && Accurate()
      ensures disk.files == if wrote then old(disk.files)[p := File(c, size)] else old(disk.files)
      ensures disk.trace == if wrote then old(disk.trace) + [disk.files] else old(disk.trace)
    {
      wrote, size := false, 0;
      if !Ready() {
        disk.failed := true;
        return false, false, 0;
      }
      var length: nat := *;
      size := length;
      var previous := if p in fileSizes then fileSizes[p] else 0;
      var additional := if length > previous then length - previous else 0;
      var delta := if p in fileSizes then 0 else 1;
      var free: Option<nat> := *;
      var reserve: nat := *;
      var fits := EnsureCapacity(additional, delta, free, reserve);
      if !fits {
        disk.failed := true;
        return false, false, length;
      }
      FittingWrite(disk.files, p, c, length, maxBytes, maxRecords);
      hide WithinLimits, SizesOf, Total;
      ok, wrote := disk.AtomicWrite(p, c, length);
      if !ok {
        return;
      }
      fileSizes := fileSizes[p := length];
    }

    method RemoveRecord(p: Path) returns (ok: bool, ghost removed: bool)
      requires Bounded() && Accurate()
      modifies this`fileSizes, disk
      ensures Bounded() && disk.failed == (old(disk.failed) || !ok)
      ensures ok ==> removed && Accurate()
      ensures disk.files == if removed then old(disk.files) - {p} else old(disk.files)
      ensures disk.trace == if removed then old(disk.trace) + [disk.files] else old(disk.trace)
    {
      var gone: bool;
      ok, gone := disk.Remove(p);
      removed := gone;
      if gone {
        fileSizes := fileSizes - {p};
        TotalRemoved(old(fileSizes), p);
        assert SizesOf(disk.files) == SizesOf(old(disk.files)) - {p};
        assert disk.files.Keys <= old(disk.files).Keys;
        assert |disk.files.Keys| <= |old(disk.files).Keys| by {
          SubsetSize(disk.files.Keys, old(disk.files).Keys);
        }
      }
    }

    lemma SubsetSize(a: set<Path>, b: set<Path>)
      requires a <= b
      ensures |a| <= |b|
    {
      assert b == a + (b - a);
    }

    /** How a single write or removal towards the journal `after` ends. */
    ghost predicate Stepped(traceBefore: seq<Files>, after: Journal, ok: bool)
      reads this, disk
    {
      && (ok ==> !poisoned && Accurate() && Represents(disk.files, after))
      && (!ok ==> poisoned && disk.failed)
      && (|| (disk.trace == traceBefore && !ok)
          || (disk.trace == traceBefore + [disk.files] && Represents(disk.files, after)))
    }

    method Persist(rec: Assignment, ghost before: Journal, ghost after: Journal) returns (ok: bool)
      requires Bounded() && Accurate() && Ready() && Represents(disk.files, before)
      requires var a := rec.identity.attempt;
               && (a in before ==> before[a].rec.identity == rec.identity)
               && after == before[a := if a in before then before[a].(rec := rec) else Entry(rec, map[], None)]
      modifies this, disk
      ensures Bounded() && Stepped(old(disk.trace), after, ok)
      ensures old(disk.failed) ==> disk.failed
    {
      ghost var files := disk.files;
      ghost var wrote, size;
      ok, wrote, size := WriteRecord(AssignmentPath(MessageOf(rec.identity)), AssignmentFile(rec));
      if wrote {
        AssignmentWritten(files, before, rec, size);
      }
      poisoned := !ok;
    }

    method PersistEvent(a: AttemptId, e: Event, ghost before: Journal, ghost after: Journal) returns (ok: bool)
      requires Bounded() && Accurate() && Ready() && Represents(disk.files, before)
      requires a in before && e.identity == before[a].rec.identity && 1 <= e.seq_
      requires e.seq_ !in before[a].events && EventPath(a, e.id) !in disk.files
      requires after == before[a := before[a].(events := before[a].events[e.seq_ := e])]
      modifies this, disk
      ensures Bounded() && Stepped(old(disk.trace), after, ok)
      ensures old(disk.failed) ==> disk.failed
    {
      ghost var files := disk.files;
      ghost var wrote, size;
      ok, wrote, size := WriteRecord(EventPath(a, e.id), EventFile(e));
      if wrote {
        EventWritten(files, before, a, e, size);
      }
      poisoned := !ok;
    }

    method PersistResult(a: AttemptId, result: Result, ghost before: Journal, ghost after: Journal) returns (ok: bool)
      requires Bounded() && Accurate() && Ready() && Represents(disk.files, before)
      requires a in before && result.identity == before[a].rec.identity
      requires after == before[a := before[a].(result := Some(result))]
      modifies this, disk
      ensures Bounded() && Stepped(old(disk.trace), after, ok)
      ensures old(disk.failed) ==> disk.failed
    {
      ghost var files := disk.files;
      ghost var wrote, size;
      ok, wrote, size := WriteRecord(ResultPath(a), ResultFile(result));
      if wrote {
        ResultWritten(files, before, a, result, size);
      }
      poisoned := !ok;
    }

    method EraseAssignment(a: AttemptId, message: MessageId, ghost before: Journal) returns (ok: bool)
      requires Bounded() && Accurate() && Ready() && Represents(disk.files, before)
      requires a in before && MessageOf(before[a].rec.identity) == message
      requires before[a].events == map[] && before[a].result == None
      modifies this, disk
      ensures Bounded() && Stepped(old(disk.trace), before - {a}, ok)
      ensures old(disk.failed) ==> disk.failed
    {
      AssignmentRemoved(disk.files, before, a);
      ghost var removed;
      ok, removed := RemoveRecord(AssignmentPath(message));
      poisoned := !ok;
    }

    method EraseEvent(a: AttemptId, e: Event, ghost before: Journal) returns (ok: bool)
      requires Bounded() && Accurate() && Ready() && Represents(disk.files, before)
      requires a in before && e.seq_ in before[a].events && before[a].events[e.seq_] == e
      modifies this, disk
      ensures Bounded() && (old(disk.failed) ==> disk.failed)
      ensures Stepped(old(disk.trace), before[a := before[a].(events := before[a].events - {e.seq_})], ok)
    {
      EventRemoved(disk.files, before, a, e.seq_);
      ghost var removed;
      ok, removed := RemoveRecord(EventPath(a, e.id));
      poisoned := !ok;
    }

    method EraseResult(a: AttemptId, ghost before: Journal) returns (ok: bool)
      requires Bounded() && Accurate() && Ready() && Represents(disk.files, before)
      requires a in before
      modifies this, disk
      ensures Bounded() && Stepped(old(disk.trace), before[a := before[a].(result := None)], ok)
      ensures old(disk.failed) ==> disk.failed
    {
      ResultRemoved(disk.files, before, a);
      ghost var removed;
      ok, removed := RemoveRecord(ResultPath(a));
      poisoned := !ok;
    }

    /** Remove the Event files of an attempt one by one, each removal a state of its own. */
    method EraseEvents(a: AttemptId, spool: map<nat, Event>, ghost before: Journal) returns (ok: bool)
      requires Bounded() && Accurate() && Ready() && Represents(disk.files, before)
      requires a in before && before[a].events == spool && Terminal(before[a].rec.state)
      modifies this, disk
      ensures Bounded() && old(disk.trace) <= disk.trace
      ensures old(disk.failed) ==> disk.failed
      ensures ok ==> !poisoned && Accurate()
                     && Represents(disk.files, before[a := before[a].(events := map[])])
      ensures !ok ==> poisoned && disk.failed
      ensures StepsRepair(Since(|old(disk.trace)|), before)
    {
      hide Represents, Sound, SoundJournal, WithinLimits, StepsWithin, StepsRepair, SameRepairs, Numbered;
      NoRepairSteps(before);
      assert Since(|old(disk.trace)|) == [];
      var rest := spool;
      ghost var now := before;
      ok := true;
      while rest != map[]
        invariant Bounded() && Accurate() && Ready() && Represents(disk.files, now)
        invariant now == before[a := before[a].(events := rest)]
        invariant rest.Keys <= spool.Keys && forall n :: n in rest ==> rest[n] == spool[n]
        invariant old(disk.trace) <= disk.trace
        invariant old(disk.failed) ==> disk.failed
        invariant StepsRepair(Since(|old(disk.trace)|), before)
        decreases |rest|
      {
        var n :| n in rest;
        var e := rest[n];
        RepresentedSequence(disk.files, now, a, n);
        ghost var steps := Since(|old(disk.trace)|);
        ghost var next := now[a := now[a].(events := rest - {n})];
        ok := EraseEvent(a, e, now);
        SpoolIgnored(before, a, rest - {n});
        assert next == before[a := before[a].(events := rest - {n})];
        StepsRepairSnoc(steps, Since(|old(disk.trace)|), disk.files, next, before);
        if !ok {
          return;
        }
        rest := rest - {n};
        now := next;
      }
    }

    // ------------------------------------------------ operations

    method CreateAssignment(identity: Identity, input: Fields) returns (r: Outcome<Assignment, StoreError>)
      requires Valid()
      modifies this, base, disk
      ensures Valid() && (old(poisoned) ==> poisoned) && old(disk.trace) <= disk.trace
      ensures old(disk.failed) ==> disk.failed
      ensures base.closed == old(base.closed)
      ensures Performed(old(Ready()), poisoned, r.Ok?, old(View()), Created(old(View()), identity, input),
                        View(), Since(|old(disk.trace)|))
      ensures r.Ok? ==> old(Ready()) && identity.attempt in View() && r.value == View()[identity.attempt].rec
      ensures CrashSafe(old(Ready()), old(View()), Created(old(View()), identity, input), Since(|old(disk.trace)|))
    {
      hide Represents, MemoryStore.Valid, Sound, SoundJournal, WithinLimits, StepsWithin, Repaired, Recovered,
        StepsReopen, RepairsTo, Numbered, Created;
      if !Ready() {
        return Err(if base.closed then Closed else Poisoned);
      }
      ghost var before := View();
      r := base.CreateAssignment(identity, input);
      if r.Err? {
        return;
      }
      CreatedIs(before, identity, input);
      var ok := Persist(r.value, before, View());
      if SoundJournal(before) {
        CreatedSound(before, identity, input);
        RepairsToItself(View(), identity.attempt);
        StepAdded([], Since(|old(disk.trace)|), disk.files, View(), before, View(), View(), identity.attempt);
      }
      if !ok {
        return Err(IoFailure);
      }
    }

    method AdvanceAssignment(message: MessageId, to: State) returns (r: Outcome<Assignment, StoreError>)
      requires Valid()
      modifies this, base, disk
      ensures Valid() && (old(poisoned) ==> poisoned) && old(disk.trace) <= disk.trace
      ensures old(disk.failed) ==> disk.failed
      ensures base.closed == old(base.closed)
      ensures Performed(old(Ready()), poisoned, r.Ok?, old(View()), AdvancedIn(old(View()), message, to),
                        View(), Since(|old(disk.trace)|))
      ensures r.Ok? ==> old(Ready()) && message.attempt in View() && r.value == View()[message.attempt].rec
      ensures CrashSafe(old(Ready()) && ClaimsNoResult(old(View()), message, to), old(View()),
                        AdvancedIn(old(View()), message, to), Since(|old(disk.trace)|))
    {
      hide Represents, MemoryStore.Valid, Sound, SoundJournal, WithinLimits, StepsWithin, Repaired, Recovered,
        StepsReopen, AdvancedIn, Numbered;
      if !Ready() {
        return Err(if base.closed then Closed else Poisoned);
      }
      ghost var before := View();
      r := base.AdvanceAssignment(message, to);
      if r.Err? {
        return;
      }
      RecordKeepsNumbering(before, View(), message.attempt, r.value);
      var ok := Persist(r.value, before, View());
      if SoundJournal(before) && ClaimsNoResult(before, message, to) {
        AdvanceInSound(before, message, to);
        RepairsToItself(View(), message.attempt);
        StepAdded([], Since(|old(disk.trace)|), disk.files, View(), before, View(), View(), message.attempt);
      }
      if !ok {
        return Err(IoFailure);
      }
    }

    method DeleteAssignment(message: MessageId) returns (r: Outcome<(), StoreError>)
      requires Valid()
      modifies this, base, disk
      ensures Valid() && (old(poisoned) ==> poisoned) && old(disk.trace) <= disk.trace
      ensures old(disk.failed) ==> disk.failed
      ensures base.closed == old(base.closed)
      ensures Performed(old(Ready()), poisoned, r.Ok?, old(View()), DeletedIn(old(View()), message),
                        View(), Since(|old(disk.trace)|))
      ensures r.Ok? ==> old(Ready())
      ensures CrashSafe(old(Ready()), old(View()), DeletedIn(old(View()), message), Since(|old(disk.trace)|))
    {
      hide Represents, Consistent, Sound, SoundJournal, WithinLimits, StepsWithin, Repaired, Recovered,
        StepsReopen, Assembled;
      if !Ready() {
        return Err(if base.closed then Closed else Poisoned);
      }
      ghost var before := View();
      var found := base.FindMessage(message);
      if found.Err? {
        return Err(found.error);
      }
      if !Terminal(found.value.state) {
        return Err(Refused);
      }
      if base.EventsOf(message.attempt) != map[] || base.ResultOf(message.attempt) != None {
        return Err(Refused);
      }
      ghost var after := before - {message.attempt};
      var ok := EraseAssignment(message.attempt, message, before);
      if SoundJournal(before) {
        DeletedInSound(before, message);
        StepAdded([], Since(|old(disk.trace)|), disk.files, after, before, after, after, message.attempt);
      }
      if !ok {
        return Err(IoFailure);
      }
      base.DropAssignment(message);
      r := Ok(());
    }

    /** The two writes of an append: the Event file first, then the assignment record. */
    method AppendWrites(a: AttemptId, event: Event, rec: Assignment, ghost before: Journal,
                        ghost ahead: Journal, ghost after: Journal) returns (ok: bool)
      requires Valid() && Ready() && View() == before
      requires AppendPlan(before, ahead, after, a, event, rec) && EventPath(a, event.id) !in disk.files
      modifies this, base, disk
      ensures Valid() && old(disk.trace) <= disk.trace && base.closed == old(base.closed)
      ensures old(disk.failed) ==> disk.failed
      ensures ok ==> !poisoned && View() == after
      ensures !ok ==> poisoned
      ensures SoundJournal(after) && RepairsTo(ahead, after, a) ==> StepsReopen(Since(|old(disk.trace)|), before, after)
    {
      hide Represents, MemoryStore.Valid, Sound, SoundJournal, WithinLimits, StepsWithin, Repaired, Recovered,
        StepsReopen, RepairsTo, Numbered;
      AppendPlanFits(before, ahead, after, a, event, rec);
      ok := PersistEvent(a, event, before, ahead);
      ghost var steps := Since(|old(disk.trace)|);
      NoSteps(before, after);
      StepAddedIf([], steps, disk.files, ahead, before, after, a);
      if !ok {
        return;
      }
      base.Put(rec, base.EventsOf(a)[event.seq_ := event], base.ResultOf(a));
      ghost var trace := disk.trace;
      ok := Persist(rec, ahead, after);
      SliceGrows(trace, disk.trace, |old(disk.trace)|, disk.files);
      StepAddedIf(steps, Since(|old(disk.trace)|), disk.files, after, before, after, a);
    }

    method AppendEvent(a: AttemptId, kind: string, payload: Fields, freshId: EventId)
      returns (r: Outcome<Event, StoreError>)
      requires Valid()
      requires EventPath(a, freshId) !in disk.files
      modifies this, base, disk
      ensures Valid() && (old(poisoned) ==> poisoned) && old(disk.trace) <= disk.trace
      ensures old(disk.failed) ==> disk.failed
      ensures base.closed == old(base.closed)
      ensures Performed(old(Ready()), poisoned, r.Ok?, old(View()), AppendedIn(old(View()), a, freshId, kind, payload),
                        View(), Since(|old(disk.trace)|))
      ensures r.Ok? ==> old(Ready()) && a in old(View()) && r.value == NextEvent(old(View())[a], freshId, kind, payload)
      ensures CrashSafe(old(Ready()), old(View()), AppendedIn(old(View()), a, freshId, kind, payload),
                        Since(|old(disk.trace)|))
    {
      hide Represents, MemoryStore.Valid, Sound, SoundJournal, WithinLimits, StepsWithin, Repaired, Recovered,
        StepsReopen, RepairsTo, Numbered;
      if !Ready() {
        return Err(if base.closed then Closed else Poisoned);
      }
      ghost var before := View();
      var found := base.FindAttempt(a);
      if found.Err? {
        return Err(found.error);
      }
      var rec := found.value;
      if rec.state != Started {
        return Err(Refused);
      }
      var event := Event(rec.identity, freshId, rec.last + 1, kind, payload);
      ghost var after := AppendedIn(before, a, freshId, kind, payload).value;
      ghost var ahead := before[a := before[a].(events := after[a].events)];
      if SoundJournal(before) {
        AppendedInSound(disk.files, before, a, freshId, kind, payload);
      }
      var ok := AppendWrites(a, event, rec.(last := event.seq_), before, ahead, after);
      if !ok {
        return Err(IoFailure);
      }
      r := Ok(event);
    }

    method AckEvent(a: AttemptId, id: EventId, n: nat) returns (r: Outcome<(), StoreError>)
      requires Valid()
      modifies this, base, disk
      ensures Valid() && (old(poisoned) ==> poisoned) && old(disk.trace) <= disk.trace
      ensures old(disk.failed) ==> disk.failed
      ensures base.closed == old(base.closed)
      ensures Performed(old(Ready()), poisoned, r.Ok?, old(View()), EventAckedIn(old(View()), a, id, n),
                        View(), Since(|old(disk.trace)|))
      ensures r.Ok? ==> old(Ready())
      ensures CrashSafe(old(Ready()), old(View()), EventAckedIn(old(View()), a, id, n), Since(|old(disk.trace)|))
    {
      hide Represents, MemoryStore.Valid, Sound, SoundJournal, WithinLimits, StepsWithin, Repaired, Recovered,
        StepsReopen, RepairsTo, Numbered, EventAckedIn;
      if !Ready() {
        return Err(if base.closed then Closed else Poisoned);
      }
      ghost var before := View();
      r := base.AckEvent(a, id, n);
      if r.Err? {
        return;
      }
      ghost var after := View();
      var found := base.FindAttempt(a);
      RecordKeepsNumbering(before, after, a, found.value);
      var ok := Persist(found.value, before, after);
      if SoundJournal(before) {
        EventAckedInSound(before, a, id, n);
        NoSteps(before, after);
        StepAddedIf([], Since(|old(disk.trace)|), disk.files, after, before, after, a);
      }
      if !ok {
        return Err(IoFailure);
      }
    }

    /** The two writes of a stored Result: the Result file first, then the assignment record. */
    method StoreWrites(a: AttemptId, result: Result, rec: Assignment, ghost before: Journal,
                       ghost ahead: Journal, ghost after: Journal) returns (ok: bool)
      requires Valid() && Ready() && View() == before
      requires ResultPlan(before, ahead, after, a, result, rec)
      modifies this, base, disk
      ensures Valid() && old(disk.trace) <= disk.trace && base.closed == old(base.closed)
      ensures old(disk.failed) ==> disk.failed
      ensures ok ==> !poisoned && View() == after
      ensures !ok ==> poisoned
      ensures SoundJournal(before) && SoundJournal(after)
              && (RepairsTo(ahead, after, a) || RepairsTo(ahead, before, a)) ==>
                StepsReopen(Since(|old(disk.trace)|), before, after)
    {
      hide Represents, MemoryStore.Valid, Sound, SoundJournal, WithinLimits, StepsWithin, Repaired, Recovered,
        StepsReopen, RepairsTo, Numbered;
      ResultPlanFits(before, ahead, after, a, result, rec);
      ok := PersistResult(a, result, before, ahead);
      ghost var steps := Since(|old(disk.trace)|);
      NoSteps(before, after);
      StepAddedIf([], steps, disk.files, ahead, before, after, a);
      StepUndoneIf([], steps, disk.files, ahead, before, after, a);
      if !ok {
        return;
      }
      base.Put(rec, base.EventsOf(a), Some(result));
      ghost var trace := disk.trace;
      ok := Persist(rec, ahead, after);
      SliceGrows(trace, disk.trace, |old(disk.trace)|, disk.files);
      StepAddedIf(steps, Since(|old(disk.trace)|), disk.files, after, before, after, a);
    }

    method StoreResult(a: AttemptId, payload: Payload, freshId: nat) returns (r: Outcome<Result, StoreError>)
      requires Valid()
      modifies this, base, disk
      ensures Valid() && (old(poisoned) ==> poisoned) && old(disk.trace) <= disk.trace
      ensures old(disk.failed) ==> disk.failed
      ensures base.closed == old(base.closed)
      ensures Performed(old(Ready()), poisoned, r.Ok?, old(View()), StoredFileIn(old(View()), a, payload, freshId),
                        View(), Since(|old(disk.trace)|))
      ensures r.Ok? ==> a in View() && View()[a].result == Some(r.value)
      ensures CrashSafe(old(Ready()) && (a in old(View()) ==> ResultAdmissible(old(View())[a], payload)), old(View()),
                        StoredFileIn(old(View()), a, payload, freshId), Since(|old(disk.trace)|))
    {
      hide Represents, MemoryStore.Valid, Sound, SoundJournal, WithinLimits, StepsWithin, Repaired, Recovered,
        StepsReopen, RepairsTo, Numbered;
      ghost var before := View();
      var existing := base.ResultOf(a);
      if existing.Some? {
        NoSteps(before, before);
        var stored := existing.value;
        if stored.payload != payload && stored.payload != FilledPayload(payload, stored.id, stored.finalSeq) {
          return Err(Corrupt);
        }
        assert before[a := before[a]] == before;
        assert Since(|disk.trace|) == [];
        return Ok(stored);
      }
      if !Ready() {
        return Err(if base.closed then Closed else Poisoned);
      }
      var found := base.FindAttempt(a);
      if found.Err? {
        return Err(found.error);
      }
      var rec := found.value;
      var id := if payload.resultId.Some? then payload.resultId.value else Uuid(freshId);
      var final := if payload.finalSeq.Some? then payload.finalSeq.value else rec.last;
      var result := Result(rec.identity, id, final, FilledPayload(payload, id, final));
      ghost var ahead := before[a := before[a].(result := Some(result))];
      ghost var after := StoredFileIn(before, a, payload, freshId).value;
      if SoundJournal(before) && ResultAdmissible(before[a], payload) {
        StoredInSound(before, a, payload, freshId);
      }
      var ok := StoreWrites(a, result, WithResult(rec, result), before, ahead, after);
      if !ok {
        return Err(IoFailure);
      }
      r := Ok(result);
    }

    method AckResult(a: AttemptId, id: ResultId) returns (r: Outcome<(), StoreError>)
      requires Valid()
      modifies this, base, disk
      ensures Valid() && (old(poisoned) ==> poisoned) && old(disk.trace) <= disk.trace
      ensures old(disk.failed) ==> disk.failed
      ensures base.closed == old(base.closed)
      ensures Performed(old(Ready()), poisoned, r.Ok?, old(View()), ResultAckedIn(old(View()), a, id),
                        View(), Since(|old(disk.trace)|))
      ensures r.Ok? ==> old(Ready())
      ensures CrashSafe(old(Ready()), old(View()), ResultAckedIn(old(View()), a, id), Since(|old(disk.trace)|))
    {
      hide Represents, MemoryStore.Valid, Sound, SoundJournal, WithinLimits, StepsWithin, Repaired, Recovered,
        StepsReopen, RepairsTo, Numbered;
      ghost var before := View();
      var existing := base.ResultOf(a);
      if existing == None || existing.value.id != id {
        return Err(Corrupt);
      }
      if !Ready() {
        return Err(if base.closed then Closed else Poisoned);
      }
      var found := base.FindAttempt(a);
      ghost var after := ResultAckedIn(before, a, id).value;
      ghost var ahead := before[a := before[a].(rec := before[a].rec.(state := ResultAcked))];
      AckPlanFits(before, a, id);
      var ok := AckWrites(a, found.value.(state := ResultAcked), before, ahead, after);
      if !ok {
        return Err(IoFailure);
      }
      r := Ok(());
    }

    /** The two disk changes of an acknowledged Result: the assignment record, then the removal. */
    method AckWrites(a: AttemptId, rec: Assignment, ghost before: Journal, ghost ahead: Journal, ghost after: Journal)
      returns (ok: bool)
      requires Valid() && Ready() && View() == before
      requires AckPlan(before, ahead, after, a, rec)
      modifies this, base, disk
      ensures Valid() && old(disk.trace) <= disk.trace && base.closed == old(base.closed)
      ensures old(disk.failed) ==> disk.failed
      ensures ok ==> !poisoned && View() == after
      ensures !ok ==> poisoned
      ensures SoundJournal(after) && RepairsTo(ahead, after, a) ==> StepsReopen(Since(|old(disk.trace)|), before, after)
    {
      hide Represents, MemoryStore.Valid, Sound, SoundJournal, WithinLimits, StepsWithin, Repaired, Recovered,
        StepsReopen, RepairsTo, Numbered, AckPlan, Assembled;
      AckPlanShape(before, ahead, after, a, rec);
      ok := Persist(rec, before, ahead);
      ghost var steps := Since(|old(disk.trace)|);
      NoSteps(before, after);
      StepAddedIf([], steps, disk.files, ahead, before, after, a);
      if !ok {
        return;
      }
      ok := EraseResult(a, ahead);
      StepAddedIf(steps, Since(|old(disk.trace)|), disk.files, after, before, after, a);
      if ok {
        base.Put(rec, base.EventsOf(a), None);
      }
    }

    method ClearTerminalEvents(a: AttemptId) returns (r: Outcome<(), StoreError>)
      requires Valid()
      modifies this, base, disk
      ensures Valid() && (old(poisoned) ==> poisoned) && old(disk.trace) <= disk.trace
      ensures old(disk.failed) ==> disk.failed
      ensures base.closed == old(base.closed)
      ensures Performed(old(Ready()), poisoned, r.Ok?, old(View()), ClearedIn(old(View()), a),
                        View(), Since(|old(disk.trace)|))
      ensures r.Ok? ==> old(Ready())
      ensures CrashSafe(old(Ready()), old(View()), ClearedIn(old(View()), a), Since(|old(disk.trace)|))
    {
      hide Represents, MemoryStore.Valid, Sound, SoundJournal, WithinLimits, StepsWithin, Repaired, Recovered,
        StepsReopen, RepairsTo, Numbered;
      if !Ready() {
        return Err(if base.closed then Closed else Poisoned);
      }
      ghost var before := View();
      var found := base.FindAttempt(a);
      if found.Err? {
        return Err(found.error);
      }
      if found.value.state !in {ResultAcked, Revoked} {
        return Err(Refused);
      }
      ghost var after := before[a := before[a].(events := map[])];
      DropKeepsNumbering(before, a);
      var ok := EraseEvents(a, base.EventsOf(a), before);
      StepsWiden(Since(|old(disk.trace)|), before, after);
      if !ok {
        return Err(IoFailure);
      }
      base.Put(found.value, map[], base.ResultOf(a));
      r := Ok(());
    }

    method DiscardTerminalSpool(a: AttemptId) returns (r: Outcome<(), StoreError>)
      requires Valid()
      modifies this, base, disk
      ensures Valid() && (old(poisoned) ==> poisoned) && old(disk.trace) <= disk.trace
      ensures old(disk.failed) ==> disk.failed
      ensures base.closed == old(base.closed)
      ensures Performed(old(Ready()), poisoned, r.Ok?, old(View()), DiscardedIn(old(View()), a),
                        View(), Since(|old(disk.trace)|))
      ensures r.Ok? ==> old(Ready())
      ensures CrashSafe(old(Ready()), old(View()), DiscardedIn(old(View()), a), Since(|old(disk.trace)|))
    {
      hide Represents, MemoryStore.Valid, Sound, SoundJournal, WithinLimits, StepsWithin, Repaired, Recovered,
        StepsReopen, RepairsTo, Numbered;
      if !Ready() {
        return Err(if base.closed then Closed else Poisoned);
      }
      ghost var before := View();
      var found := base.FindAttempt(a);
      if found.Err? {
        return Err(found.error);
      }
      if !Terminal(found.value.state) {
        return Err(Refused);
      }
      ghost var cleared := before[a := before[a].(events := map[])];
      ghost var after := DiscardedIn(before, a).value;
      DropKeepsNumbering(before, a);
      var ok := EraseEvents(a, base.EventsOf(a), before);
      ghost var steps := Since(|old(disk.trace)|);
      StepsWiden(steps, before, after);
      if !ok {
        return Err(IoFailure);
      }
      if base.ResultOf(a).Some? {
        ok := EraseResult(a, cleared);
        assert after == cleared[a := cleared[a].(result := None)];
        if SoundJournal(before) {
          StepUndoneIf(steps, Since(|old(disk.trace)|), disk.files, after, before, after, a);
        }
        if !ok {
          return Err(IoFailure);
        }
      } else {
        assert after == cleared;
      }
      base.Put(found.value, map[], None);
      r := Ok(());
    }

    method PendingEvents(a: AttemptId) returns (r: Outcome<seq<Event>, StoreError>)
      requires Valid()
      ensures r.Ok? <==> a in View() && Ready()
      ensures r.Ok? ==> r.value == Pending(View()[a])
    {
      if a in base.attempts && !Ready() {
        return Err(if base.closed then Closed else Poisoned);
      }
      r := base.PendingEvents(a);
    }

    method ReplayEvents(a: AttemptId, ranges: seq<Range>) returns (r: Outcome<seq<Event>, StoreError>)
      requires Valid()
      ensures r.Ok? <==> a in View() && Ready() && Replayable(ranges)
                         && forall n :: Covers(ranges, n) ==> 0 <= n && n in View()[a].events
      ensures r.Ok? ==> Selects(View()[a].events, Expanded(ranges), r.value)
    {
      if a in base.attempts && !Ready() {
        return Err(if base.closed then Closed else Poisoned);
      }
      r := base.ReplayEvents(a, ranges);
    }
  }

  ghost predicate AppendPlan(
    before: Journal, ahead: Journal, after: Journal, a: AttemptId, event: Event, rec: Assignment)
  {
    && a in before
    && rec.identity == before[a].rec.identity == event.identity && rec.identity.attempt == a
    && event.seq_ == rec.last == before[a].rec.last + 1
    && ahead == before[a := before[a].(events := before[a].events[event.seq_ := event])]
    && after == before[a := Entry(rec, before[a].events[event.seq_ := event], before[a].result)]
  }

  lemma AppendPlanFits(before: Journal, ahead: Journal, after: Journal, a: AttemptId, event: Event, rec: Assignment)
    requires AppendPlan(before, ahead, after, a, event, rec) && Numbered(before)
    ensures event.seq_ !in before[a].events
    ensures a in ahead && after == ahead[a := ahead[a].(rec := rec)]
    ensures Numbered(after)
    ensures RepairsTo(after, after, a)
  {
  }

  /** `w` and `j` agree apart from one attempt, whose records are repaired to the same entry. */
  ghost predicate RepairsTo(w: Journal, j: Journal, a: AttemptId) {
    && w.Keys == j.Keys
    && (forall b :: b in j && b != a ==> w[b] == j[b])
    && (a in j ==> Repaired(w[a]) == Repaired(j[a]))
  }

  lemma RepairsToItself(j: Journal, a: AttemptId)
    ensures RepairsTo(j, j, a)
  {
  }

  /** One more state of the disk, whose records repair to the state before or after. */
  lemma StepAdded(steps: seq<Files>, more: seq<Files>, files: Files, w: Journal,
                  before: Journal, after: Journal, target: Journal, a: AttemptId)
    requires StepsReopen(steps, before, after)
    requires more == steps || (more == steps + [files] && Represents(files, w))
    requires target == before || target == after
    requires SoundJournal(target) && RepairsTo(w, target, a)
    ensures StepsReopen(more, before, after)
  {
    if more != steps {
      ReopensAs(files, w, target, a);
    }
  }

  lemma SliceGrows(trace: seq<Files>, longer: seq<Files>, n: nat, files: Files)
    requires n <= |trace| && (longer == trace || longer == trace + [files])
    ensures longer[n..] == trace[n..] || longer[n..] == trace[n..] + [files]
    ensures longer == trace ==> longer[n..] == trace[n..]
    ensures longer == trace + [files] ==> longer[n..] == trace[n..] + [files]
  {
  }

  lemma StepAddedIf(steps: seq<Files>, more: seq<Files>, files: Files, w: Journal,
                    before: Journal, after: Journal, a: AttemptId)
    requires more == steps || (more == steps + [files] && Represents(files, w))
    ensures SoundJournal(after) && RepairsTo(w, after, a) && StepsReopen(steps, before, after) ==>
              StepsReopen(more, before, after)
  {
    if SoundJournal(after) && RepairsTo(w, after, a) && StepsReopen(steps, before, after) {
      StepAdded(steps, more, files, w, before, after, after, a);
    }
  }

  lemma StepUndoneIf(steps: seq<Files>, more: seq<Files>, files: Files, w: Journal,
                     before: Journal, after: Journal, a: AttemptId)
    requires more == steps || (more == steps + [files] && Represents(files, w))
    ensures SoundJournal(before) && RepairsTo(w, before, a) && StepsReopen(steps, before, after) ==>
              StepsReopen(more, before, after)
  {
    if SoundJournal(before) && RepairsTo(w, before, a) && StepsReopen(steps, before, after) {
      StepAdded(steps, more, files, w, before, after, before, a);
    }
  }

  lemma StepsWiden(steps: seq<Files>, before: Journal, after: Journal)
    requires StepsRepair(steps, before)
    ensures SoundJournal(before) ==> StepsReopen(steps, before, after)
  {
    if SoundJournal(before) {
      SoundRecovers(before);
      StepsRepairReopen(steps, before);
    }
  }

  lemma NoRepairSteps(j: Journal)
    ensures StepsRepair([], j)
  {
  }

  /** The spool of a terminal attempt makes no difference to the repair. */
  lemma SpoolIgnored(j: Journal, a: AttemptId, spool: map<nat, Event>)
    requires a in j && Terminal(j[a].rec.state)
    ensures SameRepairs(j[a := j[a].(events := spool)], j)
  {
  }

  lemma EventAckedInSound(j: Journal, a: AttemptId, id: EventId, n: nat)
    requires SoundJournal(j) && EventAckedIn(j, a, id, n).Ok?
    ensures SoundJournal(EventAckedIn(j, a, id, n).value)
    ensures RepairsTo(EventAckedIn(j, a, id, n).value, EventAckedIn(j, a, id, n).value, a)
  {
    EventAckedSound(j[a], id, n);
  }

  ghost predicate ResultPlan(
    before: Journal, ahead: Journal, after: Journal, a: AttemptId, result: Result, rec: Assignment)
  {
    && a in before
    && rec.identity == before[a].rec.identity == result.identity && rec.identity.attempt == a
    && rec.last == before[a].rec.last
    && ahead == before[a := before[a].(result := Some(result))]
    && after == before[a := Entry(rec, before[a].events, Some(result))]
  }

  lemma ResultPlanFits(before: Journal, ahead: Journal, after: Journal, a: AttemptId, result: Result, rec: Assignment)
    requires ResultPlan(before, ahead, after, a, result, rec) && Numbered(before)
    ensures a in ahead && after == ahead[a := ahead[a].(rec := rec)]
    ensures Numbered(after)
    ensures RepairsTo(after, after, a)
  {
  }

  lemma StoredInSound(j: Journal, a: AttemptId, p: Payload, freshId: nat)
    requires SoundJournal(j) && a in j && j[a].result == None && ResultAdmissible(j[a], p)
    ensures var after := StoredFileIn(j, a, p, freshId).value;
            var ahead := j[a := j[a].(result := after[a].result)];
            SoundJournal(after) && (RepairsTo(ahead, after, a) || RepairsTo(ahead, j, a))
  {
    ResultStoredSound(j[a], p, freshId);
    ResultAheadRepairs(j[a], p, freshId);
    RepairedSound(j[a]);
    RepairedSound(StoredFileIn(j, a, p, freshId).value[a]);
  }

  ghost predicate AckPlan(before: Journal, ahead: Journal, after: Journal, a: AttemptId, rec: Assignment) {
    && a in before
    && rec.identity == before[a].rec.identity && rec.identity.attempt == a && rec.last == before[a].rec.last
    && ahead == before[a := before[a].(rec := rec)]
    && after == before[a := Entry(rec, before[a].events, None)]
  }

  lemma AckPlanShape(before: Journal, ahead: Journal, after: Journal, a: AttemptId, rec: Assignment)
    requires AckPlan(before, ahead, after, a, rec)
    ensures a in before && rec.identity == before[a].rec.identity && rec.identity.attempt == a
    ensures a in ahead && ahead == before[a := before[a].(rec := rec)]
    ensures after == ahead[a := ahead[a].(result := None)] == before[a := Entry(rec, before[a].events, None)]
    ensures Numbered(before) ==> Numbered(after)
    ensures RepairsTo(after, after, a)
  {
  }

  lemma AckPlanFits(j: Journal, a: AttemptId, id: ResultId)
    requires ResultAckedIn(j, a, id).Ok?
    ensures var after := ResultAckedIn(j, a, id).value;
            var ahead := j[a := j[a].(rec := j[a].rec.(state := ResultAcked))];
            && after == ahead[a := ahead[a].(result := None)]
            && (Numbered(j) ==> Numbered(after))
            && (SoundJournal(j) ==> SoundJournal(after) && RepairsTo(ahead, after, a) && RepairsTo(after, after, a))
  {
    if SoundJournal(j) {
      ResultAckedSound(j[a], id);
    }
  }

  lemma DropKeepsNumbering(j: Journal, a: AttemptId)
    requires Numbered(j) && a in j
    ensures Numbered(j[a := j[a].(events := map[])])
    ensures Numbered(j[a := j[a].(events := map[], result := None)])
    ensures SoundJournal(j) && Terminal(j[a].rec.state) ==>
              RepairsTo(j[a := j[a].(events := map[], result := None)], j, a)
  {
  }

  lemma NoSteps(before: Journal, after: Journal)
    ensures StepsReopen([], before, after)
  {
  }

  lemma RepresentedSequence(files: Files, j: Journal, a: AttemptId, n: nat)
    requires Represents(files, j) && a in j && n in j[a].events
    ensures j[a].events[n].seq_ == n
  {
  }

  /** A repeated creation finds its record, a first one makes it. */
  lemma CreatedIs(j: Journal, identity: Identity, input: Fields)
    requires Created(j, identity, input).Ok?
    ensures var after, a := Created(j, identity, input).value, identity.attempt;
            && a in after && after[a].rec.identity == identity && (a in j ==> j[a].rec.identity == identity)
            && after == j[a := if a in j then j[a].(rec := after[a].rec) else Entry(after[a].rec, map[], None)]
            && (Numbered(j) ==> Numbered(after))
  {
    var a := identity.attempt;
    assert a in j ==> j[a := j[a]] == j;
  }

  lemma RecordKeepsNumbering(before: Journal, after: Journal, a: AttemptId, rec: Assignment)
    requires Numbered(before) && RecordReplaced(before, after, a, rec)
    ensures Numbered(after)
  {
  }

  lemma DeletedInSound(j: Journal, message: MessageId)
    requires SoundJournal(j) && DeletedIn(j, message).Ok?
    ensures SoundJournal(DeletedIn(j, message).value)
  {
  }

  lemma AppendedInSound(files: Files, j: Journal, a: AttemptId, id: EventId, kind: string, payload: Fields)
    requires SoundJournal(j) && AppendedIn(j, a, id, kind, payload).Ok?
    requires Represents(files, j) && EventPath(a, id) !in files
    ensures SoundJournal(AppendedIn(j, a, id, kind, payload).value)
    ensures var after := AppendedIn(j, a, id, kind, payload).value;
            RepairsTo(j[a := j[a].(events := after[a].events)], after, a)
  {
    hide Repaired, Appended, Sound;
    assert forall n :: n in j[a].events ==> j[a].events[n].id != id by {
      assert Stored(files, a, j[a]);
    }
    var e := Appended(j[a], id, kind, payload).value;
    AppendedSound(j[a], id, kind, payload);
    EventAheadRepairs(j[a], id, kind, payload);
    AppendedFields(j[a], id, kind, payload);
    RepairedSound(e);
  }

  lemma AppendedFields(e: Entry, id: EventId, kind: string, payload: Fields)
    requires Appended(e, id, kind, payload).Ok?
    ensures var f := Appended(e, id, kind, payload).value;
            f.rec.identity == e.rec.identity && Settled(f) == f
  {
  }
}
