/**
 * Opening a data directory: read every record, check that the records fit together, and
 * repair what an interrupted operation left behind.
 */
module Reopening {
  import opened Prelude
  import opened Journal
  import opened Disks
  import opened MemoryStores
  import opened FileStores

  // ---------------------------------------------------------------- what loading establishes

  /** The assignment files, and only they, have been read into `j`. */
  ghost predicate AssignmentsRead(files: Files, j: Journal) {
    && (forall a :: a in j ==> AssignmentOf(files, a, j[a].rec))
    && (forall p :: p in files && p.AssignmentPath? ==> Names(j, p.message))
  }

  ghost predicate AssignmentOf(files: Files, a: AttemptId, rec: Assignment) {
    && rec.identity.attempt == a
    && Holds(files, AssignmentPath(MessageOf(rec.identity)), AssignmentFile(rec))
  }

  /** Files that encode a journal encode these assignments. */
  lemma ReadAssignmentsAgree(files: Files, j: Journal, w: Journal)
    requires AssignmentsRead(files, j) && Represents(files, w)
    ensures j.Keys == w.Keys
    ensures forall a :: a in j ==> w[a].rec == j[a].rec
  {
  }

  /** Every Event of `j` is in its file. */
  ghost predicate EventsRead(files: Files, j: Journal) {
    forall a, n :: a in j && n in j[a].events ==>
      j[a].events[n].seq_ == n && Holds(files, EventPath(a, j[a].events[n].id), EventFile(j[a].events[n]))
  }

  ghost predicate ResultsRead(files: Files, j: Journal) {
    forall a :: a in j && j[a].result.Some? ==>
      Holds(files, ResultPath(a), ResultFile(j[a].result.value)) && ResultLoads(j[a].result.value)
  }

  ghost predicate NoJournal(files: Files) {
    !exists w :: Represents(files, w) && Recovered(w).Ok?
  }

  lemma OwnedBy(files: Files, w: Journal, p: Path)
    requires Represents(files, w) && p in files
    ensures Owned(p, files[p].content, w)
  {
  }

  // ---------------------------------------------------------------- the three reading loops

  /** The sizes taken so far are the true ones. */
  ghost predicate Counted(sizes: map<Path, nat>, files: Files) {
    forall p :: p in sizes ==> p in files && sizes[p] == files[p].size
  }

  /** Read and authenticate one file, and take its size into the accounting. */
  method ReadRecord(store: FileStore, p: Path) returns (c: Content)
    requires p in store.disk.files && Counted(store.fileSizes, store.disk.files)
    modifies store`fileSizes
    ensures c == store.disk.files[p].content
    ensures Counted(store.fileSizes, store.disk.files)
    ensures store.fileSizes.Keys == old(store.fileSizes).Keys + {p}
  {
    c := store.disk.files[p].content;
    store.fileSizes := store.fileSizes[p := store.disk.files[p].size];
  }

  /** The assignment files outside `todo` have been read into `j`. */
  ghost predicate ReadingAssignments(files: Files, j: Journal, todo: set<Path>) {
    && (forall a :: a in j ==>
          && AssignmentOf(files, a, j[a].rec) && AssignmentPath(MessageOf(j[a].rec.identity)) !in todo
          && j[a].events == map[] && j[a].result == None)
    && (forall p :: p in files && p.AssignmentPath? && p !in todo ==> Names(j, p.message))
  }

  lemma ReadAssignment(files: Files, j: Journal, todo: set<Path>, p: Path)
    requires p in files && p.AssignmentPath? && p in todo && ReadingAssignments(files, j, todo)
    ensures var c := files[p].content;
            if !c.AssignmentFile? || MessageOf(c.rec.identity) != p.message || p.message.attempt in j then
              NoJournal(files)
            else
              ReadingAssignments(files, j[p.message.attempt := Entry(c.rec, map[], None)], todo - {p})
  {
  }

  method LoadAssignments(store: FileStore) returns (ok: bool)
    requires store.base.Valid() && store.base.View() == map[] && Counted(store.fileSizes, store.disk.files)
    modifies store`fileSizes, store.base
    ensures store.base.Valid() && store.base.closed == old(store.base.closed)
    ensures Counted(store.fileSizes, store.disk.files)
    ensures ok ==> ReadingAssignments(store.disk.files, store.base.View(), {})
    ensures ok ==> forall p :: p in store.disk.files && p.AssignmentPath? ==> p in store.fileSizes
    ensures !ok ==> NoJournal(store.disk.files)
  {
    hide MemoryStore.Valid, ReadingAssignments, NoJournal, AssignmentOf;
    var files := store.disk.files;
    var todo := set p | p in files && p.AssignmentPath?;
    NothingRead(files, todo);
    while todo != {}
      invariant store.base.Valid() && store.base.closed == old(store.base.closed)
      invariant Counted(store.fileSizes, files)
      invariant forall p :: p in todo ==> p in files && p.AssignmentPath?
      invariant forall p :: p in files && p.AssignmentPath? && p !in todo ==> p in store.fileSizes
      invariant ReadingAssignments(files, store.base.View(), todo)
      decreases |todo|
    {
      var p :| p in todo;
      ReadAssignment(files, store.base.View(), todo, p);
      var c := ReadRecord(store, p);
      if !c.AssignmentFile? || MessageOf(c.rec.identity) != p.message {
        return false;
      }
      var known := store.base.Knows(c.rec.identity.attempt);
      if known {
        return false;
      }
      store.base.Put(c.rec, map[], None);
      todo := todo - {p};
    }
    ok := true;
  }

  lemma NothingRead(files: Files, todo: set<Path>)
    requires todo == set p | p in files && p.AssignmentPath?
    ensures ReadingAssignments(files, map[], todo)
  {
  }

  /** The Event files outside `todo` have been read into `j`, whose assignments are complete. */
  ghost predicate ReadingEvents(files: Files, j: Journal, todo: set<Path>) {
    && AssignmentsRead(files, j)
    && (forall a :: a in j ==> j[a].result == None)
    && (forall a, n :: a in j && n in j[a].events ==> EventOf(files, a, n, j[a].events[n], todo))
    && (forall p :: p in files && p.EventPath? && p !in todo ==> Owned(p, files[p].content, j))
  }

  ghost predicate EventOf(files: Files, a: AttemptId, n: nat, e: Event, todo: set<Path>) {
    && e.seq_ == n && EventPath(a, e.id) !in todo
    && Holds(files, EventPath(a, e.id), EventFile(e))
  }

  ghost predicate EventAcceptable(j: Journal, p: Path, c: Content)
    requires p.EventPath?
  {
    && c.EventFile? && c.event.identity.attempt == p.attempt && c.event.id == p.id
    && p.attempt in j && c.event.identity == j[p.attempt].rec.identity
    && 1 <= c.event.seq_ && c.event.seq_ !in j[p.attempt].events
  }

  lemma ReadEvent(files: Files, j: Journal, todo: set<Path>, p: Path)
    requires p in files && p.EventPath? && p in todo && ReadingEvents(files, j, todo)
    ensures var c := files[p].content;
            if !EventAcceptable(j, p, c) then NoJournal(files)
            else
              var e := j[p.attempt];
              ReadingEvents(files, j[p.attempt := e.(events := e.events[c.event.seq_ := c.event])], todo - {p})
  {
    hide Represents, Recovered;
    var c := files[p].content;
    if !EventAcceptable(j, p, c) {
      forall w | Represents(files, w) ensures false {
        OwnedBy(files, w, p);
        ReadAssignmentsAgree(files, j, w);
        var e := j[p.attempt].events[c.event.seq_];
        OwnedBy(files, w, EventPath(p.attempt, e.id));
      }
    } else {
      var e := j[p.attempt];
      var k := j[p.attempt := e.(events := e.events[c.event.seq_ := c.event])];
      forall a, n | a in k && n in k[a].events ensures EventOf(files, a, n, k[a].events[n], todo - {p}) {
        if a != p.attempt || n != c.event.seq_ {
          assert EventOf(files, a, n, j[a].events[n], todo);
        }
      }
      assert AssignmentsRead(files, k) by {
        forall a | a in k ensures AssignmentOf(files, a, k[a].rec) {
          assert AssignmentOf(files, a, j[a].rec);
        }
      }
    }
  }

  method LoadEvents(store: FileStore) returns (r: Outcome<(), StoreError>)
    requires store.base.Valid() && !store.base.closed && Counted(store.fileSizes, store.disk.files)
    requires ReadingAssignments(store.disk.files, store.base.View(), {})
    modifies store`fileSizes, store.base
    ensures store.base.Valid() && !store.base.closed
    ensures Counted(store.fileSizes, store.disk.files) && old(store.fileSizes).Keys <= store.fileSizes.Keys
    ensures r.Ok? ==> ReadingEvents(store.disk.files, store.base.View(), {})
    ensures r.Ok? ==> forall p :: p in store.disk.files && p.EventPath? ==> p in store.fileSizes
    ensures r.Err? ==> r.error in {Corrupt, NotFound} && NoJournal(store.disk.files)
  {
    hide MemoryStore.Valid, Counted, ReadingAssignments, ReadingEvents, NoJournal;
    var files := store.disk.files;
    var todo := set p | p in files && p.EventPath?;
    NoEventsRead(files, store.base.View(), todo);
    while todo != {}
      invariant store.base.Valid() && !store.base.closed
      invariant Counted(store.fileSizes, files) && old(store.fileSizes).Keys <= store.fileSizes.Keys
      invariant forall p :: p in todo ==> p in files && p.EventPath?
      invariant forall p :: p in files && p.EventPath? && p !in todo ==> p in store.fileSizes
      invariant ReadingEvents(files, store.base.View(), todo)
      decreases |todo|
    {
      var p :| p in todo;
      ReadEvent(files, store.base.View(), todo, p);
      var c := ReadRecord(store, p);
      if !c.EventFile? || c.event.seq_ < 1 || c.event.identity.attempt != p.attempt || c.event.id != p.id {
        return Err(Corrupt);
      }
      var found := store.base.FindAttempt(p.attempt);
      if found.Err? {
        return Err(found.error);
      }
      if found.value.identity != c.event.identity {
        return Err(Corrupt);
      }
      var bySequence := store.base.EventsOf(p.attempt);
      if c.event.seq_ in bySequence {
        return Err(Corrupt);
      }
      store.base.Put(found.value, bySequence[c.event.seq_ := c.event], store.base.ResultOf(p.attempt));
      todo := todo - {p};
    }
    r := Ok(());
  }

  lemma NoEventsRead(files: Files, j: Journal, todo: set<Path>)
    requires ReadingAssignments(files, j, {})
    requires todo == set p | p in files && p.EventPath?
    ensures ReadingEvents(files, j, todo)
  {
  }

  /** The Result files outside `todo` have been read as well. */
  ghost predicate ReadingResults(files: Files, j: Journal, todo: set<Path>) {
    && AssignmentsRead(files, j)
    && EventsRead(files, j)
    && (forall a :: a in j && j[a].result.Some? ==>
          ResultPath(a) !in todo && Holds(files, ResultPath(a), ResultFile(j[a].result.value))
          && ResultLoads(j[a].result.value))
    && (forall p :: p in files && !p.AssignmentPath? && p !in todo ==> Owned(p, files[p].content, j))
  }

  ghost predicate ResultAcceptable(j: Journal, p: Path, c: Content)
    requires p.ResultPath?
  {
    && c.ResultFile? && ResultLoads(c.result) && c.result.identity.attempt == p.attempt
    && p.attempt in j && c.result.identity == j[p.attempt].rec.identity
  }

  lemma OwnedResultAcceptable(files: Files, j: Journal, w: Journal, p: Path)
    requires p in files && p.ResultPath? && AssignmentsRead(files, j)
    requires Represents(files, w) && Recovered(w).Ok?
    ensures ResultAcceptable(j, p, files[p].content)
  {
    OwnedBy(files, w, p);
    ReadAssignmentsAgree(files, j, w);
    assert Repaired(w[p.attempt]).Ok?;
    assert Stored(files, p.attempt, w[p.attempt]);
  }

  lemma ReadResult(files: Files, j: Journal, todo: set<Path>, p: Path)
    requires p in files && p.ResultPath? && p in todo && ReadingResults(files, j, todo)
    ensures var c := files[p].content;
            if !ResultAcceptable(j, p, c) then NoJournal(files)
            else
              && j[p.attempt].result == None
              && ReadingResults(files, j[p.attempt := j[p.attempt].(result := Some(c.result))], todo - {p})
  {
    hide Represents;
    var c := files[p].content;
    if !ResultAcceptable(j, p, c) {
      forall w | Represents(files, w) && Recovered(w).Ok? ensures false {
        OwnedResultAcceptable(files, j, w, p);
      }
    } else {
      var k := j[p.attempt := j[p.attempt].(result := Some(c.result))];
      assert AssignmentsRead(files, k) by {
        forall a | a in k ensures AssignmentOf(files, a, k[a].rec) {
          assert AssignmentOf(files, a, j[a].rec);
        }
      }
    }
  }

  method LoadResults(store: FileStore) returns (r: Outcome<(), StoreError>)
    requires store.base.Valid() && !store.base.closed && Counted(store.fileSizes, store.disk.files)
    requires ReadingEvents(store.disk.files, store.base.View(), {})
    modifies store`fileSizes, store.base
    ensures store.base.Valid() && !store.base.closed
    ensures Counted(store.fileSizes, store.disk.files) && old(store.fileSizes).Keys <= store.fileSizes.Keys
    ensures r.Ok? ==> ReadingResults(store.disk.files, store.base.View(), {})
    ensures r.Ok? ==> forall p :: p in store.disk.files && p.ResultPath? ==> p in store.fileSizes
    ensures r.Err? ==> r.error in {Corrupt, NotFound} && NoJournal(store.disk.files)
  {
    hide MemoryStore.Valid, ReadingEvents, ReadingResults, NoJournal;
    var files := store.disk.files;
    var todo := set p | p in files && p.ResultPath?;
    NoResultsRead(files, store.base.View(), todo);
    while todo != {}
      invariant store.base.Valid() && !store.base.closed
      invariant Counted(store.fileSizes, files) && old(store.fileSizes).Keys <= store.fileSizes.Keys
      invariant forall p :: p in todo ==> p in files && p.ResultPath?
      invariant forall p :: p in files && p.ResultPath? && p !in todo ==> p in store.fileSizes
      invariant ReadingResults(files, store.base.View(), todo)
      decreases |todo|
    {
      var p :| p in todo;
      ReadResult(files, store.base.View(), todo, p);
      var c := ReadRecord(store, p);
      if !c.ResultFile? || !ResultLoads(c.result) || c.result.identity.attempt != p.attempt {
        return Err(Corrupt);
      }
      var found := store.base.FindAttempt(p.attempt);
      if found.Err? {
        return Err(found.error);
      }
      if found.value.identity != c.result.identity {
        return Err(Corrupt);
      }
      store.base.Put(found.value, store.base.EventsOf(p.attempt), Some(c.result));
      todo := todo - {p};
    }
    r := Ok(());
  }

  lemma NoResultsRead(files: Files, j: Journal, todo: set<Path>)
    requires ReadingEvents(files, j, {})
    requires todo == set p | p in files && p.ResultPath?
    ensures ReadingResults(files, j, todo)
  {
  }

  lemma ReadingDone(files: Files, j: Journal)
    requires ReadingResults(files, j, {})
    ensures Represents(files, j) && ResultsRead(files, j)
  {
  }

  // ---------------------------------------------------------------- the repair loop

  /** A part of the repair: its disk states repair to the same journal, and it ends in `after`. */
  ghost predicate RepairPart(store: FileStore, mark: nat, before: Journal, after: Journal, ok: bool)
    reads store, store.base, store.disk
  {
    && store.base.Valid() && store.Bounded() && mark <= |store.disk.trace|
    && StepsRepair(store.Since(mark), before)
    && (ok ==> store.Loaded() && store.View() == after)
  }

  method DropResultFile(store: FileStore, a: AttemptId) returns (ok: bool)
    requires store.Loaded() && a in store.View() && Terminal(store.View()[a].rec.state)
    requires ResultsRead(store.disk.files, store.View())
    modifies store, store.base, store.disk
    ensures old(store.disk.trace) <= store.disk.trace
    ensures old(store.disk.failed) ==> store.disk.failed
    ensures !ok ==> store.disk.failed
    ensures RepairPart(store, |old(store.disk.trace)|, old(store.View()),
                       old(store.View())[a := old(store.View())[a].(result := None)], ok)
  {
    hide Represents, MemoryStore.Valid, WithinLimits, StepsWithin, StepsRepair, SameRepairs, Repaired, ResultsRead;
    ghost var before := store.View();
    ghost var bare := before[a := before[a].(result := None)];
    NoRepairSteps(before);
    assert store.Since(|store.disk.trace|) == [];
    TerminalRepairs(store.disk.files, before, a);
    var found := store.base.FindAttempt(a);
    var result := store.base.ResultOf(a);
    if result == None {
      assert bare == before;
      return true;
    }
    ok := store.EraseResult(a, before);
    StepsRepairSnoc([], store.Since(|old(store.disk.trace)|), store.disk.files, bare, before);
    if ok {
      store.base.Put(found.value, store.base.EventsOf(a), None);
    }
  }

  method DropEventFiles(store: FileStore, a: AttemptId) returns (ok: bool)
    requires store.Loaded() && a in store.View() && Terminal(store.View()[a].rec.state)
    modifies store, store.base, store.disk
    ensures old(store.disk.trace) <= store.disk.trace
    ensures old(store.disk.failed) ==> store.disk.failed
    ensures !ok ==> store.disk.failed
    ensures RepairPart(store, |old(store.disk.trace)|, old(store.View()),
                       old(store.View())[a := old(store.View())[a].(events := map[])], ok)
  {
    hide Represents, MemoryStore.Valid, WithinLimits, StepsWithin, StepsRepair, SameRepairs, Repaired, ResultsRead;
    ghost var before := store.View();
    var found := store.base.FindAttempt(a);
    ok := store.EraseEvents(a, store.base.EventsOf(a), before);
    if ok {
      store.base.Put(found.value, map[], store.base.ResultOf(a));
    }
  }

  /** Two parts of the repair in a row. */
  lemma PartsJoin(store: FileStore, start: nat, mark: nat, first: seq<Files>, before: Journal, middle: Journal)
    requires start <= mark <= |store.disk.trace|
    requires first == store.disk.trace[start..mark]
    requires StepsRepair(first, before) && StepsRepair(store.Since(mark), middle) && SameRepairs(middle, before)
    ensures StepsRepair(store.Since(start), before)
  {
    assert store.Since(start) == first + store.Since(mark);
    StepsRepairJoin(first, store.Since(mark), middle, before);
  }

  /** Drop the spool of a terminal attempt: the Result file first, then the Events. */
  method DropTerminalSpool(store: FileStore, a: AttemptId) returns (ok: bool)
    requires store.Loaded() && a in store.View() && Terminal(store.View()[a].rec.state)
    requires ResultsRead(store.disk.files, store.View())
    modifies store, store.base, store.disk
    ensures old(store.disk.trace) <= store.disk.trace
    ensures old(store.disk.failed) ==> store.disk.failed
    ensures !ok ==> store.disk.failed
    ensures RepairPart(store, |old(store.disk.trace)|, old(store.View()),
                       old(store.View())[a := Entry(old(store.View())[a].rec, map[], None)], ok)
  {
    hide Represents, MemoryStore.Valid, WithinLimits, StepsWithin, StepsRepair, SameRepairs, Repaired, ResultsRead;
    ghost var before := store.View();
    TerminalRepairs(store.disk.files, before, a);
    ok := DropResultFile(store, a);
    if !ok {
      return;
    }
    ghost var mark, middle := |store.disk.trace|, store.View();
    ghost var first := store.Since(|old(store.disk.trace)|);
    DroppedTwice(before, a);
    ok := DropEventFiles(store, a);
    PartsJoin(store, |old(store.disk.trace)|, mark, first, before, middle);
  }

  lemma DroppedTwice(j: Journal, a: AttemptId)
    requires a in j
    ensures var k := j[a := j[a].(result := None)];
            k[a := k[a].(events := map[])] == j[a := Entry(j[a].rec, map[], None)]
  {
  }

  lemma TerminalRepairs(files: Files, j: Journal, a: AttemptId)
    requires a in j && Terminal(j[a].rec.state) && ResultsRead(files, j)
    ensures SameRepairs(j[a := j[a].(result := None)], j)
  {
  }

  lemma BumpRepairs(j: Journal, a: AttemptId)
    requires a in j && !Terminal(j[a].rec.state) && Bumped(j[a]).Ok?
    ensures var e := Bumped(j[a]).value;
            SameRepairs(j[a := e], j) && Bumped(e) == Ok(e) && j[a := e] == j[a := j[a].(rec := e.rec)]
  {
  }

  lemma AdoptRepairs(j: Journal, a: AttemptId)
    requires a in j && !Terminal(j[a].rec.state) && Bumped(j[a]) == Ok(j[a]) && Adopted(j[a]).Ok?
    requires j[a].result.Some? ==> ResultLoads(j[a].result.value)
    ensures var e := Adopted(j[a]).value;
            SameRepairs(j[a := e], j) && Repaired(j[a]) == Ok(e) && j[a := e] == j[a := j[a].(rec := e.rec)]
  {
  }

  /** How the repair of one part of an attempt ends, given what the repair function says. */
  ghost predicate RepairEnds(store: FileStore, mark: nat, before: Journal, a: AttemptId,
                             spec: Outcome<Entry, StoreError>, r: Outcome<(), StoreError>)
    requires a in before
    reads store, store.base, store.disk
  {
    && RepairPart(store, mark, before, before[a := if spec.Ok? then spec.value else before[a]], r.Ok?)
    && (r.Ok? ==> spec.Ok?)
    && (r.Err? ==> (r.error == IoFailure && store.disk.failed) || (r.error == Corrupt && spec.Err?))
  }

  /** Write a repaired assignment record. */
  method PersistRepair(store: FileStore, a: AttemptId, rec: Assignment, ghost before: Journal, ghost after: Journal)
    returns (ok: bool)
    requires store.Loaded() && store.View() == before && a in before
    requires rec.identity == before[a].rec.identity && rec.identity.attempt == a
    requires after == before[a := before[a].(rec := rec)] && SameRepairs(after, before)
    modifies store, store.base, store.disk
    ensures old(store.disk.trace) <= store.disk.trace
    ensures old(store.disk.failed) ==> store.disk.failed
    ensures RepairPart(store, |old(store.disk.trace)|, before, after, ok) && (!ok ==> store.disk.failed)
  {
    hide Represents, MemoryStore.Valid, WithinLimits, StepsWithin, StepsRepair, SameRepairs, Repaired;
    NoRepairSteps(before);
    store.base.Put(rec, store.base.EventsOf(a), store.base.ResultOf(a));
    ok := store.Persist(rec, before, after);
    StepsRepairSnoc([], store.Since(|old(store.disk.trace)|), store.disk.files, after, before);
  }

  method AdoptEvents(store: FileStore, a: AttemptId) returns (r: Outcome<(), StoreError>)
    requires store.Loaded() && a in store.View() && !Terminal(store.View()[a].rec.state)
    modifies store, store.base, store.disk
    ensures old(store.disk.trace) <= store.disk.trace
    ensures old(store.disk.failed) ==> store.disk.failed
    ensures RepairEnds(store, |old(store.disk.trace)|, old(store.View()), a, Bumped(old(store.View())[a]), r)
  {
    hide Represents, MemoryStore.Valid, WithinLimits, StepsWithin, StepsRepair, SameRepairs, Repaired;
    ghost var before := store.View();
    NoRepairSteps(before);
    assert store.Since(|store.disk.trace|) == [];
    var found := store.base.FindAttempt(a);
    var rec := found.value;
    var spool := store.base.EventsOf(a);
    var top := |spool.Keys|;
    if spool.Keys != UpTo(top) {
      return Err(Corrupt);
    }
    if top < rec.last || rec.last + 1 < top {
      return Err(Corrupt);
    }
    ghost var after := before[a := Bumped(before[a]).value];
    BumpRepairs(before, a);
    if top == rec.last {
      assert after == before;
      return Ok(());
    }
    var ok := PersistRepair(store, a, rec.(last := top), before, after);
    r := if ok then Ok(()) else Err(IoFailure);
  }

  method AdoptResult(store: FileStore, a: AttemptId) returns (r: Outcome<(), StoreError>)
    requires store.Loaded() && a in store.View() && !Terminal(store.View()[a].rec.state)
    requires Bumped(store.View()[a]) == Ok(store.View()[a])
    requires store.View()[a].result.Some? ==> ResultLoads(store.View()[a].result.value)
    modifies store, store.base, store.disk
    ensures old(store.disk.trace) <= store.disk.trace
    ensures old(store.disk.failed) ==> store.disk.failed
    ensures RepairEnds(store, |old(store.disk.trace)|, old(store.View()), a, Adopted(old(store.View())[a]), r)
  {
    hide Represents, MemoryStore.Valid, WithinLimits, StepsWithin, StepsRepair, SameRepairs, Repaired, Bumped;
    ghost var before := store.View();
    NoRepairSteps(before);
    assert store.Since(|store.disk.trace|) == [];
    var found := store.base.FindAttempt(a);
    var rec := found.value;
    var result := store.base.ResultOf(a);
    if result == None {
      assert before[a := before[a]] == before;
      return if rec.state == Finished then Err(Corrupt) else Ok(());
    }
    if result.value.finalSeq != rec.last {
      return Err(Corrupt);
    }
    if rec.state == Started && rec.resultId == None {
      ghost var after := before[a := Adopted(before[a]).value];
      AdoptRepairs(before, a);
      var ok := PersistRepair(store, a, WithResult(rec, result.value), before, after);
      return if ok then Ok(()) else Err(IoFailure);
    }
    if rec.resultId != Some(result.value.id) {
      return Err(Corrupt);
    }
    assert before[a := before[a]] == before;
    r := Ok(());
  }

  method RepairAttempt(store: FileStore, a: AttemptId) returns (r: Outcome<(), StoreError>)
    requires store.Loaded() && a in store.View() && ResultsRead(store.disk.files, store.View())
    modifies store, store.base, store.disk
    ensures old(store.disk.trace) <= store.disk.trace
    ensures old(store.disk.failed) ==> store.disk.failed
    ensures RepairEnds(store, |old(store.disk.trace)|, old(store.View()), a, Repaired(old(store.View())[a]), r)
  {
    hide Represents, MemoryStore.Valid, WithinLimits, StepsWithin, StepsRepair, SameRepairs, Bumped, Adopted;
    ghost var before := store.View();
    var found := store.base.FindAttempt(a);
    ResultLoadsRead(store.disk.files, before, a);
    hide ResultsRead;
    if Terminal(found.value.state) {
      var ok := DropTerminalSpool(store, a);
      return if ok then Ok(()) else Err(IoFailure);
    }
    r := AdoptEvents(store, a);
    if r.Err? {
      return;
    }
    BumpRepairs(before, a);
    ghost var mark, middle := |store.disk.trace|, store.View();
    ghost var first := store.Since(|old(store.disk.trace)|);
    BumpKeepsState(before[a]);
    r := AdoptResult(store, a);
    TwoParts(store, |old(store.disk.trace)|, mark, first, before, middle, a, r);
  }

  lemma TwoParts(store: FileStore, start: nat, mark: nat, first: seq<Files>, before: Journal, middle: Journal,
                 a: AttemptId, r: Outcome<(), StoreError>)
    requires start <= mark <= |store.disk.trace| && first == store.disk.trace[start..mark]
    requires a in before && !Terminal(before[a].rec.state) && Bumped(before[a]).Ok?
    requires before[a].result.Some? ==> ResultLoads(before[a].result.value)
    requires middle == before[a := Bumped(before[a]).value] && SameRepairs(middle, before)
    requires StepsRepair(first, before)
    requires RepairEnds(store, mark, middle, a, Adopted(middle[a]), r)
    ensures RepairEnds(store, start, before, a, Repaired(before[a]), r)
  {
    hide Represents, MemoryStore.Valid, WithinLimits, StepsWithin, StepsRepair, SameRepairs, Bumped, Adopted;
    PartsJoin(store, start, mark, first, before, middle);
    assert Repaired(before[a]).Ok? ==> Repaired(before[a]) == Adopted(middle[a]);
    if r.Ok? {
      var e := Adopted(middle[a]).value;
      assert middle[a := e] == before[a := e];
    }
  }

  lemma ResultLoadsRead(files: Files, j: Journal, a: AttemptId)
    requires a in j && ResultsRead(files, j)
    ensures j[a].result.Some? ==> ResultLoads(j[a].result.value)
  {
  }

  lemma BumpKeepsState(e: Entry)
    requires Bumped(e).Ok?
    ensures Bumped(e).value.rec.state == e.rec.state && Bumped(e).value.result == e.result
  {
  }

  /** Part of the attempts are repaired, the others are as they were read. */
  ghost predicate Repairing(now: Journal, w: Journal, todo: set<AttemptId>) {
    && now.Keys == w.Keys
    && forall a :: a in w ==> if a in todo then now[a] == w[a] else Repaired(w[a]) == Ok(now[a])
  }

  lemma RepairedNext(now: Journal, w: Journal, todo: set<AttemptId>, a: AttemptId)
    requires Repairing(now, w, todo) && a in todo && a in w
    ensures SameRepairs(now, w)
    ensures now[a] == w[a]
    ensures Repaired(w[a]).Ok? ==> Repairing(now[a := Repaired(w[a]).value], w, todo - {a})
    ensures Repaired(w[a]).Err? ==> Recovered(w).Err?
  {
    forall b | b in w && b !in todo ensures Repaired(now[b]) == Repaired(w[b]) {
      RepairedIdempotent(w[b]);
    }
  }

  lemma RepairStarts(w: Journal)
    ensures Repairing(w, w, w.Keys)
  {
  }

  lemma RepairFinished(now: Journal, w: Journal)
    requires Repairing(now, w, {})
    ensures Recovered(w) == Ok(now)
    ensures Numbered(now)
  {
    hide Repaired;
    assert AllRepair(w);
    assert RepairedAll(w) == now;
    forall a | a in now ensures forall n :: n in now[a].events ==> n <= now[a].rec.last {
      RepairedNumbering(w[a]);
    }
  }

  lemma RepairedNumbering(e: Entry)
    requires Repaired(e).Ok?
    ensures forall n :: n in Repaired(e).value.events ==> n <= Repaired(e).value.rec.last
  {
  }

  lemma RepairKeepsResult(e: Entry)
    ensures Repaired(e).Ok? && Repaired(e).value.result.Some? ==> Repaired(e).value.result == e.result
  {
  }

  lemma ResultsStayRead(files: Files, w: Journal, now: Journal, todo: set<AttemptId>, later: Files)
    requires Represents(later, now) && Repairing(now, w, todo)
    requires ResultsRead(files, w) && Represents(files, w)
    ensures ResultsRead(later, now)
  {
    hide Owned, Repaired, Holds;
    forall a | a in now && now[a].result.Some?
      ensures Holds(later, ResultPath(a), ResultFile(now[a].result.value)) && ResultLoads(now[a].result.value)
    {
      assert Stored(later, a, now[a]);
      RepairKeepsResult(w[a]);
    }
  }

  /** One round of the repair loop, with the states of the disk since it began. */
  method RepairNext(store: FileStore, a: AttemptId, ghost w: Journal, ghost start: nat)
    returns (r: Outcome<(), StoreError>)
    requires store.Loaded() && a in store.View() && ResultsRead(store.disk.files, store.View())
    requires start <= |store.disk.trace| && StepsRepair(store.Since(start), w) && SameRepairs(store.View(), w)
    modifies store, store.base, store.disk
    ensures old(store.disk.trace) <= store.disk.trace && store.base.Valid() && store.Bounded()
    ensures old(store.disk.failed) ==> store.disk.failed
    ensures StepsRepair(store.Since(start), w)
    ensures r.Ok? ==> store.Loaded() && Repaired(old(store.View())[a]).Ok?
                      && store.View() == old(store.View())[a := Repaired(old(store.View())[a]).value]
    ensures r.Err? ==> (r.error == IoFailure && store.disk.failed)
                       || (r.error == Corrupt && Repaired(old(store.View())[a]).Err?)
  {
    hide Represents, MemoryStore.Valid, WithinLimits, StepsWithin, StepsRepair, SameRepairs, Repaired, ResultsRead;
    ghost var now, mark, first := store.View(), |store.disk.trace|, store.Since(start);
    r := RepairAttempt(store, a);
    PartsJoin(store, start, mark, first, w, now);
  }

  /** Repair every attempt. What is on disk can be reopened to the same journal at every point. */
  method RepairAll(store: FileStore) returns (r: Outcome<(), StoreError>)
    requires store.Loaded() && ResultsRead(store.disk.files, store.View())
    modifies store, store.base, store.disk
    ensures old(store.disk.trace) <= store.disk.trace && store.base.Valid() && store.Bounded()
    ensures old(store.disk.failed) ==> store.disk.failed
    ensures StepsRepair(store.Since(|old(store.disk.trace)|), old(store.View()))
    ensures r.Ok? ==> store.Valid() && store.Ready() && Recovered(old(store.View())) == Ok(store.View())
    ensures r.Err? ==> (r.error == IoFailure && store.disk.failed)
                       || (r.error == Corrupt && Recovered(old(store.View())).Err?)
  {
    hide Represents, MemoryStore.Valid, WithinLimits, StepsWithin, StepsRepair, SameRepairs, Repaired,
      ResultsRead, Repairing,
      Numbered;
    ghost var w := store.View();
    ghost var files := store.disk.files;
    var todo := store.base.attempts.Keys;
    store.base.KnownAttempts();
    RepairStarts(w);
    NoRepairSteps(w);
    assert store.Since(|store.disk.trace|) == [];
    while todo != {}
      invariant store.Loaded() && old(store.disk.trace) <= store.disk.trace
      invariant old(store.disk.failed) ==> store.disk.failed
      invariant todo <= w.Keys && Repairing(store.View(), w, todo)
      invariant StepsRepair(store.Since(|old(store.disk.trace)|), w)
      decreases |todo|
    {
      var a :| a in todo;
      RepairedNext(store.View(), w, todo, a);
      ResultsStayRead(files, w, store.View(), todo, store.disk.files);
      KeysOf(store.View(), w, todo);
      r := RepairNext(store, a, w, |old(store.disk.trace)|);
      if r.Err? {
        return;
      }
      todo := todo - {a};
    }
    RepairFinished(store.View(), w);
    r := Ok(());
  }

  lemma KeysOf(now: Journal, w: Journal, todo: set<AttemptId>)
    requires Repairing(now, w, todo)
    ensures now.Keys == w.Keys
  {
  }

  // ---------------------------------------------------------------- opening

  /**
   * Open a data directory. It opens exactly when its files encode a journal that can be
   * repaired, apart from failing writes; and whatever happens on the way, the directory can
   * be opened again to the same journal.
   */
  method Open(disk: Disk, maxBytes: nat, maxRecords: nat) returns (r: Outcome<FileStore, StoreError>)
    requires WithinLimits(disk.files, maxBytes, maxRecords) && StepsWithin(disk.trace, maxBytes, maxRecords)
    requires disk.Latest()
    modifies disk
    ensures old(disk.trace) <= disk.trace && disk.Latest()
    ensures old(disk.failed) ==> disk.failed
    ensures WithinLimits(disk.files, maxBytes, maxRecords) && StepsWithin(disk.trace, maxBytes, maxRecords)
    ensures r.Ok? ==> fresh(r.value) && fresh(r.value.base) && r.value.disk == disk
    ensures r.Ok? ==> r.value.maxBytes == maxBytes && r.value.maxRecords == maxRecords
    ensures r.Ok? ==> r.value.Valid() && r.value.Ready()
    ensures r.Ok? ==> exists w :: Represents(old(disk.files), w) && Recovered(w) == Ok(r.value.View())
    ensures r.Err? ==> (r.error == IoFailure && disk.failed) || !Openable(old(disk.files))
    ensures forall w :: Represents(old(disk.files), w) && Recovered(w).Ok? ==>
              StepsReopen(disk.trace[|old(disk.trace)|..], w, w)
  {
    hide Represents, MemoryStore.Valid, WithinLimits, StepsWithin, Recovered, StepsRepair, StepsReopen, ResultsRead,
      ReadingAssignments, ReadingEvents, ReadingResults;
    ghost var files := disk.files;
    var store := new FileStore(disk, maxBytes, maxRecords);
    assert disk.trace[|old(disk.trace)|..] == [];
    NoStepsAnywhere();
    var ok := LoadAssignments(store);
    if !ok {
      return Err(Corrupt);
    }
    var loaded := LoadEvents(store);
    if loaded.Err? {
      return Err(loaded.error);
    }
    loaded := LoadResults(store);
    if loaded.Err? {
      return Err(loaded.error);
    }
    assert store.fileSizes == SizesOf(disk.files);
    ghost var w := store.View();
    ReadingDone(files, w);
    loaded := RepairAll(store);
    assert store.Since(|old(disk.trace)|) == disk.trace[|old(disk.trace)|..];
    StepsForAll(files, disk.trace[|old(disk.trace)|..], w);
    if loaded.Err? {
      return Err(loaded.error);
    }
    r := Ok(store);
  }

  lemma NoStepsAnywhere()
    ensures forall w :: StepsReopen([], w, w)
  {
  }

  /** The files determine the journal, so the repair of one reading is the repair of all. */
  lemma StepsForAll(files: Files, steps: seq<Files>, w: Journal)
    requires Represents(files, w) && StepsRepair(steps, w)
    ensures forall v :: Represents(files, v) && Recovered(v).Ok? ==> StepsReopen(steps, v, v)
    ensures Recovered(w).Err? ==> !Openable(files)
  {
    forall v | Represents(files, v) ensures v == w {
      RepresentsUnique(files, v, w);
    }
    if Recovered(w).Ok? {
      StepsRepairReopen(steps, w);
    }
  }
}
