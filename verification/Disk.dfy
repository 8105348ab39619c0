/**
 * The data directory: one file per record, written atomically. A write can fail before or
 * after it takes effect. `Represents` says which journal the files encode.
 */
module Disks {
  import opened Prelude
  import opened Journal

  datatype Path =
    | AssignmentPath(message: MessageId)
    | EventPath(attempt: AttemptId, id: EventId)
    | ResultPath(attempt: AttemptId)

  datatype Content = AssignmentFile(rec: Assignment) | EventFile(event: Event) | ResultFile(result: Result)

  datatype File = File(content: Content, size: nat)

  type Files = map<Path, File>

  predicate Holds(files: Files, p: Path, c: Content) {
    p in files && files[p].content == c
  }

  // ---------------------------------------------------------------- what the files encode

  /** Every record of an entry is in its file. */
  ghost predicate Stored(files: Files, a: AttemptId, e: Entry) {
    && e.rec.identity.attempt == a
    && Holds(files, AssignmentPath(MessageOf(e.rec.identity)), AssignmentFile(e.rec))
    && (forall n :: n in e.events ==> Holds(files, EventPath(a, e.events[n].id), EventFile(e.events[n])))
    && (e.result.Some? ==> Holds(files, ResultPath(a), ResultFile(e.result.value)))
  }

  /** A file belongs to a record of the journal and passes the checks made on reading it. */
  ghost predicate Owned(p: Path, c: Content, j: Journal) {
    match p
    case AssignmentPath(m) => Names(j, m) && c == AssignmentFile(j[m.attempt].rec)
    case EventPath(a, id) =>
      && a in j && c.EventFile?
      && c.event.id == id && c.event.identity == j[a].rec.identity && 1 <= c.event.seq_
      && c.event.seq_ in j[a].events && j[a].events[c.event.seq_] == c.event
    case ResultPath(a) =>
      && a in j && c.ResultFile?
      && c.result.identity == j[a].rec.identity
      && j[a].result == Some(c.result)
  }

  ghost predicate Represents(files: Files, j: Journal) {
    && (forall a :: a in j ==> Stored(files, a, j[a]))
    && (forall p :: p in files ==> Owned(p, files[p].content, j))
    && (forall a, n :: a in j && n in j[a].events ==> j[a].events[n].seq_ == n)
  }

  /** The files determine the journal. */
  lemma RepresentsUnique(files: Files, j: Journal, k: Journal)
    requires Represents(files, j) && Represents(files, k)
    ensures j == k
  {
    RepresentsIncluded(files, j, k);
    RepresentsIncluded(files, k, j);
    forall a | a in j ensures j[a] == k[a] {
      assert Stored(files, a, j[a]) && Stored(files, a, k[a]);
      var p := AssignmentPath(MessageOf(j[a].rec.identity));
      assert Owned(p, files[p].content, k);
      assert j[a].events == k[a].events;
    }
  }

  lemma RepresentsIncluded(files: Files, j: Journal, k: Journal)
    requires Represents(files, j) && Represents(files, k)
    ensures j.Keys <= k.Keys
    ensures forall a :: a in j ==> j[a].rec == k[a].rec
    ensures forall a, n :: a in j && n in j[a].events ==> n in k[a].events && j[a].events[n] == k[a].events[n]
    ensures forall a :: a in j && j[a].result.Some? ==> k[a].result == j[a].result
  {
    forall a | a in j ensures a in k && j[a].rec == k[a].rec {
      assert Stored(files, a, j[a]);
      var p := AssignmentPath(MessageOf(j[a].rec.identity));
      assert Owned(p, files[p].content, k);
    }
    forall a, n | a in j && n in j[a].events
      ensures n in k[a].events && j[a].events[n] == k[a].events[n]
    {
      assert Stored(files, a, j[a]);
      var p := EventPath(a, j[a].events[n].id);
      assert Owned(p, files[p].content, k);
    }
    forall a | a in j && j[a].result.Some? ensures k[a].result == j[a].result {
      assert Stored(files, a, j[a]);
      var p := ResultPath(a);
      assert Owned(p, files[p].content, k);
    }
  }

  // ---------------------------------------------------------------- single writes and removals

  lemma AssignmentWritten(files: Files, j: Journal, rec: Assignment, size: nat)
    requires Represents(files, j)
    requires rec.identity.attempt in j ==> j[rec.identity.attempt].rec.identity == rec.identity
    ensures var a := rec.identity.attempt;
            Represents(files[AssignmentPath(MessageOf(rec.identity)) := File(AssignmentFile(rec), size)],
                       j[a := if a in j then j[a].(rec := rec) else Entry(rec, map[], None)])
  {
    var a := rec.identity.attempt;
    var path := AssignmentPath(MessageOf(rec.identity));
    var after := files[path := File(AssignmentFile(rec), size)];
    var k := j[a := if a in j then j[a].(rec := rec) else Entry(rec, map[], None)];
    forall b | b in k ensures Stored(after, b, k[b]) {
      assert b in j ==> Stored(files, b, j[b]);
    }
    forall p | p in after ensures Owned(p, after[p].content, k) {
      assert p != path ==> Owned(p, files[p].content, j);
    }
  }

  lemma EventWritten(files: Files, j: Journal, a: AttemptId, e: Event, size: nat)
    requires Represents(files, j) && a in j
    requires e.identity == j[a].rec.identity && 1 <= e.seq_ && e.seq_ !in j[a].events
    requires EventPath(a, e.id) !in files
    ensures Represents(files[EventPath(a, e.id) := File(EventFile(e), size)],
                       j[a := j[a].(events := j[a].events[e.seq_ := e])])
  {
    var path := EventPath(a, e.id);
    var after := files[path := File(EventFile(e), size)];
    var k := j[a := j[a].(events := j[a].events[e.seq_ := e])];
    forall b | b in k ensures Stored(after, b, k[b]) {
      assert Stored(files, b, j[b]);
    }
    forall p | p in after ensures Owned(p, after[p].content, k) {
      assert p != path ==> Owned(p, files[p].content, j);
    }
  }

  lemma ResultWritten(files: Files, j: Journal, a: AttemptId, r: Result, size: nat)
    requires Represents(files, j) && a in j
    requires r.identity == j[a].rec.identity
    ensures Represents(files[ResultPath(a) := File(ResultFile(r), size)], j[a := j[a].(result := Some(r))])
  {
    var path := ResultPath(a);
    var after := files[path := File(ResultFile(r), size)];
    var k := j[a := j[a].(result := Some(r))];
    forall b | b in k ensures Stored(after, b, k[b]) {
      assert Stored(files, b, j[b]);
    }
    forall p | p in after ensures Owned(p, after[p].content, k) {
      assert p != path ==> Owned(p, files[p].content, j);
    }
  }

  lemma EventRemoved(files: Files, j: Journal, a: AttemptId, n: nat)
    requires Represents(files, j) && a in j && n in j[a].events
    ensures Represents(files - {EventPath(a, j[a].events[n].id)}, j[a := j[a].(events := j[a].events - {n})])
  {
    var path := EventPath(a, j[a].events[n].id);
    var after := files - {path};
    var k := j[a := j[a].(events := j[a].events - {n})];
    assert Stored(files, a, j[a]);
    forall b | b in k ensures Stored(after, b, k[b]) {
      assert Stored(files, b, j[b]);
    }
    forall p | p in after ensures Owned(p, after[p].content, k) {
      assert Owned(p, files[p].content, j);
      assert Owned(path, files[path].content, j);
    }
  }

  lemma ResultRemoved(files: Files, j: Journal, a: AttemptId)
    requires Represents(files, j) && a in j
    ensures Represents(files - {ResultPath(a)}, j[a := j[a].(result := None)])
  {
    var path := ResultPath(a);
    var after := files - {path};
    var k := j[a := j[a].(result := None)];
    forall b | b in k ensures Stored(after, b, k[b]) {
      assert Stored(files, b, j[b]);
    }
    forall p | p in after ensures Owned(p, after[p].content, k) {
      assert Owned(p, files[p].content, j);
    }
  }

  lemma AssignmentRemoved(files: Files, j: Journal, a: AttemptId)
    requires Represents(files, j) && a in j && j[a].events == map[] && j[a].result == None
    ensures Represents(files - {AssignmentPath(MessageOf(j[a].rec.identity))}, j - {a})
  {
    var path := AssignmentPath(MessageOf(j[a].rec.identity));
    var after := files - {path};
    var k := j - {a};
    assert Stored(files, a, j[a]);
    forall b | b in k ensures Stored(after, b, k[b]) {
      assert Stored(files, b, j[b]);
    }
    forall p | p in after ensures Owned(p, after[p].content, k) {
      assert Owned(p, files[p].content, j);
    }
  }

  // ---------------------------------------------------------------- reopening a state of the disk

  /** Opening the files succeeds and gives what opening the journal `j` would give. */
  ghost predicate Reopens(files: Files, j: Journal) {
    exists w :: Represents(files, w) && Recovered(w).Ok? && Recovered(w) == Recovered(j)
  }

  ghost predicate Openable(files: Files) {
    exists w :: Represents(files, w) && Recovered(w).Ok?
  }

  /** Every state the disk went through reopens as the state before or the state after. */
  ghost predicate StepsReopen(steps: seq<Files>, before: Journal, after: Journal) {
    forall d :: d in steps ==> Reopens(d, before) || Reopens(d, after)
  }

  lemma SoundRecovers(j: Journal)
    requires SoundJournal(j)
    ensures Recovered(j).Ok? && Recovered(j).value.Keys == j.Keys
    ensures forall a :: a in j ==> Recovered(j).value[a] == Settled(j[a])
    ensures forall a :: a in j ==> Repaired(j[a]).Ok?
  {
    forall a | a in j ensures Repaired(j[a]) == Ok(Settled(j[a])) {
      RepairedSound(j[a]);
    }
  }

  /** A state of the disk that differs from a sound journal only where the repair makes up for it. */
  lemma ReopensAs(files: Files, w: Journal, j: Journal, a: AttemptId)
    requires Represents(files, w) && SoundJournal(j)
    requires w.Keys == j.Keys
    requires forall b :: b in j && b != a ==> w[b] == j[b]
    requires a in j ==> Repaired(w[a]) == Repaired(j[a])
    ensures Reopens(files, j)
  {
    hide Repaired, Sound, Represents;
    SoundRecovers(j);
    forall b | b in w ensures Repaired(w[b]) == Repaired(j[b]) {
    }
    assert AllRepair(w);
    assert RepairedAll(w) == RepairedAll(j);
  }

  /** The same attempts, each with records that the repair takes to the same entry. */
  ghost predicate SameRepairs(v: Journal, j: Journal) {
    && v.Keys == j.Keys
    && forall a :: a in j ==> Repaired(v[a]) == Repaired(j[a])
  }

  /** Every state holds records that the repair takes to the same journal. */
  ghost predicate StepsRepair(steps: seq<Files>, j: Journal) {
    forall d :: d in steps ==> exists v :: Represents(d, v) && SameRepairs(v, j)
  }

  lemma SameRepairsRecover(v: Journal, j: Journal)
    requires SameRepairs(v, j)
    ensures Recovered(v) == Recovered(j)
  {
    hide Repaired;
    if AllRepair(j) {
      assert AllRepair(v);
      assert RepairedAll(v) == RepairedAll(j);
    } else {
      var a :| a in j && !Repaired(j[a]).Ok?;
      assert a in v && !Repaired(v[a]).Ok?;
    }
  }

  lemma StepsRepairReopen(steps: seq<Files>, j: Journal)
    requires StepsRepair(steps, j) && Recovered(j).Ok?
    ensures StepsReopen(steps, j, j)
  {
    forall d | d in steps ensures Reopens(d, j) {
      var v :| Represents(d, v) && SameRepairs(v, j);
      SameRepairsRecover(v, j);
    }
  }

  lemma StepsRepairSnoc(steps: seq<Files>, more: seq<Files>, files: Files, v: Journal, j: Journal)
    requires StepsRepair(steps, j)
    requires more == steps || (more == steps + [files] && Represents(files, v))
    requires SameRepairs(v, j)
    ensures StepsRepair(more, j)
  {
  }

  lemma StepsRepairJoin(first: seq<Files>, second: seq<Files>, v: Journal, j: Journal)
    requires StepsRepair(first, j) && StepsRepair(second, v) && SameRepairs(v, j)
    ensures StepsRepair(first + second, j)
  {
  }

  // ---------------------------------------------------------------- sizes

  /** The sum of all sizes. */
  ghost function Total(sizes: map<Path, nat>): nat
    decreases |sizes|
  {
    if sizes == map[] then 0
    else
      var p :| p in sizes;
      sizes[p] + Total(sizes - {p})
  }

  lemma {:induction false} TotalSplits(sizes: map<Path, nat>, p: Path)
    requires p in sizes
    ensures Total(sizes) == sizes[p] + Total(sizes - {p})
    decreases |sizes|
  {
    var q :| q in sizes && Total(sizes) == sizes[q] + Total(sizes - {q});
    if q != p {
      TotalSplits(sizes - {q}, p);
      TotalSplits(sizes - {p}, q);
      assert sizes - {q} - {p} == sizes - {p} - {q};
    }
  }

  lemma TotalUpdated(sizes: map<Path, nat>, p: Path, n: nat)
    ensures Total(sizes[p := n]) == Total(sizes) - (if p in sizes then sizes[p] else 0) + n
  {
    TotalSplits(sizes[p := n], p);
    if p in sizes {
      TotalSplits(sizes, p);
      assert sizes[p := n] - {p} == sizes - {p};
    } else {
      assert sizes[p := n] - {p} == sizes;
    }
  }

  lemma TotalRemoved(sizes: map<Path, nat>, p: Path)
    ensures Total(sizes - {p}) <= Total(sizes)
  {
    if p in sizes {
      TotalSplits(sizes, p);
    } else {
      assert sizes - {p} == sizes;
    }
  }

  function SizesOf(files: Files): map<Path, nat> {
    map p | p in files :: files[p].size
  }

  ghost predicate WithinLimits(files: Files, maxBytes: nat, maxRecords: nat) {
    Total(SizesOf(files)) <= maxBytes && |files| <= maxRecords
  }

  ghost predicate StepsWithin(steps: seq<Files>, maxBytes: nat, maxRecords: nat) {
    forall d :: d in steps ==> WithinLimits(d, maxBytes, maxRecords)
  }

  // ---------------------------------------------------------------- the disk itself

  class Disk {
    var files: Files
    /** Every state the directory has been in since the object was made, latest last. */
    ghost var trace: seq<Files>
    /** A write or removal has failed or was refused for want of space. */
    ghost var failed: bool

    constructor (initial: Files)
      ensures files == initial && trace == [initial] && Latest() && !failed
    {
      files := initial;
      trace, failed := [initial], false;
    }

    ghost predicate Latest()
      reads this
    {
      trace != [] && files == trace[|trace| - 1]
    }

    /** Replace a file atomically; the final directory sync can fail after the replacement. */
    method AtomicWrite(p: Path, c: Content, size: nat) returns (ok: bool, ghost wrote: bool)
      modifies this
      ensures ok ==> wrote
      ensures failed == (old(failed) || !ok)
      ensures files == if wrote then old(files)[p := File(c, size)] else old(files)
      ensures trace == if wrote then old(trace) + [files] else old(trace)
    {
      if * {
        failed := true;
        return false, false;
      }
      files := files[p := File(c, size)];
      trace := trace + [files];
      wrote := true;
      ok := *;
      failed := failed || !ok;
    }

    /** Unlink a file; a missing file is no failure, and the directory sync can fail afterwards. */
    method Remove(p: Path) returns (ok: bool, removed: bool)
      modifies this
      ensures ok ==> removed
      ensures failed == (old(failed) || !ok)
      ensures files == if removed then old(files) - {p} else old(files)
      ensures trace == if removed then old(trace) + [files] else old(trace)
    {
      if * {
        failed := true;
        return false, false;
      }
      files := files - {p};
      trace := trace + [files];
      removed := true;
      ok := *;
      failed := failed || !ok;
    }
  }
}
