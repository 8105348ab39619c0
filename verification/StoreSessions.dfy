/**
 * The life of a data directory over any number of processes: each opens it, performs a run of
 * operations and stops, with every stop and every failing write anywhere.
 */
module StoreSessions {
  import opened Prelude
  import opened Journal
  import opened Disks
  import opened MemoryStores
  import opened FileStores
  import opened Reopening
  import opened StoreHistories
  import opened StoreRuns

  /** What reopening makes of a sound journal is sound. */
  lemma RecoveredIsSound(j: Journal, v: Journal)
    requires SoundJournal(j) && Recovered(j) == Ok(v)
    ensures SoundJournal(v)
  {
    SoundRecovers(j);
    forall a | a in v ensures v[a].rec.identity.attempt == a && Sound(v[a]) {
      RepairedSound(j[a]);
    }
  }

  /** So every opening of a directory that reopens as a sound journal gives a sound one. */
  lemma OpenedIsSound(files: Files, j: Journal, w: Journal, v: Journal)
    requires Reopens(files, j) && SoundJournal(j)
    requires Represents(files, w) && Recovered(w) == Ok(v)
    ensures Recovered(j) == Ok(v) && SoundJournal(v)
  {
    var u :| Represents(files, u) && Recovered(u).Ok? && Recovered(u) == Recovered(j);
    RepresentsUnique(files, u, w);
    RecoveredIsSound(j, v);
  }

  /** Opening is a stage of its own, wherever it stops. */
  lemma OpeningStage(files: Files, j: Journal, w: Journal, steps: seq<Files>, now: Files)
    requires Reopens(files, j) && SoundJournal(j)
    requires Represents(files, w) && Recovered(w).Ok? && StepsReopen(steps, w, w)
    requires if steps == [] then now == files else now == steps[|steps| - 1]
    ensures var v := Recovered(w).value;
            && SoundJournal(v) && IsStage(Stage(j, v, Opening), {}) && StepsReopen(steps, j, v)
            && Reopens(now, j) && Reopens(now, v)
  {
    var v := Recovered(w).value;
    OpenedIsSound(files, j, w, v);
    SettledRecovers(v, j);
    forall d | d in steps ensures Reopens(d, j) && Reopens(d, v) {
      assert Reopens(d, w);
    }
  }

  /** Reopening twice is reopening once. */
  lemma SettledRecovers(v: Journal, j: Journal)
    requires Recovered(j) == Ok(v) && SoundJournal(j)
    ensures Recovered(v) == Ok(v)
  {
    RecoveredIsSound(j, v);
    SoundRecovers(j);
    SoundRecovers(v);
    hide Recovered, SoundJournal, Repaired;
    assert Recovered(v).value == v;
  }

  /** A new directory holds no record. */
  lemma EmptyDirectoryReopens()
    ensures Represents(map[], map[]) && SoundJournal(map[]) && Reopens(map[], map[])
  {
    ReopensItself(map[], map[]);
  }

  function AllOps(sessions: seq<seq<Operation>>): set<Operation> {
    set i, op | 0 <= i < |sessions| && op in sessions[i] :: op
  }

  lemma OpsGrow(s: Stage, some: set<Operation>, all: set<Operation>)
    requires IsStage(s, some) && some <= all
    ensures IsStage(s, all)
  {
  }

  lemma AccountedJoins(files: Files, first: Journal, stages: seq<Stage>, mid: Journal, more: seq<Stage>)
    requires Accounted(files, first, stages)
          || (Accounted(files, mid, more) && (mid == first || exists s :: s in stages && mid in {s.before, s.after}))
    ensures Accounted(files, first, stages + more)
  {
    hide Reopens;
    assert forall s :: s in stages + more <==> s in stages || s in more;
  }

  lemma {:induction false} ChainJoins(first: Journal, stages: seq<Stage>, mid: Journal, more: seq<Stage>, last: Journal)
    requires Chain(first, stages, mid) && Chain(mid, more, last)
    ensures Chain(first, stages + more, last) && DoneOps(stages + more) == DoneOps(stages) + DoneOps(more)
    decreases |more|
  {
    if more == [] {
      assert stages + more == stages && DoneOps(more) == [];
    } else {
      var s := more[|more| - 1];
      ChainJoins(first, stages, mid, more[..|more| - 1], s.before);
      var all := stages + more;
      assert all[..|all| - 1] == stages + more[..|more| - 1] && all[|all| - 1] == s;
    }
  }

  lemma ChainEnds(first: Journal, stages: seq<Stage>, last: Journal)
    requires Chain(first, stages, last)
    ensures last == first || exists s :: s in stages && last in {s.before, s.after}
  {
    if stages != [] {
      assert stages[|stages| - 1] in stages;
    }
  }

  /** A history goes on with the history of a run that begins where it ended. */
  lemma HistoryJoins(
    first: Journal, stages: seq<Stage>, mid: Journal, all: set<Operation>, steps: seq<Files>, files: Files,
    more: seq<Stage>, last: Journal, some: set<Operation>, further: seq<Files>, now: Files)
    requires History(first, stages, mid, all, steps, files) && History(mid, more, last, some, further, now)
    requires some <= all
    ensures History(first, stages + more, last, all, steps + further, now)
    ensures DoneOps(stages + more) == DoneOps(stages) + DoneOps(more)
  {
    ChainJoins(first, stages, mid, more, last);
    ChainEnds(first, stages, mid);
    hide Chain, Reopens, SoundJournal;
    forall s | s in stages + more ensures IsStage(s, all) {
      assert s in stages || s in more;
      if s in more { OpsGrow(s, some, all); }
    }
    hide IsStage, Accounted;
    forall d | d in steps + further ensures Accounted(d, first, stages + more) {
      assert d in steps || d in further;
      AccountedJoins(d, first, stages, mid, more);
    }
  }

  /** What opening makes of a journal that can be opened. */
  function Reopened(j: Journal): Journal {
    if Recovered(j).Ok? then Recovered(j).value else j
  }

  /**
   * One process: from the journal it found, its operations up to some point took effect, and
   * all of them, with the answers they should have, if its store was usable to the end.
   */
  ghost predicate ProcessFits(before: Journal, ops: seq<Operation>, replies: seq<Reply>, usable: bool, after: Journal) {
    && |replies| == |ops|
    && (exists n :: 0 <= n <= |ops| && after == Folded(Reopened(before), ops[..n]))
    && (usable ==> after == Folded(Reopened(before), ops) && RepliesFit(Reopened(before), ops, replies))
  }

  /** The operations of all processes that succeeded, in order. */
  function AllSuccesses(sessions: seq<seq<Operation>>, replies: seq<seq<Reply>>): seq<Operation>
    requires |sessions| == |replies| && forall i :: 0 <= i < |sessions| ==> |sessions[i]| == |replies[i]|
    decreases |sessions|
  {
    if sessions == [] then []
    else
      var k := |sessions| - 1;
      AllSuccesses(sessions[..k], replies[..k]) + Successes(sessions[k], replies[k])
  }

  /** The processes so far, with the journals between them, and the stages they made. */
  ghost predicate Logged(
    sessions: seq<seq<Operation>>, replies: seq<seq<Reply>>, usable: seq<bool>, journals: seq<Journal>,
    stages: seq<Stage>)
  {
    && |replies| == |usable| == |sessions| && |journals| == |sessions| + 1
    && (forall i :: 0 <= i < |sessions| ==> |sessions[i]| == |replies[i]|)
    && (forall i :: 0 <= i < |sessions| ==>
          ProcessFits(journals[i], sessions[i], replies[i], usable[i], journals[i + 1]))
    && DoneOps(stages) == AllSuccesses(sessions, replies)
  }

  lemma LoggedGrows(
    sessions: seq<seq<Operation>>, replies: seq<seq<Reply>>, usable: seq<bool>, journals: seq<Journal>,
    stages: seq<Stage>, ops: seq<Operation>, answers: seq<Reply>, fine: bool, after: Journal, grown: seq<Stage>)
    requires Logged(sessions, replies, usable, journals, stages)
    requires ProcessFits(journals[|sessions|], ops, answers, fine, after)
    requires |answers| == |ops| && DoneOps(grown) == DoneOps(stages) + Successes(ops, answers)
    ensures Logged(sessions + [ops], replies + [answers], usable + [fine], journals + [after], grown)
  {
    hide ProcessFits, DoneOps, Successes;
    AllSuccessesSnoc(sessions, replies, ops, answers);
    hide AllSuccesses;
  }

  lemma AllSuccessesSnoc(
    sessions: seq<seq<Operation>>, replies: seq<seq<Reply>>, ops: seq<Operation>, answers: seq<Reply>)
    requires |sessions| == |replies| && |ops| == |answers|
    requires forall i :: 0 <= i < |sessions| ==> |sessions[i]| == |replies[i]|
    ensures AllSuccesses(sessions + [ops], replies + [answers])
         == AllSuccesses(sessions, replies) + Successes(ops, answers)
  {
    hide Successes;
    var all, texts := sessions + [ops], replies + [answers];
    assert all[..|sessions|] == sessions && texts[..|sessions|] == replies;
  }

  /**
   * Any number of processes on one directory. Every state of the disk, in all of them, opening
   * included, reopens as the journal before or after one stage of one history, in which each
   * stage goes on from what the stop of the one before has left. No process finds the
   * directory corrupt. The operations that were reported to succeed are stages of it, all of
   * them and in order, in whatever process they were; and a process whose store was usable to
   * its end has carried out every operation on what it found. Every process has, unless a write
   * or removal failed or was refused.
   */
  method Sessions(disk: Disk, maxBytes: nat, maxRecords: nat, sessions: seq<seq<Operation>>, ghost first: Journal)
    returns (corrupt: bool, replies: seq<seq<Reply>>, usable: seq<bool>, ghost stages: seq<Stage>,
             ghost journals: seq<Journal>)
    requires disk.Latest() && SoundJournal(first) && Reopens(disk.files, first)
    requires WithinLimits(disk.files, maxBytes, maxRecords) && StepsWithin(disk.trace, maxBytes, maxRecords)
    modifies disk
    ensures !corrupt && disk.Latest() && old(disk.trace) <= disk.trace
    ensures old(disk.failed) ==> disk.failed
    ensures StepsWithin(disk.trace, maxBytes, maxRecords)
    ensures Logged(sessions, replies, usable, journals, stages) && journals[0] == first
    ensures !disk.failed ==> forall i :: 0 <= i < |sessions| ==> usable[i]
    ensures History(first, stages, journals[|sessions|], AllOps(sessions), disk.trace[|old(disk.trace)|..], disk.files)
  {
    ghost var all, start := AllOps(sessions), |disk.trace|;
    replies, usable, stages, journals, corrupt := [], [], [], [first], false;
    EmptyHistory(first, all, disk.files);
    assert disk.trace[start..] == [] && sessions[..0] == [];
    assert Logged([], replies, usable, journals, stages);
    hide History, WithinLimits, StepsWithin, Reopens, SoundJournal, Logged, ProcessFits;
    for i := 0 to |sessions|
      invariant !corrupt && disk.Latest() && start <= |disk.trace| && old(disk.trace) <= disk.trace
      invariant old(disk.failed) ==> disk.failed
      invariant WithinLimits(disk.files, maxBytes, maxRecords) && StepsWithin(disk.trace, maxBytes, maxRecords)
      invariant |journals| == i + 1 && journals[0] == first && |usable| == i
      invariant !disk.failed ==> forall k :: 0 <= k < i ==> usable[k]
      invariant History(first, stages, journals[i], all, disk.trace[start..], disk.files)
      invariant Logged(sessions[..i], replies, usable, journals, stages)
    {
      var answers, fine;
      ghost var grown, after;
      corrupt, answers, fine, grown, after :=
        Session(disk, maxBytes, maxRecords, sessions[i], first, stages, journals[i], all, start);
      LoggedGrows(sessions[..i], replies, usable, journals, stages, sessions[i], answers, fine, after, grown);
      assert sessions[..i + 1] == sessions[..i] + [sessions[i]];
      replies, usable, stages, journals := replies + [answers], usable + [fine], grown, journals + [after];
    }
    assert sessions[..|sessions|] == sessions;
  }

  /** One process: open, run, stop. */
  method Session(
    disk: Disk, maxBytes: nat, maxRecords: nat, ops: seq<Operation>, ghost first: Journal, ghost before: seq<Stage>,
    ghost current: Journal, ghost all: set<Operation>, ghost start: nat)
    returns (corrupt: bool, replies: seq<Reply>, usable: bool, ghost stages: seq<Stage>, ghost last: Journal)
    requires disk.Latest() && start <= |disk.trace| && OpsIn(ops) <= all
    requires WithinLimits(disk.files, maxBytes, maxRecords) && StepsWithin(disk.trace, maxBytes, maxRecords)
    requires History(first, before, current, all, disk.trace[start..], disk.files)
    modifies disk
    ensures !corrupt && disk.Latest() && old(disk.trace) <= disk.trace
    ensures old(disk.failed) ==> disk.failed
    ensures WithinLimits(disk.files, maxBytes, maxRecords) && StepsWithin(disk.trace, maxBytes, maxRecords)
    ensures History(first, stages, last, all, disk.trace[start..], disk.files)
    ensures |replies| == |ops| && ProcessFits(current, ops, replies, usable, last) && (usable || disk.failed)
    ensures DoneOps(stages) == DoneOps(before) + Successes(ops, replies)
  {
    hide History, Reopens, StepsReopen, IsStage, SoundJournal, Represents, Recovered, WithinLimits, StepsWithin,
      Openable, Chain, MemoryStore.Valid, ProcessFits, DoneOps, Successes;
    ghost var was, trace, steps := disk.files, disk.trace, disk.trace[start..];
    HistorySound(first, before, current, all, steps, was);
    ghost var w := ReadableAs(was, current);
    var r := Open(disk, maxBytes, maxRecords);
    corrupt := r.Err? && r.error != IoFailure;
    ghost var more := disk.trace[|trace|..];
    SinceJoins(trace, disk.trace, start);
    ghost var v := OpeningGrows(first, before, current, all, steps, was, w, more, disk.files);
    stages, last := before + [Stage(current, v, Opening)], v;
    if r.Ok? {
      OpenedAs(was, w, r.value.View());
      replies, usable, stages, last := RunOn(r.value, ops, first, stages, current, v, all, start);
    } else {
      replies, usable := seq(|ops|, _ => Unsure), false;
      NothingDone(current, v, ops, replies);
    }
  }

  /** A process that could not open the directory. */
  lemma NothingDone(before: Journal, v: Journal, ops: seq<Operation>, replies: seq<Reply>)
    requires |replies| == |ops| && (forall i :: 0 <= i < |ops| ==> replies[i] == Unsure) && Recovered(before) == Ok(v)
    ensures ProcessFits(before, ops, replies, false, v) && Successes(ops, replies) == []
  {
    NoSuccess(ops, replies);
    assert Folded(Reopened(before), ops[..0]) == v;
  }

  lemma {:induction false} NoSuccess(ops: seq<Operation>, replies: seq<Reply>)
    requires |replies| == |ops| && forall i :: 0 <= i < |ops| ==> replies[i] == Unsure
    ensures Successes(ops, replies) == []
    decreases |ops|
  {
    if ops != [] {
      NoSuccess(ops[..|ops| - 1], replies[..|ops| - 1]);
    }
  }

  /** The operations of a process that has opened the directory. */
  method RunOn(
    store: FileStore, ops: seq<Operation>, ghost first: Journal, ghost before: seq<Stage>, ghost found: Journal,
    ghost current: Journal, ghost all: set<Operation>, ghost start: nat)
    returns (replies: seq<Reply>, usable: bool, ghost stages: seq<Stage>, ghost last: Journal)
    requires store.Valid() && store.Ready() && store.View() == current && SoundJournal(current)
    requires Recovered(found) == Ok(current)
    requires start <= |store.disk.trace| && OpsIn(ops) <= all
    requires History(first, before, current, all, store.disk.trace[start..], store.disk.files)
    modifies store, store.base, store.disk
    ensures store.disk.Latest() && old(store.disk.trace) <= store.disk.trace
    ensures old(store.disk.failed) ==> store.disk.failed
    ensures WithinLimits(store.disk.files, store.maxBytes, store.maxRecords)
    ensures StepsWithin(store.disk.trace, store.maxBytes, store.maxRecords)
    ensures History(first, stages, last, all, store.disk.trace[start..], store.disk.files)
    ensures |replies| == |ops| && ProcessFits(found, ops, replies, usable, last) && (usable || store.disk.failed)
    ensures DoneOps(stages) == DoneOps(before) + Successes(ops, replies)
  {
    hide History, Reopens, SoundJournal, Represents, Recovered, WithinLimits, StepsWithin, MemoryStore.Valid,
      RepliesFit, Folded, DoneOps, Successes;
    ghost var trace, files := store.disk.trace, store.disk.files;
    ghost var further, end, n;
    replies, further, end, n := Run(store, ops);
    usable := store.Ready();
    SinceJoins(trace, store.disk.trace, start);
    HistoryJoins(first, before, current, all, trace[start..], files, further, end, OpsIn(ops),
                 store.disk.trace[|trace|..], store.disk.files);
    assert ops[..|ops|] == ops;
    stages, last := before + further, end;
  }

  /** The opening as one more stage of the history. */
  lemma OpeningGrows(
    first: Journal, stages: seq<Stage>, last: Journal, all: set<Operation>, steps: seq<Files>, was: Files,
    w: Journal, more: seq<Files>, now: Files) returns (v: Journal)
    requires History(first, stages, last, all, steps, was)
    requires Represents(was, w) && Recovered(w).Ok? && StepsReopen(more, w, w)
    requires if more == [] then now == was else now == more[|more| - 1]
    ensures Recovered(w) == Ok(v) && SoundJournal(v) && DoneOps(stages + [Stage(last, v, Opening)]) == DoneOps(stages)
    ensures History(first, stages + [Stage(last, v, Opening)], v, all, steps + more, now)
  {
    hide Reopens, StepsReopen, IsStage, SoundJournal, Represents, Recovered, Chain, Accounted;
    v := Recovered(w).value;
    OpeningStage(was, last, w, more, now);
    OpsGrow(Stage(last, v, Opening), {}, all);
    HistorySound(first, stages, last, all, steps, was);
    StagesGrow(first, stages, Stage(last, v, Opening), v);
    HistoryGrows(first, stages, all, steps, was, Stage(last, v, Opening), more, now, v);
  }

  lemma ReadableAs(files: Files, j: Journal) returns (w: Journal)
    requires Reopens(files, j)
    ensures Represents(files, w) && Recovered(w).Ok? && Recovered(w) == Recovered(j) && Openable(files)
  {
    w :| Represents(files, w) && Recovered(w).Ok? && Recovered(w) == Recovered(j);
  }

  lemma OpenedAs(files: Files, w: Journal, v: Journal)
    requires Represents(files, w) && exists u :: Represents(files, u) && Recovered(u) == Ok(v)
    ensures Recovered(w) == Ok(v)
  {
    var u :| Represents(files, u) && Recovered(u) == Ok(v);
    RepresentsUnique(files, u, w);
  }
}
