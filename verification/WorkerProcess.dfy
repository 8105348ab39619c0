/**
 * The worker on a real directory: a process opens it and takes its steps, each by performing
 * its store operations, with any write failing. Whatever happens on the disk is a run of the
 * worker, and what the disk is left with is what that run ends in.
 */
module WorkerProcess {
  import opened Prelude
  import opened Journal
  import opened Disks
  import opened MemoryStores
  import opened FileStores
  import opened Reopening
  import opened Worker
  import opened WorkerRuns
  import opened WorkerOperations
  import S = StoreRuns
  import opened WorkerStore
  import H = StoreHistories
  import Sessions = StoreSessions
  import T = WorkerTheorems

  // ---------------------------------------------------------------- one step

  lemma {:induction false} FoldedHead(j: Journal, ops: seq<S.Operation>)
    requires ops != []
    ensures H.Folded(j, ops) == H.Folded(H.Taken(j, ops[0]), ops[1..])
    decreases |ops|
  {
    hide H.Taken;
    if |ops| == 1 {
      assert ops[..0] == [] && ops[1..] == [];
    } else {
      var k := |ops| - 1;
      FoldedHead(j, ops[..k]);
      assert ops[..k][1..] == ops[1..][..k - 1] && ops[1..][k - 1] == ops[k] && ops[..k][0] == ops[0];
    }
  }

  /** Operations that the worker performs are all issued, and have their effects one after another. */
  lemma {:induction false} PerformedIsFolded(j: Journal, ops: seq<S.Operation>, k: Journal)
    requires Performs(j, ops, k)
    ensures H.Folded(j, ops) == k
    decreases |ops|
  {
    hide S.Takes, S.StoresAgree, S.Effect;
    if ops != [] {
      PerformedIsFolded(S.Effect(j, ops[0]).value, ops[1..], k);
      FoldedHead(j, ops);
      hide H.Folded;
    }
  }

  lemma {:induction false} FirstPerforms(j: Journal, ops: seq<S.Operation>, k: Journal, n: nat)
    requires Performs(j, ops, k) && n <= |ops|
    ensures Performs(j, ops[..n], H.Folded(j, ops[..n]))
    decreases |ops|
  {
    hide S.Takes, S.StoresAgree, S.Effect;
    if n > 0 {
      var m := S.Effect(j, ops[0]).value;
      FirstPerforms(m, ops[1..], k, n - 1);
      assert ops[..n][1..] == ops[1..][..n - 1] && ops[..n][0] == ops[0];
      FoldedHead(j, ops[..n]);
      hide H.Folded;
    }
  }

  lemma OperationsNeedTheStore(sh: Shared, a: AttemptId, x: Slot, step: Step)
    requires Enabled(sh, x, step) && StepOps(sh, a, x, step) != []
    ensures NeedsStore(step)
  {
  }

  /** However the operations of a step end, the worker has a move that ends so. */
  lemma StepEnds(w: World, j: Journal, act: Move, last: Journal, n: nat, usable: bool) returns (m: Move)
    requires WorldInv(w) && Mirrors(w, j) && Allowed(w, act) && act.Act?
    requires var ops := StepOps(w.sh, act.attempt, SlotOf(w, act.attempt), act.step);
             n <= |ops| && last == H.Folded(j, ops[..n]) && (if usable then n == |ops| else ops != [])
    ensures Allowed(w, m) && Mirrors(Next(w, m), last)
    ensures if usable then m == act else m.Fault? && m.attempt == act.attempt && m.step == act.step
  {
    var ops := StepOps(w.sh, act.attempt, SlotOf(w, act.attempt), act.step);
    var k := ActIsStored(w, j, act);
    assert Performs(j, ops, k);
    hide WorldInv, Mirrors, Allowed, Next, StepOps, Performs, H.Folded;
    if usable {
      assert ops[..n] == ops;
      PerformedIsFolded(j, ops, k);
      m := act;
    } else {
      FirstPerforms(j, ops, k, n);
      NeedsIt(w, act);
      m := EveryStopIsAFault(w, j, act.attempt, act.step, n, last);
    }
  }

  lemma NeedsIt(w: World, act: Move)
    requires Allowed(w, act) && act.Act? && StepOps(w.sh, act.attempt, SlotOf(w, act.attempt), act.step) != []
    ensures NeedsStore(act.step) && Allowed(w, Act(act.attempt, act.step))
  {
    OperationsNeedTheStore(w.sh, act.attempt, SlotOf(w, act.attempt), act.step);
  }

  /** The operations of one step, on the disk. */
  method StepOnDisk(
    store: FileStore, w: World, act: Move, ghost first: Journal, ghost before: seq<H.Stage>, ghost current: Journal,
    ghost all: set<S.Operation>, ghost start: nat)
    returns (ghost m: Move, ghost stages: seq<H.Stage>, ghost last: Journal, ghost wider: set<S.Operation>)
    requires store.Valid() && store.Ready() && store.View() == current && start <= |store.disk.trace|
    requires WorldInv(w) && Mirrors(w, current) && Allowed(w, act) && act.Act?
    requires H.History(first, before, current, all, store.disk.trace[start..], store.disk.files)
    modifies store, store.base, store.disk
    ensures store.Valid() && old(store.disk.trace) <= store.disk.trace
    ensures old(store.disk.failed) ==> store.disk.failed
    ensures H.History(first, stages, last, wider, store.disk.trace[start..], store.disk.files)
    ensures Allowed(w, m) && Mirrors(Next(w, m), last)
    ensures store.Ready() || store.disk.failed
    ensures if store.Ready() then m == act && store.View() == last
            else m.Fault? && m.attempt == act.attempt && m.step == act.step
  {
    hide WorldInv, Mirrors, Allowed, Next, StepOps, H.Folded, H.History, H.RepliesFit, H.Successes, H.DoneOps, H.Chain,
      MemoryStore.Valid, Represents, WithinLimits, StepsWithin, Numbered, SoundJournal, Reopens;
    var ops := OpsOf(w, act);
    H.HistorySound(first, before, current, all, store.disk.trace[start..], store.disk.files);
    stages, last, wider := before, current, all;
    if ops == [] {
      FoldedNone(current, ops);
      m := StepEnds(w, current, act, current, 0, true);
      return;
    }
    ghost var trace, files := store.disk.trace, store.disk.files;
    ghost var further, n;
    var replies;
    replies, further, last, n := H.Run(store, ops);
    H.SinceJoins(trace, store.disk.trace, start);
    wider := all + H.OpsIn(ops);
    HistoryWidens(first, before, current, all, wider, trace[start..], files);
    Sessions.HistoryJoins(first, before, current, wider, trace[start..], files, further, last, H.OpsIn(ops),
                          store.disk.trace[|trace|..], store.disk.files);
    stages := before + further;
    m := StepEnds(w, current, act, last, n, store.Ready());
  }

  lemma FoldedNone(j: Journal, ops: seq<S.Operation>)
    ensures H.Folded(j, ops[..0]) == j
  {
  }

  function OpsOf(w: World, act: Move): (ops: seq<S.Operation>)
    requires Allowed(w, act) && act.Act?
    ensures ops == StepOps(w.sh, act.attempt, SlotOf(w, act.attempt), act.step)
  {
    StepOps(w.sh, act.attempt, SlotOf(w, act.attempt), act.step)
  }

  lemma HistoryWidens(
    first: Journal, stages: seq<H.Stage>, last: Journal, some: set<S.Operation>, all: set<S.Operation>,
    steps: seq<Files>, files: Files)
    requires H.History(first, stages, last, some, steps, files) && some <= all
    ensures H.History(first, stages, last, all, steps, files)
  {
    hide H.Chain, H.Accounted, SoundJournal, Reopens, H.IsStage;
    forall s | s in stages ensures H.IsStage(s, all) {
      Sessions.OpsGrow(s, some, all);
    }
  }

  // ---------------------------------------------------------------- one process

  /** The moves are the acts up to some point, the last of them possibly cut short by the store. */
  ghost predicate FollowsActs(acts: seq<Move>, moves: seq<Move>) {
    || moves <= acts
    || (0 < |moves| <= |acts| && moves[..|moves| - 1] <= acts && IsFaultOf(acts[|moves| - 1], moves[|moves| - 1]))
  }

  predicate IsFaultOf(act: Move, m: Move) {
    act.Act? && m.Fault? && m.attempt == act.attempt && m.step == act.step
  }

  /** A run of the worker whose records are those of the journal. */
  ghost predicate Reaches(w: World, moves: seq<Move>, j: Journal) {
    Run(w, moves) && WorldInv(After(w, moves)) && Mirrors(After(w, moves), j)
  }

  /** A directory that the next process will open as the restarted worker. */
  ghost predicate Restarts(w: World, moves: seq<Move>, j: Journal) {
    && Run(w, moves) && Recovered(j).Ok?
    && WorldInv(Next(After(w, moves), Restart)) && Mirrors(Next(After(w, moves), Restart), Recovered(j).value)
  }

  lemma ReachesMore(w: World, moves: seq<Move>, before: Journal, m: Move, after: Journal)
    requires Reaches(w, moves, before) && Allowed(After(w, moves), m) && Mirrors(Next(After(w, moves), m), after)
    ensures Reaches(w, moves + [m], after) && After(w, moves + [m]) == Next(After(w, moves), m)
  {
    hide WorldInv, Mirrors, Allowed, Next, Run, After;
    T.RunExtends(w, moves, m);
    NextKeeps(After(w, moves), m);
  }

  lemma ReachedRestarts(w: World, moves: seq<Move>, j: Journal)
    requires Reaches(w, moves, j)
    ensures Restarts(w, moves, j)
  {
    hide WorldInv, Mirrors, Next, Run, After;
    RestartIsReopening(After(w, moves), j);
    NextKeeps(After(w, moves), Restart);
  }

  /** The next act is allowed in the world that the acts before it lead to. */
  lemma NextActAllowed(w: World, acts: seq<Move>, i: nat)
    requires Run(w, acts) && i < |acts|
    ensures Run(w, acts[..i]) && Allowed(After(w, acts[..i]), acts[i])
    decreases i
  {
    hide Allowed, Next;
    if i > 0 {
      NextActAllowed(Next(w, acts[0]), acts[1..], i - 1);
      assert acts[..i][1..] == acts[1..][..i - 1] && acts[..i][0] == acts[0];
    }
  }

  /**
   * One process of the worker on a directory, with any write failing: it opens the directory and
   * takes the acts of a run, up to the first failure. What the disk ends with is what a run of
   * the worker ends with, the acts themselves or the first of them and a fault; every state of
   * the disk on the way reopens as a journal of its history; and the next process can begin,
   * with the restarted worker, as this one did.
   */
  method Process(
    disk: Disk, maxBytes: nat, maxRecords: nat, w: World, acts: seq<Move>, ghost found: Journal)
    returns (usable: bool, ghost moves: seq<Move>, ghost stages: seq<H.Stage>, ghost last: Journal,
             ghost ops: set<S.Operation>)
    requires disk.Latest() && SoundJournal(found) && Reopens(disk.files, found)
    requires WithinLimits(disk.files, maxBytes, maxRecords) && StepsWithin(disk.trace, maxBytes, maxRecords)
    requires WorldInv(w) && Recovered(found).Ok? && Mirrors(w, Recovered(found).value)
    requires Run(w, acts) && forall i :: 0 <= i < |acts| ==> acts[i].Act?
    modifies disk
    ensures disk.Latest() && old(disk.trace) <= disk.trace
    ensures old(disk.failed) ==> disk.failed
    ensures WithinLimits(disk.files, maxBytes, maxRecords) && StepsWithin(disk.trace, maxBytes, maxRecords)
    ensures FollowsActs(acts, moves) && (if usable then moves == acts else disk.failed) && Reaches(w, moves, last)
    ensures H.History(found, stages, last, ops, disk.trace[|old(disk.trace)|..], disk.files)
    ensures SoundJournal(last) && Reopens(disk.files, last) && Restarts(w, moves, last)
  {
    ghost var start := |disk.trace|;
    var store;
    store, stages, last := Opened(disk, maxBytes, maxRecords, found);
    moves, ops := [], {};
    assert Reaches(w, moves, last);
    usable := store.Some?;
    if store.Some? {
      usable, moves, stages, last, ops := Acts(store.value, w, acts, found, stages, last, start);
    }
    hide WorldInv, Mirrors, Run, Reaches, H.History, Recovered;
    H.HistorySound(found, stages, last, ops, disk.trace[start..], disk.files);
    ReachedRestarts(w, moves, last);
  }

  /** The directory as the process finds it. */
  method Opened(disk: Disk, maxBytes: nat, maxRecords: nat, ghost found: Journal)
    returns (store: Option<FileStore>, ghost stages: seq<H.Stage>, ghost last: Journal)
    requires disk.Latest() && SoundJournal(found) && Reopens(disk.files, found)
    requires WithinLimits(disk.files, maxBytes, maxRecords) && StepsWithin(disk.trace, maxBytes, maxRecords)
    modifies disk
    ensures disk.Latest() && old(disk.trace) <= disk.trace
    ensures old(disk.failed) ==> disk.failed
    ensures WithinLimits(disk.files, maxBytes, maxRecords) && StepsWithin(disk.trace, maxBytes, maxRecords)
    ensures Recovered(found) == Ok(last) && (store == None ==> disk.failed)
    ensures H.History(found, stages, last, {}, disk.trace[|old(disk.trace)|..], disk.files)
    ensures store.Some? ==>
              && fresh(store.value) && fresh(store.value.base) && store.value.disk == disk
              && store.value.maxBytes == maxBytes && store.value.maxRecords == maxRecords
              && store.value.Valid() && store.value.Ready() && store.value.View() == last
  {
    hide H.History, Reopens, StepsReopen, SoundJournal, Represents, Recovered, WithinLimits, StepsWithin, Openable,
      MemoryStore.Valid, H.DoneOps;
    ghost var was, trace := disk.files, disk.trace;
    H.EmptyHistory(found, {}, was);
    ghost var j := Sessions.ReadableAs(was, found);
    var r := Open(disk, maxBytes, maxRecords);
    ghost var more := disk.trace[|trace|..];
    H.SinceJoins(trace, disk.trace, |trace|);
    last := Sessions.OpeningGrows(found, [], found, {}, [], was, j, more, disk.files);
    stages := [] + [H.Stage(found, last, H.Opening)];
    assert [] + more == more;
    if r.Ok? {
      Sessions.OpenedAs(was, j, r.value.View());
    }
    store := if r.Ok? then Some(r.value) else None;
  }

  /** The acts of a process that has opened the directory. */
  method Acts(
    store: FileStore, w: World, acts: seq<Move>, ghost found: Journal, ghost before: seq<H.Stage>, ghost view: Journal,
    ghost start: nat)
    returns (usable: bool, ghost moves: seq<Move>, ghost stages: seq<H.Stage>, ghost last: Journal,
             ghost ops: set<S.Operation>)
    requires store.Valid() && store.Ready() && store.View() == view && start <= |store.disk.trace|
    requires Reaches(w, [], view) && Run(w, acts) && forall i :: 0 <= i < |acts| ==> acts[i].Act?
    requires H.History(found, before, view, {}, store.disk.trace[start..], store.disk.files)
    modifies store, store.base, store.disk
    ensures store.disk.Latest() && old(store.disk.trace) <= store.disk.trace
    ensures old(store.disk.failed) ==> store.disk.failed
    ensures WithinLimits(store.disk.files, store.maxBytes, store.maxRecords)
    ensures StepsWithin(store.disk.trace, store.maxBytes, store.maxRecords)
    ensures FollowsActs(acts, moves) && (if usable then moves == acts else store.disk.failed) && Reaches(w, moves, last)
    ensures H.History(found, stages, last, ops, store.disk.trace[start..], store.disk.files)
  {
    hide WorldInv, Mirrors, Allowed, Next, Run, After, H.History, MemoryStore.Valid, Represents, Numbered, WithinLimits,
      StepsWithin;
    usable, moves, stages, last, ops := true, [], before, view, {};
    var now := w;
    assert acts[..0] == [];
    assert now == After(w, acts[..0]) by { NothingYet(w); }
    var i := 0;
    while i < |acts| && usable
      invariant 0 <= i <= |acts| && store.Valid() && old(store.disk.trace) <= store.disk.trace
      invariant old(store.disk.failed) ==> store.disk.failed
      invariant Reaches(w, moves, last) && FollowsActs(acts, moves)
      invariant usable || store.disk.failed
      invariant usable ==> store.Ready() && store.View() == last && moves == acts[..i] && now == After(w, moves)
      invariant H.History(found, stages, last, ops, store.disk.trace[start..], store.disk.files)
    {
      NextActAllowed(w, acts, i);
      ghost var m, j, earlier := Restart, last, moves;
      m, stages, last, ops := StepOnDisk(store, now, acts[i], found, stages, last, ops, start);
      ReachesMore(w, moves, j, m, last);
      moves := moves + [m];
      usable := store.Ready();
      assert acts[..i + 1] == acts[..i] + [acts[i]];
      FollowsMore(acts, i, earlier, m);
      if usable {
        now := Next(now, acts[i]);
      }
      i := i + 1;
    }
    assert acts[..|acts|] == acts;
  }

  lemma NothingYet(w: World)
    ensures Run(w, []) && After(w, []) == w
  {
  }

  lemma FollowsMore(acts: seq<Move>, i: nat, moves: seq<Move>, m: Move)
    requires i < |acts| && moves == acts[..i] && (m == acts[i] || IsFaultOf(acts[i], m))
    ensures FollowsActs(acts, moves + [m])
  {
  }
}
