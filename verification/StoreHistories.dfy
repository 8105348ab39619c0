/**
 * Whole runs of the file store: any sequence of operations, each of which may fail. A history
 * says of every state of the disk what it reopens as; a log ties the replies to the history.
 */
module StoreHistories {
  import opened Prelude
  import opened Journal
  import opened Disks
  import opened MemoryStores
  import opened FileStores
  import opened StoreRuns

  // ---------------------------------------------------------------- histories

  /** What a stage of a history is: an opening, an operation that succeeded, or one that failed. */
  datatype Cause = Opening | Did(op: Operation) | Tried(op: Operation)

  datatype Stage = Stage(before: Journal, after: Journal, cause: Cause)

  ghost predicate IsStage(s: Stage, ops: set<Operation>) {
    && SoundJournal(s.before) && SoundJournal(s.after)
    && (if s.cause.Opening? then Recovered(s.before) == Ok(s.after)
        else s.cause.op in ops && Effect(s.before, s.cause.op) == Ok(s.after))
  }

  /** Each stage goes on from the journal after the one that precedes it, or from that before a failed one. */
  ghost predicate Chain(first: Journal, stages: seq<Stage>, last: Journal)
    decreases |stages|
  {
    if stages == [] then last == first
    else
      var s := stages[|stages| - 1];
      Chain(first, stages[..|stages| - 1], s.before) && (last == s.after || (s.cause.Tried? && last == s.before))
  }

  /** The operations that succeeded, in order. */
  function DoneOps(stages: seq<Stage>): seq<Operation>
    decreases |stages|
  {
    if stages == [] then []
    else
      var s := stages[|stages| - 1];
      DoneOps(stages[..|stages| - 1]) + if s.cause.Did? then [s.cause.op] else []
  }

  /** Opening these files gives what opening a journal of the history would give. */
  ghost predicate Accounted(files: Files, first: Journal, stages: seq<Stage>) {
    Reopens(files, first) || exists s :: s in stages && (Reopens(files, s.before) || Reopens(files, s.after))
  }

  /**
   * The history of a directory: from the journal `first`, stage by stage, every state of the
   * disk reopens as the journal before or after one of them, and its files now as `last`.
   */
  ghost predicate History(
    first: Journal, stages: seq<Stage>, last: Journal, ops: set<Operation>, steps: seq<Files>, files: Files)
  {
    && Chain(first, stages, last) && (forall s :: s in stages ==> IsStage(s, ops))
    && (forall d :: d in steps ==> Accounted(d, first, stages))
    && SoundJournal(last) && Reopens(files, last)
  }

  lemma EmptyHistory(first: Journal, ops: set<Operation>, files: Files)
    requires SoundJournal(first) && Reopens(files, first)
    ensures History(first, [], first, ops, [], files)
  {
  }

  /** The files are the latest state of the disk: one of the new ones, or what they were. */
  lemma LatestReopens(steps: seq<Files>, now: Files, was: Files, before: Journal, after: Journal)
    requires StepsReopen(steps, before, after) && Reopens(was, before)
    requires if steps == [] then now == was else now == steps[|steps| - 1]
    ensures Reopens(now, before) || Reopens(now, after)
  {
  }

  /** One more stage. */
  lemma HistoryGrows(
    first: Journal, stages: seq<Stage>, ops: set<Operation>, steps: seq<Files>, files: Files,
    s: Stage, more: seq<Files>, now: Files, next: Journal)
    requires History(first, stages, s.before, ops, steps, files) && IsStage(s, ops)
    requires StepsReopen(more, s.before, s.after)
    requires (next == s.after || (s.cause.Tried? && next == s.before)) && Reopens(now, next)
    ensures History(first, stages + [s], next, ops, steps + more, now)
  {
    StagesGrow(first, stages, s, next);
    StagesAre(stages, s, ops);
    StepsGrow(first, stages, s, steps, more);
    hide Reopens, Accounted, IsStage, Chain, StepsReopen;
  }

  lemma StagesAre(stages: seq<Stage>, s: Stage, ops: set<Operation>)
    requires IsStage(s, ops) && forall t :: t in stages ==> IsStage(t, ops)
    ensures forall t :: t in stages + [s] ==> IsStage(t, ops)
  {
    hide IsStage;
    assert forall t :: t in stages + [s] ==> t in stages || t == s;
  }

  lemma StepsGrow(first: Journal, stages: seq<Stage>, s: Stage, steps: seq<Files>, more: seq<Files>)
    requires (forall d :: d in steps ==> Accounted(d, first, stages)) && StepsReopen(more, s.before, s.after)
    ensures forall d :: d in steps + more ==> Accounted(d, first, stages + [s])
  {
    hide Reopens, Accounted;
    forall d | d in steps + more ensures Accounted(d, first, stages + [s]) {
      AccountedGrows(d, first, stages, s);
      assert d in steps || d in more;
    }
  }

  lemma StagesGrow(first: Journal, stages: seq<Stage>, s: Stage, next: Journal)
    requires Chain(first, stages, s.before) && (next == s.after || (s.cause.Tried? && next == s.before))
    ensures Chain(first, stages + [s], next)
    ensures DoneOps(stages + [s]) == DoneOps(stages) + if s.cause.Did? then [s.cause.op] else []
  {
    var grown := stages + [s];
    assert grown[..|grown| - 1] == stages && grown[|grown| - 1] == s;
  }

  lemma AccountedGrows(files: Files, first: Journal, stages: seq<Stage>, s: Stage)
    ensures Accounted(files, first, stages) ==> Accounted(files, first, stages + [s])
    ensures Reopens(files, s.before) || Reopens(files, s.after) ==> Accounted(files, first, stages + [s])
  {
    hide Reopens;
    var grown := stages + [s];
    assert grown[|stages|] == s && s in grown;
    assert forall t :: t in stages ==> t in grown;
  }

  lemma HistorySound(
    first: Journal, stages: seq<Stage>, last: Journal, ops: set<Operation>, steps: seq<Files>, files: Files)
    requires History(first, stages, last, ops, steps, files)
    ensures SoundJournal(last) && Reopens(files, last) && Chain(first, stages, last)
  {
  }

  function OpsIn(ops: seq<Operation>): (r: set<Operation>)
    ensures forall op :: op in r <==> op in ops
  {
    set op | op in ops
  }

  /** A sound journal on disk reopens as itself. */
  lemma ReopensItself(files: Files, j: Journal)
    requires Represents(files, j) && SoundJournal(j)
    ensures Reopens(files, j)
  {
    SoundRecovers(j);
    hide Represents, Recovered;
  }

  // ---------------------------------------------------------------- what a run should do

  /** The journal after an operation that does not fail; one that the worker would not issue is left out. */
  function Taken(j: Journal, op: Operation): Journal {
    if Takes(j, op) && Effect(j, op).Ok? then Effect(j, op).value else j
  }

  function Folded(j: Journal, ops: seq<Operation>): Journal
    decreases |ops|
  {
    if ops == [] then j else Taken(Folded(j, ops[..|ops| - 1]), ops[|ops| - 1])
  }

  lemma FoldedSnoc(j: Journal, ops: seq<Operation>, n: nat)
    requires n < |ops|
    ensures Folded(j, ops[..n + 1]) == Taken(Folded(j, ops[..n]), ops[n])
  {
    assert ops[..n + 1][..n] == ops[..n];
  }

  /** The answer of a store that no write has failed. */
  ghost predicate ReplyIs(j: Journal, op: Operation, r: Reply) {
    if !Takes(j, op) then r == Withheld
    else if Effect(j, op).Err? then r == Failed
    else Succeeds(r) && ReplyFits(r, j, Effect(j, op).value, op)
  }

  ghost predicate RepliesFit(j: Journal, ops: seq<Operation>, replies: seq<Reply>) {
    |replies| == |ops| && forall i :: 0 <= i < |ops| ==> ReplyIs(Folded(j, ops[..i]), ops[i], replies[i])
  }

  function Successes(ops: seq<Operation>, replies: seq<Reply>): seq<Operation>
    requires |ops| == |replies|
    decreases |ops|
  {
    if ops == [] then []
    else
      var k := |ops| - 1;
      Successes(ops[..k], replies[..k]) + if Succeeds(replies[k]) then [ops[k]] else []
  }

  lemma SuccessesSnoc(ops: seq<Operation>, replies: seq<Reply>, op: Operation, r: Reply)
    requires |ops| == |replies|
    ensures Successes(ops + [op], replies + [r]) == Successes(ops, replies) + if Succeeds(r) then [op] else []
  {
    assert (ops + [op])[..|ops|] == ops && (replies + [r])[..|ops|] == replies;
  }

  /**
   * What a run that began with the journal `first` reports: the journal it has left is the
   * effect of the first `n` operations, those that succeeded are stages of its history, in
   * order, and a store that is still usable has performed and answered all of them.
   */
  ghost predicate Log(
    first: Journal, ops: seq<Operation>, replies: seq<Reply>, stages: seq<Stage>, last: Journal, n: nat, usable: bool)
  {
    && |replies| == |ops| && n <= |ops|
    && DoneOps(stages) == Successes(ops, replies) && last == Folded(first, ops[..n])
    && (usable ==> n == |ops| && RepliesFit(first, ops, replies))
  }

  /** How one more operation ends. */
  ghost predicate Goes(
    op: Operation, reply: Reply, before: Journal, stages: seq<Stage>, after: Journal, grown: seq<Stage>,
    wasUsable: bool, usable: bool)
  {
    if !wasUsable then !usable && reply == Unsure && grown == stages && after == before
    else if !Takes(before, op) then usable && reply == Withheld && grown == stages && after == before
    else if Effect(before, op).Err? then usable && reply == Failed && grown == stages && after == before
    else
      var done := Effect(before, op).value;
      if usable then
        Succeeds(reply) && ReplyFits(reply, before, done, op) && after == done
        && grown == stages + [Stage(before, done, Did(op))]
      else reply == Failed && after in {before, done} && grown == stages + [Stage(before, done, Tried(op))]
  }

  lemma LogBegins(first: Journal, usable: bool)
    ensures Log(first, [], [], [], first, 0, usable)
  {
  }

  lemma LogGrows(
    first: Journal, ops: seq<Operation>, replies: seq<Reply>, stages: seq<Stage>, before: Journal, n: nat,
    wasUsable: bool, op: Operation, reply: Reply, grown: seq<Stage>, after: Journal, usable: bool)
    returns (m: nat)
    requires Log(first, ops, replies, stages, before, n, wasUsable) && Chain(first, stages, before)
    requires Goes(op, reply, before, stages, after, grown, wasUsable, usable)
    ensures Log(first, ops + [op], replies + [reply], grown, after, m, usable)
  {
    m := if wasUsable && after == Taken(before, op) then n + 1 else n;
    hide Chain, Effect, Issued, NewId, ReplyFits, RepliesFit, Takes;
    var all := ops + [op];
    assert all[..|ops|] == ops && all[|ops|] == op;
    assert all[..n] == ops[..n];
    SuccessesSnoc(ops, replies, op, reply);
    if grown != stages {
      StagesGrow(first, stages, grown[|grown| - 1], after);
    }
    if wasUsable {
      FoldedSnoc(first, all, n);
      assert all[..n + 1] == all;
    }
    if usable {
      RepliesGrow(first, ops, replies, op, reply);
    }
  }

  lemma RepliesGrow(first: Journal, ops: seq<Operation>, replies: seq<Reply>, op: Operation, reply: Reply)
    requires RepliesFit(first, ops, replies) && ReplyIs(Folded(first, ops), op, reply)
    ensures RepliesFit(first, ops + [op], replies + [reply])
  {
    hide ReplyIs, Folded;
    var all := ops + [op];
    forall i | 0 <= i < |all| ensures ReplyIs(Folded(first, all[..i]), all[i], (replies + [reply])[i]) {
      assert all[..i] == ops[..i];
      assert ops[..|ops|] == ops;
    }
  }

  // ---------------------------------------------------------------- performing a run

  /** Would the worker issue the operation now? */
  method Issues(store: FileStore, op: Operation) returns (issued: bool)
    requires store.Valid() && store.Ready()
    ensures issued <==> Takes(store.View(), op)
    ensures issued ==> Fresh(op, store.disk.files)
  {
    FreshIff(op, store.disk.files, store.View());
    match op
    case Advance(_, to) => issued := WorkerTarget(to);
    case Append(a, _, _, freshId) => issued := EventPath(a, freshId) !in store.disk.files;
    case StoreResult(a, _, _) =>
      var known := store.base.Knows(a);
      var result := store.base.ResultOf(a);
      if known && result == None {
        var state := store.base.StateOf(a);
        issued := state == Started;
      } else {
        issued := true;
      }
    case _ => issued := true;
  }

  /**
   * Perform a run of operations, leaving out those the worker would not issue in the state
   * reached. Every state of the disk reopens as the journal before or after one of them, and
   * those that succeeded took effect in order. A write that fails, with or without its effect,
   * is where the run stops.
   */
  method Run(store: FileStore, ops: seq<Operation>)
    returns (replies: seq<Reply>, ghost stages: seq<Stage>, ghost last: Journal, ghost n: nat)
    requires store.Valid() && store.Ready() && SoundJournal(store.View())
    modifies store, store.base, store.disk
    ensures store.Valid() && old(store.disk.trace) <= store.disk.trace
    ensures old(store.disk.failed) ==> store.disk.failed
    ensures History(old(store.View()), stages, last, OpsIn(ops), store.Since(|old(store.disk.trace)|), store.disk.files)
    ensures Log(old(store.View()), ops, replies, stages, last, n, store.Ready())
    ensures store.Ready() || store.disk.failed
    ensures store.Ready() ==> store.View() == last
    ensures StepsWithin(store.disk.trace, store.maxBytes, store.maxRecords)
  {
    HistoryBegins(store, OpsIn(ops));
    hide *;
    replies, stages, last, n := RunAll(store, ops, store.View(), |store.disk.trace|);
    LimitsHold(store);
  }

  lemma LimitsHold(store: FileStore)
    requires store.Valid()
    ensures StepsWithin(store.disk.trace, store.maxBytes, store.maxRecords)
  {
  }

  method RunAll(store: FileStore, ops: seq<Operation>, ghost first: Journal, ghost start: nat)
    returns (replies: seq<Reply>, ghost stages: seq<Stage>, ghost last: Journal, ghost n: nat)
    requires store.Valid() && store.Ready() && store.View() == first && start <= |store.disk.trace|
    requires History(first, [], first, OpsIn(ops), store.Since(start), store.disk.files)
    modifies store, store.base, store.disk
    ensures store.Valid() && old(store.disk.trace) <= store.disk.trace
    ensures old(store.disk.failed) ==> store.disk.failed
    ensures History(first, stages, last, OpsIn(ops), store.Since(start), store.disk.files)
    ensures Log(first, ops, replies, stages, last, n, store.Ready()) && (store.Ready() || store.disk.failed)
    ensures store.Ready() ==> store.View() == last
  {
    hide *;
    replies, stages, last, n := [], [], first, 0;
    assert ops[..0] == [];
    LogBegins(first, store.Ready());
    for i := 0 to |ops|
      invariant store.Valid() && old(store.disk.trace) <= store.disk.trace
      invariant old(store.disk.failed) ==> store.disk.failed
      invariant History(first, stages, last, OpsIn(ops), store.Since(start), store.disk.files)
      invariant Log(first, ops[..i], replies, stages, last, n, store.Ready()) && (store.Ready() || store.disk.failed)
      invariant store.Ready() ==> store.View() == last
    {
      ghost var before, was, usable := stages, last, store.Ready();
      HistorySound(first, stages, last, OpsIn(ops), store.Since(start), store.disk.files);
      var reply;
      reply, stages, last := RunOne(store, ops[i], first, stages, last, OpsIn(ops), start);
      n := LogGrows(first, ops[..i], replies, before, was, n, usable, ops[i], reply, stages, last, store.Ready());
      replies := replies + [reply];
      assert ops[..i + 1] == ops[..i] + [ops[i]];
    }
    assert ops[..|ops|] == ops;
  }

  lemma HistoryBegins(store: FileStore, ops: set<Operation>)
    requires store.Valid() && store.Ready() && SoundJournal(store.View())
    ensures History(store.View(), [], store.View(), ops, store.Since(|store.disk.trace|), store.disk.files)
  {
    ReopensItself(store.disk.files, store.View());
    hide Reopens, SoundJournal;
    EmptyHistory(store.View(), ops, store.disk.files);
  }

  /** One operation of a run. */
  method RunOne(
    store: FileStore, op: Operation, ghost first: Journal, ghost before: seq<Stage>, ghost current: Journal,
    ghost ops: set<Operation>, ghost start: nat) returns (reply: Reply, ghost stages: seq<Stage>, ghost last: Journal)
    requires store.Valid() && op in ops && start <= |store.disk.trace|
    requires History(first, before, current, ops, store.Since(start), store.disk.files)
    requires store.Ready() ==> store.View() == current
    modifies store, store.base, store.disk
    ensures store.Valid() && old(store.disk.trace) <= store.disk.trace
    ensures old(store.disk.failed) ==> store.disk.failed
    ensures History(first, stages, last, ops, store.Since(start), store.disk.files)
    ensures store.Ready() ==> store.View() == last
    ensures Goes(op, reply, current, before, last, stages, old(store.Ready()), store.Ready())
    ensures old(store.Ready()) ==> store.Ready() || store.disk.failed
  {
    hide History, Takes, Effect, ReplyFits, MemoryStore.Valid, Represents, WithinLimits, StepsWithin, Numbered;
    stages, last := before, current;
    if !store.Ready() {
      return Unsure, stages, last;
    }
    var issued := Issues(store, op);
    if !issued {
      return Withheld, stages, last;
    }
    reply, stages, last := RunIssued(store, op, first, before, current, ops, start);
  }

  method RunIssued(
    store: FileStore, op: Operation, ghost first: Journal, ghost before: seq<Stage>, ghost current: Journal,
    ghost ops: set<Operation>, ghost start: nat) returns (reply: Reply, ghost stages: seq<Stage>, ghost last: Journal)
    requires store.Valid() && store.Ready() && store.View() == current && op in ops && start <= |store.disk.trace|
    requires Takes(current, op) && Fresh(op, store.disk.files)
    requires History(first, before, current, ops, store.Since(start), store.disk.files)
    modifies store, store.base, store.disk
    ensures store.Valid() && old(store.disk.trace) <= store.disk.trace
    ensures old(store.disk.failed) ==> store.disk.failed
    ensures History(first, stages, last, ops, store.Since(start), store.disk.files)
    ensures store.Ready() ==> store.View() == last
    ensures Goes(op, reply, current, before, last, stages, true, store.Ready())
    ensures store.Ready() || store.disk.failed
  {
    hide SoundJournal, Represents, MemoryStore.Valid, Reopens, WithinLimits, StepsWithin, History, StepsReopen, IsStage,
      Numbered, Recovered, Effect, ReplyFits, Issued, Fresh, NewId;
    ghost var was, trace, steps := store.disk.files, store.disk.trace, store.Since(start);
    HistorySound(first, before, current, ops, steps, was);
    reply := Perform(store, op);
    ghost var more := store.Since(|trace|);
    SinceJoins(trace, store.disk.trace, start);
    assert if more == [] then store.disk.files == was else store.disk.files == more[|more| - 1];
    assert steps + [] == steps;
    stages, last := before, current;
    if Effect(current, op).Ok? {
      if store.Ready() {
        ReopensItself(store.disk.files, store.View());
      }
      stages, last := RunStage(first, before, current, ops, steps, was, op, more, store.disk.files, store.Ready());
    }
  }

  lemma SinceJoins(trace: seq<Files>, longer: seq<Files>, start: nat)
    requires start <= |trace| && trace <= longer
    ensures longer[start..] == trace[start..] + longer[|trace|..]
    ensures longer[|trace|..] == [] ==> longer == trace
    ensures longer[|trace|..] != [] ==> longer[|trace|..][|longer| - |trace| - 1] == longer[|longer| - 1]
  {
  }

  /** The stage of an operation that has an effect; a failed one may leave the disk on either side. */
  lemma RunStage(
    first: Journal, stages: seq<Stage>, last: Journal, ops: set<Operation>, steps: seq<Files>, was: Files,
    op: Operation, more: seq<Files>, now: Files, ready: bool) returns (grown: seq<Stage>, next: Journal)
    requires History(first, stages, last, ops, steps, was) && op in ops && Effect(last, op).Ok?
    requires SoundJournal(Effect(last, op).value) && StepsReopen(more, last, Effect(last, op).value)
    requires if more == [] then now == was else now == more[|more| - 1]
    requires ready ==> Reopens(now, Effect(last, op).value)
    ensures History(first, grown, next, ops, steps + more, now)
    ensures var after := Effect(last, op).value;
            && grown == stages + [Stage(last, after, if ready then Did(op) else Tried(op))]
            && next in {last, after} && (ready ==> next == after)
  {
    hide History, Reopens, StepsReopen, Chain, Effect, SoundJournal, IsStage;
    var after := Effect(last, op).value;
    var s := Stage(last, after, if ready then Did(op) else Tried(op));
    HistorySound(first, stages, last, ops, steps, was);
    OperationStage(s, ops);
    LatestReopens(more, now, was, last, after);
    grown := stages + [s];
    next := if ready || Reopens(now, after) then after else last;
    HistoryGrows(first, stages, ops, steps, was, s, more, now, next);
  }

  lemma OperationStage(s: Stage, ops: set<Operation>)
    requires SoundJournal(s.before) && SoundJournal(s.after)
    requires !s.cause.Opening? && s.cause.op in ops && Effect(s.before, s.cause.op) == Ok(s.after)
    ensures IsStage(s, ops)
  {
  }

  // ---------------------------------------------------------------- both stores

  /** No operation of the run is one on which the stores differ when its turn comes. */
  ghost predicate AgreeAlong(j: Journal, ops: seq<Operation>) {
    forall i :: 0 <= i < |ops| ==> StoresAgree(Folded(j, ops[..i]), ops[i])
  }

  /** A run on both stores: the same answers and the same journal, unless a write fails. */
  method RunOnBoth(file: FileStore, memory: MemoryStore, ops: seq<Operation>) returns (f: seq<Reply>, m: seq<Reply>)
    requires memory != file.base
    requires file.Valid() && file.Ready() && SoundJournal(file.View()) && AgreeAlong(file.View(), ops)
    requires memory.Valid() && !memory.closed && memory.View() == file.View()
    modifies file, file.base, file.disk, memory
    ensures file.Valid() && memory.Valid() && !memory.closed && (file.Ready() || file.disk.failed)
    ensures file.Ready() ==>
              && f == m && RepliesFit(old(file.View()), ops, f)
              && memory.View() == file.View() == Folded(old(file.View()), ops)
  {
    hide MemoryStore.Valid, Represents, WithinLimits, StepsWithin, Numbered, SoundJournal, Takes, Effect, StoresAgree,
      RepliesFit, ReplyIs, Folded;
    ghost var first := file.View();
    f, m := [], [];
    BothBegin(first, ops);
    for i := 0 to |ops|
      invariant file.Valid() && memory.Valid() && !memory.closed && (file.Ready() || file.disk.failed)
      invariant file.Ready() ==> Both(first, ops[..i], f, m, file.View(), memory.View())
    {
      assert StoresAgree(Folded(first, ops[..i]), ops[i]);
      var x, y := Unsure, Unsure;
      if file.Ready() {
        x, y := OneOnBoth(file, memory, ops[i]);
      }
      if file.Ready() {
        BothGrow(first, ops, i, f, m, x);
      }
      f, m := f + [x], m + [y];
    }
    assert ops[..|ops|] == ops;
  }

  /** What a run on both stores has come to. */
  ghost predicate Both(
    first: Journal, ops: seq<Operation>, f: seq<Reply>, m: seq<Reply>, file: Journal, memory: Journal)
  {
    f == m && RepliesFit(first, ops, f) && SoundJournal(file) && memory == file == Folded(first, ops)
  }

  lemma BothBegin(first: Journal, ops: seq<Operation>)
    requires SoundJournal(first)
    ensures Both(first, ops[..0], [], [], first, first)
  {
    hide SoundJournal;
    assert ops[..0] == [];
  }

  lemma BothGrow(first: Journal, ops: seq<Operation>, i: nat, f: seq<Reply>, m: seq<Reply>, x: Reply)
    requires i < |ops| && f == m && RepliesFit(first, ops[..i], f) && ReplyIs(Folded(first, ops[..i]), ops[i], x)
    ensures f + [x] == m + [x] && RepliesFit(first, ops[..i + 1], f + [x])
    ensures Folded(first, ops[..i + 1]) == Taken(Folded(first, ops[..i]), ops[i])
  {
    hide RepliesFit, ReplyIs, Taken;
    FoldedSnoc(first, ops, i);
    RepliesGrow(first, ops[..i], f, ops[i], x);
    assert ops[..i + 1] == ops[..i] + [ops[i]];
  }

  method OneOnBoth(file: FileStore, memory: MemoryStore, op: Operation) returns (f: Reply, m: Reply)
    requires memory != file.base
    requires file.Valid() && file.Ready() && SoundJournal(file.View()) && StoresAgree(file.View(), op)
    requires memory.Valid() && !memory.closed && memory.View() == file.View()
    modifies file, file.base, file.disk, memory
    ensures file.Valid() && memory.Valid() && !memory.closed && (file.Ready() || file.disk.failed)
    ensures file.Ready() ==>
              && f == m && ReplyIs(old(file.View()), op, f) && SoundJournal(file.View())
              && memory.View() == file.View() == Taken(old(file.View()), op)
  {
    hide MemoryStore.Valid, Represents, WithinLimits, StepsWithin, Numbered, SoundJournal, Effect, StoresAgree,
      ReplyFits, Issued, NewId, Fresh;
    var issued := Issues(file, op);
    if !issued {
      return Withheld, Withheld;
    }
    f, m := PerformOnBoth(file, memory, op);
  }
}
