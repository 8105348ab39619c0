/**
 * The worker over its store: what every move of the worker does to the journal is a sequence
 * of store operations, issued under the conditions that the runs of the file store assume.
 */
module WorkerStore {
  import opened Prelude
  import opened Journal
  import opened Worker
  import opened WorkerInvariant
  import opened WorkerRuns
  import opened WorkerOperations
  import S = StoreRuns
  import opened WorkerCuts

  // ---------------------------------------------------------------- one record and the journal

  function At(j: Journal, a: AttemptId): Option<Entry> {
    if a in j then Some(j[a]) else None
  }

  function Put(j: Journal, a: AttemptId, e: Option<Entry>): Journal {
    if e.Some? then j[a := e.value] else j - {a}
  }

  predicate Keyed(j: Journal) {
    forall a :: a in j ==> j[a].rec.identity.attempt == a
  }

  /**
   * The operations take effect one after another, each issued as the runs of the store expect
   * and answered alike by the file store and the in-memory store.
   */
  ghost predicate Performs(j: Journal, ops: seq<S.Operation>, k: Journal)
    decreases |ops|
  {
    if ops == [] then k == j
    else
      && S.Takes(j, ops[0]) && S.StoresAgree(j, ops[0]) && S.Effect(j, ops[0]).Ok?
      && Performs(S.Effect(j, ops[0]).value, ops[1..], k)
  }

  /** The effect of an operation on the journal is its effect on the record of its attempt. */
  lemma EffectLifts(j: Journal, op: S.Operation)
    requires Keyed(j)
    ensures var a := AttemptOf(op);
            var r := EffectAt(At(j, a), op);
            && S.Effect(j, op) == (if r.Ok? then Ok(Put(j, a, r.value)) else Err(r.error))
            && (r.Ok? ==> Keyed(Put(j, a, r.value)) && At(Put(j, a, r.value), a) == r.value)
  {
    var a := AttemptOf(op);
    hide MayMove, Terminal;
    assert a in j ==> j[a := j[a]] == j;
  }

  lemma IssuedLifts(j: Journal, op: S.Operation)
    requires Keyed(j) && IssuedAt(At(j, AttemptOf(op)), op) && EffectAt(At(j, AttemptOf(op)), op).Ok?
    ensures S.Takes(j, op) && S.StoresAgree(j, op)
  {
    hide EffectAt;
  }

  lemma {:induction false} PerformsLifts(j: Journal, a: AttemptId, ops: seq<S.Operation>, f: Option<Entry>)
    requires Keyed(j) && PerformsAt(a, At(j, a), ops, f)
    ensures Performs(j, ops, Put(j, a, f)) && Keyed(Put(j, a, f)) && At(Put(j, a, f), a) == f
    decreases |ops|
  {
    hide IssuedAt, EffectAt, Keyed;
    if ops == [] {
      assert Put(j, a, f) == j;
    } else {
      var m := EffectAt(At(j, a), ops[0]).value;
      EffectLifts(j, ops[0]);
      IssuedLifts(j, ops[0]);
      PerformsLifts(Put(j, a, m), a, ops[1..], f);
      assert Put(Put(j, a, m), a, f) == Put(j, a, f);
      hide S.Takes, S.StoresAgree, S.Effect;
    }
  }

  // ---------------------------------------------------------------- moves

  /** Every slot holds the entry that the journal has for its attempt. */
  ghost predicate Mirrors(w: World, j: Journal) {
    Keyed(j) && forall a :: SlotOf(w, a).entry == At(j, a)
  }

  /** What a move does to the journal. */
  ghost predicate MoveIsStored(w: World, j: Journal, m: Move, k: Journal)
    requires Allowed(w, m)
  {
    match m
    case Act(a, step) => Performs(j, StepOps(w.sh, a, SlotOf(w, a), step), k)
    case Fault(a, step, _) =>
      var ops := StepOps(w.sh, a, SlotOf(w, a), step);
      exists n :: 0 <= n <= |ops| && Performs(j, ops[..n], k)
    case Fence => k == j
    case Restart => Recovered(j) == Ok(k)
  }

  lemma PutMirrors(w: World, j: Journal, a: AttemptId, y: Slot, sh: Shared)
    requires Mirrors(w, j) && Keyed(Put(j, a, y.entry))
    ensures Mirrors(World(sh, w.slots[a := y]), Put(j, a, y.entry))
  {
    var v := World(sh, w.slots[a := y]);
    forall b ensures SlotOf(v, b).entry == At(Put(j, a, y.entry), b) {
      assert SlotOf(w, b).entry == At(j, b);
    }
  }

  lemma SlotOfAttempt(w: World, j: Journal, a: AttemptId)
    requires WorldInv(w) && Mirrors(w, j)
    ensures Keyed(j) && Inv(w.sh, SlotOf(w, a)) && SlotOf(w, a).entry == At(j, a) && Belongs(a, SlotOf(w, a))
  {
    hide Inv;
  }

  lemma ActIsStored(w: World, j: Journal, m: Move) returns (k: Journal)
    requires WorldInv(w) && Mirrors(w, j) && Allowed(w, m) && m.Act?
    ensures MoveIsStored(w, j, m, k) && Mirrors(Next(w, m), k)
  {
    SlotOfAttempt(w, j, m.attempt);
    hide Inv, WorldInv, Enabled, Apply, StepOps, PerformsAt, Performs, CutShort, PartlyAt, Mirrors, Keyed, Belongs;
    var x := SlotOf(w, m.attempt);
    var y := Apply(w.sh, x, m.step);
    StepPerforms(w.sh, m.attempt, x, m.step);
    PerformsLifts(j, m.attempt, StepOps(w.sh, m.attempt, x, m.step), y.entry);
    PutMirrors(w, j, m.attempt, y, w.sh);
    k := Put(j, m.attempt, y.entry);
    hide SlotOf;
  }

  lemma FaultIsStored(w: World, j: Journal, m: Move) returns (k: Journal)
    requires WorldInv(w) && Mirrors(w, j) && Allowed(w, m) && m.Fault?
    ensures MoveIsStored(w, j, m, k) && Mirrors(Next(w, m), k)
  {
    SlotOfAttempt(w, j, m.attempt);
    hide Inv, WorldInv, Enabled, Apply, StepOps, PerformsAt, Performs, CutShort, Mirrors, Keyed, Belongs;
    var x := SlotOf(w, m.attempt);
    var ops := StepOps(w.sh, m.attempt, x, m.step);
    StepPerforms(w.sh, m.attempt, x, m.step);
    NoneAt(m.attempt, x.entry, ops);
    var n :| 0 <= n <= |ops| && PerformsAt(m.attempt, x.entry, ops[..n], m.left.entry);
    PerformsLifts(j, m.attempt, ops[..n], m.left.entry);
    PutMirrors(w, j, m.attempt, m.left, w.sh.(poisoned := true));
    k := Put(j, m.attempt, m.left.entry);
    hide SlotOf;
  }

  /** The other way round: wherever a store failure can stop a step, the worker's run has that failure. */
  lemma EveryStopIsAFault(w: World, j: Journal, a: AttemptId, step: Step, n: nat, k: Journal) returns (m: Move)
    requires WorldInv(w) && Mirrors(w, j) && Allowed(w, Act(a, step)) && NeedsStore(step)
    requires n <= |StepOps(w.sh, a, SlotOf(w, a), step)|
    requires Performs(j, StepOps(w.sh, a, SlotOf(w, a), step)[..n], k)
    ensures m.Fault? && m.attempt == a && m.step == step && Allowed(w, m) && Mirrors(Next(w, m), k)
  {
    SlotOfAttempt(w, j, a);
    hide Inv, WorldInv, Enabled, Apply, StepOps, Performs, CutShort, Mirrors, Keyed, Belongs, NeedsStore;
    var left := StopLeaves(w.sh, j, a, SlotOf(w, a), step, n, k);
    PutMirrors(w, j, a, left, w.sh.(poisoned := true));
    m := Fault(a, step, left);
    hide SlotOf;
  }

  lemma StopLeaves(sh: Shared, j: Journal, a: AttemptId, x: Slot, step: Step, n: nat, k: Journal) returns (left: Slot)
    requires Inv(sh, x) && Enabled(sh, x, step) && (step.Offer? ==> step.identity.attempt == a)
    requires Keyed(j) && x.entry == At(j, a) && Belongs(a, x)
    requires n <= |StepOps(sh, a, x, step)| && Performs(j, StepOps(sh, a, x, step)[..n], k)
    ensures (left == x || CutShort(sh, x, step, left)) && k == Put(j, a, left.entry) && Keyed(k)
  {
    hide Inv, Enabled, Apply, StepOps, PerformsAt, Performs, CutShort, Keyed, Belongs;
    var ops := StepOps(sh, a, x, step);
    StepPerforms(sh, a, x, step);
    var f := PrefixAt(a, x.entry, ops, n, Apply(sh, x, step).entry);
    PerformsLifts(j, a, ops[..n], f);
    PerformsUnique(j, ops[..n], k, Put(j, a, f));
    StepCuts(sh, a, x, step, n, f);
    left := Remains(sh, x, step, f);
  }

  lemma Remains(sh: Shared, x: Slot, step: Step, f: Option<Entry>) returns (left: Slot)
    requires Enabled(sh, x, step) && LeavesRecord(sh, x, step, f)
    ensures (left == x || CutShort(sh, x, step, left)) && left.entry == f
  {
    hide CutShort;
    if f == x.entry {
      left := x;
    } else {
      left :| CutShort(sh, x, step, left) && left.entry == f;
    }
  }

  lemma {:induction false} PrefixAt(a: AttemptId, e: Option<Entry>, ops: seq<S.Operation>, n: nat, f: Option<Entry>)
    returns (g: Option<Entry>)
    requires PerformsAt(a, e, ops, f) && n <= |ops|
    ensures PerformsAt(a, e, ops[..n], g)
    decreases n
  {
    hide IssuedAt, EffectAt;
    if n == 0 {
      g := e;
    } else {
      g := PrefixAt(a, EffectAt(e, ops[0]).value, ops[1..], n - 1, f);
      assert ops[..n][1..] == ops[1..][..n - 1];
    }
  }

  lemma {:induction false} PerformsUnique(j: Journal, ops: seq<S.Operation>, k: Journal, l: Journal)
    requires Performs(j, ops, k) && Performs(j, ops, l)
    ensures k == l
    decreases |ops|
  {
    hide S.Takes, S.StoresAgree, S.Effect;
    if ops != [] {
      PerformsUnique(S.Effect(j, ops[0]).value, ops[1..], k, l);
    }
  }

  /** A restart of the worker is a reopening of its store. */
  lemma RestartIsReopening(w: World, j: Journal)
    requires WorldInv(w) && Mirrors(w, j)
    ensures Recovered(j).Ok? && Mirrors(Next(w, Restart), Recovered(j).value)
  {
    forall a | a in j ensures Repaired(j[a]).Ok? && Repaired(j[a]).value.rec.identity == j[a].rec.identity {
      assert Inv(w.sh, SlotOf(w, a)) && SlotOf(w, a).entry == At(j, a);
      FittingEntryReopens(j[a], SlotOf(w, a), w.sh);
    }
    hide Repaired, Inv, WorldInv;
    forall a ensures SlotOf(Next(w, Restart), a).entry == At(Recovered(j).value, a) {
      assert SlotOf(w, a).entry == At(j, a);
    }
  }

  lemma FittingEntryReopens(e: Entry, x: Slot, sh: Shared)
    requires Inv(sh, x) && x.entry == Some(e)
    ensures Repaired(e).Ok? && Repaired(e).value.rec.identity == e.rec.identity
  {
    hide Repaired;
    RepairedSound(e);
  }

  /** Every move does to the journal what its store operations do. */
  lemma MoveStored(w: World, j: Journal, m: Move) returns (k: Journal)
    requires WorldInv(w) && Mirrors(w, j) && Allowed(w, m)
    ensures MoveIsStored(w, j, m, k) && Mirrors(Next(w, m), k)
  {
    hide WorldInv;
    match m
    case Act(_, _) => k := ActIsStored(w, j, m);
    case Fault(_, _, _) => k := FaultIsStored(w, j, m);
    case Fence => k := j;
    case Restart =>
      RestartIsReopening(w, j);
      k := Recovered(j).value;
  }

  // ---------------------------------------------------------------- runs

  /** The journals along a run, one before each move and one at the end. */
  ghost predicate RunIsStored(w: World, moves: seq<Move>, journals: seq<Journal>)
    requires Run(w, moves)
    decreases |moves|
  {
    if moves == [] then |journals| == 1
    else
      && |journals| >= 2 && MoveIsStored(w, journals[0], moves[0], journals[1])
      && RunIsStored(Next(w, moves[0]), moves[1..], journals[1..])
  }

  /** So does every run, over faults and restarts, and the slots hold the journal at its end. */
  lemma {:induction false} RunStored(w: World, j: Journal, moves: seq<Move>) returns (journals: seq<Journal>)
    requires WorldInv(w) && Mirrors(w, j) && Run(w, moves)
    ensures RunIsStored(w, moves, journals) && journals[0] == j
    ensures Mirrors(After(w, moves), journals[|journals| - 1])
    decreases |moves|
  {
    hide WorldInv, Mirrors, MoveIsStored, Next, Allowed;
    if moves == [] {
      journals := [j];
    } else {
      var k := MoveStored(w, j, moves[0]);
      NextKeeps(w, moves[0]);
      var rest := RunStored(Next(w, moves[0]), k, moves[1..]);
      journals := [j] + rest;
      assert journals[1..] == rest;
    }
  }
}
