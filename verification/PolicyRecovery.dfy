/**
 * Recovery from a changed Runtime policy, for any number of concurrent operations. One step
 * is the code of one operation between two awaits; the recovery lock is held across an await
 * only by the operation that leads a rediscovery.
 */
module PolicyRecovery {
  import opened Prelude

  type OpId = nat
  type ErrorId = nat

  /** How an operation ended; `Joined` is the Ready a direct caller of the recovery was given. */
  datatype End = Answered | Raised(error: ErrorId) | Joined(ready: nat) | Withdrawn

  /** Where an operation is; a direct caller asks for the recovery without a call of its own. */
  datatype Stage =
    | Calling(observed: nat, again: bool)
    | Waiting(observed: nat, direct: bool)
    | Leading(observed: nat, direct: bool)
    | Persisting
    | Ended(end: End)

  datatype Op = Op(stage: Stage, calls: nat)

  /** The fields of the worker; a Ready is named after the rediscoveries that led to it, 0 being the first attach. */
  datatype Gate = Gate(
    revision: nat, lastObserved: Option<nat>, lastError: Option<ErrorId>, terminal: Option<ErrorId>,
    ready: Option<nat>, leader: Option<OpId>)

  /**
   * `started` are the observed revisions of the rediscoveries so far, `completed` those that gave
   * a Ready, and `withdrawn` those whose leader was cancelled.
   */
  datatype World = World(
    gate: Gate, ops: map<OpId, Op>, started: seq<nat>, completed: set<nat>, withdrawn: set<nat>, calls: nat)

  function Start(ready: Option<nat>): World {
    World(Gate(0, None, None, None, ready, None), map[], [], {}, {}, 0)
  }

  function With(w: World, id: OpId, op: Op): World {
    w.(ops := w.ops[id := op])
  }

  function Ending(w: World, id: OpId, end: End): World
    requires id in w.ops
  {
    With(w, id, w.ops[id].(stage := Ended(end)))
  }

  /** The lock is taken for a moment, then the operation is called. */
  function EnterStep(w: World, id: OpId): World {
    if w.gate.terminal.Some? then With(w, id, Op(Ended(Raised(w.gate.terminal.value)), 0))
    else With(w, id, Op(Calling(w.gate.revision, false), 1)).(calls := w.calls + 1)
  }

  /** The recovery gave a Ready: the operation is called once more, a direct caller returns. */
  function Resumed(w: World, id: OpId, observed: nat, direct: bool, ready: nat): World
    requires id in w.ops
  {
    if direct then Ending(w, id, Joined(ready))
    else With(w, id, Op(Calling(observed, true), w.ops[id].calls + 1)).(calls := w.calls + 1)
  }

  /** The start of a recovery, once the lock is free. */
  function RecoverStep(w: World, id: OpId, observed: nat, direct: bool, freshError: ErrorId): World
    requires id in w.ops
  {
    var g := w.gate;
    if g.terminal.Some? then Ending(w, id, Raised(g.terminal.value))
    else if observed != g.revision then
      if g.lastObserved == Some(observed) && g.lastError.Some? then Ending(w, id, Raised(g.lastError.value))
      else if g.ready == None then Ending(w, id, Raised(freshError))
      else Resumed(w, id, observed, direct, g.ready.value)
    else
      With(w, id, w.ops[id].(stage := Leading(observed, direct))).(
        gate := g.(revision := g.revision + 1, lastObserved := Some(observed), lastError := None, leader := Some(id)),
        started := w.started + [observed])
  }

  function RediscoveredStep(w: World, id: OpId, observed: nat, direct: bool): World
    requires id in w.ops
  {
    var ready := w.gate.revision;
    var v := w.(gate := w.gate.(ready := Some(ready), leader := None), completed := w.completed + {observed});
    Resumed(v, id, observed, direct, ready)
  }

  function BrokeStep(w: World, id: OpId, error: ErrorId): World
    requires id in w.ops
  {
    Ending(w.(gate := w.gate.(lastError := Some(error), terminal := Some(error), leader := None)), id, Raised(error))
  }

  /** A second signal after a recovery becomes the shared terminal error, unless there is one. */
  function PersistStep(w: World, id: OpId, error: ErrorId): World
    requires id in w.ops
  {
    if w.gate.terminal.Some? then Ending(w, id, Raised(w.gate.terminal.value))
    else Ending(w.(gate := w.gate.(lastError := Some(error), terminal := Some(error))), id, Raised(error))
  }

  datatype Step =
    | Enter(id: OpId)
    | EnterDirect(id: OpId)
    | Answer(id: OpId)
    | Signal(id: OpId)
    | Recover(id: OpId, freshError: ErrorId)
    | Rediscovered(id: OpId)
    | Broke(id: OpId, error: ErrorId)
    | Persist(id: OpId, error: ErrorId)
    | Withdraw(id: OpId)

  predicate Enabled(w: World, step: Step) {
    match step
    case Enter(id) => id !in w.ops && w.gate.leader == None
    case EnterDirect(id) => id !in w.ops
    case Answer(id) => id in w.ops && w.ops[id].stage.Calling?
    case Signal(id) => id in w.ops && w.ops[id].stage.Calling?
    case Recover(id, _) => id in w.ops && w.ops[id].stage.Waiting? && w.gate.leader == None
    case Rediscovered(id) => id in w.ops && w.ops[id].stage.Leading?
    case Broke(id, _) => id in w.ops && w.ops[id].stage.Leading?
    case Persist(id, _) => id in w.ops && w.ops[id].stage.Persisting? && w.gate.leader == None
    case Withdraw(id) => id in w.ops && !w.ops[id].stage.Ended?
  }

  function Apply(w: World, step: Step): World
    requires Enabled(w, step)
  {
    match step
    case Enter(id) => EnterStep(w, id)
    case EnterDirect(id) => With(w, id, Op(Waiting(w.gate.revision, true), 0))
    case Answer(id) => Ending(w, id, Answered)
    case Signal(id) =>
      var s := w.ops[id].stage;
      With(w, id, w.ops[id].(stage := if s.again then Persisting else Waiting(s.observed, false)))
    case Recover(id, freshError) =>
      RecoverStep(w, id, w.ops[id].stage.observed, w.ops[id].stage.direct, freshError)
    case Rediscovered(id) => RediscoveredStep(w, id, w.ops[id].stage.observed, w.ops[id].stage.direct)
    case Broke(id, error) => BrokeStep(w, id, error)
    case Persist(id, error) => PersistStep(w, id, error)
    case Withdraw(id) =>
      var v := if w.ops[id].stage.Leading?
               then w.(gate := w.gate.(leader := None), withdrawn := w.withdrawn + {w.ops[id].stage.observed})
               else w;
      Ending(v, id, Withdrawn)
  }

  predicate Run(w: World, steps: seq<Step>)
    decreases |steps|
  {
    steps == [] || (Enabled(w, steps[0]) && Run(Apply(w, steps[0]), steps[1..]))
  }

  function After(w: World, steps: seq<Step>): World
    requires Run(w, steps)
    decreases |steps|
  {
    if steps == [] then w else After(Apply(w, steps[0]), steps[1..])
  }

  // ---------------------------------------------------------------- the invariant

  /** What the stage of an operation says about its calls and about the gate. */
  predicate OpFits(g: Gate, id: OpId, op: Op) {
    match op.stage
    case Calling(observed, again) =>
      (if again then op.calls == 2 && observed < g.revision else op.calls == 1 && observed <= g.revision)
    case Waiting(observed, direct) => op.calls == (if direct then 0 else 1) && observed <= g.revision
    case Leading(observed, direct) =>
      op.calls == (if direct then 0 else 1) && observed + 1 == g.revision && g.leader == Some(id)
    case Persisting => op.calls == 2
    case Ended(_) => op.calls <= 2
  }

  ghost predicate OpsFit(w: World) {
    && (forall id :: id in w.ops ==> OpFits(w.gate, id, w.ops[id]))
    && (w.gate.leader.Some? ==> w.gate.leader.value in w.ops && w.ops[w.gate.leader.value].stage.Leading?
                                && w.gate.terminal == None)
  }

  /** Rediscoveries are numbered by the revisions they were started at. */
  ghost predicate Numbered(w: World) {
    && |w.started| == w.gate.revision
    && (forall i :: 0 <= i < |w.started| ==> w.started[i] == i)
    && (w.gate.revision > 0 ==> w.gate.lastObserved == Some(w.gate.revision - 1))
    && (w.gate.revision == 0 ==> w.gate.lastObserved == None)
  }

  /** The current Ready comes from the latest rediscovery that completed. */
  ghost predicate ReadyFits(w: World) {
    && (forall r :: r in w.completed ==> r < w.gate.revision && w.gate.ready.Some? && r < w.gate.ready.value)
    && (w.gate.ready.Some? && w.gate.ready.value > 0 ==> w.gate.ready.value - 1 in w.completed)
    && (w.gate.leader.Some? ==> w.gate.revision - 1 !in w.completed && w.gate.revision - 1 !in w.withdrawn)
    && w.completed !! w.withdrawn
  }

  /** Every rediscovery completed, was withdrawn, is still led, or broke into the terminal error. */
  ghost predicate Settled(w: World) {
    && (forall r :: r in w.withdrawn ==> r < w.gate.revision)
    && (forall r: nat :: r < w.gate.revision && w.gate.terminal == None && r !in w.completed && r !in w.withdrawn ==>
          r == w.gate.revision - 1 && w.gate.leader.Some?)
  }

  ghost predicate Inv(w: World) {
    OpsFit(w) && Numbered(w) && ReadyFits(w) && Settled(w) && w.gate.lastError == w.gate.terminal
  }

  lemma RecoverKeeps(w: World, id: OpId, freshError: ErrorId)
    requires Inv(w) && Enabled(w, Recover(id, freshError))
    ensures Inv(Apply(w, Recover(id, freshError)))
  {
  }

  lemma StepKeeps(w: World, step: Step)
    requires Inv(w) && Enabled(w, step)
    ensures Inv(Apply(w, step))
  {
    if step.Recover? {
      RecoverKeeps(w, step.id, step.freshError);
    } else {
      hide RecoverStep;
    }
  }

  lemma {:induction false} RunKeeps(w: World, steps: seq<Step>)
    requires Inv(w) && Run(w, steps)
    ensures Inv(After(w, steps))
    decreases |steps|
  {
    hide Inv, Apply;
    if steps != [] {
      StepKeeps(w, steps[0]);
      RunKeeps(Apply(w, steps[0]), steps[1..]);
    }
  }

  // ---------------------------------------------------------------- the promises

  /** Nothing has been recovered yet, and the first attach may or may not have given a Ready. */
  predicate Initial(ready: Option<nat>) {
    ready == None || ready == Some(0)
  }

  /**
   * However operations interleave: rediscoveries started equal the revision and there is one
   * for each earlier revision; at most one runs; every operation is called at most twice.
   */
  lemma OneRediscoveryPerRevision(ready: Option<nat>, steps: seq<Step>)
    requires Initial(ready) && Run(Start(ready), steps)
    ensures var w := After(Start(ready), steps);
            && |w.started| == w.gate.revision
            && (forall i :: 0 <= i < |w.started| ==> w.started[i] == i)
            && (forall i, j ::
                  i in w.ops && j in w.ops && w.ops[i].stage.Leading? && w.ops[j].stage.Leading? ==> i == j)
            && (forall i :: i in w.ops ==> w.ops[i].calls <= 2)
  {
    RunKeeps(Start(ready), steps);
    hide Run, After;
    var w := After(Start(ready), steps);
    forall i | i in w.ops ensures w.ops[i].calls <= 2 && (w.ops[i].stage.Leading? ==> w.gate.leader == Some(i)) {
      assert OpFits(w.gate, i, w.ops[i]);
    }
  }

  /** How an operation that came after the terminal error can look. */
  predicate TurnedAway(op: Op, error: ErrorId) {
    op.calls == 0 && (op.stage == Ended(Raised(error)) || op.stage == Ended(Withdrawn) || op.stage.Waiting?)
  }

  /** `w` has a terminal error, and the operations in `known` are those that were there before it. */
  ghost predicate Over(w: World, error: ErrorId, known: set<OpId>) {
    && w.gate.terminal == Some(error)
    && (forall id :: id in w.ops && id !in known ==> TurnedAway(w.ops[id], error))
  }

  lemma OverStays(w: World, step: Step, error: ErrorId, known: set<OpId>)
    requires Inv(w) && Enabled(w, step) && Over(w, error, known)
    ensures var v := Apply(w, step);
            && Over(v, error, known) && v.calls == w.calls && v.started == w.started
            && forall id :: id in w.ops ==> id in v.ops && v.ops[id].calls == w.ops[id].calls
  {
  }

  /**
   * Once the terminal error is set it never changes; from then on nothing is called, no
   * rediscovery starts, and an operation that enters raises that very error.
   */
  lemma {:induction false} TerminalErrorIsFinal(w: World, steps: seq<Step>, error: ErrorId, known: set<OpId>)
    requires Inv(w) && Run(w, steps) && Over(w, error, known)
    ensures var v := After(w, steps);
            && Over(v, error, known) && v.calls == w.calls && v.started == w.started
            && forall id :: id in w.ops ==> id in v.ops && v.ops[id].calls == w.ops[id].calls
    decreases |steps|
  {
    hide Inv, Over, Apply;
    if steps != [] {
      StepKeeps(w, steps[0]);
      OverStays(w, steps[0], error, known);
      TerminalErrorIsFinal(Apply(w, steps[0]), steps[1..], error, known);
    }
  }

  /** A waiting operation is about to follow a rediscovery that is over. */
  predicate Follows(w: World, id: OpId) {
    && id in w.ops && w.ops[id].stage.Waiting? && w.gate.leader == None
    && w.gate.terminal == None && w.ops[id].stage.observed != w.gate.revision && w.gate.ready.Some?
  }

  /**
   * A follower goes on with the current Ready. That Ready is no newer than the revision at which
   * its own call was made exactly when every rediscovery from that revision on was led by an
   * operation that was cancelled: a cancelled leader leaves its followers with the old Ready.
   */
  lemma FollowerIsStaleIff(ready: Option<nat>, steps: seq<Step>, id: OpId, freshError: ErrorId)
    requires Initial(ready) && Run(Start(ready), steps) && Follows(After(Start(ready), steps), id)
    ensures var w := After(Start(ready), steps);
            var observed := w.ops[id].stage.observed;
            && Apply(w, Recover(id, freshError)) == Resumed(w, id, observed, w.ops[id].stage.direct, w.gate.ready.value)
            && (w.gate.ready.value <= observed
                <==> forall r: nat :: observed <= r < w.gate.revision ==> r in w.withdrawn)
  {
    RunKeeps(Start(ready), steps);
    hide Run, After;
    var w := After(Start(ready), steps);
    var observed := w.ops[id].stage.observed;
    assert OpFits(w.gate, id, w.ops[id]);
    if w.gate.ready.value > observed {
      assert w.gate.ready.value - 1 in w.completed;
    }
  }

  // ---------------------------------------------------------------- how operations end

  /** How often the calls of an operation met the policy signal. */
  function Signals(steps: seq<Step>, id: OpId): nat
    decreases |steps|
  {
    if steps == [] then 0
    else Signals(steps[..|steps| - 1], id) + if steps[|steps| - 1] == Signal(id) then 1 else 0
  }

  /** The last step of an operation. */
  function LastOf(steps: seq<Step>, id: OpId): Option<Step>
    decreases |steps|
  {
    if steps == [] then None
    else if steps[|steps| - 1].id == id then Some(steps[|steps| - 1])
    else LastOf(steps[..|steps| - 1], id)
  }

  lemma {:induction false} RunSnoc(w: World, steps: seq<Step>)
    requires Run(w, steps) && steps != []
    ensures var n := |steps| - 1;
            && Run(w, steps[..n]) && Enabled(After(w, steps[..n]), steps[n])
            && After(w, steps) == Apply(After(w, steps[..n]), steps[n])
    decreases |steps|
  {
    hide Enabled, Apply;
    var n := |steps| - 1;
    if n == 0 {
      assert steps[1..] == [] && steps[..0] == [];
    } else {
      var v := Apply(w, steps[0]);
      RunSnoc(v, steps[1..]);
      assert steps[1..][..n - 1] == steps[..n][1..] && steps[..n][0] == steps[0];
      assert steps[1..][n - 1] == steps[n];
    }
  }

  /**
   * What the steps of an operation say about it: `met` signals, `direct` if it asked for the
   * recovery without a call, and `last` its last step. A call is made on entry and once more
   * after a recovery, so there is one call more than signals whenever a call is under way or
   * was answered; and an operation ends as its last step says.
   */
  predicate Traced(g: Gate, op: Op, id: OpId, met: nat, direct: bool, last: Step) {
    match op.stage
    case Calling(_, again) => !direct && met == (if again then 1 else 0) && op.calls == met + 1
    case Waiting(_, d) => d == direct && op.calls == met == if direct then 0 else 1
    case Leading(_, d) => d == direct && op.calls == met == if direct then 0 else 1
    case Persisting => !direct && op.calls == met == 2
    case Ended(Answered) => !direct && last == Answer(id) && met <= 1 && op.calls == met + 1
    case Ended(Joined(_)) => direct && (last.Rediscovered? || last.Recover?) && op.calls == met == 0
    case Ended(Withdrawn) => last == Withdraw(id)
    case Ended(Raised(e)) =>
      && op.calls == met <= 2 && (met == 2 ==> last.Persist?)
      && (g.terminal == Some(e) || last == Recover(id, e))
      && (last.Enter? || last.Recover? || last.Broke? || last.Persist?)
  }

  ghost predicate AllTraced(w: World, steps: seq<Step>) {
    forall id ::
      && (id in w.ops <==> LastOf(steps, id).Some?)
      && (id !in w.ops ==> Signals(steps, id) == 0 && EnterDirect(id) !in steps)
      && (id in w.ops ==>
            Traced(w.gate, w.ops[id], id, Signals(steps, id), EnterDirect(id) in steps, LastOf(steps, id).value))
  }

  lemma StepTraced(w: World, steps: seq<Step>, step: Step)
    requires Inv(w) && Enabled(w, step) && AllTraced(w, steps)
    ensures AllTraced(Apply(w, step), steps + [step])
  {
    var v, more := Apply(w, step), steps + [step];
    assert more[..|steps|] == steps && more[|steps|] == step;
    forall id
      ensures id in v.ops <==> LastOf(more, id).Some?
      ensures id !in v.ops ==> Signals(more, id) == 0 && EnterDirect(id) !in more
      ensures id in v.ops ==>
                Traced(v.gate, v.ops[id], id, Signals(more, id), EnterDirect(id) in more, LastOf(more, id).value)
    {
      assert EnterDirect(id) in more <==> EnterDirect(id) in steps || step == EnterDirect(id);
      OneTraced(w, steps, step, id);
    }
  }

  lemma OneTraced(w: World, steps: seq<Step>, step: Step, id: OpId)
    requires Inv(w) && Enabled(w, step) && AllTraced(w, steps)
    ensures var v := Apply(w, step);
            var met := Signals(steps, id) + if step == Signal(id) then 1 else 0;
            && (id in v.ops <==> id in w.ops || step.id == id)
            && (id !in v.ops ==> met == 0)
            && (id in v.ops ==>
                  Traced(v.gate, v.ops[id], id, met, EnterDirect(id) in steps || step == EnterDirect(id),
                         if step.id == id then step else LastOf(steps, id).value))
  {
    hide Signals, LastOf, Inv;
    if step.id != id {
      OthersUntouched(w, step, id);
      hide Apply, Enabled;
    } else {
      var met, direct := Signals(steps, id), EnterDirect(id) in steps;
      if step.Recover? {
        RecoverTraced(w, step, met, direct);
      } else if id in w.ops {
        NextTraced(w, step, met, direct, LastOf(steps, id).value);
      } else {
        FirstTraced(w, step);
      }
      hide Apply, Enabled, Traced;
    }
  }

  lemma FirstTraced(w: World, step: Step)
    requires Inv(w) && Enabled(w, step) && step.id !in w.ops
    ensures var v := Apply(w, step);
            && step.id in v.ops && !step.Signal?
            && Traced(v.gate, v.ops[step.id], step.id, 0, step.EnterDirect?, step)
  {
  }

  lemma NextTraced(w: World, step: Step, met: nat, direct: bool, last: Step)
    requires Inv(w) && Enabled(w, step) && step.id in w.ops && !step.Recover?
    requires Traced(w.gate, w.ops[step.id], step.id, met, direct, last)
    ensures var v := Apply(w, step);
            && step.id in v.ops && !step.EnterDirect?
            && Traced(v.gate, v.ops[step.id], step.id, met + if step.Signal? then 1 else 0, direct, step)
  {
    assert OpFits(w.gate, step.id, w.ops[step.id]);
  }

  lemma RecoverTraced(w: World, step: Step, met: nat, direct: bool)
    requires Inv(w) && Enabled(w, step) && step.Recover?
    requires exists last :: Traced(w.gate, w.ops[step.id], step.id, met, direct, last)
    ensures var v := Apply(w, step);
            step.id in v.ops && Traced(v.gate, v.ops[step.id], step.id, met, direct, step)
  {
    assert OpFits(w.gate, step.id, w.ops[step.id]);
  }

  lemma OthersUntouched(w: World, step: Step, id: OpId)
    requires Inv(w) && Enabled(w, step) && step.id != id
    ensures var v := Apply(w, step);
            && (id in v.ops <==> id in w.ops) && (id in w.ops ==> v.ops[id] == w.ops[id])
            && (w.gate.terminal.Some? ==> v.gate.terminal == w.gate.terminal)
  {
  }

  /**
   * An operation that ended answered was called exactly once more than it met the signal, so
   * twice after one signal and once without; and every other end is the one its last step says,
   * with an error that is the terminal one, unless no Ready was there to go on with.
   */
  lemma {:induction false} OperationsEndAsTraced(ready: Option<nat>, steps: seq<Step>)
    requires Initial(ready) && Run(Start(ready), steps)
    ensures AllTraced(After(Start(ready), steps), steps)
    decreases |steps|
  {
    hide Enabled, Apply;
    if steps != [] {
      var n := |steps| - 1;
      RunSnoc(Start(ready), steps);
      OperationsEndAsTraced(ready, steps[..n]);
      RunKeeps(Start(ready), steps[..n]);
      hide Inv, AllTraced, Run, After;
      StepTraced(After(Start(ready), steps[..n]), steps[..n], steps[n]);
      assert steps[..n] + [steps[n]] == steps;
    }
  }

  /** The operation came in when this was the revision. */
  ghost predicate CameAt(w: World, steps: seq<Step>, id: OpId, revision: nat)
    requires Run(w, steps)
  {
    exists k :: 0 <= k < |steps| && steps[k] in {Enter(id), EnterDirect(id)} && Run(w, steps[..k])
                && After(w, steps[..k]).gate.revision == revision
  }

  /** The revision that an operation goes by, where it has one. */
  function Observed(stage: Stage): Option<nat> {
    match stage
    case Calling(observed, _) => Some(observed)
    case Waiting(observed, _) => Some(observed)
    case Leading(observed, _) => Some(observed)
    case _ => None
  }

  ghost predicate KeepsRevision(w: World, steps: seq<Step>, v: World)
    requires Run(w, steps)
  {
    forall id :: id in v.ops && Observed(v.ops[id].stage).Some? ==>
      CameAt(w, steps, id, Observed(v.ops[id].stage).value)
  }

  lemma CameStays(w: World, steps: seq<Step>, id: OpId, revision: nat)
    requires Run(w, steps) && steps != [] && Run(w, steps[..|steps| - 1])
    requires CameAt(w, steps[..|steps| - 1], id, revision)
    ensures CameAt(w, steps, id, revision)
  {
    var before := steps[..|steps| - 1];
    var k :| 0 <= k < |before| && before[k] in {Enter(id), EnterDirect(id)} && Run(w, before[..k])
             && After(w, before[..k]).gate.revision == revision;
    assert before[..k] == steps[..k] && before[k] == steps[k];
  }

  /**
   * An operation goes by the revision at which it came in, for as long as it lasts: one that was
   * under way when a recovery began joins that recovery, and a rediscovery is led only by an
   * operation that came in at the revision it is started for.
   */
  lemma {:induction false} OperationsKeepTheirRevision(ready: Option<nat>, steps: seq<Step>)
    requires Initial(ready) && Run(Start(ready), steps)
    ensures KeepsRevision(Start(ready), steps, After(Start(ready), steps))
    decreases |steps|
  {
    hide Enabled, Apply;
    if steps != [] {
      var n := |steps| - 1;
      RunSnoc(Start(ready), steps);
      OperationsKeepTheirRevision(ready, steps[..n]);
      var w := After(Start(ready), steps[..n]);
      hide Run, After;
      forall id | id in Apply(w, steps[n]).ops && Observed(Apply(w, steps[n]).ops[id].stage).Some?
        ensures CameAt(Start(ready), steps, id, Observed(Apply(w, steps[n]).ops[id].stage).value)
      {
        SameRevision(w, steps[n], id);
        if id in w.ops && Observed(w.ops[id].stage) == Observed(Apply(w, steps[n]).ops[id].stage) {
          CameStays(Start(ready), steps, id, Observed(w.ops[id].stage).value);
        }
      }
    }
  }

  lemma SameRevision(w: World, step: Step, id: OpId)
    requires Enabled(w, step) && id in Apply(w, step).ops && Observed(Apply(w, step).ops[id].stage).Some?
    ensures var observed := Observed(Apply(w, step).ops[id].stage);
            || (id in w.ops && Observed(w.ops[id].stage) == observed)
            || (step in {Enter(id), EnterDirect(id)} && observed == Some(w.gate.revision))
  {
  }

  /** The Ready of the rediscovery that completed last. */
  ghost predicate IsLatest(w: World, ready: nat) {
    (forall r :: r in w.completed ==> r < ready) && (ready > 0 ==> ready - 1 in w.completed)
  }

  /**
   * After a recovery that gave a Ready, an operation is called once more, whether it led the
   * rediscovery or followed it, and a direct caller is given the Ready of the latest one.
   */
  lemma RecoveryGoesOn(ready: Option<nat>, steps: seq<Step>, id: OpId, step: Step)
    requires Initial(ready) && Run(Start(ready), steps)
    requires var w := After(Start(ready), steps);
             && Enabled(w, step) && (step == Rediscovered(id) || (step.Recover? && step.id == id && Follows(w, id)))
    ensures var w := After(Start(ready), steps);
            var v := Apply(w, step);
            && v.gate.ready.Some? && IsLatest(v, v.gate.ready.value)
            && (step.Rediscovered? ==> w.ops[id].stage.observed in v.completed)
            && if EnterDirect(id) in steps then v.ops[id].stage == Ended(Joined(v.gate.ready.value))
               else v.ops[id].stage.Calling? && v.ops[id].calls == w.ops[id].calls + 1 == 2
  {
    RunKeeps(Start(ready), steps);
    OperationsEndAsTraced(ready, steps);
    hide Run, After;
    var w := After(Start(ready), steps);
    assert Traced(w.gate, w.ops[id], id, Signals(steps, id), EnterDirect(id) in steps, LastOf(steps, id).value);
    assert OpFits(w.gate, id, w.ops[id]);
    hide LastOf, Signals;
  }

  /** A signal after the recovery, and a rediscovery that breaks, leave a terminal error that its operation raises. */
  lemma FailureIsTerminal(w: World, id: OpId, step: Step)
    requires Inv(w) && Enabled(w, step) && (step.Persist? || step.Broke?) && step.id == id
    ensures var v := Apply(w, step);
            && v.gate.terminal == Some(if w.gate.terminal.Some? then w.gate.terminal.value else step.error)
            && v.ops[id].stage == Ended(Raised(v.gate.terminal.value))
  {
    assert OpFits(w.gate, id, w.ops[id]);
  }

  /** Two operations that met the policy signal at revision 0. */
  function BothWaiting(): World {
    World(Gate(0, None, None, None, Some(0), None),
          map[0 := Op(Waiting(0, false), 1), 1 := Op(Waiting(0, false), 1)], [], {}, {}, 2)
  }

  lemma BothWait()
    ensures var w0 := Start(Some(0));
            && Enabled(w0, Enter(0))
            && var w1 := Apply(w0, Enter(0));
               && Enabled(w1, Enter(1))
               && var w2 := Apply(w1, Enter(1));
                  && Enabled(w2, Signal(0))
                  && var w3 := Apply(w2, Signal(0));
                     Enabled(w3, Signal(1)) && Apply(w3, Signal(1)) == BothWaiting()
  {
  }

  lemma LeaderLeaves()
    ensures Enabled(BothWaiting(), Recover(0, 7))
    ensures var w := Apply(BothWaiting(), Recover(0, 7));
            && Enabled(w, Withdraw(0))
            && var v := Apply(w, Withdraw(0));
               && Follows(v, 1) && v.completed == {} && v.withdrawn == {0}
               && Apply(v, Recover(1, 7)).ops[1] == Op(Calling(0, true), 2)
  {
  }

  /** The cancelled leader: operation 1 is called again although nothing was rediscovered. */
  lemma CancelledLeaderExample()
    ensures var steps := [Enter(0), Enter(1), Signal(0), Signal(1), Recover(0, 7), Withdraw(0)];
            && Run(Start(Some(0)), steps)
            && var w := After(Start(Some(0)), steps);
               && Follows(w, 1) && w.completed == {} && w.withdrawn == {0}
               && Apply(w, Recover(1, 7)).ops[1] == Op(Calling(0, true), 2)
  {
    BothWait();
    LeaderLeaves();
    hide *;
    var w0 := Start(Some(0));
    var w1 := Apply(w0, Enter(0));
    var w2 := Apply(w1, Enter(1));
    var w3 := Apply(w2, Signal(0));
    var steps := [Enter(0), Enter(1), Signal(0), Signal(1), Recover(0, 7), Withdraw(0)];
    SixSteps(w0, steps, w1, w2, w3, BothWaiting(), Apply(BothWaiting(), Recover(0, 7)));
  }

  lemma SixSteps(w: World, steps: seq<Step>, w1: World, w2: World, w3: World, w4: World, w5: World)
    requires |steps| == 6
    requires Enabled(w, steps[0]) && w1 == Apply(w, steps[0])
    requires Enabled(w1, steps[1]) && w2 == Apply(w1, steps[1])
    requires Enabled(w2, steps[2]) && w3 == Apply(w2, steps[2])
    requires Enabled(w3, steps[3]) && w4 == Apply(w3, steps[3])
    requires Enabled(w4, steps[4]) && w5 == Apply(w4, steps[4])
    requires Enabled(w5, steps[5])
    ensures Run(w, steps) && After(w, steps) == Apply(w5, steps[5])
  {
    hide Enabled, Apply;
    var a, b, c, d, e := steps[1..], steps[2..], steps[3..], steps[4..], steps[5..];
    assert a[1..] == b && b[1..] == c && c[1..] == d && d[1..] == e && e[1..] == [];
    assert Run(w5, e) && After(w5, e) == Apply(w5, steps[5]);
    assert Run(w4, d) && After(w4, d) == After(w5, e);
    assert Run(w3, c) && After(w3, c) == After(w4, d);
    assert Run(w2, b) && After(w2, b) == After(w3, c);
    assert Run(w1, a) && After(w1, a) == After(w2, b);
  }
}
