/**
 * Draining: the fence, the requests to Core, the observation of the spool and the single stop.
 * One step is the code of the drain task, or of another task, between two awaits.
 */
module Draining {
  import opened Prelude

  datatype Owner = External | DrainDone | DrainFailure | Lifecycle | Fatal

  /** Where the drain task is. */
  datatype Stage =
    | NotBegun
    | Requesting        // the first request to Core
    | RequestingAgain   // the spool was empty, but Core's last answer had runs in flight
    | Pausing
    | Hook              // the caller's hook before the stop
    | AwaitDone
    | Returned
    | Raised

  /** `spool` and `active` are what the other tasks have made of the durable records and handlers. */
  datatype State = State(
    draining: bool, stopping: bool, owner: Option<Owner>, stage: Stage, inflight: Option<nat>, hooked: bool,
    spool: nat, active: nat, past: Past)

  /** What has been seen; no step reads it. */
  datatype Past = Past(
    sawEmpty: bool,          // records and handlers were seen empty after the fence
    askedAgain: bool,        // the stop followed a second request
    leftAtStop: Option<nat>) // records and handlers when drain won the stop

  function Start(hooked: bool, spool: nat, active: nat): State {
    State(false, false, None, NotBegun, None, hooked, spool, active, Past(false, false, None))
  }

  /** _request_stop: the first owner wins. */
  function RequestStop(s: State, owner: Owner): State {
    if s.stopping then s.(draining := true)
    else s.(draining := true, stopping := true, owner := Some(owner))
  }

  function StopStep(s: State): State {
    if s.stopping then RequestStop(s, DrainDone).(stage := Raised)
    else RequestStop(s, DrainDone).(stage := AwaitDone, past := s.past.(leftAtStop := Some(s.spool + s.active)))
  }

  /** Towards the stop, with or without a hook to await first. */
  function Finish(s: State): State {
    if s.hooked then s.(stage := Hook) else StopStep(s)
  }

  /** The top of the loop. */
  function Check(s: State, inflight: nat): State {
    if s.spool == 0 && s.active == 0 then
      var t := s.(past := s.past.(sawEmpty := true));
      if inflight > 0 then t.(stage := RequestingAgain) else Finish(t)
    else s.(stage := Pausing)
  }

  datatype Step =
    | Begin
    | Answered(inflight: nat)
    | Poll
    | HookDone
    | RunDone
    | Fail
    | OtherStop(owner: Owner)
    | Others(spool: nat, active: nat)

  predicate Enabled(s: State, step: Step) {
    match step
    case Begin => s.stage == NotBegun
    // An answer is taken only while nothing has asked to stop.
    case Answered(_) => s.stage in {Requesting, RequestingAgain} && !s.stopping
    case Poll => s.stage == Pausing && s.inflight.Some?
    case HookDone => s.stage == Hook
    case RunDone => s.stage == AwaitDone
    case Fail => s.stage !in {NotBegun, Returned, Raised}
    case OtherStop(owner) => owner in {External, Lifecycle, Fatal}
    case Others(_, _) => true
  }

  function Apply(s: State, step: Step): State
    requires Enabled(s, step)
  {
    match step
    case Begin => s.(draining := true, stage := Requesting)
    case Answered(inflight) =>
      var t := s.(inflight := Some(inflight));
      if s.stage == Requesting then Check(t, inflight)
      else if inflight > 0 then t.(stage := Pausing)
      else Finish(t.(past := t.past.(askedAgain := true)))
    case Poll => if s.stopping then s.(stage := Raised) else Check(s, s.inflight.value)
    case HookDone => StopStep(s)
    case RunDone => s.(stage := Returned)
    case Fail => RequestStop(s, DrainFailure).(stage := Raised)
    case OtherStop(owner) => RequestStop(s, owner)
    case Others(spool, active) => s.(spool := spool, active := active)
  }

  predicate Run(s: State, steps: seq<Step>)
    decreases |steps|
  {
    steps == [] || (Enabled(s, steps[0]) && Run(Apply(s, steps[0]), steps[1..]))
  }

  function After(s: State, steps: seq<Step>): State
    requires Run(s, steps)
    decreases |steps|
  {
    if steps == [] then s else After(Apply(s, steps[0]), steps[1..])
  }

  predicate Inv(s: State) {
    && (s.stage != NotBegun ==> s.draining)
    && (s.stopping <==> s.owner.Some?) && (s.stopping ==> s.draining)
    && (s.stage == Raised ==> s.stopping)
    && (s.owner == Some(DrainDone) ==> s.stage in {AwaitDone, Returned, Raised})
    && (s.stage in {RequestingAgain, Hook, AwaitDone, Returned} ==> s.past.sawEmpty && s.inflight.Some?)
    && (s.stage in {Hook, AwaitDone, Returned} ==> s.inflight == Some(0))
    && (s.stage in {AwaitDone, Returned} ==> s.owner == Some(DrainDone))
    && (s.owner == Some(DrainDone) <==> s.past.leftAtStop.Some?)
    && (s.past.leftAtStop.Some? && !s.hooked && !s.past.askedAgain ==> s.past.leftAtStop == Some(0))
    && (s.stage == Hook ==> s.hooked)
    && (s.past.askedAgain ==> s.stage in {Hook, AwaitDone, Returned, Raised})
  }

  lemma StepKeeps(s: State, step: Step)
    requires Inv(s) && Enabled(s, step)
    ensures var t := Apply(s, step);
            Inv(t) && t.hooked == s.hooked && (s.draining ==> t.draining) && (s.owner.Some? ==> t.owner == s.owner)
  {
  }

  /** What a step of the drain task itself notes of the records and handlers. */
  lemma StepNotes(s: State, step: Step)
    requires Inv(s) && Enabled(s, step) && !step.Others?
    ensures var t := Apply(s, step);
            && t.spool == s.spool && t.active == s.active
            && (s.past.sawEmpty ==> t.past.sawEmpty)
            && (t.past.sawEmpty && !s.past.sawEmpty ==> s.draining && s.spool + s.active == 0)
            && (s.past.leftAtStop.Some? ==> t.past.leftAtStop == s.past.leftAtStop)
            && (t.past.leftAtStop.Some? && s.past.leftAtStop == None ==>
                  t.past.sawEmpty && t.past.leftAtStop == Some(s.spool + s.active))
  {
  }

  lemma {:induction false} RunKeeps(s: State, steps: seq<Step>)
    requires Inv(s) && Run(s, steps)
    ensures Inv(After(s, steps)) && After(s, steps).hooked == s.hooked
    ensures s.draining ==> After(s, steps).draining
    ensures s.owner.Some? ==> After(s, steps).owner == s.owner
    decreases |steps|
  {
    if steps != [] {
      StepKeeps(s, steps[0]);
      hide Inv, Apply, Enabled;
      RunKeeps(Apply(s, steps[0]), steps[1..]);
    }
  }

  /**
   * When drain returns normally: the fence is up, records and handlers were both seen empty
   * after it, the last answer of Core had nothing in flight, drain itself won the stop, and
   * neither the fence nor the owner of the stop ever changes again.
   */
  lemma DrainedMeansEmpty(hooked: bool, spool: nat, active: nat, steps: seq<Step>, more: seq<Step>)
    requires Run(Start(hooked, spool, active), steps)
    requires Run(After(Start(hooked, spool, active), steps), more)
    requires After(Start(hooked, spool, active), steps).stage == Returned
    ensures var s := After(Start(hooked, spool, active), steps);
            var t := After(s, more);
            && s.draining && s.past.sawEmpty && s.inflight == Some(0) && s.stopping && s.owner == Some(DrainDone)
            && t.draining && t.owner == Some(DrainDone)
  {
    RunKeeps(Start(hooked, spool, active), steps);
    RunKeeps(After(Start(hooked, spool, active), steps), more);
    hide Run, After;
  }

  function First(owner: Option<Owner>, next: Owner): Option<Owner> {
    if owner.Some? then owner else Some(next)
  }

  /**
   * A drain that failed has asked for the stop, behind the fence, and is its owner unless another
   * owner came first; whoever asks for a stop first owns it.
   */
  lemma FailedDrainStops(hooked: bool, spool: nat, active: nat, steps: seq<Step>, step: Step)
    requires Run(Start(hooked, spool, active), steps) && Enabled(After(Start(hooked, spool, active), steps), step)
    ensures var s := After(Start(hooked, spool, active), steps);
            var t := Apply(s, step);
            && (t.stage == Raised ==> t.stopping && t.draining)
            && (step == Fail ==> t.stage == Raised && t.owner == First(s.owner, DrainFailure))
            && (step.OtherStop? ==> t.stopping && t.owner == First(s.owner, step.owner))
  {
    RunKeeps(Start(hooked, spool, active), steps);
    StepKeeps(After(Start(hooked, spool, active), steps), step);
    hide Run, After;
  }

  // ---------------------------------------------------------------- what the steps say

  /** Core's last answer in a run. */
  function LastAnswer(steps: seq<Step>): Option<nat> {
    if steps == [] then None
    else
      var last := steps[|steps| - 1];
      if last.Answered? then Some(last.inflight) else LastAnswer(steps[..|steps| - 1])
  }

  /** What the other tasks have made of records and handlers, the given numbers being those at first. */
  function Remaining(steps: seq<Step>, spool: nat, active: nat): (nat, nat) {
    if steps == [] then (spool, active)
    else
      var last := steps[|steps| - 1];
      if last.Others? then (last.spool, last.active) else Remaining(steps[..|steps| - 1], spool, active)
  }

  /** Who asked for the stop first; the drain task does so where it stops or fails. */
  predicate Asks(s: State, step: Step, owner: Owner) {
    var empty := s.spool == 0 && s.active == 0;
    match step
    case Fail => owner == DrainFailure
    case OtherStop(other) => owner == other
    case HookDone => owner == DrainDone
    case Answered(inflight) =>
      owner == DrainDone && !s.hooked && inflight == 0 && (s.stage == RequestingAgain || empty)
    case Poll => owner == DrainDone && !s.hooked && s.inflight == Some(0) && empty
    case _ => false
  }

  lemma {:induction false} RunSnoc(s: State, steps: seq<Step>)
    requires Run(s, steps) && steps != []
    ensures var n := |steps| - 1;
            && Run(s, steps[..n]) && Enabled(After(s, steps[..n]), steps[n])
            && After(s, steps) == Apply(After(s, steps[..n]), steps[n])
    decreases |steps|
  {
    hide Enabled, Apply;
    var n := |steps| - 1;
    if n == 0 {
      assert steps[1..] == [] && steps[..0] == [];
    } else {
      RunSnoc(Apply(s, steps[0]), steps[1..]);
      assert steps[1..][..n - 1] == steps[..n][1..] && steps[..n][0] == steps[0];
      assert steps[1..][n - 1] == steps[n];
    }
  }

  /** After any run the drain task goes by Core's last answer, and sees what the others have left. */
  lemma {:induction false} LastAnswerCounts(hooked: bool, spool: nat, active: nat, steps: seq<Step>)
    requires Run(Start(hooked, spool, active), steps)
    ensures var s := After(Start(hooked, spool, active), steps);
            && s.inflight == LastAnswer(steps) && (s.spool, s.active) == Remaining(steps, spool, active)
            && s.hooked == hooked
    decreases |steps|
  {
    if steps != [] {
      RunSnoc(Start(hooked, spool, active), steps);
      LastAnswerCounts(hooked, spool, active, steps[..|steps| - 1]);
      hide Run, After;
    }
  }

  /**
   * The owner of the stop is whoever asked first: another task, a failure of the drain task, or
   * the drain task as it stops the worker, which with a hook it does only once the hook returned.
   */
  lemma FirstToAskOwns(s: State, step: Step, owner: Owner)
    requires Inv(s) && Enabled(s, step) && !s.stopping
    ensures Apply(s, step).owner == Some(owner) <==> Asks(s, step, owner)
  {
  }

  /** Once another has asked for the stop, whatever the drain task does next ends it with an error. */
  lemma AnotherStopEndsDrain(s: State, step: Step)
    requires Inv(s) && Enabled(s, step) && s.stopping && s.stage in {Requesting, RequestingAgain, Pausing, Hook}
    requires !step.OtherStop? && !step.Others?
    ensures Apply(s, step).stage == Raised && Apply(s, step).owner == s.owner
  {
  }

  /**
   * Core is asked at the beginning, and again only when records and handlers are seen empty while
   * Core's last answer had runs in flight; if the new answer has too, the drain task pauses.
   */
  lemma AsksAgainIff(s: State, step: Step)
    requires Inv(s) && Enabled(s, step) && !step.Others? && !step.OtherStop?
    ensures var t := Apply(s, step);
            && (t.stage == Requesting <==> step == Begin)
            && (t.stage == RequestingAgain <==>
                  && s.spool == 0 && s.active == 0 && t.inflight != Some(0)
                  && ((step.Poll? && !s.stopping) || (step.Answered? && s.stage == Requesting)))
            && (step.Answered? && step.inflight > 0 ==> t.stage in {Pausing, RequestingAgain})
  {
  }

  /** How far the drain task is from its return. */
  function Ahead(stage: Stage): nat {
    match stage
    case NotBegun => 6 case Requesting => 5 case Pausing => 4 case RequestingAgain => 3 case Hook => 2
    case AwaitDone => 1 case _ => 0
  }

  /**
   * Once records and handlers are gone, Core has nothing in flight and no other stop comes in,
   * drain returns by its own steps.
   */
  lemma DrainReturns(s: State) returns (steps: seq<Step>)
    requires Inv(s) && s.spool == s.active == 0 && (s.stage == Pausing ==> s.inflight.Some?)
    requires s.stopping <==> s.stage in {AwaitDone, Returned}
    ensures Run(s, steps) && After(s, steps).stage == Returned
    ensures forall i :: 0 <= i < |steps| ==> steps[i] in {Begin, Answered(0), Poll, HookDone, RunDone}
    decreases Ahead(s.stage)
  {
    if s.stage == Returned {
      return [];
    }
    var step := if s.stage == NotBegun then Begin else if s.stage == Pausing then Poll
      else if s.stage == Hook then HookDone else if s.stage == AwaitDone then RunDone else Answered(0);
    StepKeeps(s, step);
    var rest := DrainReturns(Apply(s, step));
    steps := [step] + rest;
    assert steps[1..] == rest;
  }

  /** Without a hook and without a second request, nothing was left when drain stopped the worker. */
  lemma DirectStopLeavesNothing(spool: nat, active: nat, steps: seq<Step>)
    requires Run(Start(false, spool, active), steps)
    requires After(Start(false, spool, active), steps).past.leftAtStop.Some?
    requires !After(Start(false, spool, active), steps).past.askedAgain
    ensures After(Start(false, spool, active), steps).past.leftAtStop == Some(0)
  {
    RunKeeps(Start(false, spool, active), steps);
    hide Run, After;
  }

  lemma LastFive(s: State, steps: seq<Step>, s1: State, s2: State, s3: State, s4: State)
    requires |steps| == 5
    requires Enabled(s, steps[0]) && s1 == Apply(s, steps[0])
    requires Enabled(s1, steps[1]) && s2 == Apply(s1, steps[1])
    requires Enabled(s2, steps[2]) && s3 == Apply(s2, steps[2])
    requires Enabled(s3, steps[3]) && s4 == Apply(s3, steps[3])
    requires Enabled(s4, steps[4])
    ensures Run(s, steps) && After(s, steps) == Apply(s4, steps[4])
  {
    hide Enabled, Apply;
    var a, b, c, d := steps[1..], steps[2..], steps[3..], steps[4..];
    assert a[1..] == b && b[1..] == c && c[1..] == d && d[1..] == [];
    assert Run(s4, d) && After(s4, d) == Apply(s4, steps[4]);
    assert Run(s3, c) && After(s3, c) == After(s4, d);
    assert Run(s2, b) && After(s2, b) == After(s3, c);
    assert Run(s1, a) && After(s1, a) == After(s2, b);
  }

  /** The spool is not read again after a second request, so anything can be left by then. */
  lemma SecondRequestLeavesRecords(left: nat)
    ensures var steps := [Begin, Answered(1), Others(left, 0), Answered(0), RunDone];
            && Run(Start(false, 0, 0), steps)
            && var s := After(Start(false, 0, 0), steps);
               s.stage == Returned && s.past.leftAtStop == Some(left)
  {
    var s1 := Apply(Start(false, 0, 0), Begin);
    var s2 := Apply(s1, Answered(1));
    var s3 := Apply(s2, Others(left, 0));
    var s4 := Apply(s3, Answered(0));
    var steps := [Begin, Answered(1), Others(left, 0), Answered(0), RunDone];
    LastFive(Start(false, 0, 0), steps, s1, s2, s3, s4);
  }

  /** Nor is it read again after the caller's hook. */
  lemma HookLeavesRecords(left: nat)
    ensures var steps := [Begin, Answered(0), Others(left, 0), HookDone, RunDone];
            && Run(Start(true, 0, 0), steps)
            && var s := After(Start(true, 0, 0), steps);
               s.stage == Returned && s.past.leftAtStop == Some(left)
  {
    var s1 := Apply(Start(true, 0, 0), Begin);
    var s2 := Apply(s1, Answered(0));
    var s3 := Apply(s2, Others(left, 0));
    var s4 := Apply(s3, HookDone);
    var steps := [Begin, Answered(0), Others(left, 0), HookDone, RunDone];
    LastFive(Start(true, 0, 0), steps, s1, s2, s3, s4);
  }
}
