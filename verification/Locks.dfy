/**
 * The three kinds of locks of the worker, and who holds one while waiting for another: the
 * policy recovery takes the claim lock under the policy lock, and a resume inside a transport
 * switch takes attempt locks under the claim lock. Any number of tasks, in any interleaving.
 */
module Locks {
  import opened Prelude

  type TaskId = nat
  type AttemptId = string
  type Transport = nat

  datatype Lock = Policy | ClaimSwitch | Attempt(a: AttemptId)

  /** What a task wants the claim lock for. */
  datatype Use = Claim | Drain | Switch

  /** Where a task is; `under` and `below` are the locks it holds meanwhile. */
  datatype Position =
    | Idle
    | WantPolicy(recovery: bool)
    | Gate
    | Recovering
    | WantClaim(under: bool, use: Use)
    | Claiming(under: bool, transport: Transport)
    | Draining(under: bool)
    | Switching(under: bool)
    | WantAttempt(below: set<Lock>, a: AttemptId)
    | InAttempt(below: set<Lock>, a: AttemptId)

  datatype State = State(
    tasks: seq<Position>, policy: Option<TaskId>, claim: Option<TaskId>, attempts: map<AttemptId, TaskId>,
    transport: Transport)

  function Under(policy: bool): set<Lock> {
    if policy then {Policy} else {}
  }

  /** The locks held in a position. */
  function Held(p: Position): set<Lock> {
    match p
    case Gate => {Policy}
    case Recovering => {Policy}
    case WantClaim(under, _) => Under(under)
    case Claiming(under, _) => Under(under) + {ClaimSwitch}
    case Draining(under) => Under(under) + {ClaimSwitch}
    case Switching(under) => Under(under) + {ClaimSwitch}
    case WantAttempt(below, _) => below
    case InAttempt(below, a) => below + {Attempt(a)}
    case _ => {}
  }

  function Wanted(p: Position): Option<Lock> {
    match p
    case WantPolicy(_) => Some(Policy)
    case WantClaim(_, _) => Some(ClaimSwitch)
    case WantAttempt(_, a) => Some(Attempt(a))
    case _ => None
  }

  function Owner(s: State, l: Lock): Option<TaskId> {
    match l
    case Policy => s.policy
    case ClaimSwitch => s.claim
    case Attempt(a) => if a in s.attempts then Some(s.attempts[a]) else None
  }

  function SetOwner(s: State, l: Lock, owner: Option<TaskId>): State {
    match l
    case Policy => s.(policy := owner)
    case ClaimSwitch => s.(claim := owner)
    case Attempt(a) => s.(attempts := if owner.Some? then s.attempts[a := owner.value] else s.attempts - {a})
  }

  function Moved(s: State, t: TaskId, p: Position): State
    requires t < |s.tasks|
  {
    s.(tasks := s.tasks[t := p])
  }

  /** What a task does once it has the lock it waited for. */
  function Inside(s: State, p: Position): Position
    requires Wanted(p).Some?
  {
    match p
    case WantPolicy(recovery) => if recovery then Recovering else Gate
    case WantClaim(under, use) =>
      (match use
       case Claim => Claiming(under, s.transport)
       case Drain => Draining(under)
       case Switch => Switching(under))
    case WantAttempt(below, a) => InAttempt(below, a)
  }

  /** Where a task is after giving back the lock it took last; the gate leads to the claim or drain call. */
  function Outside(p: Position): Position
    requires Wanted(p) == None && p != Idle
  {
    match p
    case Claiming(under, _) => if under then Recovering else Idle
    case Draining(under) => if under then Recovering else Idle
    case Switching(under) => if under then Recovering else Idle
    case InAttempt(below, _) => if below == {} then Idle else Switching(Policy in below)
    case _ => Idle
  }

  /** Where a task is that was cancelled or timed out while it waited: it still holds what it held. */
  function Withdrawn(p: Position): Position
    requires Wanted(p).Some?
  {
    match p
    case WantPolicy(_) => Idle
    case WantClaim(under, _) => if under then Recovering else Idle
    case WantAttempt(below, _) => if below == {} then Idle else Switching(Policy in below)
  }

  datatype Step =
    | Want(t: TaskId, p: Position)
    | Take(t: TaskId)
    | GiveUp(t: TaskId)
    | GiveBack(t: TaskId)
    | Change(t: TaskId, transport: Transport)

  /**
   * What a task may ask for next. From nothing: the policy gate or a recovery, the claim lock
   * for a claim, a drain request or a transport recovery, or one attempt. Under the policy
   * lock: the claim lock, for the switch. Under the claim lock: an attempt, only in a switch.
   */
  predicate MayWant(p: Position, q: Position) {
    match p
    case Idle =>
      || q.WantPolicy?
      || (q.WantClaim? && !q.under)
      || (q.WantAttempt? && q.below == {})
    case Recovering => q == WantClaim(true, Switch)
    case Switching(under) => q.WantAttempt? && q.below == Under(under) + {ClaimSwitch}
    case _ => false
  }

  /** The lock that a position gives back: the last one taken. */
  function Last(p: Position): Lock
    requires Wanted(p) == None && p != Idle
  {
    match p
    case Claiming(_, _) => ClaimSwitch
    case Draining(_) => ClaimSwitch
    case Switching(_) => ClaimSwitch
    case InAttempt(_, a) => Attempt(a)
    case _ => Policy
  }

  predicate Enabled(s: State, step: Step) {
    && step.t < |s.tasks|
    && var p := s.tasks[step.t];
       match step
       case Want(_, q) => MayWant(p, q)
       case Take(_) => Wanted(p).Some? && Owner(s, Wanted(p).value) == None
       case GiveUp(_) => Wanted(p).Some?
       case GiveBack(_) => Wanted(p) == None && p != Idle
       case Change(_, _) => p.Switching?
  }

  function Apply(s: State, step: Step): State
    requires Enabled(s, step)
  {
    var p := s.tasks[step.t];
    match step
    case Want(t, q) => Moved(s, t, q)
    case Take(t) => SetOwner(Moved(s, t, Inside(s, p)), Wanted(p).value, Some(t))
    case GiveUp(t) => Moved(s, t, Withdrawn(p))
    case GiveBack(t) => SetOwner(Moved(s, t, Outside(p)), Last(p), None)
    case Change(_, transport) => s.(transport := transport)
  }

  predicate Run(s: State, steps: seq<Step>)
    decreases |steps|
  {
    steps == [] || (Enabled(s, steps[0]) && Run(Apply(s, steps[0]), steps[1..]))
  }

  function After(s: State, steps: seq<Step>): State
    requires Run(s, steps)
    decreases |steps|
  {
    if steps == [] then s else After(Apply(s, steps[0]), steps[1..])
  }

  ghost predicate Start(s: State) {
    && (forall t :: 0 <= t < |s.tasks| ==> s.tasks[t] == Idle)
    && s.policy == None && s.claim == None && s.attempts == map[]
  }

  // ---------------------------------------------------------------- the invariant

  /** The locks under an attempt lock are those of a switch. */
  predicate PositionFits(p: Position) {
    (p.WantAttempt? || p.InAttempt? ==> p.below in {{}, {ClaimSwitch}, {Policy, ClaimSwitch}})
    && (p.WantClaim? && p.under ==> p.use == Switch)
    && (p.Claiming? || p.Draining? ==> !p.under)
  }

  ghost predicate Exclusive(s: State) {
    && (forall t :: 0 <= t < |s.tasks| ==> PositionFits(s.tasks[t]))
    && (forall t, l :: 0 <= t < |s.tasks| && l in Held(s.tasks[t]) ==> Owner(s, l) == Some(t))
    && (forall l :: Owner(s, l).Some? ==> Owner(s, l).value < |s.tasks| && l in Held(s.tasks[Owner(s, l).value]))
  }

  ghost predicate ClaimsCurrent(s: State) {
    forall t :: 0 <= t < |s.tasks| && s.tasks[t].Claiming? ==> s.tasks[t].transport == s.transport
  }

  ghost predicate Inv(s: State) {
    Exclusive(s) && ClaimsCurrent(s)
  }

  lemma OwnerAfter(s: State, l: Lock, owner: Option<TaskId>, m: Lock)
    ensures Owner(SetOwner(s, l, owner), m) == if m == l then owner else Owner(s, m)
  {
  }

  /** Asking changes nothing of what is held; taking and giving back change it by one lock. */
  lemma HeldAfter(s: State, p: Position)
    requires PositionFits(p)
    ensures forall q :: MayWant(p, q) ==> Held(q) == Held(p) && PositionFits(q) && Wanted(q).Some?
    ensures Wanted(p).Some? ==> Held(Inside(s, p)) == Held(p) + {Wanted(p).value} && PositionFits(Inside(s, p))
    ensures Wanted(p).Some? ==> Held(Withdrawn(p)) == Held(p) && PositionFits(Withdrawn(p)) && !Withdrawn(p).Claiming?
    ensures Wanted(p) == None && p != Idle ==>
              Held(p) == Held(Outside(p)) + {Last(p)} && Last(p) !in Held(Outside(p)) && PositionFits(Outside(p))
  {
    assert Under(true) + {ClaimSwitch} == {Policy, ClaimSwitch} && Under(false) + {ClaimSwitch} == {ClaimSwitch};
  }

  lemma SameOwners(s: State, v: State)
    requires s.policy == v.policy && s.claim == v.claim && s.attempts == v.attempts
    ensures forall l :: Owner(v, l) == Owner(s, l)
  {
  }

  lemma WantKeeps(s: State, t: TaskId, q: Position)
    requires Inv(s) && Enabled(s, Want(t, q))
    ensures Inv(Moved(s, t, q))
  {
    HeldAfter(s, s.tasks[t]);
    assert q != Idle && !q.Claiming? && Held(q) == Held(s.tasks[t]) && PositionFits(q);
    hide Held, MayWant, PositionFits, Owner;
    var v := Moved(s, t, q);
    assert v.tasks == s.tasks[t := q];
    assert forall l :: Owner(v, l) == Owner(s, l) by { SameOwners(s, v); }
  }

  lemma TakeKeeps(s: State, t: TaskId)
    requires Inv(s) && Enabled(s, Take(t))
    ensures Inv(Apply(s, Take(t)))
  {
    var p := s.tasks[t];
    var l := Wanted(p).value;
    var v := Apply(s, Take(t));
    HeldAfter(s, p);
    forall m ensures Owner(v, m) == if m == l then Some(t) else Owner(s, m) {
      OwnerAfter(Moved(s, t, Inside(s, p)), l, Some(t), m);
    }
    hide Held, PositionFits, Owner, SetOwner;
    assert v.tasks == s.tasks[t := Inside(s, p)];
  }

  lemma GiveUpKeeps(s: State, t: TaskId)
    requires Inv(s) && Enabled(s, GiveUp(t))
    ensures Inv(Apply(s, GiveUp(t)))
  {
    HeldAfter(s, s.tasks[t]);
    var q := Withdrawn(s.tasks[t]);
    var v := Moved(s, t, q);
    hide Held, PositionFits, Owner, Withdrawn;
    assert v.tasks == s.tasks[t := q];
    assert forall l :: Owner(v, l) == Owner(s, l) by { SameOwners(s, v); }
  }

  lemma GiveBackKeeps(s: State, t: TaskId)
    requires Inv(s) && Enabled(s, GiveBack(t))
    ensures Inv(Apply(s, GiveBack(t)))
  {
    var p := s.tasks[t];
    var l := Last(p);
    var v := Apply(s, GiveBack(t));
    HeldAfter(s, p);
    forall m ensures Owner(v, m) == if m == l then None else Owner(s, m) {
      OwnerAfter(Moved(s, t, Outside(p)), l, None, m);
    }
    assert !Outside(p).Claiming? && l in Held(p) && Owner(s, l) == Some(t);
    hide Held, PositionFits, Owner, SetOwner;
    assert v.tasks == s.tasks[t := Outside(p)];
  }

  /** The transport changes only under the claim lock, so no claim is open then. */
  lemma ChangeKeeps(s: State, t: TaskId, transport: Transport)
    requires Inv(s) && Enabled(s, Change(t, transport))
    ensures Inv(Apply(s, Change(t, transport)))
  {
    assert Owner(s, ClaimSwitch) == Some(t) by { assert ClaimSwitch in Held(s.tasks[t]); }
    forall u | 0 <= u < |s.tasks| ensures !s.tasks[u].Claiming? {
      assert s.tasks[u].Claiming? ==> ClaimSwitch in Held(s.tasks[u]);
    }
    var v := Apply(s, Change(t, transport));
    SameOwners(s, v);
  }

  lemma StepKeeps(s: State, step: Step)
    requires Inv(s) && Enabled(s, step)
    ensures Inv(Apply(s, step))
  {
    hide Inv;
    match step
    case Want(t, q) => WantKeeps(s, t, q);
    case Take(t) => TakeKeeps(s, t);
    case GiveUp(t) => GiveUpKeeps(s, t);
    case GiveBack(t) => GiveBackKeeps(s, t);
    case Change(t, transport) => ChangeKeeps(s, t, transport);
  }

  lemma {:induction false} RunKeeps(s: State, steps: seq<Step>)
    requires Inv(s) && Run(s, steps)
    ensures Inv(After(s, steps)) && |After(s, steps).tasks| == |s.tasks|
    decreases |steps|
  {
    hide Inv;
    if steps != [] {
      StepKeeps(s, steps[0]);
      RunKeeps(Apply(s, steps[0]), steps[1..]);
    }
  }

  lemma StartKeeps(s: State)
    requires Start(s)
    ensures Inv(s)
  {
  }

  // ---------------------------------------------------------------- the promises

  function Rank(l: Lock): nat {
    match l
    case Policy => 0
    case ClaimSwitch => 1
    case Attempt(_) => 2
  }

  /** Locks are taken in one order: a task holds only locks below the one it waits for. */
  lemma LocksAreOrdered(s: State, steps: seq<Step>, t: TaskId, l: Lock)
    requires Start(s) && Run(s, steps) && t < |s.tasks|
    ensures t < |After(s, steps).tasks|
    ensures Wanted(After(s, steps).tasks[t]) == Some(l) ==>
              forall h :: h in Held(After(s, steps).tasks[t]) ==> Rank(h) < Rank(l)
  {
    StartKeeps(s);
    RunKeeps(s, steps);
    hide Run, After;
    WaitsAbove(After(s, steps), t, l);
  }

  lemma WaitsAbove(s: State, t: TaskId, l: Lock)
    requires Inv(s) && t < |s.tasks|
    ensures Wanted(s.tasks[t]) == Some(l) ==> forall h :: h in Held(s.tasks[t]) ==> Rank(h) < Rank(l)
  {
  }

  /** Behind every task that is not idle there is one that can go on. */
  lemma SomeoneCanGoOn(s: State, t: TaskId) returns (step: Step)
    requires Inv(s) && t < |s.tasks| && s.tasks[t] != Idle
    ensures Enabled(s, step) && (step.Take? || step.GiveBack?)
    decreases if Wanted(s.tasks[t]).Some? then 3 - Rank(Wanted(s.tasks[t]).value) else 0
  {
    var p := s.tasks[t];
    if Wanted(p) == None {
      return GiveBack(t);
    }
    var l := Wanted(p).value;
    var owner := Owner(s, l);
    if owner == None {
      return Take(t);
    }
    var u := owner.value;
    assert Owner(s, l).Some? && l in Held(s.tasks[u]);
    if Wanted(s.tasks[u]).Some? {
      WaitsAbove(s, u, Wanted(s.tasks[u]).value);
    }
    step := SomeoneCanGoOn(s, u);
  }

  /** How many takes and returns of locks a task is away from idleness. */
  function Weight(p: Position): nat {
    match p
    case Idle => 0
    case WantPolicy(_) => 2
    case Gate => 1
    case Recovering => 1
    case WantClaim(under, _) => if under then 3 else 2
    case Claiming(under, _) => if under then 2 else 1
    case Draining(under) => if under then 2 else 1
    case Switching(under) => if under then 2 else 1
    case WantAttempt(below, _) => if below == {} then 2 else if Policy in below then 4 else 3
    case InAttempt(below, _) => if below == {} then 1 else if Policy in below then 3 else 2
  }

  function Total(tasks: seq<Position>): nat {
    if tasks == [] then 0 else Weight(tasks[0]) + Total(tasks[1..])
  }

  lemma {:induction false} TotalAfter(tasks: seq<Position>, t: nat, p: Position)
    requires t < |tasks|
    ensures Total(tasks[t := p]) == Total(tasks) - Weight(tasks[t]) + Weight(p)
  {
    if t == 0 {
      assert tasks[t := p][1..] == tasks[1..];
    } else {
      assert tasks[t := p][1..] == tasks[1..][t - 1 := p];
      TotalAfter(tasks[1..], t - 1, p);
    }
  }

  lemma WeightAfter(s: State, p: Position)
    ensures Wanted(p).Some? ==> Weight(Inside(s, p)) < Weight(p) && Weight(Withdrawn(p)) < Weight(p)
    ensures Wanted(p) == None && p != Idle ==> Weight(Outside(p)) < Weight(p)
  {
  }

  lemma GoingOnLightens(s: State, step: Step)
    requires Inv(s) && Enabled(s, step) && (step.Take? || step.GiveBack?)
    ensures Total(Apply(s, step).tasks) < Total(s.tasks)
  {
    var p := s.tasks[step.t];
    WeightAfter(s, p);
    var q := if step.Take? then Inside(s, p) else Outside(p);
    assert Apply(s, step).tasks == s.tasks[step.t := q];
    hide *;
    TotalAfter(s.tasks, step.t, q);
  }

  /**
   * No set of tasks can deadlock on these locks: from every state all of them can be taken in
   * turn and given back, without a task that has to give up waiting.
   */
  lemma NoDeadlock(s: State) returns (steps: seq<Step>)
    requires Inv(s)
    ensures Run(s, steps) && forall i :: 0 <= i < |steps| ==> steps[i].Take? || steps[i].GiveBack?
    ensures forall t :: 0 <= t < |After(s, steps).tasks| ==> After(s, steps).tasks[t] == Idle
    decreases Total(s.tasks)
  {
    if t :| 0 <= t < |s.tasks| && s.tasks[t] != Idle {
      var step := SomeoneCanGoOn(s, t);
      GoingOnLightens(s, step);
      StepKeeps(s, step);
      var rest := NoDeadlock(Apply(s, step));
      steps := [step] + rest;
      assert steps[1..] == rest;
    } else {
      steps := [];
    }
  }

  /** The transport that the last switch of a run has installed. */
  function Installed(steps: seq<Step>, first: Transport): Transport
    decreases |steps|
  {
    if steps == [] then first
    else
      var last := steps[|steps| - 1];
      if last.Change? then last.transport else Installed(steps[..|steps| - 1], first)
  }

  lemma {:induction false} RunSnoc(s: State, steps: seq<Step>)
    requires Run(s, steps) && steps != []
    ensures var n := |steps| - 1;
            && Run(s, steps[..n]) && Enabled(After(s, steps[..n]), steps[n])
            && After(s, steps) == Apply(After(s, steps[..n]), steps[n])
    decreases |steps|
  {
    hide Enabled, Apply;
    var n := |steps| - 1;
    if n == 0 {
      assert steps[1..] == [] && steps[..0] == [];
    } else {
      RunSnoc(Apply(s, steps[0]), steps[1..]);
      assert steps[1..][..n - 1] == steps[..n][1..] && steps[..n][0] == steps[0];
      assert steps[1..][n - 1] == steps[n];
    }
  }

  /** After any run the transport is the one that the last switch installed, or the first one. */
  lemma {:induction false} LastSwitchCounts(s: State, steps: seq<Step>)
    requires Run(s, steps)
    ensures After(s, steps).transport == Installed(steps, s.transport)
    decreases |steps|
  {
    if steps != [] {
      RunSnoc(s, steps);
      LastSwitchCounts(s, steps[..|steps| - 1]);
      hide Run, After, Enabled, Inside, Outside, Withdrawn;
    }
  }

  /** The last requests of a task for the claim lock and for the policy lock. */
  function LastAsked(steps: seq<Step>, t: TaskId): (Option<Position>, Option<Position>)
    decreases |steps|
  {
    if steps == [] then (None, None) else Asking(LastAsked(steps[..|steps| - 1], t), steps[|steps| - 1], t)
  }

  function Asking(asked: (Option<Position>, Option<Position>), step: Step, t: TaskId)
    : (Option<Position>, Option<Position>)
  {
    if !step.Want? || step.t != t then asked
    else if step.p.WantClaim? then (Some(step.p), asked.1)
    else if step.p.WantPolicy? then (asked.0, Some(step.p))
    else asked
  }

  /** A task is under a lock only for what it asked it for. */
  predicate AsAsked(p: Position, asked: (Option<Position>, Option<Position>)) {
    && (Policy in Held(p) && p != Gate ==> asked.1 == Some(WantPolicy(true)))
    && match p
       case WantPolicy(recovery) => asked.1 == Some(WantPolicy(recovery))
       case Gate => asked.1 == Some(WantPolicy(false))
       case WantClaim(under, use) => asked.0 == Some(WantClaim(under, use))
       case Claiming(under, _) => asked.0 == Some(WantClaim(under, Claim))
       case Draining(under) => asked.0 == Some(WantClaim(under, Drain))
       case Switching(under) => asked.0 == Some(WantClaim(under, Switch))
       case WantAttempt(below, _) => below != {} ==> asked.0 == Some(WantClaim(Policy in below, Switch))
       case InAttempt(below, _) => below != {} ==> asked.0 == Some(WantClaim(Policy in below, Switch))
       case _ => true
  }

  lemma StepAsAsked(s: State, step: Step, t: TaskId, asked: (Option<Position>, Option<Position>))
    requires Inv(s) && Enabled(s, step) && t < |s.tasks| && AsAsked(s.tasks[t], asked)
    ensures AsAsked(Apply(s, step).tasks[t], Asking(asked, step, t))
  {
    assert PositionFits(s.tasks[t]);
    hide Inv;
  }

  /**
   * Only a task that last asked for the claim lock in order to switch is in a switch, so only
   * such a task changes the transport; a claim and a drain request never turn into one. And only
   * a recovery keeps the policy lock for what it does next.
   */
  lemma {:induction false} TasksDoWhatTheyAsked(s: State, steps: seq<Step>, t: TaskId)
    requires Start(s) && Run(s, steps) && t < |s.tasks|
    ensures t < |After(s, steps).tasks| && AsAsked(After(s, steps).tasks[t], LastAsked(steps, t))
    decreases |steps|
  {
    StartKeeps(s);
    if steps != [] {
      var n := |steps| - 1;
      RunSnoc(s, steps);
      RunKeeps(s, steps[..n]);
      TasksDoWhatTheyAsked(s, steps[..n], t);
      hide Run, After, Inv, Start, AsAsked, Enabled, Apply, Asking;
      StepAsAsked(After(s, steps[..n]), steps[n], t, LastAsked(steps[..n], t));
      RunKeeps(s, steps);
    }
  }

  /**
   * A task that is cancelled, wherever it is, gives back everything it holds on its own: no
   * other task has to move, and none loses a lock by it.
   */
  lemma Unwinds(s: State, t: TaskId) returns (steps: seq<Step>)
    requires Inv(s) && t < |s.tasks|
    ensures Run(s, steps) && forall i :: 0 <= i < |steps| ==> steps[i] in {GiveUp(t), GiveBack(t)}
    ensures After(s, steps).tasks == s.tasks[t := Idle]
    ensures forall l :: Owner(After(s, steps), l) == if Owner(s, l) == Some(t) then None else Owner(s, l)
    decreases if t < |s.tasks| then Weight(s.tasks[t]) else 0
  {
    var p := s.tasks[t];
    if p == Idle {
      IdleHoldsNothing(s, t);
      assert s.tasks == s.tasks[t := Idle];
      return [];
    }
    var step := if Wanted(p).Some? then GiveUp(t) else GiveBack(t);
    WeightAfter(s, p);
    StepKeeps(s, step);
    OwnersUnwind(s, step);
    var v := Apply(s, step);
    assert v.tasks == s.tasks[t := if Wanted(p).Some? then Withdrawn(p) else Outside(p)];
    hide Inv, Owner, Withdrawn, Outside, Wanted, Weight;
    var rest := Unwinds(v, t);
    steps := [step] + rest;
    assert steps[1..] == rest && v.tasks[t := Idle] == s.tasks[t := Idle];
  }

  lemma IdleHoldsNothing(s: State, t: TaskId)
    requires Inv(s) && t < |s.tasks| && s.tasks[t] == Idle
    ensures forall l :: Owner(s, l) != Some(t)
  {
  }

  /** Giving up changes no owner, giving back only that of the task's own last lock. */
  lemma OwnersUnwind(s: State, step: Step)
    requires Inv(s) && Enabled(s, step) && (step.GiveUp? || step.GiveBack?)
    ensures forall l :: Owner(Apply(s, step), l) == Owner(s, l)
                        || (Owner(s, l) == Some(step.t) && Owner(Apply(s, step), l) == None)
  {
    var p := s.tasks[step.t];
    if step.GiveBack? {
      HeldAfter(s, p);
      assert Last(p) in Held(p) && Owner(s, Last(p)) == Some(step.t);
      forall l ensures Owner(Apply(s, step), l) == if l == Last(p) then None else Owner(s, l) {
        OwnerAfter(Moved(s, step.t, Outside(p)), Last(p), None, l);
      }
    }
  }

  /**
   * The transport on which a claim was made stays the current one for as long as the claim
   * lasts, whatever every other task does, so its assignment is returned on the current one.
   */
  lemma {:induction false} ClaimKeepsItsTransport(s: State, steps: seq<Step>, t: TaskId)
    requires Inv(s) && Run(s, steps) && t < |s.tasks| && s.tasks[t].Claiming?
    requires forall i :: 0 <= i < |steps| ==> steps[i].t != t
    ensures t < |After(s, steps).tasks| && After(s, steps).tasks[t] == s.tasks[t]
    ensures s.tasks[t].transport == s.transport == After(s, steps).transport
    decreases |steps|
  {
    if steps != [] {
      StepKeeps(s, steps[0]);
      var v := Apply(s, steps[0]);
      assert v.tasks[t] == s.tasks[t];
      hide Run, Apply, Enabled, Exclusive;
      ClaimKeepsItsTransport(v, steps[1..], t);
    }
  }
}
