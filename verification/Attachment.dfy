/**
 * The attachment fence of the HTTP transport. A call is suspended between its request and its
 * answer; meanwhile others begin and finish. Creating, closing, renewing and draining a
 * session hold the transition lock while they are suspended.
 *
 * What should happen is said of a log of requests, answers and verdicts, which knows neither
 * the attachment id nor the generation that the transport keeps.
 */
module Attachment {
  import opened Prelude

  type CallId = nat

  /** Detached calls are those made with the token of an invocation, outside any session. */
  datatype Kind = Plain | Detached | Heartbeat | Drain | Create | Close

  predicate Locked(k: Kind) {
    k in {Heartbeat, Drain, Create, Close}
  }

  predicate Attached(k: Kind) {
    k !in {Detached, Create}
  }

  /** A suspended call, with the attachment it was sent under. */
  datatype Call = Call(kind: Kind, id: string, generation: nat)

  /** What comes back: nothing, an error status, or a success naming an attachment. */
  datatype Answer = Lost | Refused | Success(id: string)

  datatype Verdict = Failed | Fenced | Rejected | Mismatched | Accepted

  datatype Move = Begin(call: CallId, kind: Kind) | Finish(call: CallId, answer: Answer)

  /** What a move came to; a move that cannot be made is ignored. */
  datatype Entry =
    | Ignored
    | Denied(call: CallId, kind: Kind)
    | Sent(call: CallId, kind: Kind)
    | Answered(call: CallId, kind: Kind, answer: Answer, verdict: Verdict)

  type Log = seq<Entry>

  // ---------------------------------------------------------------- what the log says

  /** An accepted create or close. */
  predicate Switches(e: Entry) {
    e.Answered? && e.verdict == Accepted && e.kind in {Create, Close}
  }

  predicate Switched(log: Log, from: nat) {
    exists k :: from <= k < |log| && Switches(log[k])
  }

  /** The attachment that an accepted create or close leaves: the one Core named, or none. */
  function LeftBy(e: Entry): string
    requires Switches(e)
  {
    if e.kind == Create && e.answer.Success? then e.answer.id else ""
  }

  /** The current attachment is the one that the last accepted create or close has left. */
  function Current(log: Log): string
    decreases |log|
  {
    if log == [] then ""
    else if Switches(log[|log| - 1]) then LeftBy(log[|log| - 1])
    else Current(log[..|log| - 1])
  }

  predicate About(e: Entry, c: CallId) {
    (e.Sent? || e.Answered?) && e.call == c
  }

  /** The call was sent at this place and has not been answered. */
  predicate Open(log: Log, c: CallId, at: nat) {
    at < |log| && log[at].Sent? && log[at].call == c && forall k :: at < k < |log| ==> !About(log[k], c)
  }

  /** The call id is in use, or another call holds the lock that this one needs. */
  ghost predicate Busy(log: Log, c: CallId, kind: Kind) {
    || (exists p: nat :: Open(log, c, p))
    || (Locked(kind) && exists d, p: nat :: Open(log, d, p) && Locked(log[p].kind))
  }

  /** The verdict on an answer to the call sent at `at`. */
  function Due(log: Log, at: nat, answer: Answer): Verdict
    requires at < |log| && log[at].Sent?
  {
    var kind := log[at].kind;
    if answer == Lost then Failed
    else if Attached(kind) && Switched(log, at) then Fenced
    else if answer == Refused then Rejected
    else if kind == Heartbeat && answer.id != Current(log) then Mismatched
    else Accepted
  }

  /** What a move should come to after this log. */
  ghost predicate EntryFits(log: Log, m: Move, e: Entry) {
    match m
    case Begin(c, kind) =>
      if Busy(log, c, kind) then e == Ignored
      else if Attached(kind) && Current(log) == "" then e == Denied(c, kind)
      else e == Sent(c, kind)
    case Finish(c, answer) =>
      if exists p: nat :: Open(log, c, p) then
        exists p: nat :: Open(log, c, p) && e == Answered(c, log[p].kind, answer, Due(log, p, answer))
      else e == Ignored
  }

  // ---------------------------------------------------------------- what follows from the log alone

  /** Nothing is attached before the first create; then it is what the last create or close left. */
  lemma {:induction false} CurrentIs(log: Log)
    ensures !Switched(log, 0) ==> Current(log) == ""
    ensures forall k :: 0 <= k < |log| && Switches(log[k]) && !Switched(log, k + 1) ==> Current(log) == LeftBy(log[k])
    decreases |log|
  {
    if log != [] {
      var n := |log| - 1;
      var before := log[..n];
      CurrentIs(before);
      forall k | 0 <= k < |log| && Switches(log[k]) && !Switched(log, k + 1) ensures Current(log) == LeftBy(log[k]) {
        if k < n {
          assert !Switches(log[n]);
          assert before[k] == log[k];
        }
      }
    }
  }

  /** Between two places without an accepted create or close the attachment is the same. */
  lemma {:induction false} CurrentStays(log: Log, at: nat)
    requires at <= |log| && !Switched(log, at)
    ensures Current(log) == Current(log[..at])
    decreases |log|
  {
    if at < |log| {
      var before := log[..|log| - 1];
      assert before[..at] == log[..at];
      assert forall k :: 0 <= k < |before| ==> before[k] == log[k];
      CurrentStays(before, at);
    } else {
      assert log[..at] == log;
    }
  }

  /** After an accepted close, and before the next accepted create, an attached call is refused or ignored. */
  lemma ClosedMeansDenied(log: Log, k: nat, c: CallId, kind: Kind, e: Entry)
    requires k < |log| && Switches(log[k]) && log[k].kind == Close && !Switched(log, k + 1)
    requires Attached(kind) && EntryFits(log, Begin(c, kind), e)
    ensures e in {Ignored, Denied(c, kind)}
  {
    CurrentIs(log);
  }

  /** A call sent before an accepted create or close is never accepted after it, if it is attached. */
  lemma AcceptedIsCurrent(log: Log, at: nat, answer: Answer)
    requires at < |log| && log[at].Sent? && Attached(log[at].kind) && Due(log, at, answer) == Accepted
    ensures !Switched(log, at) && Current(log) == Current(log[..at])
  {
    CurrentStays(log, at);
  }

  /** The attachment id alone would not tell: Core may hand out an id again. */
  lemma IdAloneIsNotEnough(id: string)
    ensures var log := [Sent(0, Create), Answered(0, Create, Success(id), Accepted), Sent(1, Plain),
                        Sent(2, Close), Answered(2, Close, Success(""), Accepted),
                        Sent(3, Create), Answered(3, Create, Success(id), Accepted)];
            Current(log[..2]) == id == Current(log) && Due(log, 2, Success(id)) == Fenced
  {
    var log := [Sent(0, Create), Answered(0, Create, Success(id), Accepted), Sent(1, Plain),
                Sent(2, Close), Answered(2, Close, Success(""), Accepted),
                Sent(3, Create), Answered(3, Create, Success(id), Accepted)];
    assert Switches(log[4]);
  }

  // ---------------------------------------------------------------- the transport

  /** The checks after the answer arrived, in their order. */
  function Judge(call: Call, answer: Answer, attachmentId: string, generation: nat): Verdict {
    if answer == Lost then Failed
    else if Attached(call.kind) && (call.generation != generation || call.id != attachmentId) then Fenced
    else if answer == Refused then Rejected
    else if call.kind == Heartbeat && answer.id != attachmentId then Mismatched
    else Accepted
  }

  /** How many creates and closes were accepted. */
  function Count(log: Log): nat
    decreases |log|
  {
    if log == [] then 0 else Count(log[..|log| - 1]) + if Switches(log[|log| - 1]) then 1 else 0
  }

  lemma {:induction false} CountSince(log: Log, at: nat)
    requires at <= |log|
    ensures Count(log[..at]) <= Count(log) && (Count(log[..at]) == Count(log) <==> !Switched(log, at))
    decreases |log|
  {
    if at < |log| {
      var n := |log| - 1;
      var before := log[..n];
      assert before[..at] == log[..at] && forall k :: 0 <= k < n ==> before[k] == log[k];
      CountSince(before, at);
      if Switched(before, at) {
        var k :| at <= k < n && Switches(before[k]);
        assert Switches(log[k]);
      }
    } else {
      assert log[..at] == log;
    }
  }

  /** A suspended call against the log. */
  ghost predicate CallFits(c: CallId, call: Call, at: nat, log: Log) {
    && Open(log, c, at) && log[at] == Sent(c, call.kind)
    && (Attached(call.kind) ==> call.id == Current(log[..at]) && call.generation == Count(log[..at]))
    && (Locked(call.kind) ==> !Switched(log, at))
  }

  /** The suspended calls are the open ones, and one of them at most holds the lock. */
  ghost predicate CallsFit(calls: map<CallId, Call>, sent: map<CallId, nat>, log: Log, transition: Option<CallId>) {
    calls.Keys == sent.Keys && AllFit(calls, sent, log) && OpenFits(sent, log) && LockFits(calls, transition)
  }

  ghost predicate AllFit(calls: map<CallId, Call>, sent: map<CallId, nat>, log: Log) {
    forall c :: c in calls && c in sent ==> CallFits(c, calls[c], sent[c], log)
  }

  ghost predicate OpenFits(sent: map<CallId, nat>, log: Log) {
    forall c, p: nat :: Open(log, c, p) ==> c in sent && p == sent[c]
  }

  predicate LockFits(calls: map<CallId, Call>, transition: Option<CallId>) {
    && (forall c :: c in calls ==> (Locked(calls[c].kind) <==> transition == Some(c)))
    && (transition.Some? ==> transition.value in calls)
  }

  lemma LockTaken(calls: map<CallId, Call>, transition: Option<CallId>, c: CallId, call: Call)
    requires LockFits(calls, transition) && c !in calls && (Locked(call.kind) ==> transition == None)
    ensures LockFits(calls[c := call], if Locked(call.kind) then Some(c) else transition)
  {
  }

  /** The comparison of id and generation decides exactly whether a create or close came between. */
  lemma FencedIff(c: CallId, call: Call, at: nat, log: Log, answer: Answer)
    requires CallFits(c, call, at, log)
    ensures Judge(call, answer, Current(log), Count(log)) == Due(log, at, answer)
  {
    CountSince(log, at);
    if !Switched(log, at) {
      CurrentStays(log, at);
    }
  }

  lemma OpenSnoc(log: Log, e: Entry, c: CallId, p: nat)
    ensures Open(log + [e], c, p) <==> (Open(log, c, p) && !About(e, c)) || (p == |log| && e.Sent? && e.call == c)
  {
    var longer := log + [e];
    assert longer[|log|] == e && forall k :: 0 <= k < |log| ==> longer[k] == log[k];
  }

  /** A suspended call after one more entry about something else. */
  lemma CallStays(c: CallId, call: Call, at: nat, log: Log, e: Entry)
    requires CallFits(c, call, at, log) && !About(e, c) && (Locked(call.kind) ==> !Switches(e))
    ensures CallFits(c, call, at, log + [e])
  {
    var longer := log + [e];
    OpenSnoc(log, e, c, at);
    assert longer[..at] == log[..at] && longer[at] == log[at];
    assert longer[|log|] == e && forall k :: 0 <= k < |log| ==> longer[k] == log[k];
  }

  lemma CallBegun(
    calls: map<CallId, Call>, sent: map<CallId, nat>, log: Log, transition: Option<CallId>, c: CallId, kind: Kind)
    requires CallsFit(calls, sent, log, transition) && c !in calls && (Locked(kind) ==> transition == None)
    ensures CallsFit(calls[c := Call(kind, Current(log), Count(log))], sent[c := |log|], log + [Sent(c, kind)],
                     if Locked(kind) then Some(c) else transition)
  {
    var call := Call(kind, Current(log), Count(log));
    JustSent(log, c, kind);
    OthersStay(calls, sent, log, transition, Sent(c, kind), c);
    LockTaken(calls, transition, c, call);
    OpenAfter(sent, log, c, kind);
    hide CallFits, Open, OpenFits, Current, Count, LockFits, Locked;
  }

  lemma OpenAfter(sent: map<CallId, nat>, log: Log, c: CallId, kind: Kind)
    requires OpenFits(sent, log) && c !in sent
    ensures OpenFits(sent[c := |log|], log + [Sent(c, kind)])
  {
    forall d, p: nat | Open(log + [Sent(c, kind)], d, p)
      ensures if d == c then p == |log| else d in sent && p == sent[d]
    {
      OpenSnoc(log, Sent(c, kind), d, p);
    }
  }

  /** The suspended calls that the entry is not about. */
  lemma OthersStay(
    calls: map<CallId, Call>, sent: map<CallId, nat>, log: Log, transition: Option<CallId>, e: Entry, c: CallId)
    requires CallsFit(calls, sent, log, transition) && (forall d :: About(e, d) ==> d == c)
    requires Switches(e) ==> c in calls && Locked(calls[c].kind)
    ensures forall d :: d in calls && d != c ==> CallFits(d, calls[d], sent[d], log + [e])
  {
    forall d | d in calls && d != c ensures CallFits(d, calls[d], sent[d], log + [e]) {
      CallStays(d, calls[d], sent[d], log, e);
    }
  }

  lemma JustSent(log: Log, c: CallId, kind: Kind)
    ensures CallFits(c, Call(kind, Current(log), Count(log)), |log|, log + [Sent(c, kind)])
  {
    var longer := log + [Sent(c, kind)];
    assert longer[..|log|] == log && longer[|log|] == Sent(c, kind);
  }

  /** A create or close takes effect only while its call holds the lock, so no other holder is overtaken. */
  lemma CallFinished(
    calls: map<CallId, Call>, sent: map<CallId, nat>, log: Log, transition: Option<CallId>, c: CallId,
    answer: Answer, v: Verdict)
    requires CallsFit(calls, sent, log, transition) && c in calls
    ensures CallsFit(calls - {c}, sent - {c}, log + [Answered(c, calls[c].kind, answer, v)],
                     if transition == Some(c) then None else transition)
  {
    var e := Answered(c, calls[c].kind, answer, v);
    var longer := log + [e];
    OthersStay(calls, sent, log, transition, e, c);
    forall d, p: nat | Open(longer, d, p) ensures d in calls - {c} && p == sent[d] {
      OpenSnoc(log, e, d, p);
    }
    hide CallFits, Open;
  }

  lemma NothingBegun(calls: map<CallId, Call>, sent: map<CallId, nat>, log: Log, transition: Option<CallId>, e: Entry)
    requires CallsFit(calls, sent, log, transition) && (e.Ignored? || e.Denied?)
    ensures CallsFit(calls, sent, log + [e], transition)
  {
    forall d | d in calls ensures CallFits(d, calls[d], sent[d], log + [e]) {
      CallStays(d, calls[d], sent[d], log, e);
    }
    forall d, p: nat | Open(log + [e], d, p) ensures d in calls && p == sent[d] {
      OpenSnoc(log, e, d, p);
    }
    hide CallFits, Open;
  }

  lemma BusyIff(calls: map<CallId, Call>, sent: map<CallId, nat>, log: Log, transition: Option<CallId>, c: CallId,
                kind: Kind)
    requires CallsFit(calls, sent, log, transition)
    ensures Busy(log, c, kind) <==> c in calls || (Locked(kind) && transition.Some?)
  {
    if c in calls {
      assert Open(log, c, sent[c]);
    }
    if transition.Some? {
      var d := transition.value;
      assert CallFits(d, calls[d], sent[d], log);
      assert Open(log, d, sent[d]) && Locked(log[sent[d]].kind);
    }
    if d, p: nat :| Open(log, d, p) && Locked(log[p].kind) {
      assert CallFits(d, calls[d], sent[d], log);
    }
    hide Open;
  }

  class HTTPTransport {
    var attachmentId: string
    var generation: nat
    var transition: Option<CallId>
    var calls: map<CallId, Call>

    /** What every move came to. */
    ghost var log: Log
    /** Where in the log each suspended call was sent. */
    ghost var sent: map<CallId, nat>

    constructor ()
      ensures Valid() && log == [] && calls == map[]
    {
      attachmentId, generation, transition, calls := "", 0, None, map[];
      log, sent := [], map[];
    }

    ghost predicate Valid()
      reads this
    {
      && attachmentId == Current(log) && generation == Count(log)
      && CallsFit(calls, sent, log, transition)
    }

    /** Up to the first await of a call. A call of the session needs an attachment. */
    method BeginCall(c: CallId, kind: Kind) returns (ok: bool)
      requires Valid() && c !in calls
      requires Locked(kind) ==> transition == None
      modifies this
      ensures Valid() && attachmentId == old(attachmentId)
      ensures ok <==> !Attached(kind) || Current(old(log)) != ""
      ensures log == old(log) + [if ok then Sent(c, kind) else Denied(c, kind)]
      ensures ok ==> calls == old(calls)[c := Call(kind, attachmentId, generation)]
      ensures ok ==> sent == old(sent)[c := |old(log)|]
      ensures ok ==> transition == if Locked(kind) then Some(c) else old(transition)
      ensures !ok ==> calls == old(calls) && sent == old(sent) && transition == old(transition)
    {
      hide CallsFit, Current, Count, Open;
      if Attached(kind) && attachmentId == "" {
        NothingBegun(calls, sent, log, transition, Denied(c, kind));
        NoSwitch(log, Denied(c, kind));
        log := log + [Denied(c, kind)];
        return false;
      }
      CallBegun(calls, sent, log, transition, c, kind);
      NoSwitch(log, Sent(c, kind));
      calls := calls[c := Call(kind, attachmentId, generation)];
      sent := sent[c := |log|];
      if Locked(kind) {
        transition := Some(c);
      }
      log := log + [Sent(c, kind)];
      return true;
    }

    /**
     * From the answer on. An attached call is fenced off exactly when a create or close was
     * accepted since it was sent; a call that holds the transition lock never is.
     */
    method FinishCall(c: CallId, answer: Answer) returns (v: Verdict)
      requires Valid() && c in calls
      modifies this
      ensures Valid() && calls == old(calls) - {c} && sent == old(sent) - {c}
      ensures transition == if old(transition) == Some(c) then None else old(transition)
      ensures Open(old(log), c, old(sent[c])) && old(log)[old(sent[c])].kind == old(calls[c].kind)
      ensures v == Due(old(log), old(sent[c]), answer)
      ensures log == old(log) + [Answered(c, old(calls[c].kind), answer, v)]
      ensures Locked(old(calls[c].kind)) ==> v != Fenced && !Switched(old(log), old(sent[c]))
      ensures old(calls[c].kind) == Heartbeat && answer == Success(old(attachmentId)) ==> v == Accepted
    {
      var call := calls[c];
      Answering(c, answer);
      hide CallsFit, CallFits, Open, Switched, Count, Current, Judge, Due;
      v := Judge(call, answer, attachmentId, generation);
      if transition == Some(c) {
        transition := None;
      }
      calls := calls - {c};
      sent := sent - {c};
      TakeEffect(c, call.kind, answer, v);
    }

    /** What the log says about the call that is answered. */
    lemma Answering(c: CallId, answer: Answer)
      requires Valid() && c in calls
      ensures var v := Judge(calls[c], answer, attachmentId, generation);
              && c in sent && Open(log, c, sent[c]) && log[sent[c]].kind == calls[c].kind
              && v == Due(log, sent[c], answer) && (v == Accepted ==> answer.Success?)
              && (Locked(calls[c].kind) ==> v != Fenced && !Switched(log, sent[c]))
              && (calls[c].kind == Heartbeat && answer == Success(attachmentId) ==> v == Accepted)
              && CallsFit(calls - {c}, sent - {c}, log + [Answered(c, calls[c].kind, answer, v)],
                          if transition == Some(c) then None else transition)
    {
      assert CallFits(c, calls[c], sent[c], log);
      FencedIff(c, calls[c], sent[c], log, answer);
      CallFinished(calls, sent, log, transition, c, answer, Judge(calls[c], answer, attachmentId, generation));
      hide CallsFit, Open, Switched, Count, Current;
    }

    /** An accepted create or close takes effect. */
    method TakeEffect(ghost c: CallId, kind: Kind, answer: Answer, v: Verdict)
      requires attachmentId == Current(log) && generation == Count(log) && (v == Accepted ==> answer.Success?)
      modifies this`attachmentId, this`generation, this`log
      ensures log == old(log) + [Answered(c, kind, answer, v)]
      ensures attachmentId == Current(log) && generation == Count(log)
    {
      hide Count, Current;
      ghost var e := Answered(c, kind, answer, v);
      if v == Accepted && kind == Create {
        OneSwitch(log, e);
        attachmentId := answer.id;
        generation := generation + 1;
      } else if v == Accepted && kind == Close {
        OneSwitch(log, e);
        attachmentId := "";
        generation := generation + 1;
      } else {
        NoSwitch(log, e);
      }
      log := log + [e];
    }

    /**
     * Any interleaving of calls comes to what the log says it should, and the transport keeps
     * the attachment of the last accepted create or close.
     */
    method Interleave(moves: seq<Move>)
      requires Valid()
      modifies this
      ensures Valid() && |log| == |old(log)| + |moves| && old(log) <= log
      ensures forall i :: 0 <= i < |moves| ==> EntryFits(log[..|old(log)| + i], moves[i], log[|old(log)| + i])
      ensures attachmentId == Current(log)
    {
      ghost var n := |log|;
      for i := 0 to |moves|
        invariant Valid() && |log| == n + i && old(log) <= log
        invariant forall k :: 0 <= k < i ==> EntryFits(log[..n + k], moves[k], log[n + k])
      {
        ghost var before := log;
        MakeMove(moves[i]);
        assert log[..n + i] == before;
        hide EntryFits, Valid;
        forall k | 0 <= k < i ensures EntryFits(log[..n + k], moves[k], log[n + k]) {
          assert log[..n + k] == before[..n + k] && log[n + k] == before[n + k];
        }
      }
    }

    method MakeMove(m: Move)
      requires Valid()
      modifies this
      ensures Valid() && |log| == |old(log)| + 1 && old(log) <= log && EntryFits(old(log), m, log[|old(log)|])
    {
      hide CallsFit, Open, Current, Count, Due;
      match m
      case Begin(c, kind) =>
        BusyIff(calls, sent, log, transition, c, kind);
        if c in calls || (Locked(kind) && transition != None) {
          Ignore();
        } else {
          var _ := BeginCall(c, kind);
        }
      case Finish(c, answer) =>
        OpenIff(c);
        if c in calls {
          ghost var before, at := log, sent[c];
          var v := FinishCall(c, answer);
          assert log[|before|] == Answered(c, before[at].kind, answer, Due(before, at, answer));
        } else {
          Ignore();
        }
    }

    lemma OpenIff(c: CallId)
      requires Valid()
      ensures c in calls <==> exists p: nat :: Open(log, c, p)
      ensures c in calls ==> c in sent && Open(log, c, sent[c]) && sent[c] < |log| && log[sent[c]].Sent?
    {
      if c in calls {
        assert CallFits(c, calls[c], sent[c], log);
      }
      hide Open;
    }

    ghost method Ignore()
      requires Valid()
      modifies this`log
      ensures Valid() && log == old(log) + [Ignored]
    {
      NothingBegun(calls, sent, log, transition, Ignored);
      NoSwitch(log, Ignored);
      hide CallsFit;
      log := log + [Ignored];
    }
  }

  lemma NoSwitch(log: Log, e: Entry)
    requires !Switches(e)
    ensures Current(log + [e]) == Current(log) && Count(log + [e]) == Count(log)
  {
    assert (log + [e])[..|log|] == log;
  }

  lemma OneSwitch(log: Log, e: Entry)
    requires Switches(e)
    ensures Current(log + [e]) == LeftBy(e) && Count(log + [e]) == Count(log) + 1
  {
    assert (log + [e])[..|log|] == log;
  }
}
