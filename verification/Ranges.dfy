/**
 * Run-length ranges of Event sequences: how a resume request describes what is pending,
 * and how a replay request is turned back into stored Events.
 */
module Ranges {
  import opened Prelude
  import opened Journal

  datatype Range = Range(start: int, end: int)

  /** Membership of one number in a list of ranges. */
  predicate Covers(ranges: seq<Range>, n: int) {
    exists i :: 0 <= i < |ranges| && ranges[i].start <= n <= ranges[i].end
  }

  /** Ascending and disjoint from 1 on: what a replay request must look like. */
  ghost predicate Replayable(ranges: seq<Range>) {
    && (forall i :: 0 <= i < |ranges| ==> 1 <= ranges[i].start <= ranges[i].end)
    && (forall i, j :: 0 <= i < j < |ranges| ==> ranges[i].end < ranges[j].start)
  }

  /** Ascending, disjoint, and with a gap between neighbours, so no run can be longer. */
  ghost predicate Maximal(ranges: seq<Range>) {
    && (forall i :: 0 <= i < |ranges| ==> ranges[i].start <= ranges[i].end)
    && (forall i, j :: 0 <= i < j < |ranges| ==> ranges[i].end + 1 < ranges[j].start)
  }

  ghost predicate RunsOf(ranges: seq<Range>, s: set<nat>) {
    && Maximal(ranges)
    && forall n: int :: Covers(ranges, n) <==> 0 <= n && n in s
  }

  lemma CoversSnoc(ranges: seq<Range>, r: Range, n: int)
    ensures Covers(ranges + [r], n) <==> Covers(ranges, n) || r.start <= n <= r.end
  {
    var all := ranges + [r];
    if Covers(ranges, n) {
      var i :| 0 <= i < |ranges| && ranges[i].start <= n <= ranges[i].end;
      assert all[i] == ranges[i];
    }
    if r.start <= n <= r.end {
      assert all[|ranges|] == r;
    }
  }

  /** The ranges and the current run together are the runs of the sequences seen so far. */
  ghost predicate RunsSoFar(ranges: seq<Range>, start: int, end: int, seen: seq<nat>) {
    && start <= end && Maximal(ranges + [Range(start, end)])
    && forall n: int :: Covers(ranges + [Range(start, end)], n) <==> 0 <= n && n in seen
  }

  lemma RunBegun(sequence: nat)
    ensures RunsSoFar([], sequence, sequence, [sequence])
  {
    assert [] + [Range(sequence, sequence)] == [Range(sequence, sequence)];
    forall n: int ensures Covers([Range(sequence, sequence)], n) <==> 0 <= n && n in [sequence] {
      CoversSnoc([], Range(sequence, sequence), n);
    }
  }

  lemma RunExtended(ranges: seq<Range>, start: int, end: int, seen: seq<nat>, sequence: nat)
    requires RunsSoFar(ranges, start, end, seen) && sequence == end + 1
    ensures RunsSoFar(ranges, start, sequence, seen + [sequence])
  {
    forall n: int ensures Covers(ranges + [Range(start, sequence)], n) <==> 0 <= n && n in seen + [sequence] {
      CoversSnoc(ranges, Range(start, end), n);
      CoversSnoc(ranges, Range(start, sequence), n);
    }
    MaximalExtend(ranges, start, end, sequence);
  }

  lemma RunClosed(ranges: seq<Range>, start: int, end: int, seen: seq<nat>, sequence: nat)
    requires RunsSoFar(ranges, start, end, seen) && end + 1 < sequence
    ensures RunsSoFar(ranges + [Range(start, end)], sequence, sequence, seen + [sequence])
  {
    var closed := ranges + [Range(start, end)];
    forall n: int ensures Covers(closed + [Range(sequence, sequence)], n) <==> 0 <= n && n in seen + [sequence] {
      CoversSnoc(closed, Range(sequence, sequence), n);
    }
    MaximalSnoc(ranges, Range(start, end), sequence);
  }

  /** The runs of the given Events, computed with two running bounds. */
  method EventRanges(events: seq<Event>) returns (ranges: seq<Range>)
    requires forall i, j :: 0 <= i < j < |events| ==> events[i].seq_ != events[j].seq_
    ensures RunsOf(ranges, set e | e in events :: e.seq_)
  {
    var wanted := set e | e in events :: e.seq_;
    var sequences := Sorted(wanted);
    if sequences == [] {
      assert wanted == {};
      return [];
    }
    hide RunsSoFar;
    ranges := [];
    var start, end := sequences[0], sequences[0];
    var i := 1;
    assert sequences[..1] == [sequences[0]];
    RunBegun(sequences[0]);
    while i < |sequences|
      invariant 1 <= i <= |sequences|
      invariant end == sequences[i - 1]
      invariant RunsSoFar(ranges, start, end, sequences[..i])
    {
      var sequence := sequences[i];
      assert sequences[..i + 1] == sequences[..i] + [sequence];
      if sequence == end + 1 {
        RunExtended(ranges, start, end, sequences[..i], sequence);
        end := sequence;
      } else {
        RunClosed(ranges, start, end, sequences[..i], sequence);
        ranges := ranges + [Range(start, end)];
        start, end := sequence, sequence;
      }
      i := i + 1;
    }
    assert sequences[..i] == sequences;
    AllRuns(ranges, start, end, sequences, wanted);
    ranges := ranges + [Range(start, end)];
  }

  lemma AllRuns(ranges: seq<Range>, start: int, end: int, sequences: seq<nat>, wanted: set<nat>)
    requires RunsSoFar(ranges, start, end, sequences)
    requires forall n :: n in sequences <==> n in wanted
    ensures RunsOf(ranges + [Range(start, end)], wanted)
  {
  }

  lemma MaximalExtend(ranges: seq<Range>, start: int, end: int, further: int)
    requires Maximal(ranges + [Range(start, end)]) && end <= further
    ensures Maximal(ranges + [Range(start, further)])
  {
    var before, after := ranges + [Range(start, end)], ranges + [Range(start, further)];
    forall i | 0 <= i < |after| ensures after[i].start <= after[i].end {
      assert before[i].start <= before[i].end;
    }
    forall i, j | 0 <= i < j < |after| ensures after[i].end + 1 < after[j].start {
      assert before[i].end + 1 < before[j].start;
    }
  }

  lemma MaximalSnoc(ranges: seq<Range>, last: Range, next: int)
    requires Maximal(ranges + [last]) && last.end + 1 < next
    ensures Maximal(ranges + [last] + [Range(next, next)])
  {
    var before := ranges + [last];
    assert before[|ranges|] == last;
    forall i | 0 <= i < |before| ensures before[i].end <= last.end {
      if i < |ranges| {
        assert before[i].end + 1 < before[|ranges|].start;
      }
    }
  }

  /** Only one list of maximal runs covers a given set. */
  lemma {:induction false} RunsUnique(a: seq<Range>, b: seq<Range>, s: set<nat>)
    requires RunsOf(a, s) && RunsOf(b, s)
    ensures a == b
    decreases |a|
  {
    if a == [] {
      if b != [] {
        assert false by {
          assert Covers(b, b[0].start);
        }
      }
    } else {
      assert Covers(a, a[0].start);
      assert Covers(b, a[0].start);
      assert b != [];
      FirstRun(a, b, s);
      FirstRun(b, a, s);
      assert a[0] == b[0];
      var rest := set n | n in s && n > a[0].end;
      TailRuns(a, s, rest);
      TailRuns(b, s, rest);
      RunsUnique(a[1..], b[1..], rest);
    }
  }

  lemma CoveredIsAtOrAfter(a: seq<Range>, n: int)
    requires Maximal(a) && a != [] && Covers(a, n)
    ensures a[0].start <= n
    ensures n <= a[0].end || (|a| > 1 && a[0].end + 1 < n)
  {
  }

  lemma FirstRun(a: seq<Range>, b: seq<Range>, s: set<nat>)
    requires RunsOf(a, s) && RunsOf(b, s) && a != [] && b != []
    ensures a[0].start >= b[0].start
    ensures a[0].start == b[0].start ==> a[0].end <= b[0].end
  {
    assert Covers(a, a[0].start);
    assert Covers(b, a[0].start);
    CoveredIsAtOrAfter(b, a[0].start);
    if a[0].start == b[0].start && b[0].end < a[0].end {
      assert Covers(a, b[0].end + 1);
      assert Covers(b, b[0].end + 1);
      CoveredIsAtOrAfter(b, b[0].end + 1);
    }
  }

  lemma TailRuns(a: seq<Range>, s: set<nat>, rest: set<nat>)
    requires RunsOf(a, s) && a != []
    requires rest == set n | n in s && n > a[0].end
    ensures RunsOf(a[1..], rest)
  {
    var t := a[1..];
    forall i, j | 0 <= i < j < |t| ensures t[i].end + 1 < t[j].start {
      assert t[i] == a[i + 1] && t[j] == a[j + 1];
    }
    forall n: int ensures Covers(t, n) <==> 0 <= n && n in rest {
      if Covers(t, n) {
        var i :| 0 <= i < |t| && t[i].start <= n <= t[i].end;
        assert a[i + 1] == t[i];
        assert a[0].end + 1 < a[i + 1].start;
        assert Covers(a, n);
      }
      if 0 <= n && n in rest {
        assert Covers(a, n);
        var i :| 0 <= i < |a| && a[i].start <= n <= a[i].end;
        assert i > 0;
        assert t[i - 1] == a[i];
      }
    }
  }

  /** The sequences that a list of ranges asks for, in order. */
  function Expanded(ranges: seq<Range>): seq<int>
    decreases |ranges|
  {
    if ranges == [] then [] else Interval(ranges[0].start, ranges[0].end) + Expanded(ranges[1..])
  }

  function Interval(start: int, end: int): (r: seq<int>)
    ensures forall n :: n in r <==> start <= n <= end
    ensures forall i :: 0 <= i < |r| ==> r[i] == start + i
    ensures |r| == if end < start then 0 else end - start + 1
    decreases end - start
  {
    if end < start then [] else [start] + Interval(start + 1, end)
  }

  lemma {:induction false} ExpandedMembers(ranges: seq<Range>)
    ensures forall n :: n in Expanded(ranges) <==> Covers(ranges, n)
    decreases |ranges|
  {
    if ranges != [] {
      var rest := ranges[1..];
      ExpandedMembers(rest);
      forall n ensures n in Expanded(ranges) <==> Covers(ranges, n) {
        if Covers(rest, n) {
          var i :| 0 <= i < |rest| && rest[i].start <= n <= rest[i].end;
          assert ranges[i + 1] == rest[i];
        }
        if Covers(ranges, n) {
          var i :| 0 <= i < |ranges| && ranges[i].start <= n <= ranges[i].end;
          assert i > 0 ==> rest[i - 1] == ranges[i];
        }
      }
    }
  }

  lemma {:induction false} ExpandedSnoc(ranges: seq<Range>, r: Range)
    ensures Expanded(ranges + [r]) == Expanded(ranges) + Interval(r.start, r.end)
    decreases |ranges|
  {
    if ranges == [] {
      assert ranges + [r] == [r];
      assert [r][1..] == [];
    } else {
      assert (ranges + [r])[1..] == ranges[1..] + [r];
      ExpandedSnoc(ranges[1..], r);
    }
  }

  lemma {:induction false} ExpandedAscending(ranges: seq<Range>)
    requires Replayable(ranges)
    ensures forall i, j :: 0 <= i < j < |Expanded(ranges)| ==> Expanded(ranges)[i] < Expanded(ranges)[j]
    ensures forall n :: n in Expanded(ranges) ==> 1 <= n
    decreases |ranges|
  {
    if ranges != [] {
      var rest := ranges[1..];
      assert Replayable(rest) by {
        forall i, j | 0 <= i < j < |rest| ensures rest[i].end < rest[j].start {
          assert ranges[i + 1].end < ranges[j + 1].start;
        }
      }
      ExpandedAscending(rest);
      ExpandedMembers(rest);
      forall n | n in Expanded(rest) ensures ranges[0].end < n {
        var i :| 0 <= i < |rest| && rest[i].start <= n <= rest[i].end;
        assert ranges[0].end < ranges[i + 1].start;
      }
      var head, tail := Interval(ranges[0].start, ranges[0].end), Expanded(rest);
      forall i, j | 0 <= i < j < |head + tail| ensures (head + tail)[i] < (head + tail)[j] {
        if j >= |head| {
          assert (head + tail)[j] == tail[j - |head|];
          assert tail[j - |head|] in tail;
        }
      }
    }
  }

  lemma IntervalSnoc(start: int, end: int)
    requires start <= end
    ensures Interval(start, end) == Interval(start, end - 1) + [end]
  {
  }

  ghost predicate SelectsAt(stored: map<nat, Event>, sequence: int, record: Event) {
    0 <= sequence && (var n: nat := sequence; n in stored && stored[n] == record)
  }

  /** `records` are the stored Events with the sequences of `order`, one by one. */
  ghost predicate Selects(stored: map<nat, Event>, order: seq<int>, records: seq<Event>) {
    && |records| == |order|
    && forall i :: 0 <= i < |order| ==> SelectsAt(stored, order[i], records[i])
  }

  lemma SelectsConcat(stored: map<nat, Event>, o1: seq<int>, r1: seq<Event>, o2: seq<int>, r2: seq<Event>)
    requires Selects(stored, o1, r1) && Selects(stored, o2, r2)
    ensures Selects(stored, o1 + o2, r1 + r2)
  {
  }

  /** The inner loop of the lookup: one range. */
  method EventsInInterval(stored: map<nat, Event>, start: nat, end: nat)
    returns (r: Outcome<seq<Event>, StoreError>)
    requires start <= end
    ensures r.Ok? ==> Selects(stored, Interval(start, end), r.value)
    ensures r.Err? ==> r.error == Corrupt && exists n: nat :: start <= n <= end && n !in stored
  {
    var records := [];
    var sequence := start;
    while sequence < end + 1
      invariant start <= sequence <= end + 1
      invariant Selects(stored, Interval(start, sequence - 1), records)
    {
      if sequence !in stored {
        return Err(Corrupt);
      }
      IntervalSnoc(start, sequence);
      records := records + [stored[sequence]];
      sequence := sequence + 1;
    }
    r := Ok(records);
  }

  /** The lookup behind a replay: it fails on malformed ranges and on missing Events only. */
  method EventsInRanges(stored: map<nat, Event>, ranges: seq<Range>)
    returns (r: Outcome<seq<Event>, StoreError>)
    ensures r.Ok? <==> Replayable(ranges) && forall n :: Covers(ranges, n) ==> 0 <= n && n in stored
    ensures r.Err? ==> r.error == Corrupt
    ensures r.Ok? ==> Selects(stored, Expanded(ranges), r.value)
  {
    var records: seq<Event> := [];
    var previous := 0;
    var k := 0;
    while k < |ranges|
      invariant 0 <= k <= |ranges|
      invariant Replayable(ranges[..k])
      invariant previous == if k == 0 then 0 else ranges[k - 1].end
      invariant Selects(stored, Expanded(ranges[..k]), records)
    {
      var start, end := ranges[k].start, ranges[k].end;
      if start < 1 || end < start || start <= previous {
        assert k > 0 && start <= previous ==> !(ranges[k - 1].end < ranges[k].start);
        return Err(Corrupt);
      }
      ReplayableSnoc(ranges, k);
      var chunk := EventsInInterval(stored, start, end);
      if chunk.Err? {
        assert forall n :: start <= n <= end ==> Covers(ranges, n);
        return Err(Corrupt);
      }
      SelectsConcat(stored, Expanded(ranges[..k]), records, Interval(start, end), chunk.value);
      records := records + chunk.value;
      assert ranges[..k + 1] == ranges[..k] + [ranges[k]];
      ExpandedSnoc(ranges[..k], ranges[k]);
      previous := end;
      k := k + 1;
    }
    assert ranges[..k] == ranges;
    ExpandedMembers(ranges);
    forall n | Covers(ranges, n) ensures 0 <= n && n in stored {
      assert n in Expanded(ranges);
      var i :| 0 <= i < |Expanded(ranges)| && Expanded(ranges)[i] == n;
      assert SelectsAt(stored, Expanded(ranges)[i], records[i]);
    }
    r := Ok(records);
  }

  lemma ReplayableSnoc(ranges: seq<Range>, k: nat)
    requires k < |ranges| && Replayable(ranges[..k])
    requires 1 <= ranges[k].start <= ranges[k].end
    requires k > 0 ==> ranges[k - 1].end < ranges[k].start
    ensures Replayable(ranges[..k + 1])
  {
  }

  /** The runs of the pending sequences are valid ranges of stored Events, and expand to them in order. */
  lemma PendingRunsReplay(e: Entry, ranges: seq<Range>)
    requires Sound(e) && RunsOf(ranges, PendingSeqs(e))
    ensures Replayable(ranges)
    ensures forall n :: Covers(ranges, n) ==> 0 <= n && n in e.events
    ensures Expanded(ranges) == Sorted(PendingSeqs(e))
    ensures Selects(e.events, Expanded(ranges), Pending(e))
  {
    forall n | Covers(ranges, n) ensures 1 <= n && n in e.events {
      assert EventFits(e, n);
    }
    forall i | 0 <= i < |ranges| ensures 1 <= ranges[i].start {
      assert Covers(ranges, ranges[i].start);
    }
    ExpandedMembers(ranges);
    ExpandedAscending(ranges);
    var expanded: seq<nat> := NaturalCopy(Expanded(ranges));
    AscendingUnique(expanded, Sorted(PendingSeqs(e)));
  }

  /** The pending Events carry exactly the pending sequences, each once and in ascending order. */
  lemma PendingSequences(e: Entry)
    requires Sound(e)
    ensures (set v | v in Pending(e) :: v.seq_) == PendingSeqs(e)
    ensures forall i, j :: 0 <= i < j < |Pending(e)| ==> Pending(e)[i].seq_ < Pending(e)[j].seq_
  {
    var order := Sorted(PendingSeqs(e));
    PendingInOrder(e);
    hide Pending, PendingSeqs, Sorted, Sound;
    SequencesOf(Pending(e), order);
    assert (set v | v in Pending(e) :: v.seq_) == PendingSeqs(e);
  }

  lemma PendingInOrder(e: Entry)
    requires Sound(e)
    ensures var order := Sorted(PendingSeqs(e));
            |Pending(e)| == |order| && forall i :: 0 <= i < |order| ==> Pending(e)[i].seq_ == order[i]
  {
    var order := Sorted(PendingSeqs(e));
    hide Sorted, Pick;
    forall i | 0 <= i < |order| ensures Pending(e)[i].seq_ == order[i] {
      assert order[i] in PendingSeqs(e) && EventFits(e, order[i]);
    }
  }

  lemma SequencesOf(events: seq<Event>, order: seq<nat>)
    requires |events| == |order| && forall i :: 0 <= i < |order| ==> events[i].seq_ == order[i]
    ensures forall n :: n in (set v | v in events :: v.seq_) <==> n in order
  {
    forall n | n in order ensures n in (set v | v in events :: v.seq_) {
      var i :| 0 <= i < |order| && order[i] == n;
      assert events[i] in events;
    }
  }

  /** Given order and store, only one list of Events is selected. */
  lemma SelectsUnique(stored: map<nat, Event>, order: seq<int>, first: seq<Event>, second: seq<Event>)
    requires Selects(stored, order, first) && Selects(stored, order, second)
    ensures first == second
  {
    forall i | 0 <= i < |order| ensures first[i] == second[i] {
      assert SelectsAt(stored, order[i], first[i]) && SelectsAt(stored, order[i], second[i]);
    }
  }

  /**
   * The round trip: the ranges that a resume announces for the pending Events are accepted by
   * the lookup behind a replay, and it gives back exactly the pending Events in order.
   */
  method PendingRoundTrip(e: Entry) returns (ranges: seq<Range>, r: Outcome<seq<Event>, StoreError>)
    requires Sound(e)
    ensures RunsOf(ranges, PendingSeqs(e)) && r == Ok(Pending(e))
  {
    PendingSequences(e);
    hide Pending, PendingSeqs, Sound;
    ranges := EventRanges(Pending(e));
    PendingRunsReplay(e, ranges);
    r := EventsInRanges(e.events, ranges);
    SelectsUnique(e.events, Expanded(ranges), r.value, Pending(e));
  }

  function NaturalCopy(s: seq<int>): (r: seq<nat>)
    requires forall n :: n in s ==> 0 <= n
    ensures r == s
  {
    if s == [] then []
    else
      assert s[0] in s;
      assert forall n :: n in s[1..] ==> n in s;
      [s[0]] + NaturalCopy(s[1..])
  }

  /** Every sequence up to the last one is there. */
  predicate Complete(e: Entry) {
    e.events.Keys == UpTo(e.rec.last)
  }

  /** Until an attempt is terminal its Events are complete, and reopening keeps or restores that. */
  lemma StaysComplete(e: Entry)
    requires !Terminal(e.rec.state)
    ensures Sound(e) ==> Complete(e) && Repaired(e) == Ok(e)
    ensures Repaired(e).Ok? ==>
              var f := Repaired(e).value;
              Complete(f) && !Terminal(f.rec.state) && f.events == e.events && e.rec.last <= f.rec.last
  {
    if Sound(e) {
      RepairedSound(e);
    }
    hide Sound;
  }

  /** Then an ascending range list can be replayed exactly when it lies inside 1..last. */
  lemma CompleteReplays(e: Entry, ranges: seq<Range>)
    requires Complete(e) && Replayable(ranges)
    ensures (forall n :: Covers(ranges, n) ==> 0 <= n && n in e.events)
       <==> (forall i :: 0 <= i < |ranges| ==> ranges[i].end <= e.rec.last)
  {
    assert forall n :: n in e.events <==> n in UpTo(e.rec.last);
    if forall n :: Covers(ranges, n) ==> 0 <= n && n in e.events {
      forall i | 0 <= i < |ranges| ensures ranges[i].end <= e.rec.last {
        assert Covers(ranges, ranges[i].end);
      }
    }
  }

  /**
   * Ascending disjoint ranges inside 1..last stay replayable until the attempt is terminal,
   * also after reopening: in the sound record, in what reopening makes of it, and in what it
   * makes of any record that a stop inside an operation has left, with at least the same last.
   */
  lemma RangesStayReplayable(e: Entry, ranges: seq<Range>)
    requires !Terminal(e.rec.state) && (Sound(e) || Repaired(e).Ok?)
    requires Replayable(ranges) && forall i :: 0 <= i < |ranges| ==> ranges[i].end <= e.rec.last
    ensures Sound(e) ==> forall n :: Covers(ranges, n) ==> 0 <= n && n in e.events
    ensures Repaired(e).Ok?
    ensures forall n :: Covers(ranges, n) ==> 0 <= n && n in Repaired(e).value.events
  {
    StaysComplete(e);
    hide Repaired, Sound, Complete;
    CompleteReplays(Repaired(e).value, ranges);
  }
}
