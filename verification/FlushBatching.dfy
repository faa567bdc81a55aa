/** Exactly when Flush of cmd/agent/pg_event_writer.go is a barrier for a store that writes whole
    batches. The marker for a pending gap is counted like an event, so it can stand in for the last
    event accepted before the call; but a batch settles as a whole, and then only an event that is
    alone in a later batch can be overtaken.
 */
module FlushBatching {
  import opened EventWriter
  import opened EventStream
  import opened FlushBarrier

  /** A gap is pending, and the batches of the buffered events leave one event over. */
  predicate Misleading(w: State) {
    w.markerDrops > 0 && |w.queue| > 64 && |w.queue| % 64 == 1
  }

  predicate Live(s: System) {
    Inv(s) && s.batching && !s.w.expired && !s.drainer.Done?
  }

  // ---- A misleading state has an early return -----------------------------------------------------

  lemma BatchEffect(s: System)
    requires s.drainer.Writing? && s.batching && !s.w.expired && s.w.inFlight == |s.drainer.batch|
    ensures var s' := Step(s, BatchWritten(true));
            s'.drainer.Polling? && s'.w.queue == s.w.queue && s'.w.settled == s.w.settled + |InHand(s.drainer)|
            && s'.w.dropped == s.w.dropped && s'.w.markerDrops == s.w.markerDrops && s'.batching && !s'.w.expired
  {
  }

  /** The drainer finishes what it holds and looks at the queue again. */
  lemma ReachPoll(s: System) returns (actions: seq<Action>, s': System)
    requires Live(s) && s.w.queue != []
    ensures s' == Run(s, actions) && Live(s') && s'.drainer.Polling?
    ensures s'.w.queue == s.w.queue && s'.w.settled == s.w.settled + |InHand(s.drainer)|
    ensures s'.w.dropped == s.w.dropped && s'.w.markerDrops == s.w.markerDrops
  {
    hide Partition, Tally, OrderedLog, ReadsBack, WithinLimits;
    if s.drainer.Writing? {
      StepInv(s, BatchWritten(true));
      BatchEffect(s);
      RunOne(s, BatchWritten(true));
      actions, s' := [BatchWritten(true)], Step(s, BatchWritten(true));
    } else if s.drainer.Polling? {
      actions, s' := [], s;
    } else {
      actions, s' := WakeUp(s);
    }
  }

  /** One more batch taken and written. */
  lemma OneBatch(s: System) returns (actions: seq<Action>, s': System)
    requires Live(s) && s.w.queue != []
    ensures s' == Run(s, actions) && Live(s') && InHand(s'.drainer) == []
    ensures s'.w.queue == s.w.queue[BatchLength(s.w)..] && s'.w.markerDrops == 0 && s'.w.dropped == s.w.dropped
    ensures s'.w.settled == s.w.settled + |InHand(s.drainer)| + |GapMarker(s.w)| + BatchLength(s.w)
  {
    hide Partition, Tally, OrderedLog, ReadsBack, WithinLimits;
    var first, s1 := ReachPoll(s);
    var s2 := Step(s1, Poll);
    StepInv(s1, Poll);
    StepInv(s2, BatchWritten(true));
    BatchEffect(s2);
    RunOne(s2, BatchWritten(true));
    RunCons(s1, Poll, [BatchWritten(true)]);
    RunAppend(s, first, [Poll] + [BatchWritten(true)]);
    actions, s' := first + ([Poll] + [BatchWritten(true)]), Step(s2, BatchWritten(true));
  }

  lemma {:induction false} FullBatches(s: System, n: nat) returns (actions: seq<Action>, s': System)
    requires Live(s) && n >= 1 && |s.w.queue| >= BATCH_SIZE * n
    ensures s' == Run(s, actions) && Live(s') && InHand(s'.drainer) == []
    ensures s'.w.queue == s.w.queue[BATCH_SIZE * n..] && s'.w.markerDrops == 0 && s'.w.dropped == s.w.dropped
    ensures s'.w.settled == s.w.settled + |InHand(s.drainer)| + |GapMarker(s.w)| + BATCH_SIZE * n
    decreases n
  {
    hide Live, Run, GapMarker;
    var first, s1 := OneBatch(s);
    if n == 1 {
      actions, s' := first, s1;
    } else {
      var rest;
      rest, s' := FullBatches(s1, n - 1);
      assert GapMarker(s1.w) == [] by {
        NoGap(s1.w);
      }
      RunAppend(s, first, rest);
      actions := first + rest;
    }
  }

  lemma NoGap(w: State)
    requires w.markerDrops == 0
    ensures GapMarker(w) == []
  {
  }

  lemma MisleadingReturnsEarly(s: System) returns (actions: seq<Action>)
    requires Live(s) && Misleading(s.w)
    ensures ReturnsEarly(s, actions)
  {
    hide Partition, Tally, OrderedLog, ReadsBack, WithinLimits, AllFinal, Run;
    var n := |s.w.queue| / BATCH_SIZE;
    var s';
    actions, s' := FullBatches(s, n);
    CountOpen(s);
    var last := |Pipeline(s)| - 1;
    assert Pipeline(s')[0] == Pipeline(s)[last];
    OldEventStillOpen(s, s', last, 0);
  }

  // ---- Otherwise Flush is a barrier ---------------------------------------------------------------

  /** Where the run is with respect to the gap's marker: still to come, leading the batch in hand, or
      settled. `hand` events are in hand, at the front of the open events `q`. */
  predicate Before(gap: nat, hand: nat, q: seq<Event>, settled: nat, target: nat, queued: nat) {
    gap > 0 && hand + queued == target - settled && OldFirst(q, target, target - settled)
  }

  predicate During(gap: nat, hand: nat, q: seq<Event>, settled: nat, target: nat, queued: nat) {
    && gap == 0 && target - settled == queued
    && 0 < hand <= |q| && q[0].id >= target && OldFirst(q[1..], target, queued)
    && (hand == BATCH_SIZE + 1 || queued < hand <= BATCH_SIZE)
  }

  /** One event more is open than the count says. */
  predicate After(gap: nat, hand: nat, q: seq<Event>, settled: nat, target: nat, queued: nat) {
    var open := target + 1 - settled;
    && gap == 0 && open <= |q| && OldFirst(q, target, open)
    && (open <= 0 || (queued > BATCH_SIZE && open % BATCH_SIZE == queued % BATCH_SIZE))
    && (hand == 0 || hand == BATCH_SIZE || hand >= open)
  }

  predicate Phased(gap: nat, hand: nat, q: seq<Event>, settled: nat, target: nat, queued: nat) {
    || Before(gap, hand, q, settled, target, queued)
    || During(gap, hand, q, settled, target, queued)
    || After(gap, hand, q, settled, target, queued)
  }

  predicate Watched(s: System, target: nat, queued: nat) {
    s.w.expired || Phased(s.w.markerDrops, |InHand(s.drainer)|, Pipeline(s), s.w.settled, target, queued)
  }

  lemma WritePhased(gap: nat, hand: nat, q: seq<Event>, settled: nat, target: nat, queued: nat, e: Event)
    requires Phased(gap, hand, q, settled, target, queued) && e.id >= target && target - settled <= |q|
    requires forall i | 0 <= i < |q| :: q[i].id < settled + |q|
    ensures Phased(gap, hand, q + [e], settled, target, queued)
  {
    hide OldFirst;
    if Before(gap, hand, q, settled, target, queued) {
      Appended(q, e, target, target - settled);
    } else if During(gap, hand, q, settled, target, queued) {
      assert (q + [e])[1..] == q[1..] + [e];
      Appended(q[1..], e, target, queued);
    } else {
      Appended(q, e, target, target + 1 - settled);
    }
  }

  lemma FinishPhased(gap: nat, hand: nat, q: seq<Event>, settled: nat, target: nat, queued: nat)
    requires Phased(gap, hand, q, settled, target, queued) && 0 < hand <= |q| && target - settled <= |q|
    requires forall i | 0 <= i < |q| :: q[i].id < settled + |q|
    requires !(queued > BATCH_SIZE && queued % BATCH_SIZE == 1)
    ensures Phased(gap, 0, q[hand..], settled + hand, target, queued)
  {
    hide OldFirst;
    if Before(gap, hand, q, settled, target, queued) {
      Shifted(q, target, target - settled, hand);
    } else if During(gap, hand, q, settled, target, queued) {
      Shifted(q[1..], target, queued, hand - 1);
      assert q[1..][hand - 1..] == q[hand..];
    } else {
      Shifted(q, target, target + 1 - settled, hand);
    }
  }

  lemma PollPhased(gap: nat, q: seq<Event>, settled: nat, target: nat, queued: nat, marker: Event, taken: nat)
    requires Phased(gap, 0, q, settled, target, queued) && queued > 0 && target - settled <= |q|
    requires marker.id >= target && taken == (if |q| > BATCH_SIZE then BATCH_SIZE else |q|)
    ensures gap > 0 ==> Phased(0, taken + 1, [marker] + q, settled, target, queued)
    ensures gap == 0 ==> Phased(0, taken, q, settled, target, queued)
  {
    if gap > 0 {
      assert ([marker] + q)[1..] == q;
    }
  }

  lemma WriteWatched(s: System, p: Payload, target: nat, queued: nat)
    requires Ledger(s) && !s.w.expired && !s.w.closed && target <= s.w.enqueued
    requires Watched(s, target, queued) && Step(s, Write(p)).w.dropped == s.w.dropped
    ensures Watched(Step(s, Write(p)), target, queued)
  {
    hide Tally, WithinLimits, Phased;
    CountOpen(s);
    PipelineWrite(s, p);
    WritePhased(s.w.markerDrops, |InHand(s.drainer)|, Pipeline(s), s.w.settled, target, queued, Real(p, s.w.enqueued));
  }

  lemma FinishWatched(s: System, ok: bool, target: nat, queued: nat)
    requires Ledger(s) && !s.w.expired && s.drainer.Writing? && s.batching && target <= s.w.enqueued
    requires Watched(s, target, queued) && !(queued > BATCH_SIZE && queued % BATCH_SIZE == 1)
    ensures Watched(Step(s, BatchWritten(ok)), target, queued)
  {
    hide Tally, WithinLimits, Phased;
    CountOpen(s);
    PipelineFinish(s, BatchWritten(ok), s.w.inFlight);
    FinishPhased(s.w.markerDrops, s.w.inFlight, Pipeline(s), s.w.settled, target, queued);
  }

  lemma PollWatched(s: System, target: nat, queued: nat)
    requires Ledger(s) && !s.w.expired && s.drainer.Polling? && target <= s.w.enqueued && queued > 0
    requires Watched(s, target, queued)
    ensures Watched(Step(s, Poll), target, queued)
  {
    hide Partition, Tally, WithinLimits, Phased;
    CountOpen(s);
    assert Pipeline(s) == s.w.queue;
    if s.w.queue != [] {
      PollEffect(s);
      PollPhased(s.w.markerDrops, s.w.queue, s.w.settled, target, queued, Marker(s.w.markerDrops, s.w.enqueued),
                 BatchLength(s.w));
    }
  }

  lemma QuietWatched(s: System, a: Action, target: nat, queued: nat)
    requires Enabled(s, a) && !s.w.expired && !a.Write? && !a.Poll? && !a.BatchWritten? && !a.OneWritten? && !a.Abort?
    requires Watched(s, target, queued)
    ensures Watched(Step(s, a), target, queued)
  {
  }

  lemma StepWatched(s: System, a: Action, target: nat, queued: nat)
    requires Ledger(s) && s.batching && target <= s.w.enqueued && queued > 0 && Watched(s, target, queued)
    requires !(queued > BATCH_SIZE && queued % BATCH_SIZE == 1) && Step(s, a).w.dropped == s.w.dropped
    ensures Watched(Step(s, a), target, queued)
  {
    hide Ledger, Phased;
    StepProgresses(s, a);
    if Enabled(s, a) && !s.w.expired {
      match a
      case Write(p) => WriteWatched(s, p, target, queued);
      case BatchWritten(ok) => FinishWatched(s, ok, target, queued);
      case Poll => PollWatched(s, target, queued);
      case _ => QuietWatched(s, a, target, queued);
    }
  }

  lemma {:induction false} RunWatched(s: System, actions: seq<Action>, target: nat, queued: nat)
    requires Inv(s) && s.batching && target <= s.w.enqueued && queued > 0 && Watched(s, target, queued)
    requires !(queued > BATCH_SIZE && queued % BATCH_SIZE == 1) && Run(s, actions).w.dropped == s.w.dropped
    ensures Inv(Run(s, actions)) && target <= Run(s, actions).w.enqueued && Watched(Run(s, actions), target, queued)
    decreases |actions|
  {
    hide Watched, Inv;
    if actions != [] {
      var s1 := Step(s, actions[0]);
      StepInv(s, actions[0]);
      InvLedger(s);
      StepProgresses(s, actions[0]);
      RunProgresses(s1, actions[1..]);
      StepWatched(s, actions[0], target, queued);
      StepBatching(s, actions[0]);
      RunWatched(s1, actions[1..], target, queued);
    }
  }

  lemma InvLedger(s: System)
    requires Inv(s)
    ensures Ledger(s)
  {
  }

  lemma StepBatching(s: System, a: Action)
    ensures Step(s, a).batching == s.batching
  {
  }

  lemma WatchedFinal(s: System, target: nat, queued: nat)
    requires Ledger(s) && target <= s.w.enqueued && queued > 0 && Watched(s, target, queued) && MayReturn(s, target)
    requires !(queued > BATCH_SIZE && queued % BATCH_SIZE == 1)
    ensures AllFinal(s, target)
  {
    hide Partition, Tally, WithinLimits;
    CountOpen(s);
    forall id: nat | id < target ensures id in s.fates {
      EveryKeyAccounted(s, id);
    }
  }

  lemma HonestIsBarrier(s: System, actions: seq<Action>)
    requires Reachable(s) && s.batching && !s.w.expired && s.w.markerDrops > 0 && !Misleading(s.w)
    requires Run(s, actions).w.dropped == s.w.dropped && MayReturn(Run(s, actions), s.w.enqueued)
    ensures AllFinal(Run(s, actions), s.w.enqueued)
  {
    hide Partition, Tally, OrderedLog, ReadsBack, WithinLimits, AllFinal, Run, During, After;
    ReachableInv(s);
    CountOpen(s);
    InOrderAtCall(s);
    RunWatched(s, actions, s.w.enqueued, |s.w.queue|);
    WatchedFinal(Run(s, actions), s.w.enqueued, |s.w.queue|);
  }

  /** Exactly when: for a store that writes whole batches, Flush is a barrier in every drop-free
      continuation unless a gap is pending and the buffered events, more than one batch of them,
      leave one event over. */
  lemma FlushIsBarrierUnlessMisleading(s: System)
    requires Reachable(s) && s.batching && !s.w.expired && !s.drainer.Done?
    ensures !Misleading(s.w) <==> forall actions :: !ReturnsEarly(s, actions)
  {
    hide AllFinal, MayReturn, Inv;
    ReachableInv(s);
    if Misleading(s.w) {
      var actions := MisleadingReturnsEarly(s);
    } else {
      forall actions ensures !ReturnsEarly(s, actions) {
        if Run(s, actions).w.dropped == s.w.dropped && MayReturn(Run(s, actions), s.w.enqueued) {
          if s.w.markerDrops == 0 {
            FlushIsBarrier(s, actions);
          } else {
            HonestIsBarrier(s, actions);
          }
        }
      }
    }
  }

  // ---- It happens ---------------------------------------------------------------------------------

  const SMALL: Payload := [0]

  /** Small events pile up. */
  lemma {:induction false} SmallWrites(s: System, n: nat) returns (actions: seq<Action>)
    requires !s.w.closed && |s.w.queue| + n <= BUFFER && Bytes(s.w.queue) <= |s.w.queue|
    ensures var s' := Run(s, actions);
            && |s'.w.queue| == |s.w.queue| + n && s'.w.markerDrops == s.w.markerDrops
            && s'.w.expired == s.w.expired && s'.drainer == s.drainer && s'.batching == s.batching
    decreases n
  {
    hide Run, Step;
    if n == 0 {
      actions := [];
      RunNothing(s);
    } else {
      var added := [Real(SMALL, s.w.enqueued)];
      BytesAppend(s.w.queue, added);
      assert Bytes(added) == 1;
      WriteFits(s, SMALL);
      var rest := SmallWrites(Step(s, Write(SMALL)), n - 1);
      RunCons(s, Write(SMALL), rest);
      actions := [Write(SMALL)] + rest;
    }
  }

  lemma RunNothing(s: System)
    ensures Run(s, []) == s
  {
  }

  /** One write above the byte budget and 65 small ones are enough: the first of them evicts it. */
  lemma MisleadingIsReachable() returns (actions: seq<Action>)
    ensures var s := Run(Init(true), actions);
            Reachable(s) && s.batching && Misleading(s.w) && !s.w.expired && !s.drainer.Done?
  {
    hide Run, Step;
    FirstWrite(true);
    var s1 := Step(Init(true), Write(Oversized()));
    SecondWrite(s1, SMALL);
    var s2 := Step(s1, Write(SMALL));
    var rest := SmallWrites(s2, BATCH_SIZE);
    RunCons(s1, Write(SMALL), rest);
    RunCons(Init(true), Write(Oversized()), [Write(SMALL)] + rest);
    actions := [Write(Oversized())] + ([Write(SMALL)] + rest);
  }
}
