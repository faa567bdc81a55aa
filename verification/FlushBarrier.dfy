/** Flush of cmd/agent/pg_event_writer.go over the runs of EventStream: when its return is a
    barrier, and that its channel hand-over loses no wake-up.

    Flush compares counts, not events: it takes `target`, the number of events enqueued at the
    call, and returns once that many have settled.
 */
module FlushBarrier {
  import opened EventWriter
  import opened EventStream

  // ---- Wake-ups -----------------------------------------------------------------------------------

  /** A Flush asleep on settle channel `channel`: if that channel is still open, there is still
      something to wait for. */
  predicate Asleep(s: System, target: nat, channel: nat) {
    && target <= s.w.enqueued
    && channel <= s.w.settleGen
    && (channel == s.w.settleGen ==> FlushMustWait(s.w, target))
  }

  predicate Progress(w: State, w': State) {
    && w.enqueued <= w'.enqueued
    && w.dropped <= w'.dropped
    && w.settled <= w'.settled
    && w.settleGen <= w'.settleGen
    && (w.expired ==> w'.expired)
    && (w.settled < w'.settled ==> w.settleGen < w'.settleGen)
    && (w'.expired && !w.expired ==> w.settleGen < w'.settleGen || w.settled == w.enqueued)
  }

  lemma StepProgresses(s: System, a: Action)
    requires Ledger(s)
    ensures Progress(s.w, Step(s, a).w)
  {
    CountOpen(s);
    EffectProgresses(s, a);
  }

  lemma EffectProgresses(s: System, a: Action)
    requires |s.w.queue| <= MAX_EVENTS && (!s.w.expired ==> s.w.inFlight == |InHand(s.drainer)|)
    requires s.w.enqueued == s.w.settled + |OpenEvents(s)|
    ensures Progress(s.w, Step(s, a).w)
  {
    if Enabled(s, a) {
      match a
      case Write(p) => var k := WriteSheds(s, p);
      case DeadlinePasses => ExpireSettlesAll(s.w);
      case _ =>
    }
  }

  /** No step strands a sleeping Flush on an open channel. */
  lemma {:induction false} NoLostWakeup(s: System, actions: seq<Action>, target: nat, channel: nat)
    requires Inv(s) && Asleep(s, target, channel)
    ensures Asleep(Run(s, actions), target, channel)
    decreases |actions|
  {
    if actions != [] {
      StepProgresses(s, actions[0]);
      StepInv(s, actions[0]);
      NoLostWakeup(Step(s, actions[0]), actions[1..], target, channel);
    }
  }

  // ---- When the return is a barrier ---------------------------------------------------------------

  /** Flush may return for a reason other than its context. */
  predicate MayReturn(s: System, target: nat) {
    !FlushMustWait(s.w, target) || s.drainer.Done?
  }

  predicate AllFinal(s: System, target: nat) {
    forall id: nat | id < target :: id in s.fates
  }

  /** The events accepted before the call are the first ones still open, and as many as the
      count says are missing. */
  predicate InOrder(s: System, target: nat) {
    s.w.expired || OldFirst(Pipeline(s), target, target - s.w.settled)
  }

  /** The events accepted before the call are the first `n`. */
  predicate OldFirst(q: seq<Event>, target: nat, n: int) {
    forall i | 0 <= i < |q| :: q[i].id < target <==> i < n
  }

  lemma InOrderAtCall(s: System)
    requires Ledger(s)
    ensures InOrder(s, s.w.enqueued)
  {}

  lemma InOrderFinal(s: System, target: nat)
    requires Ledger(s) && InOrder(s, target) && MayReturn(s, target) && target <= s.w.enqueued
    ensures AllFinal(s, target)
  {
    forall id: nat | id < target ensures id in s.fates {
      EveryKeyAccounted(s, id);
    }
  }

  lemma EveryKeyAccounted(s: System, id: nat)
    requires Ledger(s) && id < s.w.enqueued
    ensures id in s.fates || HasId(OpenEvents(s), id)
  {
    hide Tally, WithinLimits;
    PartitionCovers(OpenEvents(s), s.fates, s.w.enqueued, s.w.settled);
    assert id in s.fates.Keys + Keys(OpenEvents(s));
  }

  lemma CountOpen(s: System)
    requires Ledger(s)
    ensures s.w.enqueued == s.w.settled + |OpenEvents(s)|
    ensures |s.w.queue| <= MAX_EVENTS && (!s.w.expired ==> s.w.inFlight == |InHand(s.drainer)|)
  {}

  lemma PipelineWrite(s: System, p: Payload)
    requires !s.w.closed && |s.w.queue| <= MAX_EVENTS && Accept(s.w, p).dropped == s.w.dropped
    ensures var s' := Step(s, Write(p));
            && Pipeline(s') == Pipeline(s) + [Real(p, s.w.enqueued)]
            && s'.w.settled == s.w.settled && s'.w.markerDrops == s.w.markerDrops
  {
    var k := WriteSheds(s, p);
  }

  lemma PipelineBatch(s: System, ok: bool)
    requires Enabled(s, BatchWritten(ok)) && !s.w.expired && s.w.inFlight == |InHand(s.drainer)|
    ensures var s', n := Step(s, BatchWritten(ok)), s.w.inFlight;
            && n <= |Pipeline(s)| && Pipeline(s') == Pipeline(s)[n..]
            && s'.w.settled == s.w.settled + n && s'.w.markerDrops == s.w.markerDrops
  {
    hide Assign;
  }

  lemma PipelineOne(s: System, ok: bool)
    requires Enabled(s, OneWritten(ok)) && !s.w.expired && s.w.inFlight == |InHand(s.drainer)|
    ensures var s' := Step(s, OneWritten(ok));
            && 1 <= |Pipeline(s)| && Pipeline(s') == Pipeline(s)[1..]
            && s'.w.settled == s.w.settled + 1 && s'.w.markerDrops == s.w.markerDrops
  {
    hide Assign;
    assert InHand(Step(s, OneWritten(ok)).drainer) == InHand(s.drainer)[1..];
  }

  lemma PipelineFinish(s: System, a: Action, n: nat)
    requires Enabled(s, a) && !s.w.expired && s.w.inFlight == |InHand(s.drainer)|
    requires (a.BatchWritten? && n == s.w.inFlight) || (a.OneWritten? && n == 1)
    ensures n <= |Pipeline(s)| && Pipeline(Step(s, a)) == Pipeline(s)[n..]
    ensures Step(s, a).w.settled == s.w.settled + n && Step(s, a).w.markerDrops == s.w.markerDrops
  {
    hide Enabled, Step, Pipeline;
    if a.BatchWritten? {
      PipelineBatch(s, a.ok);
    } else {
      PipelineOne(s, a.ok);
    }
  }

  /** Other steps decide nothing, and without a pending gap a poll adds no marker. */
  lemma PipelineKept(s: System, a: Action)
    requires Enabled(s, a) && !s.w.expired && s.w.markerDrops == 0
    requires !a.Write? && !a.BatchWritten? && !a.OneWritten? && !a.DeadlinePasses?
    ensures Pipeline(Step(s, a)) == Pipeline(s)
    ensures Step(s, a).w.settled == s.w.settled && Step(s, a).w.markerDrops == 0
  {}

  lemma InOrderStep(s: System, a: Action, target: nat)
    requires Ledger(s) && InOrder(s, target) && target <= s.w.enqueued && (s.w.markerDrops == 0 || s.w.expired)
    requires Step(s, a).w.dropped == s.w.dropped
    ensures InOrder(Step(s, a), target)
    ensures Step(s, a).w.markerDrops == 0 || Step(s, a).w.expired
  {
    hide Ledger, OldFirst, Pipeline, Accept;
    CountOpen(s);
    if Enabled(s, a) {
      if s.w.expired || a.DeadlinePasses? {
        StaysExpired(s, a);
      } else if a.Write? {
        PipelineWrite(s, a.p);
        Appended(Pipeline(s), Real(a.p, s.w.enqueued), target, target - s.w.settled);
      } else if a.BatchWritten? || a.OneWritten? {
        var gone := if a.BatchWritten? then s.w.inFlight else 1;
        PipelineFinish(s, a, gone);
        Shifted(Pipeline(s), target, target - s.w.settled, gone);
      } else {
        PipelineKept(s, a);
      }
    }
  }

  lemma StaysExpired(s: System, a: Action)
    requires Enabled(s, a) && (s.w.expired || a.DeadlinePasses?) && |s.w.queue| <= MAX_EVENTS
    ensures Step(s, a).w.expired
  {
    if a.Write? {
      var k := WriteSheds(s, a.p);
    }
  }

  lemma Appended(q: seq<Event>, e: Event, target: nat, n: int)
    requires OldFirst(q, target, n) && n <= |q| && e.id >= target
    ensures OldFirst(q + [e], target, n)
  {
  }

  lemma Shifted(q: seq<Event>, target: nat, n: int, gone: nat)
    requires OldFirst(q, target, n) && gone <= |q|
    ensures OldFirst(q[gone..], target, n - gone)
  {
  }

  lemma {:induction false} InOrderRun(s: System, actions: seq<Action>, target: nat)
    requires Inv(s) && InOrder(s, target) && target <= s.w.enqueued && (s.w.markerDrops == 0 || s.w.expired)
    requires Run(s, actions).w.dropped == s.w.dropped
    ensures Inv(Run(s, actions)) && InOrder(Run(s, actions), target) && target <= Run(s, actions).w.enqueued
    decreases |actions|
  {
    if actions != [] {
      var s1 := Step(s, actions[0]);
      StepInv(s, actions[0]);
      StepProgresses(s, actions[0]);
      RunProgresses(s1, actions[1..]);
      InOrderStep(s, actions[0], target);
      InOrderRun(s1, actions[1..], target);
    }
  }

  lemma {:induction false} RunProgresses(s: System, actions: seq<Action>)
    requires Inv(s)
    ensures s.w.dropped <= Run(s, actions).w.dropped && s.w.enqueued <= Run(s, actions).w.enqueued
    decreases |actions|
  {
    if actions != [] {
      StepInv(s, actions[0]);
      StepProgresses(s, actions[0]);
      RunProgresses(Step(s, actions[0]), actions[1..]);
    }
  }

  /** Flush barrier: with no drop pending at the call and none while it waits, every event
      accepted before the call is final when Flush returns. */
  lemma FlushIsBarrier(s: System, actions: seq<Action>)
    requires Reachable(s) && s.w.markerDrops == 0
    requires Run(s, actions).w.dropped == s.w.dropped
    requires MayReturn(Run(s, actions), s.w.enqueued)
    ensures AllFinal(Run(s, actions), s.w.enqueued)
  {
    ReachableInv(s);
    InOrderAtCall(s);
    InOrderRun(s, actions, s.w.enqueued);
    InOrderFinal(Run(s, actions), s.w.enqueued);
  }

  // ---- Both preconditions are needed --------------------------------------------------------------

  lemma {:induction false} RunAppend(s: System, a: seq<Action>, b: seq<Action>)
    ensures Run(s, a + b) == Run(Run(s, a), b)
    decreases |a|
  {
    if a == [] {
      assert a + b == b;
    } else {
      assert (a + b)[0] == a[0] && (a + b)[1..] == a[1..] + b;
      RunAppend(Step(s, a[0]), a[1..], b);
    }
  }

  lemma RunOne(s: System, a: Action)
    ensures Run(s, [a]) == Step(s, a)
  {
    assert [a][1..] == [];
  }

  lemma RunCons(s: System, a: Action, rest: seq<Action>)
    ensures Run(s, [a] + rest) == Run(Step(s, a), rest)
  {
    assert ([a] + rest)[1..] == rest;
  }

  /** A writer with a one-by-one store and an open deadline whose drainer can go on. */
  predicate Draining(s: System) {
    Inv(s) && !s.batching && !s.w.expired && !s.drainer.Done?
  }

  /** `s'` is `s` with its `n` oldest open events settled and nothing else decided. */
  predicate Settled(s: System, s': System, n: nat) {
    && n <= |Pipeline(s)| && Pipeline(s') == Pipeline(s)[n..]
    && s'.w.settled == s.w.settled + n
    && s'.w.dropped == s.w.dropped
    && s'.w.markerDrops == s.w.markerDrops
  }

  lemma OneWrittenEffect(s: System)
    requires Enabled(s, OneWritten(true)) && !s.w.expired
    ensures var s' := Step(s, OneWritten(true));
            Settled(s, s', 1) && s'.w.queue == s.w.queue && s'.w.enqueued == s.w.enqueued && !s'.w.expired
            && |InHand(s'.drainer)| == |InHand(s.drainer)| - 1 && (s'.drainer.Writing? || s'.drainer.Polling?)
  {}

  lemma SettleOne(s: System)
    requires Draining(s) && s.drainer.Writing?
    ensures var s' := Step(s, OneWritten(true));
            Draining(s') && Settled(s, s', 1) && s'.w.queue == s.w.queue && s'.w.enqueued == s.w.enqueued
            && |InHand(s'.drainer)| == |InHand(s.drainer)| - 1 && !s'.drainer.Sleeping?
  {
    hide Partition, Tally, OrderedLog, ReadsBack, WithinLimits;
    StepInv(s, OneWritten(true));
    OneWrittenEffect(s);
  }

  /** Letting the drainer finish what it holds brings it back to the queue. */
  lemma {:induction false} FinishHand(s: System) returns (actions: seq<Action>, s': System)
    requires Draining(s) && (s.drainer.Sleeping? ==> s.w.queue != [])
    ensures s' == Run(s, actions) && Draining(s') && s'.drainer.Polling?
    ensures Settled(s, s', |InHand(s.drainer)|)
    ensures s'.w.queue == s.w.queue && s'.w.enqueued == s.w.enqueued
    decreases |InHand(s.drainer)|
  {
    hide Partition, Tally, OrderedLog, ReadsBack, WithinLimits;
    if s.drainer.Writing? {
      var s1 := Step(s, OneWritten(true));
      SettleOne(s);
      var rest;
      rest, s' := FinishHand(s1);
      RunCons(s, OneWritten(true), rest);
      actions := [OneWritten(true)] + rest;
    } else if s.drainer.Polling? {
      actions, s' := [], s;
    } else {
      actions, s' := WakeUp(s);
    }
  }

  lemma WakeOne(s: System)
    requires Inv(s) && s.drainer.Sleeping? && s.token
    ensures Inv(Step(s, Wake)) && Step(s, Wake) == s.(token := false, drainer := Polling)
  {
    hide Partition, Tally, OrderedLog, ReadsBack, WithinLimits;
    StepInv(s, Wake);
  }

  lemma NotifyOne(s: System)
    requires Inv(s) && s.senders > 0
    ensures Inv(Step(s, Notify)) && Step(s, Notify) == s.(senders := s.senders - 1, token := true)
  {
    hide Partition, Tally, OrderedLog, ReadsBack, WithinLimits;
    StepInv(s, Notify);
  }

  /** A drainer asleep on work can wake up, whatever its store. */
  lemma WakeUp(s: System) returns (actions: seq<Action>, s': System)
    requires Inv(s) && s.drainer.Sleeping? && s.w.queue != []
    ensures s' == Run(s, actions) && Inv(s') && s'.drainer.Polling?
    ensures s'.w == s.w && s'.batching == s.batching
  {
    hide Partition, Tally, OrderedLog, ReadsBack, WithinLimits;
    if s.token {
      WakeOne(s);
      RunOne(s, Wake);
      actions, s' := [Wake], Step(s, Wake);
    } else {
      assert s.senders > 0;
      NotifyOne(s);
      var s1 := Step(s, Notify);
      WakeOne(s1);
      RunOne(s1, Wake);
      RunCons(s, Notify, [Wake]);
      actions, s' := [Notify] + [Wake], Step(s1, Wake);
    }
  }

  lemma PollEffect(s: System)
    requires s.drainer.Polling? && s.w.queue != [] && !s.w.expired
    ensures var s' := Step(s, Poll);
            s'.drainer.Writing? && s'.w.markerDrops == 0 && s'.w.dropped == s.w.dropped && !s'.w.expired
            && Pipeline(s') == GapMarker(s.w) + s.w.queue && s'.w.settled == s.w.settled
  {}

  lemma PollMore(s: System)
    requires Draining(s) && s.drainer.Polling? && s.w.queue != []
    ensures var s' := Step(s, Poll);
            Draining(s') && s'.drainer.Writing? && s'.w.markerDrops == 0 && s'.w.dropped == s.w.dropped
            && Pipeline(s') == GapMarker(s.w) + s.w.queue && s'.w.settled == s.w.settled
  {
    hide Partition, Tally, OrderedLog, ReadsBack, WithinLimits;
    StepInv(s, Poll);
    PollEffect(s);
  }

  /** From an empty hand with work queued, the next batch is in hand after a few steps. */
  lemma TakeMore(s: System) returns (actions: seq<Action>, s': System)
    requires Draining(s) && s.w.queue != []
    ensures s' == Run(s, actions) && Draining(s') && s'.drainer.Writing? && s'.w.markerDrops == 0
    ensures Pipeline(s') == GapMarker(s'.w.(markerDrops := s.w.markerDrops, enqueued := s.w.enqueued)) + s.w.queue
    ensures s.w.markerDrops == 0 ==> Pipeline(s') == s.w.queue
    ensures s'.w.settled == s.w.settled + |InHand(s.drainer)| && s'.w.dropped == s.w.dropped
  {
    hide Partition, Tally, OrderedLog, ReadsBack, WithinLimits;
    var first, s1 := FinishHand(s);
    PollMore(s1);
    RunOne(s1, Poll);
    RunAppend(s, first, [Poll]);
    actions, s' := first + [Poll], Step(s1, Poll);
    assert s.w.markerDrops == 0 ==> [] + s.w.queue == s.w.queue;
  }

  /** With no gap pending the drainer can settle any number of open events, oldest first. */
  lemma {:induction false} SettleOldest(s: System, k: nat) returns (actions: seq<Action>, s': System)
    requires Draining(s) && s.w.markerDrops == 0 && k < |Pipeline(s)|
    ensures s' == Run(s, actions) && Draining(s') && Settled(s, s', k)
    decreases k, !s.drainer.Writing?
  {
    hide Partition, Tally, OrderedLog, ReadsBack, WithinLimits;
    if k == 0 {
      actions, s' := [], s;
    } else if s.drainer.Writing? {
      SettleOne(s);
      var rest;
      rest, s' := SettleOldest(Step(s, OneWritten(true)), k - 1);
      RunCons(s, OneWritten(true), rest);
      actions := [OneWritten(true)] + rest;
    } else {
      var first, s1 := TakeMore(s);
      assert Pipeline(s1) == Pipeline(s);
      var rest;
      rest, s' := SettleOldest(s1, k);
      RunAppend(s, first, rest);
      actions := first + rest;
    }
  }

  /** The property itself: no write is dropped, and Flush returns on the count too early. */
  ghost predicate ReturnsEarly(s: System, actions: seq<Action>) {
    var s' := Run(s, actions);
    s'.w.dropped == s.w.dropped && MayReturn(s', s.w.enqueued) && !AllFinal(s', s.w.enqueued)
  }

  /** Reaching the count with an event that was open at the call still open. */
  lemma OldEventStillOpen(s: System, s': System, i: nat, j: nat)
    requires Ledger(s) && Ledger(s') && !s.w.expired && !s'.w.expired
    requires i < |Pipeline(s)| && j < |Pipeline(s')| && Pipeline(s')[j] == Pipeline(s)[i]
    requires s'.w.settled >= s.w.enqueued
    ensures MayReturn(s', s.w.enqueued) && !AllFinal(s', s.w.enqueued)
  {
    hide Tally, WithinLimits;
    assert Pipeline(s)[i].id < s.w.enqueued && Pipeline(s')[j].id !in s'.fates;
  }

  /** With the marker counted, settling as many events as are buffered leaves the last of them. */
  lemma LastIsLeft(s: System, s1: System, s2: System, marker: seq<Event>)
    requires s.w.queue != [] && |marker| == 1 && Pipeline(s1) == marker + s.w.queue
    requires Settled(s1, s2, |s.w.queue|)
    ensures Pipeline(s2) != [] && Pipeline(s) != [] && Pipeline(s2)[0] == Pipeline(s)[|Pipeline(s)| - 1]
  {
    var n := |s.w.queue|;
    assert (marker + s.w.queue)[n] == s.w.queue[n - 1];
  }

  lemma PendingGapStandsIn(s: System) returns (actions: seq<Action>)
    requires Draining(s) && s.w.markerDrops > 0
    ensures ReturnsEarly(s, actions)
  {
    hide Partition, Tally, OrderedLog, ReadsBack, WithinLimits, AllFinal, MayReturn;
    var n := |s.w.queue|;
    CountOpen(s);
    var first, s1 := TakeMore(s);
    assert |Pipeline(s1)| == n + 1 && s1.w.settled + n == s.w.enqueued;
    var rest, s2 := SettleOldest(s1, n);
    RunAppend(s, first, rest);
    actions := first + rest;
    LastIsLeft(s, s1, s2, Pipeline(s1)[..1]);
    OldEventStillOpen(s, s2, |Pipeline(s)| - 1, 0);
  }

  /** Exactly when: for a one-by-one store, Flush is a barrier in every drop-free continuation if
      and only if no drop is pending at the call. */
  lemma FlushIsBarrierIffNoGapPending(s: System)
    requires Reachable(s) && !s.batching && !s.w.expired && !s.drainer.Done?
    ensures s.w.markerDrops == 0 <==> forall actions :: !ReturnsEarly(s, actions)
  {
    ReachableInv(s);
    if s.w.markerDrops == 0 {
      forall actions ensures !ReturnsEarly(s, actions) {
        if Run(s, actions).w.dropped == s.w.dropped && MayReturn(Run(s, actions), s.w.enqueued) {
          FlushIsBarrier(s, actions);
        }
      }
    } else {
      var actions := PendingGapStandsIn(s);
    }
  }

  function Oversized(): (p: Payload)
    ensures |p| == MAX_BYTES + 1
  {
    seq(MAX_BYTES + 1, i => 0)
  }

  /** A payload above the byte budget evicts everything buffered before it. */
  lemma OversizedEvicts(s: System)
    requires Inv(s) && !s.w.closed
    ensures var s' := Step(s, Write(Oversized()));
            Inv(s') && |s'.w.queue| == 1 && s'.w.settled == s.w.settled + |s.w.queue|
            && s'.drainer == s.drainer && !s'.w.closed && s'.w.expired == s.w.expired
  {
    StepInv(s, Write(Oversized()));
    var k := WriteSheds(s, Oversized());
    BytesAppend(s.w.queue[k..], [Real(Oversized(), s.w.enqueued)]);
  }

  lemma {:induction false} EvictMany(s: System, n: nat) returns (actions: seq<Action>, s': System)
    requires Inv(s) && !s.w.closed && |s.w.queue| == 1
    ensures s' == Run(s, actions) && Inv(s') && s'.w.settled == s.w.settled + n
    ensures s'.drainer == s.drainer && s'.w.expired == s.w.expired
    decreases n
  {
    hide Partition, Tally, OrderedLog, ReadsBack, WithinLimits;
    if n == 0 {
      actions, s' := [], s;
    } else {
      var s1 := Step(s, Write(Oversized()));
      OversizedEvicts(s);
      var rest;
      rest, s' := EvictMany(s1, n - 1);
      RunCons(s, Write(Oversized()), rest);
      actions := [Write(Oversized())] + rest;
    }
  }

  lemma EvictPast(s: System) returns (actions: seq<Action>, s': System)
    requires Inv(s) && !s.w.closed
    ensures s' == Run(s, actions) && Inv(s') && s'.w.settled == s.w.settled + |s.w.queue| + |InHand(s.drainer)|
    ensures s'.drainer == s.drainer && s'.w.expired == s.w.expired
  {
    hide Partition, Tally, OrderedLog, ReadsBack, WithinLimits;
    OversizedEvicts(s);
    var rest;
    rest, s' := EvictMany(Step(s, Write(Oversized())), |InHand(s.drainer)|);
    RunCons(s, Write(Oversized()), rest);
    actions := [Write(Oversized())] + rest;
  }

  /** The property when drops are allowed. */
  ghost predicate OvertakenBy(s: System, actions: seq<Action>) {
    var s' := Run(s, actions);
    MayReturn(s', s.w.enqueued) && !AllFinal(s', s.w.enqueued)
  }

  /** With a batch in hand, later drops stand in for its events. */
  lemma DropsStandInForBatch(s: System) returns (actions: seq<Action>)
    requires Inv(s) && s.drainer.Writing? && !s.w.closed
    ensures OvertakenBy(s, actions)
  {
    hide Partition, Tally, OrderedLog, ReadsBack, WithinLimits, AllFinal, MayReturn;
    var s';
    actions, s' := EvictPast(s);
    CountOpen(s);
    OldEventStillOpen(s, s', 0, 0);
  }

  /** With work queued and an idle drainer, the drainer takes a batch first. */
  lemma DropsStandInForQueue(s: System) returns (actions: seq<Action>)
    requires Inv(s) && s.drainer.Polling? && !s.w.closed && s.w.queue != []
    ensures OvertakenBy(s, actions)
  {
    hide Partition, Tally, OrderedLog, ReadsBack, WithinLimits, AllFinal, MayReturn;
    var s1 := Step(s, Poll);
    StepInv(s, Poll);
    PollEffect(s);
    assert s1.w.closed == s.w.closed;
    var rest, s' := EvictPast(s1);
    RunCons(s, Poll, rest);
    actions := [Poll] + rest;
    CountOpen(s);
    CountOpen(s1);
    var j := |GapMarker(s.w)|;
    FirstOfQueue(s, s1, j);
    assert Pipeline(s')[j] == Pipeline(s1)[j];
    OldEventStillOpen(s, s', 0, j);
  }

  lemma FirstOfQueue(s: System, s1: System, j: nat)
    requires s.drainer.Polling? && s.w.queue != [] && !s.w.expired && s1 == Step(s, Poll) && j == |GapMarker(s.w)|
    ensures j < |InHand(s1.drainer)| && InHand(s1.drainer)[j] == Pipeline(s)[0]
    ensures s.w.enqueued <= s1.w.enqueued
  {
  }

  lemma DropsStandIn(s: System) returns (actions: seq<Action>)
    requires Inv(s) && !s.w.closed && Pipeline(s) != []
    ensures OvertakenBy(s, actions)
  {
    hide Partition, Tally, OrderedLog, ReadsBack, WithinLimits, AllFinal, MayReturn, OvertakenBy;
    if s.drainer.Writing? {
      actions := DropsStandInForBatch(s);
    } else if s.drainer.Polling? {
      actions := DropsStandInForQueue(s);
    } else {
      var first, s1 := WakeUp(s);
      var rest := DropsStandInForQueue(s1);
      RunAppend(s, first, rest);
      actions := first + rest;
      SameOvertaking(s, s1, first, rest);
    }
  }

  lemma SameOvertaking(s: System, s1: System, first: seq<Action>, rest: seq<Action>)
    requires Run(s, first + rest) == Run(s1, rest) && s1.w == s.w && OvertakenBy(s1, rest)
    ensures OvertakenBy(s, first + rest)
  {
    hide AllFinal, MayReturn;
  }

  lemma {:induction false} FinalStays(s: System, actions: seq<Action>, target: nat)
    requires Inv(s) && AllFinal(s, target)
    ensures AllFinal(Run(s, actions), target)
    decreases |actions|
  {
    hide Ledger, Stream, Step;
    if actions != [] {
      forall id: nat | id < target ensures id in Step(s, actions[0]).fates {
        FateIsFinal(s, actions[0], id);
      }
      StepInv(s, actions[0]);
      FinalStays(Step(s, actions[0]), actions[1..], target);
    }
  }

  lemma EmptyIsFinal(s: System)
    requires Ledger(s) && Pipeline(s) == []
    ensures AllFinal(s, s.w.enqueued)
  {
    forall id: nat | id < s.w.enqueued ensures id in s.fates {
      EveryKeyAccounted(s, id);
    }
  }

  /** Exactly when, if drops may happen while Flush waits: from an open writer it is a barrier in
      every continuation if and only if everything was decided at the call already. Otherwise
      further writes alone, after the drainer has a batch in hand, let it return too early. */
  lemma LaterDropsStandIn(s: System)
    requires Reachable(s) && !s.w.closed
    ensures Pipeline(s) == [] <==> forall actions :: !OvertakenBy(s, actions)
  {
    hide Ledger, Stream, AllFinal, MayReturn;
    ReachableInv(s);
    if Pipeline(s) == [] {
      EmptyIsFinal(s);
      forall actions ensures !OvertakenBy(s, actions) {
        FinalStays(s, actions, s.w.enqueued);
      }
    } else {
      var actions := DropsStandIn(s);
    }
  }

  // ---- It happens ---------------------------------------------------------------------------------

  /** A write for which there is room. */
  lemma WriteFits(s: System, p: Payload)
    requires |s.w.queue| <= MAX_EVENTS && !s.w.closed && WithinLimits(s.w.queue + [Real(p, s.w.enqueued)])
    ensures var s' := Step(s, Write(p));
            && s'.w == s.w.(queue := s.w.queue + [Real(p, s.w.enqueued)], enqueued := s.w.enqueued + 1)
            && s'.drainer == s.drainer && s'.batching == s.batching
  {
    hide Accept, WithinLimits;
    var k := AcceptShedsFewest(s.w, p);
    assert Push(s.w, p).queue[0..] == s.w.queue + [Real(p, s.w.enqueued)];
  }

  lemma FirstWrite(batching: bool)
    ensures var s := Step(Init(batching), Write(Oversized()));
            && s.w.queue == [Real(Oversized(), 0)] && s.w.markerDrops == 0
            && !s.w.closed && !s.w.expired && s.drainer.Polling? && s.batching == batching
  {
    hide Accept;
    assert [] + [Real(Oversized(), 0)] == [Real(Oversized(), 0)];
    WriteFits(Init(batching), Oversized());
  }

  /** Behind an oversized event every write evicts it. */
  lemma SecondWrite(s: System, p: Payload)
    requires |s.w.queue| == 1 && Size(s.w.queue[0]) > MAX_BYTES && !s.w.closed
    ensures var s' := Step(s, Write(p));
            && s'.w.queue == [Real(p, s.w.enqueued)] && s'.w.markerDrops == s.w.markerDrops + 1
            && !s'.w.closed && s'.w.expired == s.w.expired && s'.drainer == s.drainer && s'.batching == s.batching
  {
    hide Accept;
    var k := WriteSheds(s, p);
    BytesAppend(s.w.queue, [Real(p, s.w.enqueued)]);
    assert s.w.queue[0..] == s.w.queue;
  }

  /** Two writes above the byte budget are enough for a pending gap, which is all it takes. */
  lemma GapIsReachable(batching: bool)
    ensures var s := Run(Init(batching), [Write(Oversized()), Write(Oversized())]);
            Reachable(s) && s.w.markerDrops > 0 && s.batching == batching && !s.w.expired && !s.drainer.Done?
  {
    hide Run, Step;
    var write := Write(Oversized());
    assert [write, write] == [write] + [write];
    RunCons(Init(batching), write, [write]);
    RunOne(Step(Init(batching), write), write);
    FirstWrite(batching);
    SecondWrite(Step(Init(batching), write), Oversized());
  }
}
