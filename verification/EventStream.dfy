/** Every run of the event writer: writers, the drainer and the closer of
    cmd/agent/pg_event_writer.go interleaved at the granularity of the writer's mutex, with the
    history of the run recorded beside the writer's state.

    A run is a sequence of actions; an action that is not enabled leaves the system unchanged, so
    the theorems about `Run` cover every interleaving.
 */
module EventStream {
  import opened EventWriter

  datatype Fate = Written | Failed | Dropped | Abandoned

  /** The drain goroutine: about to look at the queue, asleep on `notify`, holding the events of a
      batch whose fate is still open, or finished. */
  datatype Drainer = Polling | Sleeping | Writing(batch: seq<Event>) | Done

  /** `token` is the one-slot notify channel and `senders` counts the goroutines that released the
      lock but have not yet offered their token. History: `log` is every event accepted from a
      writer, `popped` everything handed to the drainer, `fates` the first fate of each key, and
      `lost` what the close deadline discarded from the queue. */
  datatype System = System(
    w: State,
    batching: bool,
    drainer: Drainer,
    token: bool,
    senders: nat,
    closeReturned: bool,
    log: seq<Event>,
    popped: seq<Event>,
    lost: seq<Event>,
    fates: map<nat, Fate>)

  function Init(batching: bool): System {
    System(INITIAL, batching, Polling, false, 0, false, [], [], [], map[])
  }

  datatype Action =
    | Write(p: Payload)
    | Notify
    | Poll
    | Wake
    | BatchWritten(ok: bool)
    | OneWritten(ok: bool)
    | Abort
    | BeginClose
    | DeadlinePasses
    | CloseReturns

  /** Gives every event of `q` the fate `f`. */
  function Assign(fates: map<nat, Fate>, q: seq<Event>, f: Fate): map<nat, Fate> {
    if q == [] then fates else Assign(fates, q[..|q| - 1], f)[q[|q| - 1].id := f]
  }

  function Outcome(ok: bool): Fate {
    if ok then Written else Failed
  }

  function InHand(d: Drainer): seq<Event> {
    if d.Writing? then d.batch else []
  }

  /** The accepted events whose fate is still open, in the order they will be settled. */
  function Pipeline(s: System): seq<Event> {
    InHand(s.drainer) + s.w.queue
  }

  /** The events a write sheds from the queue. */
  function ShedBy(w: State, p: Payload): seq<Event> {
    var all := Push(w, p).queue;
    var kept := |Accept(w, p).queue|;
    if kept <= |all| then all[..|all| - kept] else []
  }

  predicate Enabled(s: System, a: Action) {
    match a
    case Write(_) => !s.w.closed
    case Notify => s.senders > 0
    case Poll => s.drainer.Polling?
    case Wake => s.drainer.Sleeping? && s.token
    case BatchWritten(_) => s.drainer.Writing? && s.batching
    case OneWritten(_) => s.drainer.Writing? && !s.batching && s.drainer.batch != [] && s.w.inFlight > 0
    case Abort => s.drainer.Writing? && !s.batching && s.w.expired
    case BeginClose => !s.w.closed
    case DeadlinePasses => s.w.closed && !s.w.expired && !s.closeReturned
    case CloseReturns => s.w.closed && (s.drainer.Done? || s.w.expired)
  }

  function AfterWrite(s: System, p: Payload): System {
    s.(w := Accept(s.w, p), senders := s.senders + 1,
       log := s.log + [Real(p, s.w.enqueued)],
       fates := Assign(s.fates, ShedBy(s.w, p), Dropped))
  }

  function AfterPoll(s: System): System {
    var (w, result) := Pop(s.w);
    s.(w := w,
       drainer := match result case Stop => Done case Wait => Sleeping case Batch(events) => Writing(events),
       popped := s.popped + if result.Batch? then result.events else [])
  }

  function AfterBatch(s: System, ok: bool): System
    requires s.drainer.Writing?
  {
    s.(w := FinishBatch(s.w, ok, |s.drainer.batch|), drainer := Polling,
       fates := if s.w.expired then s.fates else Assign(s.fates, s.drainer.batch, Outcome(ok)))
  }

  function AfterOne(s: System, ok: bool): System
    requires s.drainer.Writing? && s.drainer.batch != [] && s.w.inFlight > 0
  {
    s.(w := FinishOne(s.w, ok),
       drainer := if |s.drainer.batch| == 1 then Polling else Writing(s.drainer.batch[1..]),
       fates := if s.w.expired then s.fates else Assign(s.fates, s.drainer.batch[..1], Outcome(ok)))
  }

  function AfterDeadline(s: System): System {
    s.(w := Expire(s.w), lost := s.w.queue, fates := Assign(s.fates, Pipeline(s), Abandoned))
  }

  function Effect(s: System, a: Action): System
    requires Enabled(s, a)
  {
    match a
    case Write(p) => AfterWrite(s, p)
    case Notify => s.(senders := s.senders - 1, token := true)
    case Poll => AfterPoll(s)
    case Wake => s.(token := false, drainer := Polling)
    case BatchWritten(ok) => AfterBatch(s, ok)
    case OneWritten(ok) => AfterOne(s, ok)
    case Abort => s.(drainer := Polling)
    case BeginClose => s.(w := s.w.(closed := true), senders := s.senders + 1)
    case DeadlinePasses => AfterDeadline(s)
    case CloseReturns => s.(closeReturned := true)
  }

  function Step(s: System, a: Action): System {
    if Enabled(s, a) then Effect(s, a) else s
  }

  function Run(s: System, actions: seq<Action>): System
    decreases |actions|
  {
    if actions == [] then s else Run(Step(s, actions[0]), actions[1..])
  }

  // ---- The stream read back -----------------------------------------------------------------------

  datatype Entry = Gap | Seen(event: Event)

  function Gaps(n: nat): seq<Entry> {
    seq(n, i => Gap)
  }

  function Lift(q: seq<Event>): seq<Entry> {
    seq(|q|, i requires 0 <= i < |q| => Seen(q[i]))
  }

  /** What a reader of the stored rows reconstructs: an event stands for itself and a marker for
      as many missing events as it says. */
  function Expand(q: seq<Event>): seq<Entry> {
    if q == [] then [] else
      Expand(q[..|q| - 1]) + (match q[|q| - 1] case Real(_, _) => [Seen(q[|q| - 1])] case Marker(n, _) => Gaps(n))
  }

  /** What really happened: every event in acceptance order, or a gap where it was dropped. */
  function Annotate(log: seq<Event>, fates: map<nat, Fate>): seq<Entry> {
    seq(|log|, i requires 0 <= i < |log| => if IsDropped(fates, log[i].id) then Gap else Seen(log[i]))
  }

  predicate IsDropped(fates: map<nat, Fate>, id: nat) {
    id in fates && fates[id] == Dropped
  }

  function MarkerTotal(q: seq<Event>): nat {
    if q == [] then 0 else MarkerTotal(q[..|q| - 1]) + (match q[|q| - 1] case Real(_, _) => 0 case Marker(n, _) => n)
  }

  predicate AllReal(q: seq<Event>) {
    forall i | 0 <= i < |q| :: q[i].Real?
  }

  lemma LiftLast(r: seq<Event>)
    requires r != []
    ensures Lift(r) == Lift(r[..|r| - 1]) + [Seen(r[|r| - 1])]
  {
  }

  lemma {:induction false} ExpandReal(q: seq<Event>, r: seq<Event>)
    requires AllReal(r)
    ensures Expand(q + r) == Expand(q) + Lift(r)
    ensures MarkerTotal(q + r) == MarkerTotal(q)
  {
    if r == [] {
      assert q + r == q;
    } else {
      var last := |r| - 1;
      assert (q + r)[..|q + r| - 1] == q + r[..last] && (q + r)[|q + r| - 1] == r[last];
      ExpandReal(q, r[..last]);
      LiftLast(r);
    }
  }

  // ---- Fates --------------------------------------------------------------------------------------

  predicate HasId(q: seq<Event>, id: nat) {
    exists i | 0 <= i < |q| :: q[i].id == id
  }

  predicate DistinctIds(q: seq<Event>) {
    forall i, j | 0 <= i < j < |q| :: q[i].id != q[j].id
  }

  /** None of the events of `q` has a fate yet. */
  predicate Open(q: seq<Event>, fates: map<nat, Fate>) {
    forall i | 0 <= i < |q| :: q[i].id !in fates
  }

  function FateSet(fates: map<nat, Fate>, f: Fate): set<nat> {
    set id | id in fates && fates[id] == f
  }

  function CountFate(fates: map<nat, Fate>, f: Fate): nat {
    |FateSet(fates, f)|
  }

  lemma CountUpdate(fates: map<nat, Fate>, id: nat, f: Fate, g: Fate)
    requires id !in fates
    ensures CountFate(fates[id := f], g) == CountFate(fates, g) + if f == g then 1 else 0
  {
    var after := fates[id := f];
    forall i ensures i in FateSet(after, g) <==> i in FateSet(fates, g) || (f == g && i == id) {}
    assert FateSet(after, g) == FateSet(fates, g) + if f == g then {id} else {};
  }

  lemma HasIdSplit(q: seq<Event>, id: nat)
    requires q != []
    ensures HasId(q, id) <==> HasId(q[..|q| - 1], id) || id == q[|q| - 1].id
  {
    var init := q[..|q| - 1];
    if HasId(init, id) {
      var i :| 0 <= i < |init| && init[i].id == id;
      assert q[i].id == id;
    }
    if HasId(q, id) && id != q[|q| - 1].id {
      var i :| 0 <= i < |q| && q[i].id == id;
      assert init[i].id == id;
    }
  }

  lemma {:induction false} AssignIs(fates: map<nat, Fate>, q: seq<Event>, f: Fate, id: nat)
    ensures id in Assign(fates, q, f) <==> id in fates || HasId(q, id)
    ensures HasId(q, id) ==> Assign(fates, q, f)[id] == f
    ensures id in fates && !HasId(q, id) ==> Assign(fates, q, f)[id] == fates[id]
  {
    if q != [] {
      AssignIs(fates, q[..|q| - 1], f, id);
      HasIdSplit(q, id);
    }
  }

  lemma {:induction false} AssignFresh(fates: map<nat, Fate>, q: seq<Event>, f: Fate)
    requires DistinctIds(q) && Open(q, fates)
    ensures |Assign(fates, q, f)| == |fates| + |q|
    ensures forall g :: CountFate(Assign(fates, q, f), g) == CountFate(fates, g) + if f == g then |q| else 0
  {
    if q != [] {
      var init, last := q[..|q| - 1], q[|q| - 1];
      AssignFresh(fates, init, f);
      AssignIs(fates, init, f, last.id);
      assert last.id !in Assign(fates, init, f);
      forall g
        ensures CountFate(Assign(fates, q, f), g) == CountFate(Assign(fates, init, f), g) + if f == g then 1 else 0
      {
        CountUpdate(Assign(fates, init, f), last.id, f, g);
      }
    }
  }

  // ---- Invariants ---------------------------------------------------------------------------------

  /** The in-flight count is the batch in hand, and an expired writer buffers nothing. */
  predicate Conserved(s: System) {
    && (s.w.expired ==> s.w.closed && s.w.queue == [])
    && (!s.w.expired ==> s.lost == [] && s.w.inFlight == |InHand(s.drainer)|)
    && (s.drainer.Writing? && !s.w.expired ==> s.drainer.batch != [])
    && (s.drainer.Done? ==> s.w.closed && s.w.queue == [])
  }

  function OpenEvents(s: System): seq<Event> {
    if s.w.expired then [] else Pipeline(s)
  }

  predicate Partitioned(s: System) {
    Partition(OpenEvents(s), s.fates, s.w.enqueued, s.w.settled)
  }

  /** Every key handed out is open or has a fate, never both: the two are disjoint, and together
      as many as were handed out. */
  predicate Partition(open: seq<Event>, fates: map<nat, Fate>, enqueued: nat, settled: nat) {
    && (forall id | id in fates :: id < enqueued)
    && |fates| == settled
    && settled + |open| == enqueued
    && OpenPipeline(open, fates, enqueued)
  }

  predicate OpenPipeline(q: seq<Event>, fates: map<nat, Fate>, n: nat) {
    && DistinctIds(q)
    && Open(q, fates)
    && (forall i | 0 <= i < |q| :: q[i].id < n)
  }

  predicate Tallied(s: System) {
    Tally(s.fates, s.w.dropped, s.w.unflushed)
  }

  predicate Tally(fates: map<nat, Fate>, dropped: nat, unflushed: nat) {
    && dropped == CountFate(fates, Dropped)
    && unflushed == CountFate(fates, Failed) + CountFate(fates, Abandoned)
  }

  /** What has not been popped: the queue, or what the deadline found in it. */
  function Tail(s: System): seq<Event> {
    if s.w.expired then s.lost else s.w.queue
  }

  predicate Ordered(s: System) {
    OrderedLog(s.log, Tail(s), s.w.enqueued)
  }

  /** The log is in key order and the tail is its end. */
  predicate OrderedLog(log: seq<Event>, tail: seq<Event>, n: nat) {
    && AllReal(log)
    && (forall i, j | 0 <= i < j < |log| :: log[i].id < log[j].id)
    && (forall i | 0 <= i < |log| :: log[i].id < n)
    && |tail| <= |log|
    && tail == log[|log| - |tail|..]
  }

  predicate GapExact(s: System) {
    ReadsBack(Expand(s.popped), s.w.markerDrops, |Tail(s)|, s.log, s.fates)
  }

  /** The log is what was read, then a gap not yet reported, then events not dropped. */
  predicate ReadsBack(read: seq<Entry>, gap: nat, tail: nat, log: seq<Event>, fates: map<nat, Fate>) {
    && |read| + gap + tail == |log|
    && (forall i | 0 <= i < |read| :: read[i] == if IsDropped(fates, log[i].id) then Gap else Seen(log[i]))
    && (forall i | |read| <= i < |log| :: IsDropped(fates, log[i].id) <==> i < |read| + gap)
  }

  predicate Reported(s: System) {
    && MarkerTotal(s.popped) + s.w.markerDrops == s.w.dropped
    && (s.w.markerDrops > 0 && !s.w.expired ==> s.w.queue != [])
  }

  /** No lost wake-up: a drainer asleep on work has a token coming. */
  predicate Awake(s: System) {
    s.drainer.Sleeping? && (s.w.queue != [] || s.w.closed) ==> s.token || s.senders > 0
  }

  predicate Ledger(s: System) {
    && WithinLimits(s.w.queue)
    && Conserved(s)
    && Partitioned(s)
    && Tallied(s)
    && Awake(s)
  }

  predicate Stream(s: System) {
    && Ordered(s)
    && GapExact(s)
    && Reported(s)
  }

  predicate Inv(s: System) {
    Ledger(s) && Stream(s)
  }

  lemma InitLedger(batching: bool)
    ensures Ledger(Init(batching))
  {}

  lemma InitStream(batching: bool)
    ensures Stream(Init(batching))
  {}

  lemma InitInv(batching: bool)
    ensures Inv(Init(batching))
  {
    InitLedger(batching);
    InitStream(batching);
  }

  /** A write, once it is known how many events it sheds. */
  function AfterShed(s: System, p: Payload, k: nat): System
    requires k <= |s.w.queue|
  {
    s.(w := s.w.(queue := s.w.queue[k..] + [Real(p, s.w.enqueued)], enqueued := s.w.enqueued + 1,
                 dropped := s.w.dropped + k, markerDrops := s.w.markerDrops + k,
                 settled := s.w.settled + k, settleGen := s.w.settleGen + k),
       senders := s.senders + 1,
       log := s.log + [Real(p, s.w.enqueued)],
       fates := Assign(s.fates, s.w.queue[..k], Dropped))
  }

  lemma AcceptIs(w: State, p: Payload) returns (k: nat)
    requires |w.queue| <= MAX_EVENTS
    ensures k <= |w.queue| && ShedBy(w, p) == w.queue[..k]
    ensures Accept(w, p) == w.(queue := w.queue[k..] + [Real(p, w.enqueued)], enqueued := w.enqueued + 1,
                               dropped := w.dropped + k, markerDrops := w.markerDrops + k,
                               settled := w.settled + k, settleGen := w.settleGen + k)
    ensures WithinLimits(w.queue[k..] + [Real(p, w.enqueued)])
  {
    hide Accept, WithinLimits, OverBudget;
    k := AcceptShedsFewest(w, p);
    var all := Push(w, p).queue;
    assert all[k..] == w.queue[k..] + [Real(p, w.enqueued)];
    assert all[..k] == w.queue[..k];
  }

  lemma WriteSheds(s: System, p: Payload) returns (k: nat)
    requires |s.w.queue| <= MAX_EVENTS
    ensures k <= |s.w.queue| && AfterWrite(s, p) == AfterShed(s, p, k)
    ensures WithinLimits(AfterShed(s, p, k).w.queue)
  {
    hide Accept, ShedBy, WithinLimits, Assign;
    k := AcceptIs(s.w, p);
  }

  /** Taking a slice out of the open events and giving it a fate keeps the partition. */
  lemma PartitionStep(front: seq<Event>, dead: seq<Event>, rest: seq<Event>,
                      fates: map<nat, Fate>, f: Fate, n: nat, settled: nat)
    requires Partition(front + dead + rest, fates, n, settled)
    ensures DistinctIds(dead) && Open(dead, fates)
    ensures Partition(front + rest, Assign(fates, dead, f), n, settled + |dead|)
  {
    var all, both := front + dead + rest, front + rest;
    assert forall i | 0 <= i < |dead| :: dead[i] == all[|front| + i];
    assert forall i | 0 <= i < |both| :: both[i] == all[if i < |front| then i else i + |dead|];
    AssignFresh(fates, dead, f);
    forall i | 0 <= i < |both| ensures both[i].id !in Assign(fates, dead, f) {
      AssignIs(fates, dead, f, both[i].id);
    }
    forall id | id in Assign(fates, dead, f) ensures id < n {
      AssignIs(fates, dead, f, id);
    }
  }

  lemma PartitionFront(dead: seq<Event>, rest: seq<Event>, fates: map<nat, Fate>, f: Fate, n: nat, settled: nat)
    requires Partition(dead + rest, fates, n, settled)
    ensures DistinctIds(dead) && Open(dead, fates)
    ensures Partition(rest, Assign(fates, dead, f), n, settled + |dead|)
  {
    assert [] + dead + rest == dead + rest && [] + rest == rest;
    PartitionStep([], dead, rest, fates, f, n, settled);
  }

  lemma PartitionAdd(open: seq<Event>, fates: map<nat, Fate>, n: nat, settled: nat, e: Event)
    requires Partition(open, fates, n, settled) && e.id == n
    ensures Partition(open + [e], fates, n + 1, settled) && Partition([e] + open, fates, n + 1, settled)
  {}

  lemma TallyStep(fates: map<nat, Fate>, dropped: nat, unflushed: nat, q: seq<Event>, f: Fate)
    requires Tally(fates, dropped, unflushed) && DistinctIds(q) && Open(q, fates)
    ensures Tally(Assign(fates, q, f), dropped + (if f == Dropped then |q| else 0),
                  unflushed + if f == Failed || f == Abandoned then |q| else 0)
  {
    AssignFresh(fates, q, f);
  }

  lemma WritePartition(s: System, p: Payload, k: nat)
    requires Partitioned(s) && Tallied(s) && !s.w.expired && k <= |s.w.queue|
    ensures Partitioned(AfterShed(s, p, k)) && Tallied(AfterShed(s, p, k))
  {
    var e := Real(p, s.w.enqueued);
    var b, dead, rest := InHand(s.drainer), s.w.queue[..k], s.w.queue[k..] + [e];
    assert b + dead + rest == Pipeline(s) + [e];
    PartitionAdd(Pipeline(s), s.fates, s.w.enqueued, s.w.settled, e);
    PartitionStep(b, dead, rest, s.fates, Dropped, s.w.enqueued + 1, s.w.settled);
    TallyStep(s.fates, s.w.dropped, s.w.unflushed, dead, Dropped);
  }

  lemma OrderedLogGrows(log: seq<Event>, tail: seq<Event>, n: nat, k: nat, p: Payload)
    requires OrderedLog(log, tail, n) && k <= |tail|
    ensures OrderedLog(log + [Real(p, n)], tail[k..] + [Real(p, n)], n + 1)
  {
    var log', tail' := log + [Real(p, n)], tail[k..] + [Real(p, n)];
    assert forall i | 0 <= i < |tail'| :: tail'[i] == log'[|log'| - |tail'| + i];
  }

  /** Dropping the first `k` events of the tail moves exactly those into the unreported gap. */
  lemma ShedReadsBack(read: seq<Entry>, gap: nat, log: seq<Event>, tail: seq<Event>, fates: map<nat, Fate>, k: nat)
    requires ReadsBack(read, gap, |tail|, log, fates) && tail == log[|log| - |tail|..] && k <= |tail|
    requires forall i, j | 0 <= i < j < |log| :: log[i].id < log[j].id
    ensures ReadsBack(read, gap + k, |tail| - k, log, Assign(fates, tail[..k], Dropped))
  {
    var from := |log| - |tail|;
    var dead := tail[..k];
    assert forall i | 0 <= i < k :: dead[i] == log[from + i];
    forall i | 0 <= i < |log|
      ensures IsDropped(Assign(fates, dead, Dropped), log[i].id)
              <==> IsDropped(fates, log[i].id) || from <= i < from + k
    {
      AssignIs(fates, dead, Dropped, log[i].id);
      if from <= i < from + k {
        assert dead[i - from] == log[i];
      }
    }
  }

  lemma WriteReadsBack(read: seq<Entry>, gap: nat, log: seq<Event>, tail: seq<Event>, fates: map<nat, Fate>, k: nat,
                       e: Event)
    requires ReadsBack(read, gap, |tail|, log, fates) && OrderedLog(log, tail, e.id) && k <= |tail|
    requires e.id !in fates
    ensures ReadsBack(read, gap + k, |tail| - k + 1, log + [e], Assign(fates, tail[..k], Dropped))
  {
    ShedReadsBack(read, gap, log, tail, fates, k);
    AssignIs(fates, tail[..k], Dropped, e.id);
    assert forall i | 0 <= i < k :: tail[i] == log[|log| - |tail| + i];
  }

  lemma WriteStream(s: System, p: Payload, k: nat)
    requires Stream(s) && !s.w.expired && s.w.enqueued !in s.fates && k <= |s.w.queue|
    ensures Stream(AfterShed(s, p, k))
  {
    hide OrderedLog, ReadsBack;
    OrderedLogGrows(s.log, s.w.queue, s.w.enqueued, k, p);
    WriteReadsBack(Expand(s.popped), s.w.markerDrops, s.log, s.w.queue, s.fates, k, Real(p, s.w.enqueued));
  }

  lemma WriteLedger(s: System, p: Payload, k: nat)
    requires Ledger(s) && !s.w.closed && k <= |s.w.queue| && WithinLimits(AfterShed(s, p, k).w.queue)
    ensures Ledger(AfterShed(s, p, k))
  {
    hide Partition, Tally;
    WritePartition(s, p, k);
  }

  lemma WriteInv(s: System, p: Payload)
    requires Inv(s) && !s.w.closed
    ensures Inv(AfterWrite(s, p))
  {
    var k := WriteSheds(s, p);
    WriteLedger(s, p, k);
    WriteStream(s, p, k);
  }

  lemma PollInv(s: System)
    requires Inv(s) && s.drainer.Polling?
    ensures Inv(AfterPoll(s))
  {
    hide Partition, Tally, OrderedLog, ReadsBack, WithinLimits;
    PollLedger(s);
    if !s.w.expired && s.w.queue != [] {
      PollStream(s);
    } else {
      assert AfterPoll(s).popped == s.popped;
      QuietStream(s, AfterPoll(s));
    }
  }

  lemma PollLedger(s: System)
    requires Ledger(s) && s.drainer.Polling?
    ensures Ledger(AfterPoll(s))
  {
    hide OrderedLog, ReadsBack;
    hide Partition, Tally;
    if !s.w.expired && s.w.queue != [] {
      PollPartition(s);
      PollLimits(s);
    }
  }

  lemma PollLimits(s: System)
    requires WithinLimits(s.w.queue) && s.drainer.Polling? && !s.w.expired && s.w.queue != []
    ensures WithinLimits(AfterPoll(s).w.queue)
  {
    BytesSplit(s.w.queue, BatchLength(s.w));
  }

  lemma PollPartition(s: System)
    requires Partitioned(s) && s.drainer.Polling? && !s.w.expired && s.w.queue != []
    ensures Partitioned(AfterPoll(s))
  {
    hide Partition;
    assert Pipeline(s) == s.w.queue;
    PollPipeline(s);
    if s.w.markerDrops > 0 {
      PartitionAdd(s.w.queue, s.fates, s.w.enqueued, s.w.settled, GapMarker(s.w)[0]);
    } else {
      assert [] + s.w.queue == s.w.queue;
    }
  }

  lemma PollPipeline(s: System)
    requires s.drainer.Polling? && !s.w.expired && s.w.queue != []
    ensures var s' := AfterPoll(s);
            && Pipeline(s') == GapMarker(s.w) + s.w.queue
            && s'.w.expired == s.w.expired && s'.fates == s.fates && s'.w.settled == s.w.settled
            && s'.w.enqueued == s.w.enqueued + |GapMarker(s.w)|
  {
  }

  lemma ExpandLead(popped: seq<Event>, w: State)
    ensures Expand(popped + GapMarker(w)) == Expand(popped) + Gaps(w.markerDrops)
    ensures MarkerTotal(popped + GapMarker(w)) == MarkerTotal(popped) + w.markerDrops
  {
    if w.markerDrops == 0 {
      assert popped + GapMarker(w) == popped;
    } else {
      assert (popped + GapMarker(w))[..|popped|] == popped;
    }
  }

  lemma PopReadsBack(popped: seq<Event>, w: State, n: nat, log: seq<Event>, fates: map<nat, Fate>)
    requires n <= |w.queue| && OrderedLog(log, w.queue, w.enqueued)
    requires ReadsBack(Expand(popped), w.markerDrops, |w.queue|, log, fates)
    ensures ReadsBack(Expand(popped + (GapMarker(w) + w.queue[..n])), 0, |w.queue| - n, log, fates)
    ensures MarkerTotal(popped + (GapMarker(w) + w.queue[..n])) == MarkerTotal(popped) + w.markerDrops
  {
    var lead, taken := GapMarker(w), w.queue[..n];
    assert popped + (lead + taken) == (popped + lead) + taken;
    assert forall i | 0 <= i < n :: taken[i] == log[|log| - |w.queue| + i];
    ExpandReal(popped + lead, taken);
    ExpandLead(popped, w);
    ReadsOn(Expand(popped), w.markerDrops, w.queue, n, log, fates);
  }

  lemma ReadsOn(read: seq<Entry>, gap: nat, tail: seq<Event>, n: nat, log: seq<Event>, fates: map<nat, Fate>)
    requires n <= |tail| <= |log| && tail == log[|log| - |tail|..]
    requires ReadsBack(read, gap, |tail|, log, fates)
    ensures ReadsBack(read + Gaps(gap) + Lift(tail[..n]), 0, |tail| - n, log, fates)
  {}

  lemma OrderedLogPopped(log: seq<Event>, tail: seq<Event>, n: nat, n': nat, k: nat)
    requires OrderedLog(log, tail, n) && n <= n' && k <= |tail|
    ensures OrderedLog(log, tail[k..], n')
  {}

  lemma PopIs(w: State)
    requires !w.expired && w.queue != []
    ensures var n := BatchLength(w);
            n <= |w.queue| && Pop(w).1 == Batch(GapMarker(w) + w.queue[..n])
            && Pop(w).0.queue == w.queue[n..] && Pop(w).0.markerDrops == 0 && Pop(w).0.dropped == w.dropped
            && Pop(w).0.enqueued == w.enqueued + |GapMarker(w)| && Pop(w).0.expired == w.expired
            && (n == |w.queue| <==> w.queue[n..] == [])
  {
  }

  lemma PollStream(s: System)
    requires Stream(s) && s.drainer.Polling? && !s.w.expired && s.w.queue != []
    ensures Stream(AfterPoll(s))
  {
    hide OrderedLog, ReadsBack, Expand, MarkerTotal, GapMarker, BatchLength;
    var n := BatchLength(s.w);
    PopIs(s.w);
    PopReadsBack(s.popped, s.w, n, s.log, s.fates);
    OrderedLogPopped(s.log, s.w.queue, s.w.enqueued, s.w.enqueued + |GapMarker(s.w)|, n);
  }

  /** A step that only gives fates other than `Dropped` leaves the annotated log alone. */
  lemma SameStream(s: System, s': System, q: seq<Event>, f: Fate)
    requires Stream(s) && f != Dropped && DistinctIds(q) && Open(q, s.fates)
    requires s'.log == s.log && s'.popped == s.popped && s'.w.markerDrops == s.w.markerDrops
    requires Tail(s') == Tail(s) && s'.w.enqueued == s.w.enqueued && s'.w.dropped == s.w.dropped
    requires s'.w.expired || (s'.w.queue == s.w.queue && !s.w.expired)
    requires s'.fates == Assign(s.fates, q, f)
    ensures Stream(s')
  {
    hide OrderedLog;
    forall id ensures IsDropped(s'.fates, id) == IsDropped(s.fates, id) {
      AssignIs(s.fates, q, f, id);
    }
  }

  lemma AfterBatchIs(s: System, ok: bool)
    requires s.drainer.Writing? && !s.w.expired && s.w.inFlight == |s.drainer.batch|
    ensures var s', n := AfterBatch(s, ok), |s.drainer.batch|;
            && s'.w.settled == s.w.settled + n && s'.w.unflushed == s.w.unflushed + (if ok then 0 else n)
            && s'.w.dropped == s.w.dropped && s'.w.enqueued == s.w.enqueued && s'.w.inFlight == 0
            && s'.w.queue == s.w.queue && !s'.w.expired && s'.w.closed == s.w.closed
  {
  }

  lemma BatchWrittenLedger(s: System, ok: bool)
    requires Ledger(s) && s.drainer.Writing? && s.batching && !s.w.expired
    ensures Ledger(AfterBatch(s, ok))
    ensures DistinctIds(s.drainer.batch) && Open(s.drainer.batch, s.fates)
  {
    hide Partition, Tally, WithinLimits, DistinctIds, Open, Assign, FinishBatch;
    AfterBatchIs(s, ok);
    PartitionFront(s.drainer.batch, s.w.queue, s.fates, Outcome(ok), s.w.enqueued, s.w.settled);
    TallyStep(s.fates, s.w.dropped, s.w.unflushed, s.drainer.batch, Outcome(ok));
    assert OpenEvents(AfterBatch(s, ok)) == s.w.queue;
  }

  lemma OneWrittenLedger(s: System, ok: bool)
    requires Ledger(s) && s.drainer.Writing? && !s.batching && !s.w.expired
    ensures Ledger(AfterOne(s, ok))
    ensures DistinctIds(s.drainer.batch[..1]) && Open(s.drainer.batch[..1], s.fates)
  {
    hide Partition, Tally, WithinLimits, DistinctIds, Open;
    var first, rest := s.drainer.batch[..1], s.drainer.batch[1..] + s.w.queue;
    assert Pipeline(s) == first + rest;
    PartitionFront(first, rest, s.fates, Outcome(ok), s.w.enqueued, s.w.settled);
    TallyStep(s.fates, s.w.dropped, s.w.unflushed, first, Outcome(ok));
    assert OpenEvents(AfterOne(s, ok)) == rest;
  }

  lemma ExpireSettlesAll(w: State)
    ensures Expire(w).settled == w.settled + |w.queue| + w.inFlight
    ensures Expire(w).unflushed == w.unflushed + |w.queue| + w.inFlight
    ensures Expire(w).queue == [] && WithinLimits([]) && Expire(w).expired && Expire(w).closed == w.closed
    ensures Expire(w).enqueued == w.enqueued && Expire(w).dropped == w.dropped
    ensures Expire(w).markerDrops == w.markerDrops
  {}

  lemma DeadlineLedger(s: System)
    requires Ledger(s) && s.w.closed && !s.w.expired && !s.closeReturned
    ensures Ledger(AfterDeadline(s))
    ensures DistinctIds(Pipeline(s)) && Open(Pipeline(s), s.fates)
  {
    hide Partition, Tally, WithinLimits, DistinctIds, Open, Expire, Assign;
    assert Pipeline(s) + [] == Pipeline(s);
    PartitionFront(Pipeline(s), [], s.fates, Abandoned, s.w.enqueued, s.w.settled);
    TallyStep(s.fates, s.w.dropped, s.w.unflushed, Pipeline(s), Abandoned);
    ExpireSettlesAll(s.w);
  }

  /** Steps that touch neither the queue nor any fate. */
  lemma QuietLedger(s: System, s': System)
    requires Ledger(s) && Conserved(s') && Awake(s') && s'.fates == s.fates
    requires s'.w == s.w.(closed := s'.w.closed, inFlight := s'.w.inFlight)
    requires s.w.expired || InHand(s'.drainer) == InHand(s.drainer)
    ensures Ledger(s')
  {
    hide Partition, Tally, WithinLimits;
    assert OpenEvents(s') == OpenEvents(s);
  }

  lemma QuietStream(s: System, s': System)
    requires Stream(s)
    requires s'.log == s.log && s'.popped == s.popped && s'.lost == s.lost && s'.fates == s.fates
    requires s'.w == s.w.(closed := s'.w.closed, inFlight := s'.w.inFlight)
    ensures Stream(s')
  {}

  lemma BatchWrittenStream(s: System, ok: bool)
    requires Stream(s) && s.drainer.Writing? && !s.w.expired
    requires DistinctIds(s.drainer.batch) && Open(s.drainer.batch, s.fates)
    ensures Stream(AfterBatch(s, ok))
  {
    hide OrderedLog, ReadsBack;
    SameStream(s, AfterBatch(s, ok), s.drainer.batch, Outcome(ok));
  }

  lemma OneWrittenStream(s: System, ok: bool)
    requires Stream(s) && s.drainer.Writing? && s.drainer.batch != [] && s.w.inFlight > 0 && !s.w.expired
    requires DistinctIds(s.drainer.batch[..1]) && Open(s.drainer.batch[..1], s.fates)
    ensures Stream(AfterOne(s, ok))
  {
    hide OrderedLog, ReadsBack;
    SameStream(s, AfterOne(s, ok), s.drainer.batch[..1], Outcome(ok));
  }

  lemma DeadlineStream(s: System)
    requires Stream(s) && !s.w.expired
    requires DistinctIds(Pipeline(s)) && Open(Pipeline(s), s.fates)
    ensures Stream(AfterDeadline(s))
  {
    hide OrderedLog, ReadsBack;
    SameStream(s, AfterDeadline(s), Pipeline(s), Abandoned);
  }

  lemma SettlingInv(s: System, a: Action)
    requires Inv(s) && Enabled(s, a) && !s.w.expired
    requires a.BatchWritten? || a.OneWritten? || a.DeadlinePasses?
    ensures Inv(Step(s, a))
  {
    hide Ledger, Stream;
    match a
    case BatchWritten(ok) => BatchWrittenLedger(s, ok); BatchWrittenStream(s, ok);
    case OneWritten(ok) => OneWrittenLedger(s, ok); OneWrittenStream(s, ok);
    case DeadlinePasses => DeadlineLedger(s); DeadlineStream(s);
  }

  lemma QuietInv(s: System, a: Action)
    requires Inv(s) && Enabled(s, a)
    requires a.Notify? || a.Wake? || a.Abort? || a.BeginClose? || a.CloseReturns?
             || (s.w.expired && (a.BatchWritten? || a.OneWritten?))
    ensures Inv(Step(s, a))
  {
    hide Partition, Tally, OrderedLog, ReadsBack, WithinLimits;
    QuietLedger(s, Step(s, a));
    QuietStream(s, Step(s, a));
  }

  lemma StepInv(s: System, a: Action)
    requires Inv(s)
    ensures Inv(Step(s, a))
  {
    hide Ledger, Stream;
    if Enabled(s, a) {
      match a
      case Write(p) => WriteInv(s, p);
      case Poll => PollInv(s);
      case BatchWritten(_) => if s.w.expired { QuietInv(s, a); } else { SettlingInv(s, a); }
      case OneWritten(_) => if s.w.expired { QuietInv(s, a); } else { SettlingInv(s, a); }
      case DeadlinePasses => SettlingInv(s, a);
      case _ => QuietInv(s, a);
    }
  }

  /** Every reachable state of every run satisfies the invariant. */
  lemma {:induction false} RunInv(s: System, actions: seq<Action>)
    requires Inv(s)
    ensures Inv(Run(s, actions))
    decreases |actions|
  {
    if actions != [] {
      StepInv(s, actions[0]);
      RunInv(Step(s, actions[0]), actions[1..]);
    }
  }

  // ---- What the invariant says about every run ----------------------------------------------------

  ghost predicate Reachable(s: System) {
    exists batching, actions :: s == Run(Init(batching), actions)
  }

  lemma ReachableInv(s: System)
    requires Reachable(s)
    ensures Inv(s)
  {
    var batching, actions :| s == Run(Init(batching), actions);
    InitInv(batching);
    RunInv(Init(batching), actions);
  }

  /** Gap-exact stream: reading the popped rows back, then the gap not yet reported, then what was
      left unpopped, gives the accepted log with a gap exactly where an event was dropped. */
  lemma StreamIsGapExact(s: System)
    requires Reachable(s)
    ensures Expand(s.popped) + Gaps(s.w.markerDrops) + Lift(Tail(s)) == Annotate(s.log, s.fates)
  {
    ReachableInv(s);
    ReadBackConcatenates(Expand(s.popped), s.w.markerDrops, s.log, Tail(s), s.fates);
  }

  lemma ReadBackConcatenates(read: seq<Entry>, gap: nat, log: seq<Event>, tail: seq<Event>, fates: map<nat, Fate>)
    requires ReadsBack(read, gap, |tail|, log, fates) && tail == log[|log| - |tail|..]
    ensures read + Gaps(gap) + Lift(tail) == Annotate(log, fates)
  {
    assert forall i | 0 <= i < |tail| :: tail[i] == log[|log| - |tail| + i];
  }

  lemma {:induction false} ExpandPrefix(q: seq<Event>, i: nat)
    requires i < |q|
    ensures Expand(q[..i]) <= Expand(q)
    ensures q[i].Real? ==> Expand(q[..i]) + [Seen(q[i])] <= Expand(q)
    decreases |q|
  {
    var init := q[..|q| - 1];
    if i < |init| {
      ExpandPrefix(init, i);
      assert init[..i] == q[..i] && init[i] == q[i];
    }
  }

  /** Counting 1 for an event and a marker for its number, a popped event's position in the rows
      is its acceptance index. */
  lemma AcceptanceIndexRecovered(s: System, i: nat)
    requires Reachable(s) && i < |s.popped| && s.popped[i].Real?
    ensures var index := |Expand(s.popped[..i])|;
            index < |s.log| && s.log[index] == s.popped[i]
  {
    ReachableInv(s);
    ExpandPrefix(s.popped, i);
    var index := |Expand(s.popped[..i])|;
    assert Expand(s.popped)[index] == (Expand(s.popped[..i]) + [Seen(s.popped[i])])[index];
  }

  /** A close that does not expire leaves nothing buffered and has reported every drop. */
  lemma CleanCloseReportsEveryDrop(s: System)
    requires Reachable(s)
    ensures s.drainer.Done? && !s.w.expired ==> s.w.queue == [] && MarkerTotal(s.popped) == s.w.dropped
                                                && |Expand(s.popped)| == |s.log|
  {
    hide Partition, Tally, OrderedLog, WithinLimits;
    ReachableInv(s);
  }

  /** The drainer never sleeps on buffered work or on a close without a wake-up on its way. */
  lemma DrainerIsWoken(s: System)
    requires Reachable(s)
    ensures s.drainer.Sleeping? && (s.w.queue != [] || s.w.closed) ==>
              s.senders > 0 || !Step(s, Wake).drainer.Sleeping?
  {
    ReachableInv(s);
  }

  function Keys(q: seq<Event>): set<nat> {
    set i | 0 <= i < |q| :: q[i].id
  }

  lemma {:induction false} KeyCount(q: seq<Event>)
    requires DistinctIds(q)
    ensures |Keys(q)| == |q|
  {
    if q != [] {
      var init, last := q[..|q| - 1], q[|q| - 1];
      KeyCount(init);
      assert Keys(q) == Keys(init) + {last.id};
    }
  }

  function Below(n: nat): (r: set<nat>)
    ensures |r| == n
    ensures forall i: nat :: i in r <==> i < n
  {
    if n == 0 then {} else Below(n - 1) + {n - 1}
  }

  lemma SameSizeSubset(a: set<nat>, b: set<nat>)
    requires a <= b && |a| == |b|
    ensures a == b
  {
    assert b == a + (b - a);
  }

  /** Conservation of fate: the keys handed out are exactly those with a fate and those still in
      the pipeline; the two are disjoint and each has the size of its counter. */
  lemma FateIsConserved(s: System)
    requires Reachable(s)
    ensures s.fates.Keys !! Keys(OpenEvents(s))
    ensures s.fates.Keys + Keys(OpenEvents(s)) == Below(s.w.enqueued)
    ensures |s.fates| == s.w.settled
    ensures s.w.expired ==> s.w.settled == s.w.enqueued
    ensures !s.w.expired ==> s.w.enqueued == s.w.settled + s.w.inFlight + |s.w.queue|
  {
    ReachableInv(s);
    PartitionCovers(OpenEvents(s), s.fates, s.w.enqueued, s.w.settled);
  }

  lemma PartitionCovers(open: seq<Event>, fates: map<nat, Fate>, enqueued: nat, settled: nat)
    requires Partition(open, fates, enqueued, settled)
    ensures fates.Keys !! Keys(open) && fates.Keys + Keys(open) == Below(enqueued)
  {
    KeyCount(open);
    assert |fates.Keys + Keys(open)| == |fates.Keys| + |Keys(open)|;
    SameSizeSubset(fates.Keys + Keys(open), Below(enqueued));
  }

  /** The counters reported at close are the sizes of the fates they stand for. */
  lemma CountersMatchFates(s: System)
    requires Reachable(s)
    ensures s.w.dropped == CountFate(s.fates, Dropped)
    ensures s.w.unflushed == CountFate(s.fates, Failed) + CountFate(s.fates, Abandoned)
    ensures s.w.settled - s.w.dropped - s.w.unflushed == CountFate(s.fates, Written)
  {
    ReachableInv(s);
    FateTotal(s.fates);
  }

  lemma FateTotal(fates: map<nat, Fate>)
    ensures |fates|
            == CountFate(fates, Written) + CountFate(fates, Failed) + CountFate(fates, Dropped)
              + CountFate(fates, Abandoned)
  {
    var stored := FateSet(fates, Written) + FateSet(fates, Failed);
    var not := FateSet(fates, Dropped) + FateSet(fates, Abandoned);
    assert fates.Keys == stored + not && stored !! not;
  }

  lemma ShedKeepsFates(s: System, p: Payload, id: nat)
    requires Ledger(s) && !s.w.closed && id in s.fates
    ensures id in AfterWrite(s, p).fates && AfterWrite(s, p).fates[id] == s.fates[id]
  {
    var k := WriteSheds(s, p);
    var dead := s.w.queue[..k];
    assert forall i | 0 <= i < k :: dead[i] == Pipeline(s)[|InHand(s.drainer)| + i];
    AssignIs(s.fates, dead, Dropped, id);
  }

  /** A fate is final: no step changes or removes it, even one that completes after expiry. */
  lemma FateIsFinal(s: System, a: Action, id: nat)
    requires Ledger(s) && id in s.fates
    ensures id in Step(s, a).fates && Step(s, a).fates[id] == s.fates[id]
  {
    if Enabled(s, a) {
      match a
      case Write(p) => ShedKeepsFates(s, p, id);
      case BatchWritten(ok) =>
        if !s.w.expired {
          BatchWrittenLedger(s, ok);
          AssignIs(s.fates, s.drainer.batch, Outcome(ok), id);
        }
      case OneWritten(ok) =>
        if !s.w.expired {
          OneWrittenLedger(s, ok);
          AssignIs(s.fates, s.drainer.batch[..1], Outcome(ok), id);
        }
      case DeadlinePasses => AssignIs(s.fates, Pipeline(s), Abandoned, id);
      case _ =>
    }
  }
}
