/** The buffered event writer of cmd/agent/pg_event_writer.go.

    `State` is what the writer means to its callers: the queue of buffered events and the
    counters. The functions on `State` specify one mutex-guarded section each. `PgEventWriter`
    is the writer itself, with its slice, its head index and its loops; every method is proved to
    do to the state exactly what the function of that section says.
 */
module EventWriter {
  import opened RawBytes

  const BUFFER := 1024
  const MAX_EVENTS := 64 * 1024
  const MAX_BYTES := 64 * 1024 * 1024
  const BATCH_SIZE := 64

  type Payload = seq<byte>

  /** A buffered event, or the synthetic row that reports a gap. `id` is the idempotency key fixed
      at enqueue time; keys are numbered by the `enqueued` counter they were taken at. */
  datatype Event =
    | Real(raw: Payload, id: nat)
    | Marker(drops: nat, id: nat)

  /** What a consumed slot of the slice is overwritten with. */
  const CLEARED := Real([], 0)

  function Size(e: Event): nat {
    match e
    case Real(raw, _) => |raw|
    case Marker(_, _) => 0
  }

  function Bytes(q: seq<Event>): nat {
    if q == [] then 0 else Size(q[0]) + Bytes(q[1..])
  }

  lemma {:induction false} BytesAppend(a: seq<Event>, b: seq<Event>)
    ensures Bytes(a + b) == Bytes(a) + Bytes(b)
  {
    if a == [] {
      assert a + b == b;
    } else {
      assert (a + b)[1..] == a[1..] + b;
      BytesAppend(a[1..], b);
    }
  }

  lemma BytesSplit(q: seq<Event>, n: nat)
    requires n <= |q|
    ensures Bytes(q) == Bytes(q[..n]) + Bytes(q[n..])
  {
    assert q == q[..n] + q[n..];
    BytesAppend(q[..n], q[n..]);
  }

  /** The writer as seen through its lock. `settleGen` numbers the current settle channel: a
      channel taken earlier has been closed if and only if its number is smaller. */
  datatype State = State(
    queue: seq<Event>,
    closed: bool,
    expired: bool,
    inFlight: nat,
    dropped: nat,
    unflushed: nat,
    enqueued: nat,
    settled: nat,
    markerDrops: nat,
    settleGen: nat)

  const INITIAL := State([], false, false, 0, 0, 0, 0, 0, 0, 0)

  // ---- What each locked section does --------------------------------------------------------------

  function Settle(s: State, n: nat): State {
    if n == 0 then s else s.(settled := s.settled + n, settleGen := s.settleGen + 1)
  }

  function DropOldest(s: State): State
    requires s.queue != []
  {
    Settle(s.(queue := s.queue[1..], dropped := s.dropped + 1, markerDrops := s.markerDrops + 1), 1)
  }

  predicate OverBudget(q: seq<Event>) {
    Bytes(q) > MAX_BYTES && |q| > 1
  }

  function Trim(s: State): State
    decreases |s.queue|
  {
    if OverBudget(s.queue) then Trim(DropOldest(s)) else s
  }

  function MakeRoom(s: State): State {
    if |s.queue| >= MAX_EVENTS then DropOldest(s) else s
  }

  function Push(s: State, p: Payload): State {
    s.(queue := s.queue + [Real(p, s.enqueued)], enqueued := s.enqueued + 1)
  }

  function Accept(s: State, p: Payload): State {
    Trim(Push(MakeRoom(s), p))
  }

  datatype PopResult = Stop | Wait | Batch(events: seq<Event>)

  function BatchLength(s: State): nat {
    if |s.queue| > BATCH_SIZE then BATCH_SIZE else |s.queue|
  }

  function GapMarker(s: State): seq<Event> {
    if s.markerDrops > 0 then [Marker(s.markerDrops, s.enqueued)] else []
  }

  function Pop(s: State): (State, PopResult) {
    if s.expired then (s, Stop)
    else if s.queue != [] then
      var batch := GapMarker(s) + s.queue[..BatchLength(s)];
      (s.(queue := s.queue[BatchLength(s)..], markerDrops := 0,
          enqueued := s.enqueued + |GapMarker(s)|, inFlight := |batch|),
       Batch(batch))
    else if s.closed then (s, Stop)
    else (s, Wait)
  }

  function FinishBatch(s: State, ok: bool, batchLen: nat): State {
    var s1 := if s.expired then s else Settle(s, s.inFlight);
    var s2 := if s.expired || ok then s1 else s1.(unflushed := s1.unflushed + batchLen);
    s2.(inFlight := 0)
  }

  function FinishOne(s: State, ok: bool): State
    requires s.inFlight > 0
  {
    var s1 := if s.expired then s else Settle(s, 1);
    var s2 := if s.expired || ok then s1 else s1.(unflushed := s1.unflushed + 1);
    s2.(inFlight := s2.inFlight - 1)
  }

  function Expire(s: State): State {
    var abandoned := |s.queue| + s.inFlight;
    Settle(s.(expired := true, unflushed := s.unflushed + abandoned, queue := []), abandoned)
  }

  predicate FlushMustWait(s: State, target: nat) {
    s.settled < target && !s.expired
  }

  // ---- What accepting an event means --------------------------------------------------------------

  /** At most 65536 events with at most 64 MiB together, or a single event of any size. */
  predicate WithinLimits(q: seq<Event>) {
    |q| <= 65536 && (Bytes(q) <= 67108864 || |q| <= 1)
  }

  lemma LimitsAre(q: seq<Event>)
    ensures WithinLimits(q) <==> |q| <= MAX_EVENTS && !OverBudget(q)
  {
  }

  /** `Shed(s, k)` is `s` after its `k` oldest events were dropped. */
  function Shed(s: State, k: nat): State
    requires k <= |s.queue|
  {
    s.(queue := s.queue[k..], dropped := s.dropped + k, markerDrops := s.markerDrops + k,
       settled := s.settled + k, settleGen := s.settleGen + k)
  }

  lemma {:induction false} TrimSheds(s: State) returns (k: nat)
    ensures k <= |s.queue| && (s.queue != [] ==> k < |s.queue|)
    ensures Trim(s) == Shed(s, k)
    ensures !OverBudget(s.queue[k..])
    ensures forall j | 0 <= j < k :: OverBudget(s.queue[j..])
    decreases |s.queue|
  {
    if OverBudget(s.queue) {
      var k' := TrimSheds(DropOldest(s));
      k := k' + 1;
      assert s.queue[1..][k'..] == s.queue[k..];
      forall j | 0 <= j < k ensures OverBudget(s.queue[j..]) {
        if j == 0 {
          assert s.queue[0..] == s.queue;
        } else {
          assert s.queue[1..][j - 1..] == s.queue[j..];
        }
      }
    } else {
      k := 0;
      assert s.queue[0..] == s.queue;
    }
  }

  lemma ShedQueue(s: State, k: nat)
    requires k <= |s.queue|
    ensures Shed(s, k).queue == s.queue[k..]
  {
  }

  lemma ShedAfterRoom(s: State, p: Payload, k: nat)
    requires |s.queue| <= MAX_EVENTS && k <= |Push(MakeRoom(s), p).queue|
    ensures var first := if |s.queue| >= MAX_EVENTS then 1 else 0;
            first + k <= |s.queue| + 1 && Shed(Push(MakeRoom(s), p), k) == Shed(Push(s, p), first + k)
  {
    var all, first := Push(s, p).queue, if |s.queue| >= MAX_EVENTS then 1 else 0;
    assert Push(MakeRoom(s), p).queue == all[first..];
    assert all[first..][k..] == all[first + k..];
  }

  /** Accepting an event sheds the fewest oldest events that bring the queue back within both
      limits; the event just accepted is never one of them. */
  lemma AcceptShedsFewest(s: State, p: Payload) returns (k: nat)
    requires |s.queue| <= MAX_EVENTS
    ensures k <= |s.queue|
    ensures Accept(s, p) == Shed(Push(s, p), k)
    ensures WithinLimits(Accept(s, p).queue)
    ensures forall j | 0 <= j < k :: !WithinLimits(Push(s, p).queue[j..])
  {
    hide Trim, OverBudget, Shed, WithinLimits, Bytes;
    var all := Push(s, p).queue;
    var room := MakeRoom(s);
    var first := if |s.queue| >= MAX_EVENTS then 1 else 0;
    assert Push(room, p).queue == all[first..];
    var k' := TrimSheds(Push(room, p));
    k := first + k';
    ShedAfterRoom(s, p, k');
    assert all[first..][k'..] == all[k..];
    ShedQueue(Push(s, p), k);
    LimitsAre(all[k..]);
    forall j | 0 <= j < k ensures !WithinLimits(all[j..]) {
      LimitsAre(all[j..]);
      if j >= first {
        assert all[first..][j - first..] == all[j..];
      }
    }
  }

  // ---- The writer itself --------------------------------------------------------------------------

  class PgEventWriter {
    var buf: seq<Event>
    var bufBytes: int
    var head: nat
    var closed: bool
    var expired: bool
    var inFlight: nat
    var dropped: nat
    var unflushed: nat
    var enqueued: nat
    var settled: nat
    var settleGen: nat
    var markerDrops: nat

    /** The slice holds cleared slots up to `head` and the queue behind it; `bufBytes` is the sum
        of the live payloads; and compaction bounds the cleared part. */
    ghost predicate Valid()
      reads this
    {
      && head <= |buf|
      && (forall i | 0 <= i < head :: buf[i] == CLEARED)
      && bufBytes == Bytes(buf[head..])
      && (head == |buf| ==> head == 0)
      && (head > BUFFER ==> 2 * head < |buf|)
    }

    ghost function Model(): State
      reads this
      requires head <= |buf|
    {
      State(buf[head..], closed, expired, inFlight, dropped, unflushed, enqueued, settled, markerDrops, settleGen)
    }

    constructor ()
      ensures Valid() && Model() == INITIAL
    {
      buf, bufBytes, head := [], 0, 0;
      closed, expired, inFlight := false, false, 0;
      dropped, unflushed, enqueued, settled, settleGen, markerDrops := 0, 0, 0, 0, 0, 0;
    }

    function Buffered(): int
      reads this
    {
      |buf| - head
    }

    method Compact()
      requires head <= |buf|
      requires forall i | 0 <= i < head :: buf[i] == CLEARED
      requires bufBytes == Bytes(buf[head..])
      modifies this`buf, this`head
      ensures Valid() && Model() == old(Model())
    {
      if head == 0 {
        return;
      }
      if head == |buf| {
        buf := [];
        head := 0;
        return;
      }
      if head > BUFFER && head * 2 >= |buf| {
        buf := buf[head..];
        head := 0;
      }
    }

    method SettleEvents(n: nat)
      requires head <= |buf|
      modifies this`settled, this`settleGen
      ensures Model() == Settle(old(Model()), n)
    {
      if n <= 0 {
        return;
      }
      settled := settled + n;
      settleGen := settleGen + 1;
    }

    method DropOldestEvent()
      requires Valid() && Buffered() > 0
      modifies this
      ensures Valid() && Model() == DropOldest(old(Model()))
    {
      assert buf[head..][1..] == buf[head + 1..];
      bufBytes := bufBytes - Size(buf[head]);
      buf := buf[head := CLEARED];
      head := head + 1;
      assert buf[head..] == old(buf[head + 1..]);
      dropped := dropped + 1;
      markerDrops := markerDrops + 1;
      SettleEvents(1);
      Compact();
    }

    method Write(p: Payload) returns (accepted: bool)
      requires Valid()
      modifies this
      ensures Valid()
      ensures accepted == !old(closed)
      ensures Model() == if accepted then Accept(old(Model()), p) else old(Model())
    {
      if closed {
        return false;
      }
      if Buffered() >= MAX_EVENTS {
        DropOldestEvent();
      }
      ghost var room := Model();
      assert room == MakeRoom(old(Model()));
      BytesAppend(buf[head..], [Real(p, enqueued)]);
      assert (buf + [Real(p, enqueued)])[head..] == buf[head..] + [Real(p, enqueued)];
      buf := buf + [Real(p, enqueued)];
      bufBytes := bufBytes + |p|;
      enqueued := enqueued + 1;
      assert Model() == Push(room, p);
      while bufBytes > MAX_BYTES && Buffered() > 1
        invariant Valid()
        invariant Trim(Model()) == Trim(Push(room, p))
        decreases Buffered()
      {
        DropOldestEvent();
      }
      accepted := true;
    }

    /** popBatch's loop: clears the `n` oldest live slots and moves the head past them. */
    method ClearFront(n: nat)
      requires Valid() && n <= Buffered()
      modifies this`buf, this`bufBytes, this`head
      ensures head <= |buf| && (forall i | 0 <= i < head :: buf[i] == CLEARED)
      ensures buf[head..] == old(buf[head..])[n..]
      ensures bufBytes == Bytes(buf[head..])
    {
      ghost var live := buf[head..];
      for i := 0 to n
        invariant |buf| == |old(buf)| && head == old(head)
        invariant forall j | 0 <= j < head + i :: buf[j] == CLEARED
        invariant buf[head + i..] == live[i..]
        invariant bufBytes == Bytes(live[i..])
      {
        assert live[i..][1..] == live[i + 1..];
        assert buf[head + i] == buf[head + i..][0] == live[i];
        bufBytes := bufBytes - Size(buf[head + i]);
        buf := buf[head + i := CLEARED];
        assert buf[head + i + 1..] == live[i + 1..];
      }
      head := head + n;
    }

    /** popBatch's gap report: a pending gap becomes a marker that leads the batch. */
    method LeadWithMarker() returns (batch: seq<Event>)
      requires head <= |buf|
      modifies this`markerDrops, this`enqueued
      ensures batch == GapMarker(old(Model()))
      ensures Model() == old(Model()).(markerDrops := 0, enqueued := old(enqueued) + |batch|)
    {
      batch := [];
      if markerDrops > 0 {
        batch := batch + [Marker(markerDrops, enqueued)];
        markerDrops := 0;
        enqueued := enqueued + 1;
      }
    }

    /** popBatch with events buffered: a gap marker if one is due, then the oldest events. */
    method TakeBatch() returns (batch: seq<Event>)
      requires Valid() && Buffered() > 0 && !expired
      modifies this
      ensures Valid()
      ensures Pop(old(Model())) == (Model(), Batch(batch))
    {
      var n := Buffered();
      if n > BATCH_SIZE {
        n := BATCH_SIZE;
      }
      ghost var was := Model();
      var lead := LeadWithMarker();
      assert buf[head..head + n] == was.queue[..n];
      batch := lead + buf[head..head + n];
      ClearFront(n);
      inFlight := |batch|;
      Compact();
    }

    /** One pass of popBatch under the lock; `Wait` is the pass that goes on to sleep. */
    method PopBatch() returns (result: PopResult)
      requires Valid()
      modifies this
      ensures Valid()
      ensures Pop(old(Model())) == (Model(), result)
    {
      if expired {
        return Stop;
      }
      if Buffered() > 0 {
        var batch := TakeBatch();
        return Batch(batch);
      }
      if closed {
        return Stop;
      }
      return Wait;
    }

    /** The section of writeBatch that follows the store call. */
    method FinishBatchWrite(ok: bool, batchLen: nat)
      requires Valid()
      modifies this
      ensures Valid() && Model() == FinishBatch(old(Model()), ok, batchLen)
    {
      if !expired {
        SettleEvents(inFlight);
        if !ok {
          unflushed := unflushed + batchLen;
        }
      }
      inFlight := 0;
    }

    /** The section of writeOneByOne that follows one store call. */
    method FinishOneWrite(ok: bool)
      requires Valid() && inFlight > 0
      modifies this
      ensures Valid() && Model() == FinishOne(old(Model()), ok)
    {
      if !expired {
        SettleEvents(1);
        if !ok {
          unflushed := unflushed + 1;
        }
      }
      inFlight := inFlight - 1;
    }

    method BeginClose()
      requires Valid()
      modifies this`closed
      ensures Valid() && Model() == old(Model()).(closed := true)
    {
      closed := true;
    }

    /** The close deadline passing before the drainer is done. */
    method ExpireClose()
      requires Valid()
      modifies this
      ensures Valid() && Model() == Expire(old(Model()))
    {
      expired := true;
      var abandoned := Buffered() + inFlight;
      unflushed := unflushed + abandoned;
      SettleEvents(abandoned);
      var i := head;
      while i < |buf|
        modifies this`buf
        invariant head <= i <= |buf| == |old(buf)|
      {
        buf := buf[i := CLEARED];
        i := i + 1;
      }
      buf := [];
      bufBytes := 0;
      head := 0;
    }

    /** One pass of Flush's loop: whether it must wait, and on which settle channel. */
    method FlushProbe(target: nat) returns (mustWait: bool, channel: nat)
      requires Valid()
      ensures mustWait == FlushMustWait(Model(), target)
      ensures channel == settleGen
    {
      mustWait := settled < target && !expired;
      channel := settleGen;
    }

    /** Space: the slice is never longer than the live events plus the larger of 1024 and the
        live events again, and no cleared slot holds on to a payload. */
    lemma SpaceBound()
      requires Valid()
      ensures |buf| <= |Model().queue| + if |Model().queue| > BUFFER then |Model().queue| else BUFFER
      ensures bufBytes == Bytes(Model().queue) == Bytes(buf)
    {
      BytesSplit(buf, head);
      ClearedHasNoBytes(buf[..head]);
    }
  }

  lemma {:induction false} ClearedHasNoBytes(q: seq<Event>)
    requires forall i | 0 <= i < |q| :: q[i] == CLEARED
    ensures Bytes(q) == 0
  {
    if q != [] {
      ClearedHasNoBytes(q[1..]);
    }
  }
}
