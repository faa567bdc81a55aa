/** Folding out-of-band messages into a replayed transcript, as prepareTurn of cmd/agent/loop.go and
    cmd/agent/session_context.go do: which durable messages reach the model's context, and how often.
 */
module TranscriptFold {

  datatype Role = User | Assistant | System

  /** Who wrote a durable message: somebody else, the loop as the reply of a pass, or the loop as the
      continuation nudge of the next pass. */
  datatype Origin = Outside | Reply(pass: nat) | Nudge

  datatype Message = Message(id: nat, role: Role, origin: Origin)

  /** What the context holds: the fallback that it started with, made from the messages then read except
      for one, a folded message, a pass's opening message, and what a pass generated. */
  datatype Item = Tail(of: seq<Message>, except: nat) | Fold(id: nat) | Opening(id: nat) | Generated(pass: nat)

  /** transcriptState and the loop's flag that the history was loaded once. */
  datatype Memory = Memory(items: seq<Item>, seen: nat, floor: nat, selfAssistant: nat, historyLoaded: bool)

  // ---- Reading and folding ------------------------------------------------------------------------

  /** GetMessagesSince. */
  function Since(durable: seq<Message>, id: nat): seq<Message> {
    if durable == [] then []
    else Since(durable[..|durable| - 1], id) + if durable[|durable| - 1].id > id then [durable[|durable| - 1]] else []
  }

  predicate Folds(m: Message, seen: nat, skip: set<nat>) {
    m.id > seen && m.role != User && m.id !in skip
  }

  function FoldItems(messages: seq<Message>, seen: nat, skip: set<nat>): seq<Item> {
    if messages == [] then []
    else
      FoldItems(messages[..|messages| - 1], seen, skip)
      + if Folds(messages[|messages| - 1], seen, skip) then [Fold(messages[|messages| - 1].id)] else []
  }

  function MaxSeen(current: nat, messages: seq<Message>): nat {
    if messages == [] then current
    else
      var before := MaxSeen(current, messages[..|messages| - 1]);
      if messages[|messages| - 1].id > before then messages[|messages| - 1].id else before
  }

  function ReadFrom(t: Memory, floor: nat): nat {
    if t.historyLoaded && t.items != [] && floor == t.floor && t.seen > floor then t.seen else floor
  }

  /** loadTurnMessages; a failed read yields nothing. */
  function Loaded(t: Memory, durable: seq<Message>, floor: nat, readable: bool): seq<Message> {
    if readable then Since(durable, ReadFrom(t, floor)) else []
  }

  /** A pass's preparation up to the new watermark. */
  function Prepared(t: Memory, messages: seq<Message>, floor: nat, prompt: nat): Memory {
    var kept := if floor != t.floor then [] else t.items;
    var folded := if kept != [] then kept + FoldItems(messages, t.seen, {t.selfAssistant, prompt}) else kept;
    t.(items := folded, floor := floor, seen := MaxSeen(t.seen, messages))
  }

  /** buildTurnInput: the transcript, or the fallback if there is none. */
  function Input(t: Memory, messages: seq<Message>, prompt: nat): seq<Item> {
    if t.items != [] then t.items else [Tail(messages, prompt)]
  }

  method OutOfBandItems(messages: seq<Message>, seen: nat, skip: set<nat>) returns (items: seq<Item>)
    ensures items == FoldItems(messages, seen, skip)
  {
    items := [];
    for i := 0 to |messages|
      invariant items == FoldItems(messages[..i], seen, skip)
    {
      assert messages[..i + 1][..i] == messages[..i];
      var msg := messages[i];
      if !(msg.id <= seen || msg.role == User || msg.id in skip) {
        items := items + [Fold(msg.id)];
      }
    }
    assert messages[..|messages|] == messages;
  }

  method MaxSeenMessageID(current: nat, messages: seq<Message>) returns (seen: nat)
    ensures seen == MaxSeen(current, messages)
  {
    seen := current;
    for i := 0 to |messages|
      invariant seen == MaxSeen(current, messages[..i])
    {
      assert messages[..i + 1][..i] == messages[..i];
      if messages[i].id > seen {
        seen := messages[i].id;
      }
    }
    assert messages[..|messages|] == messages;
  }

  class ChatRuntime {
    var items: seq<Item>
    var seen: nat
    var floor: nat
    var selfAssistant: nat
    var historyLoaded: bool

    ghost function Now(): Memory
      reads this
    {
      Memory(items, seen, floor, selfAssistant, historyLoaded)
    }

    constructor (t: Memory)
      ensures Now() == t
    {
      items, seen, floor, selfAssistant, historyLoaded := t.items, t.seen, t.floor, t.selfAssistant, t.historyLoaded;
    }

    method LoadTurnMessages(durable: seq<Message>, newFloor: nat, readable: bool) returns (messages: seq<Message>)
      modifies this`historyLoaded
      ensures messages == Loaded(old(Now()), durable, newFloor, readable)
      ensures historyLoaded == (old(historyLoaded) || readable)
    {
      var since := newFloor;
      if historyLoaded && items != [] && newFloor == floor && seen > since {
        since := seen;
      }
      if !readable {
        return [];
      }
      messages := Since(durable, since);
      historyLoaded := true;
    }

    method PrepareTurn(durable: seq<Message>, newFloor: nat, readable: bool, prompt: nat) returns (input: seq<Item>)
      modifies this
      ensures Now() == Prepared(old(Now()).(historyLoaded := old(historyLoaded) || readable),
                                Loaded(old(Now()), durable, newFloor, readable), newFloor, prompt)
      ensures input == Input(Now(), Loaded(old(Now()), durable, newFloor, readable), prompt)
    {
      var messages := LoadTurnMessages(durable, newFloor, readable);
      if newFloor != floor {
        items := [];
        floor := newFloor;
      }
      if items != [] {
        var folded := OutOfBandItems(messages, seen, {selfAssistant, prompt});
        items := items + folded;
      }
      seen := MaxSeenMessageID(seen, messages);
      input := if items != [] then items else [Tail(messages, prompt)];
    }
  }

  // ---- Reading only what is new -------------------------------------------------------------------

  lemma {:induction false} SinceMembers(durable: seq<Message>, id: nat)
    ensures forall m :: m in Since(durable, id) <==> m in durable && m.id > id
  {
    if durable != [] {
      SinceMembers(durable[..|durable| - 1], id);
      assert durable == durable[..|durable| - 1] + [durable[|durable| - 1]];
    }
  }

  lemma {:induction false} FoldAppend(messages: seq<Message>, m: Message, seen: nat, skip: set<nat>)
    ensures FoldItems(messages + [m], seen, skip)
            == FoldItems(messages, seen, skip) + if Folds(m, seen, skip) then [Fold(m.id)] else []
    ensures MaxSeen(seen, messages + [m]) == if m.id > MaxSeen(seen, messages) then m.id else MaxSeen(seen, messages)
  {
    assert (messages + [m])[..|messages|] == messages;
  }

  lemma {:induction false} MaxSeenGrows(current: nat, messages: seq<Message>)
    ensures MaxSeen(current, messages) >= current
    ensures forall m | m in messages :: MaxSeen(current, messages) >= m.id
    ensures MaxSeen(current, messages) == current || exists m :: m in messages && m.id == MaxSeen(current, messages)
  {
    if messages != [] {
      MaxSeenGrows(current, messages[..|messages| - 1]);
      assert messages == messages[..|messages| - 1] + [messages[|messages| - 1]];
    }
  }

  lemma SinceNext(durable: seq<Message>, m: Message, id: nat)
    ensures Since(durable + [m], id) == Since(durable, id) + if m.id > id then [m] else []
  {
    assert (durable + [m])[..|durable|] == durable;
  }

  /** Reading only above the watermark folds the same items and moves the watermark to the same place
      as reading everything above the floor. */
  lemma {:induction false} IncrementalReadIsEnough(durable: seq<Message>, floor: nat, seen: nat, skip: set<nat>)
    requires floor <= seen
    ensures FoldItems(Since(durable, seen), seen, skip) == FoldItems(Since(durable, floor), seen, skip)
    ensures MaxSeen(seen, Since(durable, seen)) == MaxSeen(seen, Since(durable, floor))
  {
    hide FoldItems, MaxSeen, Since;
    if durable == [] {
      NothingSince(floor);
      NothingSince(seen);
    } else {
      var init, last := durable[..|durable| - 1], durable[|durable| - 1];
      assert durable == init + [last];
      IncrementalReadIsEnough(init, floor, seen, skip);
      SinceNext(init, last, seen);
      SinceNext(init, last, floor);
      FoldAppend(Since(init, seen), last, seen, skip);
      FoldAppend(Since(init, floor), last, seen, skip);
      MaxSeenGrows(seen, Since(init, floor));
      assert Since(init, seen) + [] == Since(init, seen) && Since(init, floor) + [] == Since(init, floor);
      assert forall items: seq<Item> :: items + [] == items;
    }
  }

  lemma NothingSince(id: nat)
    ensures Since([], id) == []
  {
  }
}
