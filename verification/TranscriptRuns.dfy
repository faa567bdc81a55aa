/** Every run of the passes of a session over its transcript, as cmd/agent/loop.go makes them: how often
    a durable message is in the model's context, whatever fails and however often the context is
    cleared.
 */
module TranscriptRuns {
  import opened TranscriptFold

  // ---- Runs ---------------------------------------------------------------------------------------

  /** A session. `floor` is the history floor of its working state; `opening` is the durable message
      whose text opens the next pass and `prompt` the one that the loop knows to be that message, 0 if
      none; `passes` counts passes begun, and `running` says that the last of them is under way. History
      of the transcript: `begun` is the pass it started with, `whole` says that this pass could read,
      and `start` is where it had read up to; `orphaned` are the messages that were unread when the loop
      stopped skipping them, or that it never knew to skip; `openers` those that opened a pass that was
      kept or still runs, and `abandoned` those that opened one that was given up. */
  datatype Session = Session(
    t: Memory, durable: seq<Message>, floor: nat, prompt: nat, opening: nat, passes: nat, running: bool,
    begun: nat, whole: bool, start: nat, orphaned: set<nat>, openers: set<nat>, abandoned: set<nat>)

  /** How an append ends: done, failed without effect, or done with the answer lost. */
  datatype Fate = Done | Refused | Lost

  datatype Action =
    | Append(role: Role, gap: nat)
    | Prepare(readable: bool)
    | Finish
    | Abandon(kept: bool)
    | Interrupt
    | CommitReply(gap: nat)
    | CommitNudge(gap: nat, fate: Fate)
    | NextUserTurn(prompt: nat)
    | ResetWindow(floor: nat)

  function LastID(durable: seq<Message>): nat {
    if durable == [] then 0 else durable[|durable| - 1].id
  }

  function NewID(s: Session, gap: nat): nat {
    (if LastID(s.durable) > s.t.seen then LastID(s.durable) else s.t.seen) + 1 + gap
  }

  /** The message stops being skipped. */
  function Dropped(s: Session, id: nat): set<nat> {
    if id > s.t.seen then s.orphaned + {id} else s.orphaned
  }

  function Opener(s: Session): set<nat> {
    if s.opening != 0 then {s.opening} else {}
  }

  /** A transcript that is empty, or was cleared because the floor has moved, starts over. */
  function AfterPrepare(s: Session, readable: bool): Session {
    if s.running then s
    else
      var messages := Loaded(s.t, s.durable, s.floor, readable);
      var t := Prepared(s.t.(historyLoaded := s.t.historyLoaded || readable), messages, s.floor, s.prompt);
      var input := Input(t, messages, s.prompt) + if s.opening != 0 then [Opening(s.opening)] else [];
      var prepared := s.(t := t.(items := input), passes := s.passes + 1, running := true);
      if t.items != [] then prepared.(openers := s.openers + Opener(s))
      else prepared.(begun := s.passes + 1, whole := readable, start := if t.seen > t.floor then t.seen else t.floor,
                     openers := Opener(s), abandoned := {})
  }

  /** The run only appends to its input. */
  function AfterFinish(s: Session): Session {
    if !s.running then s
    else
      s.(t := s.t.(items := s.t.items + [Generated(s.passes)]), running := false,
         prompt := 0, opening := 0, orphaned := DroppedPrompt(s))
  }

  function DroppedPrompt(s: Session): set<nat> {
    if s.prompt != 0 then Dropped(s, s.prompt) else s.orphaned
  }

  /** The transcript is empty, so that the next pass starts over. */
  function Cleared(s: Session): Session {
    s.(t := s.t.(items := []), running := false, prompt := 0, opening := 0, orphaned := DroppedPrompt(s),
       begun := s.passes + 1, start := if s.t.seen > s.t.floor then s.t.seen else s.t.floor,
       openers := {}, abandoned := {})
  }

  /** A pass that ends with an open tool approval resets the transcript. */
  function AfterInterrupt(s: Session): Session {
    if s.running then Cleared(s) else s
  }

  /** What a pass that generated nothing leaves of its input: the opening message stays if it failed and
      goes if it was stopped. */
  function LeftOver(s: Session, kept: bool): seq<Item> {
    if !kept && s.opening != 0 && s.t.items != [] then s.t.items[..|s.t.items| - 1] else s.t.items
  }

  /** The pass that starts a transcript leaves none. */
  function AfterAbandon(s: Session, kept: bool): Session {
    if !s.running || s.passes == 0 then s
    else if s.passes == s.begun then Cleared(s)
    else
      var given := if kept then {} else Opener(s);
      s.(t := s.t.(items := LeftOver(s, kept)), passes := s.passes - 1, running := false, prompt := 0, opening := 0,
         orphaned := DroppedPrompt(s), openers := s.openers - given, abandoned := s.abandoned + given)
  }

  /** The durable copy of the pass's reply, once per pass. */
  function AfterReply(s: Session, gap: nat): Session {
    if s.running || s.passes == 0 || (exists m :: m in s.durable && m.origin == Reply(s.passes)) then s
    else
      var id := NewID(s, gap);
      s.(durable := s.durable + [Message(id, Assistant, Reply(s.passes))], t := s.t.(selfAssistant := id),
         orphaned := if s.t.selfAssistant != 0 then Dropped(s, s.t.selfAssistant) else s.orphaned)
  }

  /** The continuation nudge opens the next pass in any case; it is skipped only if its ID is known. */
  function AfterNudge(s: Session, gap: nat, fate: Fate): Session {
    if s.running || s.prompt != 0 || s.opening != 0 || fate.Refused? then s
    else
      var id := NewID(s, gap);
      s.(durable := s.durable + [Message(id, System, Nudge)], opening := id,
         prompt := if fate.Done? then id else 0, orphaned := if fate.Done? then s.orphaned else s.orphaned + {id})
  }

  /** A user message drives the next pass, in place of whatever was to open it: as the next turn or by
      steering. A resumed turn (0) has no message of its own. */
  function AfterUserTurn(s: Session, prompt: nat): Session {
    if s.running || (prompt != 0 && !(exists m :: m in s.durable && m.id == prompt && m.role == User)) then s
    else
      s.(prompt := prompt, opening := prompt,
         orphaned := if prompt == s.prompt then s.orphaned else DroppedPrompt(s))
  }

  /** Clearing the context moves the floor to a message that was the last when the clearing began; of two
      clearings the one that ends later wins. */
  function AfterReset(s: Session, floor: nat): Session {
    if floor <= LastID(s.durable) then s.(floor := floor) else s
  }

  function Step(s: Session, a: Action): Session {
    match a
    case Append(role, gap) => s.(durable := s.durable + [Message(NewID(s, gap), role, Outside)])
    case Prepare(readable) => AfterPrepare(s, readable)
    case Finish => AfterFinish(s)
    case Abandon(kept) => AfterAbandon(s, kept)
    case Interrupt => AfterInterrupt(s)
    case CommitReply(gap) => AfterReply(s, gap)
    case CommitNudge(gap, fate) => AfterNudge(s, gap, fate)
    case NextUserTurn(prompt) => AfterUserTurn(s, prompt)
    case ResetWindow(floor) => AfterReset(s, floor)
  }

  function Run(s: Session, actions: seq<Action>): Session {
    if actions == [] then s else Step(Run(s, actions[..|actions| - 1]), actions[|actions| - 1])
  }

  // ---- How often a message is in the context ------------------------------------------------------

  ghost predicate Increasing(durable: seq<Message>) {
    && (forall i | 0 <= i < |durable| :: durable[i].id > 0)
    && (forall i, j | 0 <= i < j < |durable| :: durable[i].id < durable[j].id)
  }

  lemma SameID(durable: seq<Message>, m: Message, n: Message)
    requires Increasing(durable) && m in durable && n in durable && m.id == n.id
    ensures m == n
  {
  }

  lemma IncreasingNext(messages: seq<Message>, m: Message)
    requires Increasing(messages) && m.id > 0 && forall n | n in messages :: n.id < m.id
    ensures Increasing(messages + [m])
  {
  }

  lemma {:induction false} SinceIncreasing(durable: seq<Message>, id: nat)
    requires Increasing(durable)
    ensures Increasing(Since(durable, id))
    ensures forall m :: m in Since(durable, id) <==> m in durable && m.id > id
  {
    hide Increasing;
    SinceMembers(durable, id);
    if durable == [] {
      NothingSince(id);
    } else {
      var init, last := durable[..|durable| - 1], durable[|durable| - 1];
      assert durable == init + [last];
      IncreasingInit(init, last);
      SinceIncreasing(init, id);
      SinceNext(init, last, id);
      if last.id > id {
        IncreasingNext(Since(init, id), last);
      } else {
        assert Since(init, id) + [] == Since(init, id);
      }
    }
  }

  lemma {:induction false} FoldedItems(messages: seq<Message>, seen: nat, skip: set<nat>)
    ensures forall item | item in FoldItems(messages, seen, skip) ::
              item.Fold? && exists n :: n in messages && n.id == item.id && Folds(n, seen, skip)
  {
    if messages != [] {
      FoldedItems(messages[..|messages| - 1], seen, skip);
      assert messages == messages[..|messages| - 1] + [messages[|messages| - 1]];
    }
  }

  lemma FoldedNever(messages: seq<Message>, seen: nat, skip: set<nat>, id: nat)
    requires forall n | n in messages :: n.id != id
    ensures Folded(FoldItems(messages, seen, skip), id) == 0
  {
    FoldedItems(messages, seen, skip);
    CountAppend([], FoldItems(messages, seen, skip), Fold(id));
  }

  lemma IncreasingInit(init: seq<Message>, last: Message)
    requires Increasing(init + [last])
    ensures Increasing(init) && forall n | n in init :: n.id < last.id
  {
    var all := init + [last];
    assert forall i | 0 <= i < |init| :: init[i] == all[i];
    assert all[|init|] == last;
  }

  lemma {:induction false} FoldedOnce(messages: seq<Message>, seen: nat, skip: set<nat>, m: Message)
    requires Increasing(messages) && m in messages
    ensures Folded(FoldItems(messages, seen, skip), m.id) == if Folds(m, seen, skip) then 1 else 0
  {
    hide Folds, FoldItems, Increasing;
    var init, last := messages[..|messages| - 1], messages[|messages| - 1];
    assert messages == init + [last];
    IncreasingInit(init, last);
    FoldAppend(init, last, seen, skip);
    var before := FoldItems(init, seen, skip);
    CountOne(before, Fold(last.id), Fold(m.id));
    assert before + [] == before;
    if m == last {
      FoldedNever(init, seen, skip, m.id);
    } else {
      FoldedOnce(init, seen, skip, m);
    }
  }

  /** What a pass folds of a durable message. */
  lemma ReadFolds(durable: seq<Message>, since: nat, seen: nat, skip: set<nat>, m: Message)
    requires Increasing(durable) && m in durable
    ensures Folded(FoldItems(Since(durable, since), seen, skip), m.id)
            == if Folds(m, seen, skip) && m.id > since then 1 else 0
  {
    hide FoldItems;
    SinceIncreasing(durable, since);
    if m.id > since {
      FoldedOnce(Since(durable, since), seen, skip, m);
    } else {
      FoldedNever(Since(durable, since), seen, skip, m.id);
    }
  }

  lemma {:induction false} WatermarkReaches(durable: seq<Message>, since: nat, seen: nat)
    requires Increasing(durable)
    ensures MaxSeen(seen, Since(durable, since))
            == if LastID(durable) > seen && LastID(durable) > since then LastID(durable) else seen
  {
    if durable != [] {
      var init, last := durable[..|durable| - 1], durable[|durable| - 1];
      assert forall i | 0 <= i < |init| :: init[i] == durable[i];
      WatermarkReaches(init, since, seen);
      FoldAppend(Since(init, since), last, seen, {});
      assert Since(init, since) + [] == Since(init, since);
    }
  }

  function Folded(items: seq<Item>, id: nat): nat {
    multiset(items)[Fold(id)]
  }

  function Opened(items: seq<Item>, id: nat): nat {
    multiset(items)[Opening(id)]
  }

  function GeneratedBy(items: seq<Item>, pass: nat): nat {
    multiset(items)[Generated(pass)]
  }

  /** How often a message is in the context: folded, as the opening of a pass, or as what the pass
      generated that it is the durable copy of. */
  function Occurrences(items: seq<Item>, m: Message): nat {
    Folded(items, m.id) + Opened(items, m.id) + if m.origin.Reply? then GeneratedBy(items, m.origin.pass) else 0
  }

  /** Each pass of the transcript generated once, as soon as it is over, and no other pass did. */
  ghost predicate Passes(items: seq<Item>, begun: nat, passes: nat, running: bool) {
    && 1 <= begun <= passes + 1 && (running ==> begun <= passes)
    && (forall p | begun <= p < passes :: GeneratedBy(items, p) == 1)
    && (begun <= passes ==> GeneratedBy(items, passes) == (if running then 0 else 1))
    && (forall p: nat | p < begun || p > passes :: GeneratedBy(items, p) == 0)
  }

  /** The context folds only messages from above its start, once the watermark passed them, and opens
      only with messages that exist. */
  ghost predicate Mentions(items: seq<Item>, start: nat, seen: nat, durable: seq<Message>) {
    && (forall id: nat | Folded(items, id) > 0 :: start < id <= seen)
    && (forall id: nat | Opened(items, id) > 0 :: id <= LastID(durable))
  }

  /** The fallback was made from all that lies between the floor and the start, or from nothing. */
  ghost predicate Fallback(items: seq<Item>, whole: bool, floor: nat, start: nat, durable: seq<Message>) {
    items != [] ==>
      items[0].Tail? && forall m :: m in items[0].of <==> whole && m in durable && floor < m.id <= start
  }

  /** What is known of one message above the transcript's start. */
  ghost predicate Tracked(s: Session, m: Message) {
    var extra := if m.id in s.orphaned && m.id <= s.t.seen then 1 else 0;
    match m.origin
    case Outside =>
      if m.role == User then Folded(s.t.items, m.id) == 0
      else
        && Folded(s.t.items, m.id) == (if m.id <= s.t.seen then 1 else 0) && Opened(s.t.items, m.id) == 0
        && m.id != s.t.selfAssistant && m.id != s.prompt && m.id != s.opening && m.id !in s.abandoned
    case Reply(p) =>
      && m.role != User && 1 <= p <= s.passes && (p == s.passes ==> !s.running)
      && Folded(s.t.items, m.id) == extra && Opened(s.t.items, m.id) == 0
      && m.id != s.prompt && m.id != s.opening && m.id !in s.openers && m.id !in s.abandoned
      && (m.id > s.t.seen ==> m.id == s.t.selfAssistant || m.id in s.orphaned)
      && (m.id == s.t.selfAssistant ==> m.id !in s.orphaned)
    case Nudge =>
      && m.role != User
      && Folded(s.t.items, m.id) == extra && m.id != s.t.selfAssistant
      && Opened(s.t.items, m.id) == (if m.id in s.openers then 1 else 0)
      && (m.id > s.t.seen ==> m.id == s.prompt || m.id in s.orphaned)
      && (m.id == s.prompt ==> m.id == s.opening && m.id !in s.orphaned)
      && (m.id == s.opening && !s.running ==> m.id > s.t.seen && m.id !in s.openers)
      && (m.id == s.opening && s.running ==> m.id in s.openers)
      && (m.id in s.abandoned ==> m.id !in s.openers && m.id != s.opening)
      && (m.id in s.orphaned || m.id in s.openers || m.id in s.abandoned || m.id == s.prompt)
  }

  ghost predicate Shape(s: Session) {
    && Increasing(s.durable) && s.begun <= s.passes + 1
    && (s.t.items == [] <==> s.passes + 1 == s.begun) && (s.running ==> s.t.items != [])
    && s.floor < NewID(s, 0) && s.t.floor < NewID(s, 0)
    && s.t.floor <= s.start && (s.start <= s.t.seen || s.start == s.t.floor)
    && s.prompt <= LastID(s.durable) && s.opening <= LastID(s.durable) && s.t.selfAssistant < NewID(s, 0)
    && (forall id | id in s.orphaned || id in s.openers || id in s.abandoned :: 0 < id <= LastID(s.durable))
    && (s.running && s.opening != 0 ==> |s.t.items| > 1 && s.t.items[|s.t.items| - 1] == Opening(s.opening))
    && (s.passes < s.begun || (s.passes == s.begun && s.running) ==> s.t.seen <= s.start)
  }

  /** The message is unread, or above the start. */
  predicate Concerns(s: Session, m: Message) {
    m in s.durable && (m.id > s.start || m.id > s.t.seen)
  }

  ghost predicate Inv(s: Session) {
    && Shape(s)
    && Passes(s.t.items, s.begun, s.passes, s.running)
    && Mentions(s.t.items, s.start, s.t.seen, s.durable)
    && Fallback(s.t.items, s.whole, s.t.floor, s.start, s.durable)
    && forall m | Concerns(s, m) :: Tracked(s, m)
  }

  // ---- Preparing a pass ---------------------------------------------------------------------------

  predicate Live(s: Session) {
    s.t.items != [] && s.floor == s.t.floor
  }

  /** Everything a preparation adds to a live transcript. */
  function Additions(s: Session, readable: bool): seq<Item> {
    FoldItems(Loaded(s.t, s.durable, s.floor, readable), s.t.seen, {s.t.selfAssistant, s.prompt})
    + if s.opening != 0 then [Opening(s.opening)] else []
  }

  function Reached(s: Session, readable: bool): nat {
    if readable && LastID(s.durable) > s.t.seen && LastID(s.durable) > s.floor then LastID(s.durable) else s.t.seen
  }

  lemma PreparedIs(s: Session, readable: bool)
    requires Shape(s) && !s.running && Live(s)
    ensures var s' := AfterPrepare(s, readable);
            && s'.t.items == s.t.items + Additions(s, readable) && s'.t.seen == Reached(s, readable)
            && s' == s.(t := s.t.(items := s'.t.items, seen := s'.t.seen,
                                  historyLoaded := s.t.historyLoaded || readable),
                        openers := s.openers + Opener(s), running := true, passes := s.passes + 1)
  {
    hide FoldItems;
    if readable {
      WatermarkReaches(s.durable, ReadFrom(s.t, s.floor), s.t.seen);
    }
  }

  /** A transcript that starts over holds the fallback and the opening message, and nothing else. */
  lemma StartsOver(s: Session, readable: bool)
    requires Increasing(s.durable) && !s.running && !Live(s)
    ensures var s' := AfterPrepare(s, readable);
            && s'.t.items == [Tail(if readable then Since(s.durable, s.floor) else [], s.prompt)]
                             + (if s.opening != 0 then [Opening(s.opening)] else [])
            && s'.t.seen == Reached(s, readable) && s'.t.floor == s.floor
            && s'.start == (if s'.t.seen > s.floor then s'.t.seen else s.floor)
            && s' == s.(t := s.t.(items := s'.t.items, seen := s'.t.seen, floor := s.floor,
                                  historyLoaded := s.t.historyLoaded || readable),
                        passes := s.passes + 1, running := true, begun := s.passes + 1, whole := readable,
                        start := s'.start, openers := Opener(s), abandoned := {})
  {
    hide FoldItems;
    if readable {
      WatermarkReaches(s.durable, ReadFrom(s.t, s.floor), s.t.seen);
    }
  }

  lemma AdditionsAre(s: Session, readable: bool)
    requires Shape(s) && Live(s)
    ensures forall item | item in Additions(s, readable) :: item.Fold? || item == Opening(s.opening)
    ensures forall id: nat | Fold(id) in Additions(s, readable) :: s.start < id <= Reached(s, readable)
  {
    hide FoldItems, Increasing, Since, Loaded;
    var messages := Loaded(s.t, s.durable, s.floor, readable);
    FoldedItems(messages, s.t.seen, {s.t.selfAssistant, s.prompt});
    LoadedBounds(s.t, s.durable, s.floor, readable);
    BelowLast(s.durable);
  }

  lemma LoadedBounds(t: Memory, durable: seq<Message>, floor: nat, readable: bool)
    requires Increasing(durable)
    ensures forall m | m in Loaded(t, durable, floor, readable) :: readable && m in durable && m.id > floor
  {
    hide Increasing;
    SinceIncreasing(durable, ReadFrom(t, floor));
  }

  lemma BelowLast(durable: seq<Message>)
    requires Increasing(durable)
    ensures forall m | m in durable :: m.id <= LastID(durable)
  {
  }

  lemma AdditionsCount(s: Session, readable: bool, m: Message)
    requires Shape(s) && Live(s) && m in s.durable
    ensures Folded(Additions(s, readable), m.id)
            == (if readable && Folds(m, s.t.seen, {s.t.selfAssistant, s.prompt}) && m.id > s.floor then 1 else 0)
    ensures Opened(Additions(s, readable), m.id) == (if m.id == s.opening then 1 else 0)
  {
    hide FoldItems;
    var skip := {s.t.selfAssistant, s.prompt};
    if readable {
      ReadFolds(s.durable, ReadFrom(s.t, s.floor), s.t.seen, skip, m);
    } else {
      NothingFolds(s.t.seen, skip);
    }
    FoldedItems(Loaded(s.t, s.durable, s.floor, readable), s.t.seen, skip);
  }

  lemma NothingFolds(seen: nat, skip: set<nat>)
    ensures FoldItems([], seen, skip) == []
  {
  }

  lemma PrepareTracked(s: Session, readable: bool, m: Message)
    requires Shape(s) && !s.running && Live(s) && Tracked(s, m) && Concerns(AfterPrepare(s, readable), m)
    ensures Tracked(AfterPrepare(s, readable), m)
  {
    hide Additions, AfterPrepare, Increasing, Folded, Opened;
    PreparedIs(s, readable);
    PreparedCount(s, readable, m);
    BelowLast(s.durable);
  }

  lemma PreparedCount(s: Session, readable: bool, m: Message)
    requires Shape(s) && !s.running && Live(s) && m in s.durable
    ensures var items := AfterPrepare(s, readable).t.items;
            && Folded(items, m.id)
               == Folded(s.t.items, m.id)
                 + (if readable && Folds(m, s.t.seen, {s.t.selfAssistant, s.prompt}) && m.id > s.floor then 1 else 0)
            && Opened(items, m.id) == Opened(s.t.items, m.id) + (if m.id == s.opening then 1 else 0)
  {
    hide Additions, AfterPrepare;
    PreparedIs(s, readable);
    AdditionsCount(s, readable, m);
    CountAppend(s.t.items, Additions(s, readable), Fold(m.id));
    CountAppend(s.t.items, Additions(s, readable), Opening(m.id));
  }

  lemma CountAppend(a: seq<Item>, b: seq<Item>, item: Item)
    ensures multiset(a + b)[item] == multiset(a)[item] + multiset(b)[item]
    ensures item !in b ==> multiset(b)[item] == 0
  {
  }

  lemma CountOne(a: seq<Item>, item: Item, other: Item)
    ensures multiset(a + [item])[other] == multiset(a)[other] + if other == item then 1 else 0
  {
    assert multiset(a + [item]) == multiset(a) + multiset{item};
  }

  lemma PrepareMentions(s: Session, readable: bool)
    requires Shape(s) && !s.running && Live(s) && Mentions(s.t.items, s.start, s.t.seen, s.durable)
    ensures var s' := AfterPrepare(s, readable); Mentions(s'.t.items, s.start, s'.t.seen, s.durable)
  {
    hide Additions, AfterPrepare;
    PreparedIs(s, readable);
    AdditionsAre(s, readable);
    var s' := AfterPrepare(s, readable);
    forall id: nat | Folded(s'.t.items, id) > 0 ensures s.start < id <= s'.t.seen {
      CountAppend(s.t.items, Additions(s, readable), Fold(id));
      assert Folded(s.t.items, id) > 0 || Fold(id) in Additions(s, readable);
    }
    forall id: nat | Opened(s'.t.items, id) > 0 ensures id <= LastID(s.durable) {
      CountAppend(s.t.items, Additions(s, readable), Opening(id));
      assert Opened(s.t.items, id) > 0 || Opening(id) in Additions(s, readable);
    }
  }

  lemma PreparePasses(s: Session, readable: bool)
    requires Shape(s) && !s.running && Live(s) && Passes(s.t.items, s.begun, s.passes, s.running)
    ensures Passes(AfterPrepare(s, readable).t.items, s.begun, s.passes + 1, true)
  {
    hide Additions, AfterPrepare;
    PreparedIs(s, readable);
    AdditionsAre(s, readable);
    var items := AfterPrepare(s, readable).t.items;
    forall p: nat ensures GeneratedBy(items, p) == GeneratedBy(s.t.items, p) {
      CountAppend(s.t.items, Additions(s, readable), Generated(p));
    }
  }

  lemma LiveShape(s: Session, readable: bool)
    requires Shape(s) && !s.running && Live(s)
    ensures Shape(AfterPrepare(s, readable)) && AfterPrepare(s, readable).t.items[0] == s.t.items[0]
  {
    hide AfterPrepare, Increasing;
    PreparedIs(s, readable);
  }

  lemma LiveInv(s: Session, readable: bool)
    requires Inv(s) && !s.running && Live(s)
    ensures Inv(AfterPrepare(s, readable))
  {
    hide Additions, Tracked, Mentions, Passes, AfterPrepare, Shape;
    var s' := AfterPrepare(s, readable);
    PreparedIs(s, readable);
    LiveShape(s, readable);
    PrepareMentions(s, readable);
    PreparePasses(s, readable);
    forall m | Concerns(s', m) ensures Tracked(s', m) {
      PrepareTracked(s, readable, m);
    }
  }

  lemma StartCounts(tail: Item, opening: nat, item: Item)
    requires tail.Tail?
    ensures var items := [tail] + if opening != 0 then [Opening(opening)] else [];
            multiset(items)[item] == (if item == tail then 1 else 0)
                                     + if opening != 0 && item == Opening(opening) then 1 else 0
  {
    var rest := if opening != 0 then [Opening(opening)] else [];
    CountAppend([tail], rest, item);
  }

  lemma StartsOverCounts(s: Session, readable: bool)
    requires Increasing(s.durable) && !s.running && !Live(s)
    ensures var items := AfterPrepare(s, readable).t.items;
            && (forall id: nat :: Folded(items, id) == 0)
            && (forall id: nat :: Opened(items, id) == if s.opening != 0 && id == s.opening then 1 else 0)
            && (forall p: nat :: GeneratedBy(items, p) == 0)
  {
    hide AfterPrepare;
    StartsOver(s, readable);
    var tail := Tail(if readable then Since(s.durable, s.floor) else [], s.prompt);
    forall id: nat { StartCounts(tail, s.opening, Fold(id)); }
    forall id: nat { StartCounts(tail, s.opening, Opening(id)); }
    forall p: nat { StartCounts(tail, s.opening, Generated(p)); }
  }

  lemma StartsOverTracked(s: Session, readable: bool, m: Message)
    requires Shape(s) && !s.running && !Live(s) && m in s.durable && Tracked(s, m)
    requires Concerns(AfterPrepare(s, readable), m)
    ensures Tracked(AfterPrepare(s, readable), m)
  {
    hide AfterPrepare, Increasing, Folded, Opened;
    StartsOver(s, readable);
    StartsOverCounts(s, readable);
  }

  lemma StartsOverFallback(s: Session, readable: bool)
    requires Increasing(s.durable) && !s.running && !Live(s)
    ensures var s' := AfterPrepare(s, readable);
            Fallback(s'.t.items, s'.whole, s'.t.floor, s'.start, s'.durable)
  {
    hide AfterPrepare, Increasing;
    StartsOver(s, readable);
    SinceMembers(s.durable, s.floor);
    BelowLast(s.durable);
  }

  lemma StartsOverShape(s: Session, readable: bool)
    requires Shape(s) && !s.running && !Live(s)
    ensures Shape(AfterPrepare(s, readable))
  {
    hide AfterPrepare, Increasing;
    StartsOver(s, readable);
  }

  lemma StartsOverInv(s: Session, readable: bool)
    requires Inv(s) && !s.running && !Live(s)
    ensures Inv(AfterPrepare(s, readable))
  {
    hide Tracked, Increasing, AfterPrepare;
    var s' := AfterPrepare(s, readable);
    StartsOver(s, readable);
    StartsOverShape(s, readable);
    StartsOverCounts(s, readable);
    StartsOverFallback(s, readable);
    forall m | Concerns(s', m) ensures Tracked(s', m) {
      StartsOverTracked(s, readable, m);
    }
  }

  lemma PrepareInv(s: Session, readable: bool)
    requires Inv(s)
    ensures Inv(AfterPrepare(s, readable))
  {
    hide Inv;
    if s.running {
      StillRunning(s, readable);
    } else if Live(s) {
      LiveInv(s, readable);
    } else {
      StartsOverInv(s, readable);
    }
  }

  lemma StillRunning(s: Session, readable: bool)
    requires s.running
    ensures AfterPrepare(s, readable) == s
  {
  }

  // ---- The other steps ----------------------------------------------------------------------------

  lemma AppendedLast(durable: seq<Message>, m: Message)
    requires Increasing(durable) && m.id > LastID(durable)
    ensures Increasing(durable + [m]) && LastID(durable + [m]) == m.id
    ensures forall n | n in durable :: n.id < m.id
  {
    BelowLast(durable);
  }

  lemma GrownFrame(s: Session, m: Message)
    requires Increasing(s.durable) && m.id > s.start && m.id > LastID(s.durable)
    requires Mentions(s.t.items, s.start, s.t.seen, s.durable)
    requires Fallback(s.t.items, s.whole, s.t.floor, s.start, s.durable)
    ensures Mentions(s.t.items, s.start, s.t.seen, s.durable + [m])
    ensures Fallback(s.t.items, s.whole, s.t.floor, s.start, s.durable + [m])
  {
    AppendedLast(s.durable, m);
  }

  lemma AppendInv(s: Session, role: Role, gap: nat)
    requires Inv(s)
    ensures Inv(Step(s, Append(role, gap)))
  {
    hide Passes, Mentions, Fallback, Tracked;
    var m := Message(NewID(s, gap), role, Outside);
    var s' := Step(s, Append(role, gap));
    AppendedLast(s.durable, m);
    GrownFrame(s, m);
    forall n | Concerns(s', n) ensures Tracked(s', n) {
      if n == m {
        NewOutsideTracked(s, role, gap);
      } else {
        StillTracked(s, role, gap, n);
      }
    }
  }

  lemma StillTracked(s: Session, role: Role, gap: nat, n: Message)
    requires Tracked(s, n)
    ensures Tracked(Step(s, Append(role, gap)), n)
  {
    hide Folded, Opened;
  }

  lemma NewOutsideTracked(s: Session, role: Role, gap: nat)
    requires Shape(s) && Mentions(s.t.items, s.start, s.t.seen, s.durable)
    ensures Tracked(Step(s, Append(role, gap)), Message(NewID(s, gap), role, Outside))
  {
    hide Folded, Opened;
    var id := NewID(s, gap);
    assert Folded(s.t.items, id) == 0 && Opened(s.t.items, id) == 0;
  }

  lemma FinishTracked(s: Session, m: Message)
    requires Shape(s) && s.running && m in s.durable && Tracked(s, m)
    ensures Tracked(AfterFinish(s), m)
  {
    assert multiset(AfterFinish(s).t.items) == multiset(s.t.items) + multiset{Generated(s.passes)};
  }

  lemma FinishPasses(items: seq<Item>, begun: nat, passes: nat)
    requires Passes(items, begun, passes, true)
    ensures Passes(items + [Generated(passes)], begun, passes, false)
  {
    forall p: nat
      ensures GeneratedBy(items + [Generated(passes)], p) == GeneratedBy(items, p) + if p == passes then 1 else 0
    {
      CountOne(items, Generated(passes), Generated(p));
    }
  }

  lemma FinishMentions(s: Session)
    requires Mentions(s.t.items, s.start, s.t.seen, s.durable)
    ensures Mentions(s.t.items + [Generated(s.passes)], s.start, s.t.seen, s.durable)
  {
    forall id: nat
      ensures Folded(s.t.items + [Generated(s.passes)], id) == Folded(s.t.items, id)
      ensures Opened(s.t.items + [Generated(s.passes)], id) == Opened(s.t.items, id)
    {
      CountOne(s.t.items, Generated(s.passes), Fold(id));
      CountOne(s.t.items, Generated(s.passes), Opening(id));
    }
  }

  lemma FinishInv(s: Session)
    requires Inv(s)
    ensures Inv(AfterFinish(s))
  {
    hide Passes, Tracked, Mentions;
    if s.running {
      var s' := AfterFinish(s);
      FinishPasses(s.t.items, s.begun, s.passes);
      FinishMentions(s);
      forall m | Concerns(s', m) ensures Tracked(s', m) {
        FinishTracked(s, m);
      }
    }
  }

  /** What is left of the transcript when a pass generated nothing. */
  lemma LeftOverIs(s: Session, kept: bool)
    requires Shape(s) && s.running && s.passes > s.begun
    ensures var items := LeftOver(s, kept);
            && items != [] && items[0] == s.t.items[0]
            && s.t.items == items + if s.opening != 0 && !kept then [Opening(s.opening)] else []
  {
    assert s.t.items + [] == s.t.items;
  }

  lemma LeftOverCounts(s: Session, kept: bool, item: Item)
    requires Shape(s) && s.running && s.passes > s.begun
    ensures multiset(s.t.items)[item]
            == multiset(LeftOver(s, kept))[item]
               + if s.opening != 0 && !kept && item == Opening(s.opening) then 1 else 0
  {
    hide LeftOver;
    LeftOverIs(s, kept);
    if s.opening != 0 && !kept {
      CountOne(LeftOver(s, kept), Opening(s.opening), item);
    }
  }

  lemma AbandonTracked(s: Session, kept: bool, m: Message)
    requires Shape(s) && s.running && s.passes > s.begun && m in s.durable && Tracked(s, m)
    requires m.origin.Reply? ==> m.origin.pass < s.passes
    ensures Tracked(AfterAbandon(s, kept), m)
  {
    hide LeftOver;
    LeftOverCounts(s, kept, Fold(m.id));
    LeftOverCounts(s, kept, Opening(m.id));
  }

  lemma AbandonLaterInv(s: Session, kept: bool)
    requires Inv(s) && s.running && s.passes > s.begun
    ensures Inv(AfterAbandon(s, kept))
  {
    hide Tracked, LeftOver;
    var s' := AfterAbandon(s, kept);
    LeftOverIs(s, kept);
    forall id: nat
      ensures Folded(s'.t.items, id) <= Folded(s.t.items, id) && Opened(s'.t.items, id) <= Opened(s.t.items, id)
    {
      LeftOverCounts(s, kept, Fold(id));
      LeftOverCounts(s, kept, Opening(id));
    }
    forall p: nat ensures GeneratedBy(s'.t.items, p) == GeneratedBy(s.t.items, p) {
      LeftOverCounts(s, kept, Generated(p));
    }
    forall m | Concerns(s', m) ensures Tracked(s', m) {
      RepliesAreOver(s, m);
      AbandonTracked(s, kept, m);
    }
  }

  lemma ClearedTracked(s: Session, m: Message)
    requires Inv(s) && s.running && Concerns(Cleared(s), m)
    ensures Tracked(Cleared(s), m)
  {
    hide Passes, Fallback;
    assert Tracked(s, m);
    assert Folded([], m.id) == 0 && Opened([], m.id) == 0;
  }

  lemma ClearedInv(s: Session)
    requires Inv(s) && s.running
    ensures Inv(Cleared(s))
  {
    hide Tracked;
    var s' := Cleared(s);
    assert forall item: Item :: multiset(s'.t.items)[item] == 0;
    forall m | Concerns(s', m) ensures Tracked(s', m) {
      ClearedTracked(s, m);
    }
  }

  lemma AbandonInv(s: Session, kept: bool)
    requires Inv(s)
    ensures Inv(AfterAbandon(s, kept)) && Inv(AfterInterrupt(s))
  {
    hide Inv, LeftOver, Cleared;
    if s.running {
      ClearedInv(s);
      RunningHasBegun(s);
      if s.passes > s.begun {
        AbandonLaterInv(s, kept);
      }
    }
  }

  lemma RunningHasBegun(s: Session)
    requires Inv(s) && s.running
    ensures s.passes >= s.begun >= 1
  {
  }

  lemma RepliesAreOver(s: Session, m: Message)
    requires s.running && Tracked(s, m)
    ensures m.origin.Reply? ==> m.origin.pass < s.passes
  {
  }

  lemma ReplyInv(s: Session, gap: nat)
    requires Inv(s)
    ensures Inv(AfterReply(s, gap))
  {
    var s' := AfterReply(s, gap);
    if s' != s {
      var m := Message(NewID(s, gap), Assistant, Reply(s.passes));
      AppendedLast(s.durable, m);
      forall n | Concerns(s', n) ensures Tracked(s', n) {
        if n != m {
          assert Tracked(s, n);
        }
      }
    }
  }

  lemma NudgeTracked(s: Session, gap: nat, fate: Fate, m: Message)
    requires Shape(s) && m in s.durable && Tracked(s, m)
    ensures Tracked(AfterNudge(s, gap, fate), m)
  {
    hide Folded, Opened;
    BelowLast(s.durable);
  }

  lemma NewNudgeTracked(s: Session, gap: nat, fate: Fate)
    requires Shape(s) && Mentions(s.t.items, s.start, s.t.seen, s.durable) && AfterNudge(s, gap, fate) != s
    ensures Tracked(AfterNudge(s, gap, fate), Message(NewID(s, gap), System, Nudge))
  {
    hide Folded, Opened;
    var id := NewID(s, gap);
    assert Folded(s.t.items, id) == 0 && Opened(s.t.items, id) == 0;
  }

  lemma NudgeInv(s: Session, gap: nat, fate: Fate)
    requires Inv(s)
    ensures Inv(AfterNudge(s, gap, fate))
  {
    hide Passes, Tracked, Folded, Opened;
    var s' := AfterNudge(s, gap, fate);
    if s' != s {
      var m := Message(NewID(s, gap), System, Nudge);
      AppendedLast(s.durable, m);
      NewNudgeTracked(s, gap, fate);
      forall n | Concerns(s', n) ensures Tracked(s', n) {
        if n != m {
          NudgeTracked(s, gap, fate, n);
        }
      }
    }
  }

  lemma UserTurnInv(s: Session, prompt: nat)
    requires Inv(s)
    ensures Inv(AfterUserTurn(s, prompt))
  {
    hide Passes, Mentions;
    var s' := AfterUserTurn(s, prompt);
    if s' != s {
      BelowLast(s.durable);
      forall n | Concerns(s', n) ensures Tracked(s', n) {
        assert Tracked(s, n);
        UserTurnTracked(s, prompt, n);
      }
    }
  }

  lemma UserTurnTracked(s: Session, prompt: nat, m: Message)
    requires Shape(s) && m in s.durable && Tracked(s, m)
    ensures Tracked(AfterUserTurn(s, prompt), m)
  {
    hide Folded, Opened;
    if m.id == prompt && exists u :: u in s.durable && u.id == prompt && u.role == User {
      var u :| u in s.durable && u.id == prompt && u.role == User;
      SameID(s.durable, m, u);
    }
  }

  lemma StepInv(s: Session, a: Action)
    requires Inv(s)
    ensures Inv(Step(s, a))
  {
    hide Inv, AfterPrepare, AfterFinish, AfterAbandon, AfterInterrupt, AfterReply, AfterNudge, AfterUserTurn,
         AfterReset;
    match a
    case Append(role, gap) => AppendInv(s, role, gap);
    case Prepare(readable) => PrepareInv(s, readable);
    case Finish => FinishInv(s);
    case Abandon(kept) => AbandonInv(s, kept);
    case Interrupt => AbandonInv(s, true);
    case CommitReply(gap) => ReplyInv(s, gap);
    case CommitNudge(gap, fate) => NudgeInv(s, gap, fate);
    case NextUserTurn(prompt) => UserTurnInv(s, prompt);
    case ResetWindow(floor) => ResetInv(s, floor);
  }

  lemma ResetInv(s: Session, floor: nat)
    requires Inv(s)
    ensures Inv(AfterReset(s, floor))
  {
    hide Passes, Mentions, Folded, Opened;
    forall m | Concerns(s, m) ensures Tracked(AfterReset(s, floor), m) {
      assert Tracked(s, m);
    }
  }

  /** The pass that starts the transcript is running; what has been written since is new, and its
      authors are of no interest before. */
  ghost predicate Begins(s: Session) {
    && (exists tail: Item :: tail.Tail? && s.t.items == [tail]) && s.passes == s.begun == 1 && s.running
    && s.prompt == 0 && s.opening == 0 && s.orphaned == {} && s.openers == {} && s.abandoned == {}
    && s.t.floor == s.floor <= s.start == s.t.seen && s.t.selfAssistant <= s.start && Increasing(s.durable)
    && Fallback(s.t.items, s.whole, s.t.floor, s.start, s.durable) && s.t.items[0].except == 0
    && forall m | m in s.durable :: m.origin.Outside?
  }

  lemma BeginsInv(s: Session)
    requires Begins(s)
    ensures Inv(s)
  {
    var tail: Item :| tail.Tail? && s.t.items == [tail];
    assert multiset([tail]) == multiset{tail};
  }

  lemma {:induction false} RunInv(s: Session, actions: seq<Action>)
    requires Begins(s)
    ensures Inv(Run(s, actions))
  {
    hide Inv, Step, Begins;
    if actions == [] {
      BeginsInv(s);
    } else {
      RunInv(s, actions[..|actions| - 1]);
      StepInv(Run(s, actions[..|actions| - 1]), actions[|actions| - 1]);
    }
  }

  // ---- Theorems -----------------------------------------------------------------------------------

  /** What a successful read returns, in order: everything above the floor, except what is not new to a
      transcript that is live, loaded once and from the same floor. */
  lemma ReadIs(t: Memory, durable: seq<Message>, floor: nat)
    requires Increasing(durable)
    ensures var messages := Loaded(t, durable, floor, true);
            && Increasing(messages)
            && forall m :: m in messages <==>
                           && m in durable && m.id > floor
                           && (t.historyLoaded && t.items != [] && floor == t.floor ==> m.id > t.seen)
  {
    hide Increasing;
    SinceIncreasing(durable, ReadFrom(t, floor));
  }

  /** Once the floor has moved, nothing of the transcript is left: the context is the fallback, made from
      all messages above the new floor if they can be read, and the opening message. */
  lemma MovedFloorClears(s: Session, readable: bool)
    requires Increasing(s.durable) && !s.running && s.floor != s.t.floor
    ensures var s' := Step(s, Prepare(readable));
            && |s'.t.items| == (if s.opening != 0 then 2 else 1) && s'.t.items[0].Tail?
            && (forall m :: m in s'.t.items[0].of <==> readable && m in s.durable && m.id > s.floor)
            && s'.t.items[0].except == s.prompt
            && (s.opening != 0 ==> s'.t.items[1] == Opening(s.opening)) && s'.t.floor == s.floor
  {
    hide AfterPrepare, Increasing;
    StartsOver(s, readable);
    SinceMembers(s.durable, s.floor);
  }

  /** In any run the fallback of the transcript is made from all messages between its floor and its
      start, or from none if the pass that started it could not read; and what is not above the start
      is never folded. So a history that could not be read then stays out of the transcript for good. */
  lemma FallbackIsAllOrNothing(s: Session, actions: seq<Action>, m: Message)
    requires Begins(s) && m in Run(s, actions).durable && Run(s, actions).t.items != []
    ensures var now := Run(s, actions);
            && now.t.items[0].Tail?
            && (m in now.t.items[0].of <==> now.whole && now.t.floor < m.id <= now.start)
            && (m.id <= now.start ==> Folded(now.t.items, m.id) == 0)
  {
    hide Begins, Run, Tracked, Passes;
    RunInv(s, actions);
  }

  /** Whatever reads fail and floors move, a message that others recorded without starting a turn enters
      the transcript exactly once: when the watermark passes it. */
  lemma OutOfBandEntersOnce(s: Session, actions: seq<Action>, m: Message)
    requires Begins(s) && m in Run(s, actions).durable && m.id > Run(s, actions).start
    requires m.origin.Outside? && m.role != User
    ensures var now := Run(s, actions); Occurrences(now.t.items, m) == if m.id <= now.t.seen then 1 else 0
  {
    RunInv(s, actions);
    assert Tracked(Run(s, actions), m);
  }

  /** A user's message is never folded, whatever happens. */
  lemma UserMessagesAreNeverFolded(s: Session, actions: seq<Action>, m: Message)
    requires Begins(s) && m in Run(s, actions).durable && m.role == User
    ensures Folded(Run(s, actions).t.items, m.id) == 0
  {
    hide Begins, Run, Passes, Fallback, Folded, Opened;
    RunInv(s, actions);
    var now := Run(s, actions);
    if Concerns(now, m) {
      assert Tracked(now, m);
    } else {
      assert Folded(now.t.items, m.id) == 0;
    }
  }

  /** The message is in the context as something else than a fold: as what a pass of the transcript
      generated, or as what opened one. */
  predicate EntersByItself(s: Session, m: Message) {
    (m.origin.Reply? && m.origin.pass >= s.begun) || m.id in s.openers
  }

  /** The message was unread when the loop stopped skipping it, or never known to be skipped, and has
      been read since. */
  predicate EntersByFold(s: Session, m: Message) {
    m.id in s.orphaned && m.id <= s.t.seen
  }

  /** Exactly how often one of the loop's own messages is in the context. So it is there twice if and
      only if it is a reply, or a nudge that opened a pass, and has been folded as well; a nudge that
      a user message replaced enters once, by the fold. */
  lemma OwnMessagesRepeatIff(s: Session, actions: seq<Action>, m: Message)
    requires Begins(s) && m in Run(s, actions).durable && m.id > Run(s, actions).start && !m.origin.Outside?
    ensures var now := Run(s, actions);
            Occurrences(now.t.items, m)
            == (if EntersByItself(now, m) then 1 else 0) + (if EntersByFold(now, m) then 1 else 0)
  {
    hide Begins, Inv, Run, Folded, Opened, GeneratedBy, Passes;
    RunInv(s, actions);
    var now := Run(s, actions);
    InvTracks(now, m);
    if m.origin.Reply? {
      GeneratedIff(now.t.items, now.begun, now.passes, now.running, m.origin.pass);
      RepliesNeverOpen(now, m);
    }
  }

  lemma InvTracks(s: Session, m: Message)
    requires Inv(s) && m in s.durable && m.id > s.start
    ensures Tracked(s, m) && Passes(s.t.items, s.begun, s.passes, s.running)
  {
    hide Tracked, Passes, Mentions, Shape, Fallback;
  }

  lemma GeneratedIff(items: seq<Item>, begun: nat, passes: nat, running: bool, p: nat)
    requires Passes(items, begun, passes, running) && p <= passes && (p == passes ==> !running)
    ensures GeneratedBy(items, p) == if p >= begun then 1 else 0
  {
  }

  lemma RepliesNeverOpen(s: Session, m: Message)
    requires Tracked(s, m) && m.origin.Reply?
    ensures m.id !in s.openers
  {
  }

  /** How often a message is in the context, the fallback included. */
  function InContext(items: seq<Item>, m: Message): nat {
    Occurrences(items, m)
    + if items != [] && items[0].Tail? && m in items[0].of && m.id != items[0].except then 1 else 0
  }

  /** What successful reads and known answers keep of messages above the start: one that enters by
      itself is read before the loop stops skipping it. */
  ghost predicate Attentive(s: Session) {
    && (forall m | m in s.durable && m.id in s.orphaned && m.id > s.start && m.role != User ::
          !EntersByItself(s, m) && m.id !in s.abandoned)
    && (s.t.items != [] ==> forall m | m in s.durable && m.origin.Reply? && m.id > s.start :: m.origin.pass >= s.begun)
    && s.prompt == s.opening && (s.running && s.prompt > s.start ==> s.prompt <= s.t.seen)
    && ((s.running || !(exists m :: m in s.durable && m.origin == Reply(s.passes))) && s.t.selfAssistant > s.start ==>
          s.t.selfAssistant <= s.t.seen)
  }

  ghost predicate ByUser(durable: seq<Message>, id: nat) {
    exists m :: m in durable && m.id == id && m.role == User
  }

  /** And of those below: they are in the fallback, unless they opened the pass that started with it. */
  ghost predicate Settled(s: Session) {
    && (s.t.items != [] ==> s.whole)
    && (forall m | m in s.durable && m.origin.Reply? && m.id <= s.start :: m.origin.pass < s.begun)
    && (s.opening != 0 && s.opening <= s.start && (!s.running || s.passes > s.begun) ==> ByUser(s.durable, s.opening))
    && (s.t.items != [] ==> forall m | m in s.durable && m.id <= s.start && m.role != User :: SettledAt(s, m))
  }

  ghost predicate SettledAt(s: Session, m: Message)
    requires s.t.items != []
  {
    && s.t.items[0].Tail? && Opened(s.t.items, m.id) == (if m.id == s.t.items[0].except then 1 else 0)
    && m.id !in s.abandoned
  }

  /** Reads succeed and answers arrive. */
  predicate Smooth(a: Action) {
    (a.Prepare? ==> a.readable) && (a.CommitNudge? ==> !a.fate.Lost?)
  }

  /** What is known of the message that is to open the next pass, unless it is a user's. */
  lemma PromptIsNudge(s: Session, m: Message)
    requires Inv(s) && m in s.durable && m.id > s.start && m.role != User && m.id == s.prompt
    ensures m.origin.Nudge? && m.id !in s.orphaned && m.id !in s.abandoned && (!s.running ==> m.id !in s.openers)
  {
    hide Shape, Passes, Mentions, Fallback;
    assert Tracked(s, m);
  }

  lemma AttentiveTurn(s: Session, prompt: nat)
    requires Inv(s) && Attentive(s)
    ensures Attentive(AfterUserTurn(s, prompt))
  {
    hide Inv;
    var s' := AfterUserTurn(s, prompt);
    forall m | m in s'.durable && m.id in s'.orphaned && m.id > s'.start && m.role != User
      ensures !EntersByItself(s', m) && m.id !in s'.abandoned
    {
      if m.id == s.prompt {
        PromptIsNudge(s, m);
      }
    }
  }

  lemma NothingAbove(s: Session)
    requires Shape(s) && !s.running && !Live(s)
    ensures var s' := AfterPrepare(s, true);
            LastID(s.durable) <= s'.start && s.t.selfAssistant <= s'.start && s.prompt <= s'.start
            && forall m | m in s.durable :: m.id <= s'.start
  {
    hide AfterPrepare, Increasing;
    StartsOver(s, true);
    BelowLast(s.durable);
  }

  lemma AttentivePrepare(s: Session)
    requires Inv(s) && Attentive(s)
    ensures Attentive(AfterPrepare(s, true))
  {
    hide Tracked, Passes, Mentions, AfterPrepare, Fallback, Increasing;
    if s.running {
      StillRunning(s, true);
    } else if Live(s) {
      var s' := AfterPrepare(s, true);
      PreparedIs(s, true);
      forall m | m in s'.durable && m.id in s'.orphaned && m.id > s'.start && m.role != User
        ensures !EntersByItself(s', m) && m.id !in s'.abandoned
      {
        if m.id == s.prompt {
          PromptIsNudge(s, m);
        }
      }
    } else {
      StartsOver(s, true);
      NothingAbove(s);
    }
  }

  lemma AttentiveAbandon(s: Session, kept: bool)
    requires Inv(s) && Attentive(s)
    ensures Attentive(AfterAbandon(s, kept)) && Attentive(AfterInterrupt(s))
  {
    hide Inv, LeftOver, Cleared;
    if s.running {
      AttentiveCleared(s);
      RunningHasBegun(s);
    }
    if s.running && s.passes > s.begun {
      RunningHasItems(s);
      var s' := AfterAbandon(s, kept);
      forall m | m in s'.durable && m.id in s'.orphaned && m.id > s'.start && m.role != User
        ensures !EntersByItself(s', m) && m.id !in s'.abandoned
      {
        if m.id == s.prompt {
          PromptIsNudge(s, m);
        }
      }
    }
  }

  lemma RunningHasItems(s: Session)
    requires Inv(s) && s.running
    ensures s.t.items != []
  {
  }

  lemma AttentiveCleared(s: Session)
    requires Inv(s) && Attentive(s) && s.running
    ensures Attentive(Cleared(s))
  {
    hide Passes, Mentions, Fallback, Folded, Opened;
    var s' := Cleared(s);
    forall m | m in s'.durable && m.id in s'.orphaned && m.id > s'.start && m.role != User
      ensures !EntersByItself(s', m)
    {
      assert Tracked(s, m);
    }
  }

  lemma ReplyAttentive(s: Session, gap: nat)
    requires Inv(s) && Attentive(s)
    ensures Attentive(AfterReply(s, gap))
  {
    hide Tracked, Passes, Mentions, Fallback, Increasing;
    KeepsReplies(s.durable, Message(NewID(s, gap), Assistant, Reply(s.passes)), s.passes);
    BelowLast(s.durable);
  }

  lemma NudgeAttentive(s: Session, gap: nat, fate: Fate)
    requires Inv(s) && Attentive(s) && !fate.Lost?
    ensures Attentive(AfterNudge(s, gap, fate))
  {
    hide Tracked, Passes, Mentions, Fallback, Increasing;
    KeepsReplies(s.durable, Message(NewID(s, gap), System, Nudge), s.passes);
    BelowLast(s.durable);
  }

  lemma AppendAttentive(s: Session, role: Role, gap: nat)
    requires Inv(s) && Attentive(s)
    ensures Attentive(Step(s, Append(role, gap)))
  {
    hide Tracked, Passes, Mentions, Fallback, Increasing;
    KeepsReplies(s.durable, Message(NewID(s, gap), role, Outside), s.passes);
    BelowLast(s.durable);
  }

  lemma StepAttentive(s: Session, a: Action)
    requires Inv(s) && Attentive(s) && Smooth(a)
    ensures Attentive(Step(s, a))
  {
    hide Inv, AfterPrepare, AfterAbandon, AfterInterrupt, AfterReply, AfterNudge, AfterUserTurn;
    match a
    case Prepare(readable) => AttentivePrepare(s);
    case Append(role, gap) => AppendAttentive(s, role, gap);
    case CommitReply(gap) => ReplyAttentive(s, gap);
    case CommitNudge(gap, fate) => NudgeAttentive(s, gap, fate);
    case NextUserTurn(prompt) => AttentiveTurn(s, prompt);
    case Finish => FinishAttentive(s);
    case Abandon(kept) => AttentiveAbandon(s, kept);
    case Interrupt => AttentiveAbandon(s, true);
    case ResetWindow(_) =>
  }

  lemma FinishAttentive(s: Session)
    requires Inv(s) && Attentive(s)
    ensures Attentive(AfterFinish(s))
  {
    hide Inv;
    if s.running {
      RunningHasItems(s);
    }
  }

  lemma KeepsReplies(durable: seq<Message>, m: Message, pass: nat)
    ensures (exists n :: n in durable + [m] && n.origin == Reply(pass))
            <==> (exists n :: n in durable && n.origin == Reply(pass)) || m.origin == Reply(pass)
  {
    if exists n :: n in durable && n.origin == Reply(pass) {
      var n :| n in durable && n.origin == Reply(pass);
      assert n in durable + [m];
    }
    assert m in durable + [m];
  }

  // ---- Messages below the start -------------------------------------------------------------------

  lemma LivePrepareSettled(s: Session, m: Message)
    requires Inv(s) && Settled(s) && !s.running && Live(s) && m in s.durable && m.id <= s.start && m.role != User
    ensures AfterPrepare(s, true).t.items != [] && SettledAt(AfterPrepare(s, true), m)
  {
    hide Tracked, Passes, Mentions, AfterPrepare, Fallback, Additions;
    PreparedIs(s, true);
    AdditionsAre(s, true);
    assert SettledAt(s, m);
    CountAppend(s.t.items, Additions(s, true), Opening(m.id));
    if Opening(m.id) in Additions(s, true) {
      var u :| u in s.durable && u.id == s.opening && u.role == User;
      SameID(s.durable, m, u);
    }
  }

  lemma PrepareSettled(s: Session)
    requires Inv(s) && Settled(s) && s.prompt == s.opening
    ensures Settled(AfterPrepare(s, true))
  {
    hide Tracked, Passes, Mentions, AfterPrepare, Fallback, Opened, Increasing, SettledAt;
    var s' := AfterPrepare(s, true);
    if s.running {
      StillRunning(s, true);
    } else if Live(s) {
      PreparedIs(s, true);
      forall m | m in s.durable && m.id <= s.start && m.role != User ensures SettledAt(s', m) {
        LivePrepareSettled(s, m);
      }
    } else {
      StartsOver(s, true);
      RepliesBefore(s);
      forall m | m in s.durable && m.role != User ensures SettledAt(s', m) {
        StartsOverSettled(s, m);
      }
    }
  }

  lemma StartsOverSettled(s: Session, m: Message)
    requires Shape(s) && !s.running && !Live(s) && s.prompt == s.opening && m in s.durable
    ensures AfterPrepare(s, true).t.items != [] && SettledAt(AfterPrepare(s, true), m)
  {
    hide AfterPrepare, Opened;
    StartsOver(s, true);
    StartsOverCounts(s, true);
  }

  lemma RepliesBefore(s: Session)
    requires Inv(s) && Settled(s)
    ensures forall m | m in s.durable && m.origin.Reply? :: m.origin.pass <= s.passes
  {
    hide Mentions, Fallback, Folded, Opened, GeneratedBy;
    forall m | m in s.durable && m.origin.Reply? ensures m.origin.pass <= s.passes {
      assert m.id > s.start ==> Tracked(s, m);
    }
  }

  lemma AbandonSettledAt(s: Session, kept: bool, m: Message)
    requires Inv(s) && Settled(s) && s.running && s.passes > s.begun
    requires m in s.durable && m.id <= s.start && m.role != User
    ensures LeftOver(s, kept) != [] && SettledAt(AfterAbandon(s, kept), m)
  {
    hide Tracked, Passes, Mentions, Fallback, LeftOver;
    LeftOverIs(s, kept);
    LeftOverCounts(s, kept, Opening(m.id));
    assert SettledAt(s, m);
    if m.id == s.opening {
      var u :| u in s.durable && u.id == s.opening && u.role == User;
      SameID(s.durable, m, u);
    }
  }

  lemma AbandonSettled(s: Session, kept: bool)
    requires Inv(s) && Settled(s)
    ensures Settled(AfterAbandon(s, kept)) && Settled(AfterInterrupt(s))
  {
    hide Tracked, Mentions, Fallback, LeftOver, SettledAt, Increasing;
    RepliesBefore(s);
    if s.running && s.passes > s.begun {
      LeftOverIs(s, kept);
      forall m | m in s.durable && m.id <= s.start && m.role != User ensures SettledAt(AfterAbandon(s, kept), m) {
        AbandonSettledAt(s, kept, m);
      }
    }
  }

  lemma FinishSettled(s: Session)
    requires Inv(s) && Settled(s)
    ensures Settled(AfterFinish(s))
  {
    hide Tracked, Passes, Mentions, Fallback;
    if s.running {
      forall m | m in s.durable && m.id <= s.start && m.role != User ensures SettledAt(AfterFinish(s), m) {
        assert SettledAt(s, m);
        CountOne(s.t.items, Generated(s.passes), Opening(m.id));
      }
    }
  }

  lemma UserTurnSettled(s: Session, prompt: nat)
    requires Settled(s)
    ensures Settled(AfterUserTurn(s, prompt))
  {
    hide Opened;
    forall m | m in s.durable && m.id <= s.start && m.role != User && s.t.items != []
      ensures SettledAt(AfterUserTurn(s, prompt), m)
    {
      assert SettledAt(s, m);
    }
  }

  /** A new message is above the start, so that it only matters whether it opens the next pass. */
  lemma AddedSettled(s: Session, s': Session, m: Message)
    requires Settled(s) && s'.durable == s.durable + [m] && m.id > s.start
    requires s'.t.items == s.t.items && s'.whole == s.whole && s'.begun == s.begun && s'.start == s.start
    requires s'.running == s.running && s'.passes == s.passes && s'.abandoned == s.abandoned
    requires s'.opening == s.opening || s'.opening > s.start
    ensures Settled(s')
  {
    hide Opened;
    forall n | n in s'.durable && n.id <= s'.start && n.role != User && s'.t.items != [] ensures SettledAt(s', n) {
      assert SettledAt(s, n);
    }
    if ByUser(s.durable, s.opening) {
      var u :| u in s.durable && u.id == s.opening && u.role == User;
      assert u in s'.durable;
    }
  }

  lemma NewIsAbove(s: Session, gap: nat)
    requires Shape(s)
    ensures NewID(s, gap) > s.start
  {
  }

  lemma StepSettled(s: Session, a: Action)
    requires Inv(s) && Settled(s) && s.prompt == s.opening && Smooth(a)
    ensures Settled(Step(s, a))
  {
    hide Inv, Settled, AfterPrepare, AfterAbandon, AfterInterrupt, AfterFinish, AfterUserTurn;
    match a
    case Prepare(readable) => PrepareSettled(s);
    case Append(role, gap) =>
      AddsAbove(s, gap);
      AddedSettled(s, Step(s, a), Message(NewID(s, gap), role, Outside));
    case CommitReply(gap) =>
      AddsAbove(s, gap);
      if AfterReply(s, gap) != s {
        AddedSettled(s, AfterReply(s, gap), Message(NewID(s, gap), Assistant, Reply(s.passes)));
      }
    case CommitNudge(gap, fate) =>
      AddsAbove(s, gap);
      if AfterNudge(s, gap, fate) != s {
        AddedSettled(s, AfterNudge(s, gap, fate), Message(NewID(s, gap), System, Nudge));
      }
    case NextUserTurn(prompt) => UserTurnSettled(s, prompt);
    case Finish => FinishSettled(s);
    case Abandon(kept) => AbandonSettled(s, kept);
    case Interrupt => AbandonSettled(s, true);
    case ResetWindow(floor) => ResetSettled(s, floor);
  }

  lemma AddsAbove(s: Session, gap: nat)
    requires Inv(s)
    ensures NewID(s, gap) > s.start
  {
    hide Tracked, Passes, Mentions, Fallback;
    NewIsAbove(s, gap);
  }

  lemma ResetSettled(s: Session, floor: nat)
    requires Settled(s)
    ensures Settled(AfterReset(s, floor))
  {
    hide Opened;
    forall m | m in s.durable && m.id <= s.start && m.role != User && s.t.items != []
      ensures SettledAt(AfterReset(s, floor), m)
    {
      assert SettledAt(s, m);
    }
  }

  lemma BeginsSettled(s: Session)
    requires Begins(s) && s.whole
    ensures Attentive(s) && Settled(s)
  {
    var tail: Item :| tail.Tail? && s.t.items == [tail];
    assert multiset([tail]) == multiset{tail};
  }

  lemma {:induction false} RunAttentive(s: Session, actions: seq<Action>)
    requires Begins(s) && s.whole && forall a | a in actions :: Smooth(a)
    ensures Attentive(Run(s, actions)) && Settled(Run(s, actions))
  {
    hide Inv, Step, Begins, Settled;
    if actions == [] {
      BeginsSettled(s);
    } else {
      RunAttentive(s, actions[..|actions| - 1]);
      RunInv(s, actions[..|actions| - 1]);
      StepAttentive(Run(s, actions[..|actions| - 1]), actions[|actions| - 1]);
      StepSettled(Run(s, actions[..|actions| - 1]), actions[|actions| - 1]);
    }
  }

  /** With successful reads and known answers every non-user message above the history floor is in the
      context exactly once as soon as it has been read, the fallback included, and never twice, whatever
      the user sends between passes and however often the context is cleared; only what opened a pass
      that was stopped is not. */
  lemma EachMessageEntersOnce(s: Session, actions: seq<Action>, m: Message)
    requires Begins(s) && s.whole && forall a | a in actions :: Smooth(a)
    requires m in Run(s, actions).durable && m.role != User
    requires Run(s, actions).t.items != [] && m.id > Run(s, actions).t.floor
    ensures var now := Run(s, actions);
            && InContext(now.t.items, m) <= 1
            && (m.id <= now.t.seen ==> InContext(now.t.items, m) == if m.id in now.abandoned then 0 else 1)
  {
    hide Begins, Inv, Run, Smooth, Occurrences, Folded, Opened, Passes, Settled;
    var now := Run(s, actions);
    RunAttentive(s, actions);
    RunInv(s, actions);
    FallbackIsAllOrNothing(s, actions, m);
    if m.id <= now.start {
      SettledOnce(now, m);
    } else {
      InvTracks(now, m);
      if m.origin.Outside? {
        OutOfBandEntersOnce(s, actions, m);
      } else {
        OwnMessagesRepeatIff(s, actions, m);
      }
    }
  }

  lemma SettledOnce(s: Session, m: Message)
    requires Inv(s) && Settled(s) && s.t.items != [] && m in s.durable && m.role != User
    requires s.t.floor < m.id <= s.start
    ensures InContext(s.t.items, m) == 1 && m.id !in s.abandoned
  {
    hide Tracked, Folded, Opened;
    assert SettledAt(s, m);
    assert Folded(s.t.items, m.id) == 0;
  }
}
