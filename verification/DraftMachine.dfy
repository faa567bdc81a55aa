/** A held channel reply and its approval buttons, as in cmd/agent/slack_interactions.go. Clicks run
    concurrently; each database statement and each message posted is one atomic step.
 */
module DraftMachine {
  import opened Wrappers
  import opened WhiteSpace

  // ---- Long replies -------------------------------------------------------------------------------

  const MAX_CHUNK := 12000

  /** A reply is posted as several messages if it is too long for one, and as none if it is empty. */
  function Chunks(text: string): seq<string> {
    if text == "" then [] else if |text| <= MAX_CHUNK then [text] else [text[..MAX_CHUNK]] + Chunks(text[MAX_CHUNK..])
  }

  function Join(chunks: seq<string>): string {
    if chunks == [] then "" else chunks[0] + Join(chunks[1..])
  }

  lemma {:induction false} ChunksJoin(text: string)
    ensures Join(Chunks(text)) == text
    ensures forall c | c in Chunks(text) :: 1 <= |c| <= MAX_CHUNK
    decreases |text|
  {
    if text != "" {
      var rest := if |text| <= MAX_CHUNK then "" else text[MAX_CHUNK..];
      ChunksJoin(rest);
      assert Chunks(text)[1..] == Chunks(rest);
    }
  }

  method SplitMarkdown(text: string) returns (chunks: seq<string>)
    ensures chunks == Chunks(text) && Join(chunks) == text
  {
    chunks := [];
    var rest := text;
    while |rest| > MAX_CHUNK
      invariant chunks + Chunks(rest) == Chunks(text)
      decreases |rest|
    {
      chunks, rest := chunks + [rest[..MAX_CHUNK]], rest[MAX_CHUNK..];
    }
    if |rest| > 0 {
      chunks := chunks + [rest];
    }
    ChunksJoin(text);
  }

  // ---- Drafts -------------------------------------------------------------------------------------

  datatype Status = Pending | Sending | Regenerating | Sent | Dismissed

  datatype Row = Row(status: Status, text: string, edited: Option<string>)

  /** What a click or a submitted form asks for; regenerating comes with feedback. */
  datatype Intent = Approve | SendEdited(text: string) | Dismiss | Regenerate

  /** Where one click is. `seen` is the row as loaded, which may be out of date by now; `sent` counts
      the messages posted so far. */
  datatype Handler =
    | Loaded(seen: Row, intent: Intent)
    | Claimed(text: string, edited: bool, sent: nat)
    | Failed(text: string)
    | Posted(text: string, edited: bool)
    | Revising(text: string)

  datatype Ending = Open | Succeeded | Broken

  /** A call that posts a draft, and how many of its messages reached the channel. */
  datatype Call = Call(text: string, edited: bool, reached: nat, ending: Ending)

  /** `channel` are the messages that reached the channel and `calls` the calls that posted them. */
  datatype State = State(row: Row, handlers: map<nat, Handler>, channel: seq<string>, calls: seq<Call>)

  /** How a database statement or a post ends: done, failed without effect, or done with the answer lost. */
  datatype Fate = Done | Refused | Lost

  datatype Action = Click(h: nat, intent: Intent) | Next(h: nat, fate: Fate, revised: string) | Crash(h: nat)

  function Start(text: string): State {
    State(Row(Pending, text, None), map[], [], [])
  }

  function Goto(s: State, h: nat, handler: Handler): State {
    s.(handlers := s.handlers[h := handler])
  }

  function Gone(s: State, h: nat): State {
    s.(handlers := s.handlers - {h})
  }

  /** ClaimSlackDraft: only a pending row moves, and the claimant gets the row's text. */
  function Claim(s: State, h: nat, next: Status, claimed: Handler, fate: Fate): State {
    if s.row.status != Pending || fate.Refused? then Gone(s, h)
    else
      var moved := s.(row := s.row.(status := next));
      if fate.Done? then Goto(moved, h, claimed) else Gone(moved, h)
  }

  /** Claiming for a post begins a call. */
  function ClaimToSend(s: State, h: nat, text: string, edited: bool, fate: Fate): State {
    var s' := Claim(s, h, Sending, Claimed(text, edited, 0), fate);
    if s.row.status == Pending && fate.Done? then s'.(calls := s.calls + [Call(text, edited, 0, Open)]) else s'
  }

  /** UpdateSlackDraftText, ResolveSlackDraft and ResolveSlackDraftEdited: compare-and-set on the status. */
  function Settle(s: State, h: nat, expected: Status, row: Row, fate: Fate): State {
    Gone(if s.row.status != expected || fate.Refused? then s else s.(row := row), h)
  }

  function FromLoaded(s: State, h: nat, seen: Row, intent: Intent, fate: Fate): State {
    match intent
    case Approve => ClaimToSend(s, h, s.row.text, false, fate)
    case SendEdited(text) => if Trim(text) == "" then Gone(s, h) else ClaimToSend(s, h, Trim(text), true, fate)
    case Dismiss => Settle(s, h, Pending, s.row.(status := Dismissed, text := seen.text), fate)
    case Regenerate => Claim(s, h, Regenerating, Revising(s.row.text), fate)
  }

  function UpdateLast(calls: seq<Call>, c: Call): seq<Call> {
    if calls == [] then [] else calls[..|calls| - 1] + [c]
  }

  /** A call after its next request, or after none if nothing is left to post. */
  function AfterRequest(text: string, edited: bool, sent: nat, fate: Fate): Call {
    var n := |Chunks(text)|;
    if sent >= n then Call(text, edited, sent, Succeeded)
    else if fate.Refused? then Call(text, edited, sent, Broken)
    else Call(text, edited, sent + 1, if fate.Lost? then Broken else if sent + 1 < n then Open else Succeeded)
  }

  function HandlerOf(c: Call): Handler {
    match c.ending
    case Open => Claimed(c.text, c.edited, c.reached)
    case Succeeded => Posted(c.text, c.edited)
    case Broken => Failed(c.text)
  }

  /** postApprovedChannelReply up to the answer of PostMarkdownAsBot, one message after the other. */
  function FromClaimed(s: State, h: nat, text: string, edited: bool, sent: nat, fate: Fate): State {
    var c := AfterRequest(text, edited, sent, fate);
    Goto(s, h, HandlerOf(c)).(
      channel := s.channel + (if c.reached > sent then [Chunks(text)[sent]] else []),
      calls := UpdateLast(s.calls, c))
  }

  function FromPosted(s: State, h: nat, text: string, edited: bool, fate: Fate): State {
    Settle(s, h, Sending, if edited then s.row.(status := Sent, edited := Some(text))
           else s.row.(status := Sent, text := text), fate)
  }

  /** The end of a regeneration; with a blank revision it failed and puts the old text back. */
  function FromRevising(s: State, h: nat, text: string, fate: Fate, revised: string): State {
    Settle(s, h, Regenerating, s.row.(status := Pending, text := if Trim(revised) == "" then text else revised), fate)
  }

  function Step(s: State, a: Action): State {
    match a
    case Click(h, intent) =>
      if h in s.handlers || (s.row.status != Pending && !intent.Dismiss?) then s else Goto(s, h, Loaded(s.row, intent))
    case Crash(h) => Gone(s, h)
    case Next(h, fate, revised) =>
      if h !in s.handlers then s
      else
        match s.handlers[h]
        case Loaded(seen, intent) => FromLoaded(s, h, seen, intent, fate)
        case Claimed(text, edited, sent) => FromClaimed(s, h, text, edited, sent, fate)
        case Failed(text) => Settle(s, h, Sending, s.row.(status := Pending, text := text), fate)
        case Posted(text, edited) => FromPosted(s, h, text, edited, fate)
        case Revising(text) => FromRevising(s, h, text, fate, revised)
  }

  function Run(s: State, actions: seq<Action>): State {
    if actions == [] then s else Step(Run(s, actions[..|actions| - 1]), actions[|actions| - 1])
  }

  // ---- What reached the channel -------------------------------------------------------------------

  /** The messages of a call that reached the channel. */
  function Messages(c: Call): seq<string> {
    if c.reached <= |Chunks(c.text)| then Chunks(c.text)[..c.reached] else Chunks(c.text)
  }

  function Flat(calls: seq<Call>): seq<string> {
    if calls == [] then [] else Flat(calls[..|calls| - 1]) + Messages(calls[|calls| - 1])
  }

  /** The calls of which something reached the channel. */
  function Reached(calls: seq<Call>): nat {
    if calls == [] then 0 else Reached(calls[..|calls| - 1]) + if calls[|calls| - 1].reached > 0 then 1 else 0
  }

  predicate IsTorn(c: Call) {
    c.ending == Broken && c.reached > 0
  }

  /** The calls that failed after something of them had reached the channel: because an answer was lost,
      or because a later message was refused. */
  function Torn(calls: seq<Call>): nat {
    if calls == [] then 0 else Torn(calls[..|calls| - 1]) + if IsTorn(calls[|calls| - 1]) then 1 else 0
  }

  predicate AllBroken(calls: seq<Call>) {
    forall i | 0 <= i < |calls| :: calls[i].ending == Broken
  }

  /** No call has more messages in the channel than its text is split into. */
  predicate Bounded(calls: seq<Call>) {
    forall i | 0 <= i < |calls| :: calls[i].reached <= |Chunks(calls[i].text)|
  }

  lemma Appended(calls: seq<Call>, c: Call)
    ensures Flat(calls + [c]) == Flat(calls) + Messages(c)
    ensures Reached(calls + [c]) == Reached(calls) + if c.reached > 0 then 1 else 0
    ensures Torn(calls + [c]) == Torn(calls) + if IsTorn(c) then 1 else 0
    ensures AllBroken(calls + [c]) <==> AllBroken(calls) && c.ending == Broken
    ensures Bounded(calls + [c]) <==> Bounded(calls) && c.reached <= |Chunks(c.text)|
  {
    assert (calls + [c])[..|calls|] == calls;
    assert forall i | 0 <= i < |calls| :: (calls + [c])[i] == calls[i];
    assert (calls + [c])[|calls|] == c;
  }

  lemma {:induction false} BrokenAreTorn(calls: seq<Call>)
    requires AllBroken(calls)
    ensures Reached(calls) == Torn(calls)
  {
    if calls != [] {
      var init := calls[..|calls| - 1];
      assert forall i | 0 <= i < |init| :: init[i] == calls[i];
      BrokenAreTorn(init);
    }
  }

  // ---- Invariants ---------------------------------------------------------------------------------

  predicate Sends(h: Handler) {
    h.Claimed? || h.Failed? || h.Posted?
  }

  /** The status is held by at most one handler, which is the only one that can move it on. */
  ghost predicate Held(row: Row, handlers: map<nat, Handler>) {
    && (forall h | h in handlers && Sends(handlers[h]) :: row.status == Sending)
    && (forall h | h in handlers && handlers[h].Revising? :: row.status == Regenerating)
    && (forall h, k | h in handlers && k in handlers && !handlers[h].Loaded? && !handlers[k].Loaded? :: h == k)
  }

  function Earlier(calls: seq<Call>): seq<Call> {
    if calls == [] then [] else calls[..|calls| - 1]
  }

  /** The last call as far as it got, or none. */
  function Latest(calls: seq<Call>): Option<Call> {
    if calls == [] then None else Some(calls[|calls| - 1])
  }

  /** What a handler knows about the last call. */
  ghost predicate Knows(h: Handler, last: Option<Call>) {
    match h
    case Claimed(text, edited, sent) =>
      last == Some(Call(text, edited, sent, Open)) && sent <= |Chunks(text)| && (sent > 0 ==> sent < |Chunks(text)|)
    case Posted(text, edited) => last == Some(Call(text, edited, |Chunks(text)|, Succeeded))
    case Failed(text) => last.Some? && last.value.ending == Broken && last.value.text == text
    case _ => true
  }

  /** What the status of the row says about the last call. */
  ghost predicate Fits(row: Row, last: Option<Call>) {
    && (row.status in {Pending, Regenerating, Dismissed} ==> last.None? || last.value.ending == Broken)
    && (row.status == Sent ==>
          && last.Some? && last.value.ending == Succeeded && last.value.reached == |Chunks(last.value.text)|
          && if last.value.edited then row.edited == Some(last.value.text) else row.text == last.value.text)
  }

  /** Only the last call can have ended otherwise than badly. */
  ghost predicate Counted(row: Row, handlers: map<nat, Handler>, calls: seq<Call>) {
    && AllBroken(Earlier(calls)) && Fits(row, Latest(calls))
    && forall h | h in handlers :: Knows(handlers[h], Latest(calls))
  }

  /** Nobody changes the text of a row that is being sent or regenerated. */
  ghost predicate Unedited(row: Row, handlers: map<nat, Handler>) {
    forall h | h in handlers && ((handlers[h].Claimed? && !handlers[h].edited) || handlers[h].Revising?) ::
      handlers[h].text == row.text
  }

  ghost predicate Inv(s: State) {
    && Unedited(s.row, s.handlers) && Held(s.row, s.handlers) && Counted(s.row, s.handlers, s.calls)
    && Bounded(s.calls) && s.channel == Flat(s.calls)
  }

  lemma Begun(calls: seq<Call>, c: Call)
    ensures Earlier(calls + [c]) == calls && Latest(calls + [c]) == Some(c)
    ensures AllBroken(Earlier(calls)) && (Latest(calls).Some? ==> Latest(calls).value.ending == Broken) ==>
              AllBroken(calls)
  {
    assert calls != [] ==> calls == Earlier(calls) + [calls[|calls| - 1]];
    if calls != [] {
      Appended(Earlier(calls), calls[|calls| - 1]);
    }
  }

  lemma LastSplit(calls: seq<Call>, c: Call)
    requires calls != []
    ensures calls == Earlier(calls) + [calls[|calls| - 1]] && UpdateLast(calls, c) == Earlier(calls) + [c]
    ensures Earlier(UpdateLast(calls, c)) == Earlier(calls) && Latest(UpdateLast(calls, c)) == Some(c)
  {
  }

  lemma Updated(calls: seq<Call>, c: Call)
    requires calls != []
    ensures var last := calls[|calls| - 1];
            && Reached(UpdateLast(calls, c)) - (if c.reached > 0 then 1 else 0)
               == Reached(calls) - (if last.reached > 0 then 1 else 0)
            && Torn(UpdateLast(calls, c)) - (if IsTorn(c) then 1 else 0)
               == Torn(calls) - (if IsTorn(last) then 1 else 0)
  {
    hide Flat, Reached, Torn, Bounded, AllBroken, Messages, IsTorn, Chunks, Earlier, UpdateLast;
    LastSplit(calls, c);
    Appended(Earlier(calls), c);
    Appended(Earlier(calls), calls[|calls| - 1]);
  }

  lemma UpdatedFlat(earlier: seq<Call>, last: Call, c: Call)
    ensures Flat(earlier + [c]) == Flat(earlier) + Messages(c)
    ensures Flat(earlier + [last]) == Flat(earlier) + Messages(last)
    ensures Bounded(earlier + [last]) && c.reached <= |Chunks(c.text)| ==> Bounded(earlier + [c])
  {
    hide Flat, Reached, Torn, Bounded, AllBroken, Messages, IsTorn, Chunks;
    Appended(earlier, c);
    Appended(earlier, last);
  }

  lemma Associative(a: seq<string>, b: seq<string>, c: seq<string>)
    ensures (a + b) + c == a + (b + c)
  {
  }

  /** Carrying the last call on by the messages `added`. */
  lemma CarriedOn(calls: seq<Call>, c: Call, c': Call, added: seq<string>)
    requires calls != [] && calls[|calls| - 1] == c && Bounded(calls)
    requires Messages(c') == Messages(c) + added && c'.reached <= |Chunks(c'.text)|
    ensures Flat(UpdateLast(calls, c')) == Flat(calls) + added && Bounded(UpdateLast(calls, c'))
    ensures Earlier(UpdateLast(calls, c')) == Earlier(calls) && Latest(UpdateLast(calls, c')) == Some(c')
  {
    hide Flat, Reached, Torn, Bounded, Messages, IsTorn, Chunks, UpdateLast, Earlier;
    LastSplit(calls, c');
    UpdatedFlat(Earlier(calls), c, c');
    Associative(Flat(Earlier(calls)), Messages(c), added);
  }

  lemma MoreMessages(text: string, edited: bool, sent: nat, a: Ending, b: Ending)
    requires sent < |Chunks(text)|
    ensures Messages(Call(text, edited, sent + 1, a)) == Messages(Call(text, edited, sent, b)) + [Chunks(text)[sent]]
  {
    hide Chunks;
  }

  lemma SameMessages(text: string, edited: bool, sent: nat, a: Ending, b: Ending)
    ensures Messages(Call(text, edited, sent, a)) == Messages(Call(text, edited, sent, b)) + []
  {
  }

  lemma ClaimHeld(row: Row, handlers: map<nat, Handler>, h: nat, next: Status, claimed: Handler)
    requires Held(row, handlers) && Unedited(row, handlers) && row.status == Pending
    requires (next == Sending && claimed.Claimed? && (claimed.edited || claimed.text == row.text))
             || (next == Regenerating && claimed.Revising? && claimed.text == row.text)
    ensures Held(row.(status := next), handlers[h := claimed]) && Unedited(row.(status := next), handlers[h := claimed])
    ensures Held(row.(status := next), handlers - {h}) && Unedited(row.(status := next), handlers - {h})
  {
  }

  lemma GoneHeld(row: Row, handlers: map<nat, Handler>, calls: seq<Call>, h: nat)
    ensures Held(row, handlers) ==> Held(row, handlers - {h})
    ensures Unedited(row, handlers) ==> Unedited(row, handlers - {h})
    ensures Counted(row, handlers, calls) ==> Counted(row, handlers - {h}, calls)
  {
    hide AllBroken, Fits, Knows;
  }

  /** While the row is pending every call has ended badly and nobody waits for one. */
  lemma BeginCounted(row: Row, handlers: map<nat, Handler>, calls: seq<Call>, h: nat, text: string, edited: bool)
    requires Held(row, handlers) && Counted(row, handlers, calls) && row.status == Pending
    ensures Counted(row.(status := Sending), handlers[h := Claimed(text, edited, 0)],
                    calls + [Call(text, edited, 0, Open)])
    ensures Counted(row.(status := Sending), handlers - {h}, calls)
  {
    hide AllBroken, Chunks;
    Begun(calls, Call(text, edited, 0, Open));
    forall k | k in handlers ensures handlers[k].Loaded? || handlers[k].Revising? {
      assert !Sends(handlers[k]);
    }
  }

  lemma BeginFlat(calls: seq<Call>, c: Call)
    requires c.reached == 0
    ensures Flat(calls + [c]) == Flat(calls) && (Bounded(calls) ==> Bounded(calls + [c]))
  {
    hide Reached, Torn, IsTorn, AllBroken, Bounded, Flat;
    Appended(calls, c);
    assert Messages(c) == [] && Flat(calls) + [] == Flat(calls);
  }

  lemma ClaimToSendInv(s: State, h: nat, text: string, edited: bool, fate: Fate)
    requires Inv(s) && h in s.handlers && s.handlers[h].Loaded? && (edited || text == s.row.text)
    ensures Inv(ClaimToSend(s, h, text, edited, fate))
  {
    hide Flat, Bounded, Held, Unedited, Counted;
    GoneHeld(s.row, s.handlers, s.calls, h);
    if s.row.status == Pending {
      ClaimHeld(s.row, s.handlers, h, Sending, Claimed(text, edited, 0));
      BeginCounted(s.row, s.handlers, s.calls, h, text, edited);
      BeginFlat(s.calls, Call(text, edited, 0, Open));
    }
  }

  lemma ReviseInv(s: State, h: nat, fate: Fate)
    requires Inv(s) && h in s.handlers && s.handlers[h].Loaded?
    ensures Inv(Claim(s, h, Regenerating, Revising(s.row.text), fate))
  {
    hide Chunks, Flat, AllBroken, Bounded;
  }

  lemma DismissInv(s: State, h: nat, text: string, fate: Fate)
    requires Inv(s) && h in s.handlers && s.handlers[h].Loaded?
    ensures Inv(Settle(s, h, Pending, s.row.(status := Dismissed, text := text), fate)) && Inv(Gone(s, h))
  {
    hide Chunks, Flat, AllBroken, Bounded;
  }

  lemma LoadedInv(s: State, h: nat, fate: Fate)
    requires Inv(s) && h in s.handlers && s.handlers[h].Loaded?
    ensures Inv(FromLoaded(s, h, s.handlers[h].seen, s.handlers[h].intent, fate))
  {
    hide Inv, Claim, ClaimToSend, Settle, Gone;
    DismissInv(s, h, s.handlers[h].seen.text, fate);
    match s.handlers[h].intent
    case Approve => ClaimToSendInv(s, h, s.row.text, false, fate);
    case SendEdited(text) => ClaimToSendInv(s, h, Trim(text), true, fate);
    case Dismiss =>
    case Regenerate => ReviseInv(s, h, fate);
  }

  /** The step of a call: which messages and which last call it leaves. */
  lemma ClaimedStep(s: State, h: nat, text: string, edited: bool, sent: nat, fate: Fate)
    requires s.calls != [] && s.calls[|s.calls| - 1] == Call(text, edited, sent, Open) && sent <= |Chunks(text)|
    requires Bounded(s.calls) && s.channel == Flat(s.calls)
    ensures var s' := FromClaimed(s, h, text, edited, sent, fate);
            && Bounded(s'.calls) && s'.channel == Flat(s'.calls) && Earlier(s'.calls) == Earlier(s.calls)
            && s'.row == s.row && h in s'.handlers && s'.handlers == s.handlers[h := s'.handlers[h]]
            && Sends(s'.handlers[h])
               && (s'.handlers[h].Claimed? ==> s'.handlers[h].text == text && s'.handlers[h].edited == edited)
            && Knows(s'.handlers[h], Latest(s'.calls))
  {
    hide Chunks, Flat, Messages, Bounded, UpdateLast, Earlier, Latest;
    var c, c' := Call(text, edited, sent, Open), AfterRequest(text, edited, sent, fate);
    if c'.reached > sent {
      MoreMessages(text, edited, sent, c'.ending, Open);
      CarriedOn(s.calls, c, c', [Chunks(text)[sent]]);
    } else {
      SameMessages(text, edited, sent, c'.ending, Open);
      CarriedOn(s.calls, c, c', []);
    }
  }

  lemma ClaimedInv(s: State, h: nat, fate: Fate)
    requires Inv(s) && h in s.handlers && s.handlers[h].Claimed?
    ensures Inv(FromClaimed(s, h, s.handlers[h].text, s.handlers[h].edited, s.handlers[h].sent, fate))
  {
    hide Chunks, Flat, AllBroken, Bounded, FromClaimed;
    ClaimedStep(s, h, s.handlers[h].text, s.handlers[h].edited, s.handlers[h].sent, fate);
  }

  lemma FailedInv(s: State, h: nat, fate: Fate)
    requires Inv(s) && h in s.handlers && s.handlers[h].Failed?
    ensures Inv(Settle(s, h, Sending, s.row.(status := Pending, text := s.handlers[h].text), fate))
  {
    hide Chunks, Flat, AllBroken, Bounded;
  }

  lemma PostedInv(s: State, h: nat, fate: Fate)
    requires Inv(s) && h in s.handlers && s.handlers[h].Posted?
    ensures Inv(FromPosted(s, h, s.handlers[h].text, s.handlers[h].edited, fate))
  {
    hide Chunks, Flat, AllBroken, Bounded;
  }

  lemma RevisingInv(s: State, h: nat, fate: Fate, revised: string)
    requires Inv(s) && h in s.handlers && s.handlers[h].Revising?
    ensures Inv(FromRevising(s, h, s.handlers[h].text, fate, revised))
  {
    hide Chunks, Flat, AllBroken, Bounded;
  }

  lemma OtherInv(s: State, a: Action)
    requires Inv(s) && !a.Next?
    ensures Inv(Step(s, a))
  {
    hide Chunks, Flat, AllBroken, Bounded;
  }

  lemma StepInv(s: State, a: Action)
    requires Inv(s)
    ensures Inv(Step(s, a))
  {
    hide Inv, FromLoaded, FromClaimed, FromPosted, FromRevising, Settle;
    if a.Next? {
      if a.h in s.handlers {
        match s.handlers[a.h]
        case Loaded(_, _) => LoadedInv(s, a.h, a.fate);
        case Claimed(_, _, _) => ClaimedInv(s, a.h, a.fate);
        case Failed(_) => FailedInv(s, a.h, a.fate);
        case Posted(_, _) => PostedInv(s, a.h, a.fate);
        case Revising(_) => RevisingInv(s, a.h, a.fate, a.revised);
      }
    } else {
      OtherInv(s, a);
    }
  }

  lemma {:induction false} RunInv(s: State, actions: seq<Action>)
    requires Inv(s)
    ensures Inv(Run(s, actions))
  {
    hide Inv, Step;
    if actions != [] {
      RunInv(s, actions[..|actions| - 1]);
      StepInv(Run(s, actions[..|actions| - 1]), actions[|actions| - 1]);
    }
  }

  lemma StartInv(text: string)
    ensures Inv(Start(text))
  {
  }

  ghost predicate Reachable(s: State) {
    exists text, actions :: s == Run(Start(text), actions)
  }

  lemma ReachableInv(s: State)
    requires Reachable(s)
    ensures Inv(s)
  {
    var text, actions :| s == Run(Start(text), actions);
    StartInv(text);
    RunInv(Start(text), actions);
  }

  // ---- Posting again ------------------------------------------------------------------------------

  /** Some click can still bring something of the draft into the channel by a call of its own: now, or
      once its claim or revision has been put back. */
  predicate MayPost(row: Row, handlers: map<nat, Handler>) {
    row.status == Pending || exists h ::
      h in handlers && (CanBegin(handlers[h]) || handlers[h].Failed? || handlers[h].Revising?)
  }

  predicate CanBegin(h: Handler) {
    h.Claimed? && h.sent == 0 && Chunks(h.text) != []
  }

  lemma MayPostIsBroken(s: State)
    requires Inv(s) && MayPost(s.row, s.handlers)
    ensures Reached(s.calls) == Torn(s.calls)
  {
    hide Chunks, Flat, Unedited;
    if s.calls != [] {
      var last := s.calls[|s.calls| - 1];
      Appended(Earlier(s.calls), last);
      assert s.calls == Earlier(s.calls) + [last];
      BrokenAreTorn(Earlier(s.calls));
      assert last.ending == Broken || last.reached == 0;
    }
  }

  /** Calls are only ever added or carried on. */
  lemma NextCounts(s: State, h: nat, fate: Fate)
    requires Inv(s) && h in s.handlers && s.handlers[h].Claimed?
    ensures var c := s.handlers[h];
            var s' := FromClaimed(s, h, c.text, c.edited, c.sent, fate);
            && Torn(s'.calls) >= Torn(s.calls)
            && (Torn(s'.calls) == Torn(s.calls) && !CanBegin(c) ==>
                  Reached(s'.calls) == Reached(s.calls) && !s'.handlers[h].Failed?
                  && (s'.handlers[h].Claimed? ==> !CanBegin(s'.handlers[h])))
            && (fate.Done? && CanBegin(c) ==>
                  Torn(s'.calls) == Torn(s.calls) && Reached(s'.calls) == Reached(s.calls) + 1)
  {
    hide Chunks, Flat, Messages, Reached, Torn, Held, Unedited, AllBroken, UpdateLast, Earlier;
    var c := s.handlers[h];
    assert Knows(c, Latest(s.calls));
    Updated(s.calls, AfterRequest(c.text, c.edited, c.sent, fate));
  }

  lemma LoadedCounts(s: State, h: nat, fate: Fate)
    requires h in s.handlers && s.handlers[h].Loaded?
    ensures var s' := FromLoaded(s, h, s.handlers[h].seen, s.handlers[h].intent, fate);
            Torn(s'.calls) == Torn(s.calls) && Reached(s'.calls) == Reached(s.calls)
  {
    hide Chunks, Flat, Messages, Reached, Torn;
    match s.handlers[h].intent
    case Approve => Appended(s.calls, Call(s.row.text, false, 0, Open));
    case SendEdited(text) => Appended(s.calls, Call(Trim(text), true, 0, Open));
    case _ =>
  }

  lemma TornStep(s: State, a: Action)
    requires Inv(s)
    ensures Torn(Step(s, a).calls) >= Torn(s.calls)
  {
    hide Inv, FromLoaded, FromClaimed, Torn;
    if a.Next? && a.h in s.handlers {
      if s.handlers[a.h].Loaded? {
        LoadedCounts(s, a.h, a.fate);
      } else if s.handlers[a.h].Claimed? {
        NextCounts(s, a.h, a.fate);
      }
    }
  }

  lemma {:induction false} TornRun(s: State, actions: seq<Action>)
    requires Inv(s)
    ensures Torn(Run(s, actions).calls) >= Torn(s.calls)
  {
    hide Inv, Step, Torn;
    if actions != [] {
      TornRun(s, actions[..|actions| - 1]);
      RunInv(s, actions[..|actions| - 1]);
      TornStep(Run(s, actions[..|actions| - 1]), actions[|actions| - 1]);
    }
  }

  lemma UnpostableStep(s: State, a: Action)
    requires Inv(s) && !MayPost(s.row, s.handlers) && Torn(Step(s, a).calls) == Torn(s.calls)
    ensures !MayPost(Step(s, a).row, Step(s, a).handlers) && Reached(Step(s, a).calls) == Reached(s.calls)
  {
    hide Chunks, Flat, Reached, Torn, FromClaimed, Unedited, Counted, CanBegin, Trim;
    if a.Click? {
      LoadedCannotBegin(s.row, a.intent);
    }
    if a.Next? && a.h in s.handlers {
      if s.handlers[a.h].Claimed? {
        NextCounts(s, a.h, a.fate);
        ClaimedMoves(s, a.h, a.fate);
      } else {
        assert s.handlers[a.h].Loaded? || s.handlers[a.h].Posted?;
      }
    }
  }

  lemma LoadedCannotBegin(row: Row, intent: Intent)
    ensures !CanBegin(Loaded(row, intent))
  {
  }

  lemma ClaimedMoves(s: State, h: nat, fate: Fate)
    requires Inv(s) && h in s.handlers && s.handlers[h].Claimed?
    ensures var c := s.handlers[h];
            var s' := FromClaimed(s, h, c.text, c.edited, c.sent, fate);
            && s'.row == s.row && h in s'.handlers && s'.handlers == s.handlers[h := s'.handlers[h]]
            && (s'.handlers[h].Claimed? || s'.handlers[h].Failed? || s'.handlers[h].Posted?)
            && (CanBegin(s'.handlers[h]) ==> s'.handlers[h].Claimed?)
  {
    hide Chunks, Inv;
  }

  lemma {:induction false} UnpostableRun(s: State, actions: seq<Action>)
    requires Inv(s) && !MayPost(s.row, s.handlers) && Torn(Run(s, actions).calls) == Torn(s.calls)
    ensures !MayPost(Run(s, actions).row, Run(s, actions).handlers)
            && Reached(Run(s, actions).calls) == Reached(s.calls)
  {
    hide Inv, Step, MayPost, Torn, Reached;
    if actions != [] {
      var init, last := actions[..|actions| - 1], actions[|actions| - 1];
      RunInv(s, init);
      TornRun(s, init);
      TornStep(Run(s, init), last);
      UnpostableRun(s, init);
      UnpostableStep(Run(s, init), last);
    }
  }

  lemma FreshHandler(handlers: map<nat, Handler>) returns (h: nat)
    ensures h !in handlers
  {
    h := 0;
    var rest := handlers.Keys;
    while rest != {}
      invariant rest <= handlers.Keys && forall k | k in handlers && k !in rest :: k < h
      decreases rest
    {
      var k :| k in rest;
      rest, h := rest - {k}, if k < h then h else k + 1;
    }
  }

  lemma RunOne(s: State, a: Action)
    ensures Run(s, [a]) == Step(s, a)
  {
    assert [a][..0] == [];
    assert Run(s, []) == s;
  }

  lemma {:induction false} RunAppend(s: State, a: seq<Action>, b: seq<Action>)
    ensures Run(s, a + b) == Run(Run(s, a), b)
  {
    hide Step;
    if b == [] {
      assert a + b == a;
    } else {
      RunAppend(s, a, b[..|b| - 1]);
      assert (a + b)[..|a + b| - 1] == a + b[..|b| - 1];
    }
  }

  lemma RunCons(s: State, a: Action, rest: seq<Action>)
    ensures Run(s, [a] + rest) == Run(Step(s, a), rest)
  {
    hide Run, Step;
    RunAppend(s, [a], rest);
    RunOne(s, a);
  }

  /** A pending draft can be claimed by a new click. */
  lemma Claiming(s: State, h: nat)
    requires s.row.status == Pending && h !in s.handlers
    ensures var s' := Step(Step(s, Click(h, SendEdited("x"))), Next(h, Done, ""));
            && h in s'.handlers && s'.handlers[h] == Claimed("x", true, 0) && CanBegin(s'.handlers[h])
            && s'.calls == s.calls + [Call("x", true, 0, Open)]
  {
  }

  lemma PendingPosts(s: State) returns (actions: seq<Action>)
    requires Inv(s) && s.row.status == Pending
    ensures Torn(Run(s, actions).calls) == Torn(s.calls) && Reached(Run(s, actions).calls) == Reached(s.calls) + 1
  {
    hide Inv, Run, Step, Torn, Reached, CanBegin;
    var h := FreshHandler(s.handlers);
    var s1 := Step(s, Click(h, SendEdited("x")));
    var s2 := Step(s1, Next(h, Done, ""));
    StepInv(s, Click(h, SendEdited("x")));
    StepInv(s1, Next(h, Done, ""));
    Claiming(s, h);
    Appended(s.calls, Call("x", true, 0, Open));
    actions := [Next(h, Done, "")];
    RunOne(s2, Next(h, Done, ""));
    BeginsNow(s2, h);
    RunCons(s1, Next(h, Done, ""), actions);
    RunCons(s, Click(h, SendEdited("x")), [Next(h, Done, "")] + actions);
    actions := [Click(h, SendEdited("x"))] + ([Next(h, Done, "")] + actions);
  }

  lemma BeginsNow(s: State, h: nat)
    requires Inv(s) && h in s.handlers && CanBegin(s.handlers[h])
    ensures var s' := Step(s, Next(h, Done, ""));
            Torn(s'.calls) == Torn(s.calls) && Reached(s'.calls) == Reached(s.calls) + 1
  {
    hide Inv, FromClaimed, Torn, Reached, Chunks;
    NextCounts(s, h, Done);
  }

  lemma PutBack(s: State, h: nat)
    requires Inv(s) && h in s.handlers && (s.handlers[h].Failed? || s.handlers[h].Revising?)
    ensures Step(s, Next(h, Done, "")).row.status == Pending && Step(s, Next(h, Done, "")).calls == s.calls
  {
    hide Counted, Unedited, Flat;
  }

  lemma AnotherPost(s: State) returns (actions: seq<Action>)
    requires Inv(s) && MayPost(s.row, s.handlers)
    ensures Torn(Run(s, actions).calls) == Torn(s.calls) && Reached(Run(s, actions).calls) == Reached(s.calls) + 1
  {
    hide Inv, Run, Step, Torn, Reached, CanBegin;
    if s.row.status == Pending {
      actions := PendingPosts(s);
    } else {
      var h :| h in s.handlers && (CanBegin(s.handlers[h]) || s.handlers[h].Failed? || s.handlers[h].Revising?);
      var a := Next(h, Done, "");
      if CanBegin(s.handlers[h]) {
        RunOne(s, a);
        BeginsNow(s, h);
        actions := [a];
      } else {
        PutBack(s, h);
        StepInv(s, a);
        var more := PendingPosts(Step(s, a));
        RunCons(s, a, more);
        actions := [a] + more;
      }
    }
  }

  // ---- Theorems -----------------------------------------------------------------------------------

  /** The channel holds, in order, what of each call reached it. Only the last call can succeed, and at most
      one reaches the channel besides those that failed after something of them had. */
  lemma PostedAtMostOnce(s: State)
    requires Reachable(s)
    ensures s.channel == Flat(s.calls)
    ensures forall i | 0 <= i < |s.calls| - 1 :: s.calls[i].ending == Broken
    ensures Torn(s.calls) <= Reached(s.calls) <= Torn(s.calls) + 1
  {
    hide Chunks, Flat, Held, Unedited, Fits, Knows;
    ReachableInv(s);
    if s.calls != [] {
      var last := s.calls[|s.calls| - 1];
      BrokenAreTorn(Earlier(s.calls));
      Appended(Earlier(s.calls), last);
      assert s.calls == Earlier(s.calls) + [last];
    }
  }

  /** From any reachable state, and with no further call torn, the draft can get into the channel by two
      calls if and only if it has already, or a call was torn before and some click can still post it.
      For a pending draft that is: if and only if a call was torn. */
  lemma PostedTwiceIff(s: State)
    requires Reachable(s)
    ensures (exists actions :: Torn(Run(s, actions).calls) == Torn(s.calls) && Reached(Run(s, actions).calls) > 1)
            <==> Reached(s.calls) > 1 || (Torn(s.calls) > 0 && MayPost(s.row, s.handlers))
    ensures s.row.status == Pending ==>
              (Torn(s.calls) == 0 <==>
               forall actions | Torn(Run(s, actions).calls) == Torn(s.calls) :: Reached(Run(s, actions).calls) <= 1)
  {
    hide MayPost, Run, Inv, Torn, Reached;
    ReachableInv(s);
    PendingMayPost(s);
    NoActions(s);
    forall actions | Torn(Run(s, actions).calls) == Torn(s.calls)
      ensures Reached(Run(s, actions).calls) > 1 ==>
                Reached(s.calls) > 1 || (Torn(s.calls) > 0 && MayPost(s.row, s.handlers))
    {
      ReachableRun(s, actions);
      PostedAtMostOnce(Run(s, actions));
      if !MayPost(s.row, s.handlers) {
        UnpostableRun(s, actions);
      }
    }
    if MayPost(s.row, s.handlers) {
      MayPostIsBroken(s);
      var actions := AnotherPost(s);
      assert Reached(Run(s, actions).calls) == Torn(s.calls) + 1;
    }
  }

  lemma ReachableRun(s: State, actions: seq<Action>)
    requires Reachable(s)
    ensures Reachable(Run(s, actions))
  {
    hide Run;
    var text, before :| s == Run(Start(text), before);
    RunAppend(Start(text), before, actions);
  }

  lemma PendingMayPost(s: State)
    ensures s.row.status == Pending ==> MayPost(s.row, s.handlers)
  {
  }

  lemma NoActions(s: State)
    ensures Run(s, []) == s
  {
  }

  /** Sent and dismissed are never left, and nothing is posted from there on. */
  lemma OutcomesAreFinal(s: State, a: Action)
    requires Reachable(s) && s.row.status in {Sent, Dismissed}
    ensures Step(s, a).row.status == s.row.status && Step(s, a).channel == s.channel
  {
    hide Chunks, Flat, Counted;
    ReachableInv(s);
  }

  /** Nothing of a dismissed draft is in the channel if and only if no call was torn. */
  lemma DismissedMeansNothingPosted(s: State)
    requires Reachable(s) && s.row.status == Dismissed
    ensures s.channel == [] <==> Torn(s.calls) == 0
  {
    hide Chunks, Flat, Reached, Torn, Held, Unedited, AllBroken, Bounded;
    ReachableInv(s);
    Begun(s.calls, Call("", false, 0, Open));
    BrokenAreTorn(s.calls);
    NothingReached(s.calls);
  }

  lemma {:induction false} NothingReached(calls: seq<Call>)
    requires Bounded(calls)
    ensures Flat(calls) == [] <==> Reached(calls) == 0
  {
    hide Chunks;
    if calls != [] {
      assert calls == calls[..|calls| - 1] + [calls[|calls| - 1]];
      NothingReached(calls[..|calls| - 1]);
    }
  }

  /** A sent row records the text of the last call, as the owner edited it or as drafted, and the
      channel ends with exactly that text. */
  lemma SentRowMatchesThePost(s: State)
    requires Reachable(s) && s.row.status == Sent
    ensures s.calls != []
    ensures var last := s.calls[|s.calls| - 1];
            var n := |Chunks(last.text)|;
            && (if last.edited then s.row.edited == Some(last.text) else s.row.text == last.text)
            && n <= |s.channel| && Join(s.channel[|s.channel| - n..]) == last.text
  {
    hide Chunks, Flat, Held, Unedited, AllBroken, Bounded, Join, Reached, Torn, Messages;
    ReachableInv(s);
    var last := s.calls[|s.calls| - 1];
    LastSplit(s.calls, last);
    UpdatedFlat(Earlier(s.calls), last, last);
    AllMessages(last, Flat(Earlier(s.calls)));
    ChunksJoin(last.text);
  }

  lemma AllMessages(c: Call, before: seq<string>)
    requires c.reached == |Chunks(c.text)|
    ensures var channel := before + Messages(c);
            |Chunks(c.text)| <= |channel| && channel[|channel| - |Chunks(c.text)|..] == Chunks(c.text)
  {
    hide Chunks;
  }

  /** An unedited post carries the row's text, message by message; it is still the text that the claim
      returned, whatever an out-of-date dismissal or regeneration has tried to write meanwhile. */
  lemma UneditedPostCarriesRowText(s: State, h: nat, fate: Fate)
    requires Reachable(s) && h in s.handlers && s.handlers[h].Claimed? && !s.handlers[h].edited
    ensures var s', chunks := Step(s, Next(h, fate, "")), Chunks(s.row.text);
            && s'.row == s.row && s.handlers[h].sent <= |chunks|
            && s'.channel == s.channel + if fate.Refused? || s.handlers[h].sent == |chunks| then []
               else [chunks[s.handlers[h].sent]]
  {
    hide Chunks, Flat, Held, AllBroken, Bounded;
    ReachableInv(s);
    assert Knows(s.handlers[h], Latest(s.calls));
  }

  // ---- Witnesses ----------------------------------------------------------------------------------

  /** A draft that is pending again although its first message is in the channel. */
  function TornDraft(text: string): State
    requires text != ""
  {
    State(Row(Pending, text, None), map[], [Chunks(text)[0]], [Call(text, false, 1, Broken)])
  }

  lemma Run2(s: State, a: Action, b: Action)
    ensures Run(s, [a, b]) == Step(Step(s, a), b)
  {
    hide Step;
    assert [a, b] == [a] + [b];
    RunCons(s, a, [b]);
    RunOne(Step(s, a), b);
  }

  /** Approving up to the first message, from a row that nobody holds. */
  lemma FirstMessage(s: State, h: nat)
    requires s.row.status == Pending && s.row.text != "" && s.handlers == map[]
    ensures var s' := Run(s, [Click(h, Approve), Next(h, Done, "")]);
            && s'.row == s.row.(status := Sending) && s'.handlers == map[h := Claimed(s.row.text, false, 0)]
            && s'.channel == s.channel && s'.calls == s.calls + [Call(s.row.text, false, 0, Open)]
  {
    hide Run;
    Run2(s, Click(h, Approve), Next(h, Done, ""));
    assert Step(s, Click(h, Approve)).handlers == map[h := Loaded(s.row, Approve)];
  }

  lemma PutBackAfter(s: State, text: string)
    requires text != "" && s.row == Row(Sending, text, None) && s.handlers == map[0 := Failed(text)]
    requires s.channel == [Chunks(text)[0]] && s.calls == [Call(text, false, 1, Broken)]
    ensures Step(s, Next(0, Done, "")) == TornDraft(text)
  {
  }

  lemma SomeMessage(text: string)
    requires text != ""
    ensures Chunks(text) != []
  {
  }

  lemma SecondCall(s: State, text: string)
    requires text != "" && s.handlers == map[1 := Claimed(text, false, 0)]
    requires s.calls == [Call(text, false, 1, Broken)] + [Call(text, false, 0, Open)]
    ensures var s' := Step(s, Next(1, Done, ""));
            s'.channel == s.channel + [Chunks(text)[0]] && Reached(s'.calls) == 2 && Torn(s'.calls) == 1
  {
    hide Reached, Torn, Chunks;
    SomeMessage(text);
    var c, c' := Call(text, false, 1, Broken), AfterRequest(text, false, 0, Done);
    LastSplit(s.calls, c');
    assert Earlier(s.calls) == [c];
    Appended([c], c');
    Appended([], c);
    NoCalls();
    assert [] + [c] == [c];
  }

  /** Whatever tore the first call, approving once more posts the first message again, and dismissing
      leaves a dismissed draft with a message in the channel. */
  lemma TornPostsTwice(text: string)
    requires text != ""
    ensures var again := Run(TornDraft(text), [Click(1, Approve), Next(1, Done, "")] + [Next(1, Done, "")]);
            again.channel == [Chunks(text)[0]] + [Chunks(text)[0]] && Reached(again.calls) == 2
            && Torn(again.calls) == 1
    ensures var dropped := Run(TornDraft(text), [Click(1, Dismiss), Next(1, Done, "")]);
            dropped.row.status == Dismissed && dropped.channel == [Chunks(text)[0]]
  {
    hide Run, Reached, Torn, Chunks;
    SomeMessage(text);
    var s := TornDraft(text);
    FirstMessage(s, 1);
    RunAppend(s, [Click(1, Approve), Next(1, Done, "")], [Next(1, Done, "")]);
    var s2 := Run(s, [Click(1, Approve), Next(1, Done, "")]);
    RunOne(s2, Next(1, Done, ""));
    SecondCall(s2, text);
    Run2(s, Click(1, Dismiss), Next(1, Done, ""));
  }

  lemma NoCalls()
    ensures Reached([]) == 0 && Torn([]) == 0 && Flat([]) == []
  {
  }

  /** A lost answer tears a call: the one message is in the channel and the draft is pending again. */
  lemma LostAnswerTears(text: string)
    requires text != ""
    ensures Run(Start(text), [Click(0, Approve), Next(0, Done, "")] + [Next(0, Lost, ""), Next(0, Done, "")])
            == TornDraft(text)
  {
    hide Run, Chunks;
    SomeMessage(text);
    var s := Start(text);
    FirstMessage(s, 0);
    var s2 := Run(s, [Click(0, Approve), Next(0, Done, "")]);
    RunAppend(s, [Click(0, Approve), Next(0, Done, "")], [Next(0, Lost, ""), Next(0, Done, "")]);
    Run2(s2, Next(0, Lost, ""), Next(0, Done, ""));
    PutBackAfter(Step(s2, Next(0, Lost, "")), text);
  }

  /** So does the plain refusal of a second message, with no answer lost at all. */
  lemma RefusedMessageTears(text: string)
    requires |text| > MAX_CHUNK
    ensures Run(Start(text),
                [Click(0, Approve), Next(0, Done, "")] + [Next(0, Done, ""), Next(0, Refused, "")]
                  + [Next(0, Done, "")])
            == TornDraft(text)
  {
    hide Run, Chunks;
    var s := Start(text);
    TwoMessages(text);
    FirstMessage(s, 0);
    var s2 := Run(s, [Click(0, Approve), Next(0, Done, "")]);
    RunAppend(s, [Click(0, Approve), Next(0, Done, "")], [Next(0, Done, ""), Next(0, Refused, "")]);
    Run2(s2, Next(0, Done, ""), Next(0, Refused, ""));
    var s4 := Step(Step(s2, Next(0, Done, "")), Next(0, Refused, ""));
    RunAppend(s, [Click(0, Approve), Next(0, Done, "")] + [Next(0, Done, ""), Next(0, Refused, "")],
              [Next(0, Done, "")]);
    RunOne(s4, Next(0, Done, ""));
    assert Step(s2, Next(0, Done, "")).handlers == map[0 := Claimed(text, false, 1)];
    PutBackAfter(s4, text);
  }

  lemma TwoMessages(text: string)
    requires |text| > MAX_CHUNK
    ensures |Chunks(text)| >= 2
  {
    ChunksJoin(text[MAX_CHUNK..]);
  }
}
