/** What the desktop and the agent get from the broker of internal/computeruse/broker.go, told by what
    an observer has seen: which requests were accepted, from which session and when, which of them
    were handed over and when first, what was answered and given up, and when the session was heard.
 */
module BrokerAnswers {
  import opened Wrappers
  import opened ActionProtocol
  import opened DesktopBroker

  // ---- The expiry check ---------------------------------------------------------------------------

  /** When a request runs out: 30 s after it was accepted, or 300 s after it was first handed over. */
  function RunsOut(s: System, id: string): nat
    requires id in s.issued
  {
    if id in s.handed then s.handed[id].at + 300000 else s.issued[id].at + 30000
  }

  predicate TimedOutNow(s: System) {
    s.b.pending.Some? && s.b.pending.value.request.id in s.issued && s.clock >= RunsOut(s, s.b.pending.value.request.id)
  }

  /** No poll waits, nothing was heard for 30 s, and no request that was handed over is still running. */
  predicate Deserted(s: System) {
    && s.b.session != "" && s.polls == map[] && s.clock >= s.contact + 30000
    && (s.b.pending.Some? && s.b.pending.value.request.id in s.handed ==> TimedOutNow(s))
  }

  lemma InvDeadline(s: System)
    requires Inv(s) && s.b.pending.Some?
    ensures var p := s.b.pending.value;
            && p.request.id in s.issued && p.deadline == RunsOut(s, p.request.id)
            && (p.delivered <==> p.request.id in s.handed)
            && s.issued[p.request.id].action == p.request.action
            && s.issued[p.request.id].owner == s.b.owner && s.issued[p.request.id].session == s.b.session
            && p.request.id !in s.b.channels && p.request.id !in s.abandoned
  {
  }

  lemma NoPolls(s: System)
    requires Inv(s)
    ensures s.b.polling == 0 <==> s.polls == map[]
    ensures s.b.session != "" ==> s.b.leaseUntil == s.contact + 30000
  {
  }

  lemma ExpiryIs(s: System)
    requires Inv(s)
    ensures ExpirePending(s.b, s.clock) == if TimedOutNow(s) then Notify(Send(s.b, Failure(TimedOut))) else s.b
  {
    hide Inv, Send;
    if s.b.pending.Some? {
      InvDeadline(s);
    }
  }

  lemma LeaseIs(s: System)
    requires Inv(s)
    ensures LeaseOver(ExpirePending(s.b, s.clock), s.clock) <==> Deserted(s)
  {
    hide Inv;
    NoPolls(s);
    if s.b.pending.Some? {
      InvDeadline(s);
    }
  }

  lemma PendingInSession(s: System)
    requires Inv(s)
    ensures s.b.pending.Some? ==> s.b.session != ""
    ensures s.b.session == "" ==> s.shot.None?
  {
  }

  lemma DesertedHasSession(s: System)
    ensures Deserted(s) ==> s.b.session != ""
  {
  }

  lemma TimedOutHasPending(s: System)
    ensures TimedOutNow(s) ==> s.b.pending.Some?
  {
  }

  lemma CheckSettles(s: System)
    requires Inv(s)
    ensures var b, pending, over := Step(s, Tick).b, s.b.pending, TimedOutNow(s) || Deserted(s);
            && b.pending == (if over then None else pending)
            && b.channels == if over && pending.Some?
                             then s.b.channels[pending.value.request.id :=
                                    Failure(if TimedOutNow(s) then TimedOut else Disconnected)]
                             else s.b.channels
  {
    hide Inv, TimedOutNow, Deserted, LeaseOver, ExpirePending;
    ExpiryIs(s);
    LeaseIs(s);
    TimedOutHasPending(s);
  }

  lemma CheckEnds(s: System)
    requires Inv(s)
    ensures var c := Step(s, Tick);
            && c.b.owner == (if Deserted(s) then "" else s.b.owner)
            && c.b.session == (if Deserted(s) then "" else s.b.session)
            && c.shot == (if Deserted(s) then None else s.shot) && c.b.closed == s.b.closed
            && c == s.(b := c.b, shot := c.shot)
  {
    hide Inv, TimedOutNow, Deserted, LeaseOver, ExpirePending;
    ExpiryIs(s);
    LeaseIs(s);
    DesertedHasSession(s);
  }

  /** What the check at the start of every section does, exactly: a request fails when it has run out,
      a session ends when it is deserted, which fails its request too, and nothing else happens. */
  lemma CheckIs(s: System)
    requires Inv(s)
    ensures var c, pending, over := Step(s, Tick), s.b.pending, TimedOutNow(s) || Deserted(s);
            && c.b.pending == (if over then None else pending)
            && c.b.channels == (if over && pending.Some?
                                then s.b.channels[pending.value.request.id :=
                                       Failure(if TimedOutNow(s) then TimedOut else Disconnected)]
                                else s.b.channels)
            && c.b.owner == (if Deserted(s) then "" else s.b.owner)
            && c.b.session == (if Deserted(s) then "" else s.b.session)
            && c.shot == (if Deserted(s) then None else s.shot) && c.b.closed == s.b.closed
            && c == s.(b := c.b, shot := c.shot)
  {
    hide Inv, TimedOutNow, Deserted, Step;
    CheckSettles(s);
    CheckEnds(s);
  }

  // ---- Polls --------------------------------------------------------------------------------------

  /** The exchange that an event answers. */
  function Caller(s: System, event: Event): Exchange
    requires event.Call? || (event.Wake? && event.poll in s.polls)
  {
    if event.Call? then event.exchange else s.polls[event.poll].exchange
  }

  lemma HandleHands(b: State, e: Exchange, available: bool, now: nat)
    ensures var r := Handle(b, e, available, now).reply;
            r.Some? && r.value.request.Some? ==>
              Owns(b, e) && b.pending.Some? && r.value.request.value == b.pending.value.request
  {
    hide Send, EndSession;
  }

  lemma ResumedHands(b: State, e: Exchange, stop: bool, available: bool, now: nat)
    ensures var r := Resumed(b, e, stop, available, now).reply;
            r.Some? && r.value.request.Some? ==>
              Owns(b, e) && b.pending.Some? && r.value.request.value == b.pending.value.request
  {
  }

  /** The pending request of `c` is as it was accepted in `s`, an expiry check before. */
  lemma PendingIsAsked(s: System, c: System)
    requires Inv(c) && c.b.pending.Some?
    requires c.issued == s.issued && c.abandoned == s.abandoned && KeepsOutcomes(s.b, c.b)
    ensures var r := c.b.pending.value.request;
            && r.id in s.issued && r.action == s.issued[r.id].action && r.id !in s.b.channels && r.id !in s.abandoned
            && s.issued[r.id].owner == c.b.owner && s.issued[r.id].session == c.b.session
  {
    hide Inv;
    InvDeadline(c);
  }

  /** Whatever request a reply carries was accepted under its identifier from the caller's owner and
      session, with exactly that action, and is neither resolved nor given up. */
  lemma HandedOverIsAsked(s: System, event: Event)
    requires Reachable(s) && Answered(s, event).Some? && Answered(s, event).value.request.Some?
    ensures event.Call? || (event.Wake? && event.poll in s.polls)
    ensures var r, e := Answered(s, event).value.request.value, Caller(s, event);
            && r.id in s.issued && r.action == s.issued[r.id].action && r.id !in s.b.channels && r.id !in s.abandoned
            && s.issued[r.id].owner == e.owner && s.issued[r.id].session == e.sessionID
  {
    hide Inv, Checked, Leave, Handle, Resumed, ValidExchange, KeepsOutcomes;
    ReachableInv(s);
    if event.Call? {
      CheckedInv(s);
      CheckedKeeps(s);
      CheckedFrame(s);
      HandleHands(Checked(s).b, event.exchange, event.available, s.clock);
      PendingIsAsked(s, Checked(s));
    } else {
      LeftInv(s, event.poll);
      LeftKeeps(s, event.poll);
      var left := Leave(s, event.poll);
      CheckedInv(left);
      CheckedKeeps(left);
      CheckedFrame(left);
      ResumedHands(Checked(left).b, s.polls[event.poll].exchange, event.stop, event.available, s.clock);
      PendingIsAsked(left, Checked(left));
    }
  }

  lemma CheckedFrame(s: System)
    ensures Checked(s) == s.(b := Checked(s).b, shot := Checked(s).shot)
  {
  }

  lemma LeftKeeps(s: System, poll: nat)
    ensures Leave(s, poll) == s.(b := Leave(s, poll).b, polls := Leave(s, poll).polls)
    ensures Leave(s, poll).b == s.b.(polling := s.b.polling - 1)
  {
  }

  /** A poll of the owning session gets the pending request, handed over before or not, and waits if
      there is none. */
  lemma PollGetsThePending(s: System, e: Exchange, available: bool, poll: nat)
    requires Reachable(s) && ValidExchange(e) && e.operation.NextOp? && poll !in s.polls
    requires ForThisRun(s.b, e) && Owns(Step(s, Tick).b, e)
    ensures var b, s' := Step(s, Tick).b, Step(s, Call(e, available, poll));
            if b.pending.Some? then
              && Answered(s, Call(e, available, poll))
                 == Some(Response(2, true, available, NoReason, Some(b.pending.value.request)))
              && s'.b.pending.Some? && s'.b.pending.value.request == b.pending.value.request
              && b.pending.value.request.id in s'.handed && s'.polls == s.polls && s'.b.channels == b.channels
            else
              && Answered(s, Call(e, available, poll)) == None
              && s'.polls == s.polls[poll := Poll(e, s'.b.wake)] && s'.b.pending.None? && s'.b.channels == b.channels
  {
    hide Inv, ValidExchange, ExpirePending, ExpireLease;
    ReachableInv(s);
    CheckedInv(s);
    RunIsKept(s);
    OwnedIsOpen(Checked(s), e);
    CheckedFrame(s);
  }

  lemma RunIsKept(s: System)
    ensures Checked(s).b.namespace == s.b.namespace && Checked(s).b.run == s.b.run
    ensures Checked(s).b.closed == s.b.closed
  {
  }

  /** So does a poll that wakes up and was not stopped; one that was stopped is told that it is still
      connected. */
  lemma WakeGetsThePending(s: System, poll: nat, stop: bool, available: bool)
    requires Reachable(s) && poll in s.polls && (stop || s.polls[poll].generation != s.b.wake)
    requires Owns(Checked(Leave(s, poll)).b, s.polls[poll].exchange)
    ensures Inv(Leave(s, poll))
    ensures var b := Checked(Leave(s, poll)).b;
            Answered(s, Wake(poll, stop, available)) ==
            if stop then Some(Response(2, true, available, NoReason, None))
            else if b.pending.Some? then Some(Response(2, true, available, NoReason, Some(b.pending.value.request)))
            else None
    ensures var b, s' := Checked(Leave(s, poll)).b, Step(s, Wake(poll, stop, available));
            && s'.b.channels == b.channels && (s'.b.pending.Some? <==> b.pending.Some?)
            && (b.pending.Some? ==> s'.b.pending.value.request == b.pending.value.request)
            && (b.pending.Some? && !stop ==> b.pending.value.request.id in s'.handed)
            && s'.polls == if stop || b.pending.Some? then s.polls - {poll}
                           else s.polls[poll := Poll(s.polls[poll].exchange, s'.b.wake)]
  {
    hide Inv, Checked;
    ReachableInv(s);
    LeftInv(s, poll);
    CheckedInv(Leave(s, poll));
    OwnedIsOpen(Checked(Leave(s, poll)), s.polls[poll].exchange);
    assert s.polls == (s.polls - {poll})[poll := s.polls[poll]];
  }

  // ---- Requests of the agent ----------------------------------------------------------------------

  /** All that the action names is on the session's last full screenshot, if there is one. */
  ghost predicate OnLastShot(a: Action, shot: Option<(int, int)>) {
    shot.Some? ==> forall x, y | Names(a, x, y) :: 0 <= x < shot.value.0 && 0 <= y < shot.value.1
  }

  lemma RefuseIs(c: System, a: Action)
    requires Inv(c) && ValidAction(a)
    ensures Refuse(c.b, a) ==
            if c.b.session == "" then Some(NoDesktop)
            else if c.b.pending.Some? then Some(Busy)
            else if !OnLastShot(a, c.shot) then Some(Rejected)
            else None
  {
    hide Slots, Answers, Issued, Polls, Current, GoodFields, GoodShape, WithinBounds, Names;
    if c.shot.Some? {
      BoundsMeanOnScreen(a, c.shot.value.0, c.shot.value.1);
    }
  }

  /** A valid action is accepted exactly if a session is there, nothing is pending, and all it names is
      on the session's last full screenshot; then it is pending for the next poll, and otherwise the
      refusal tells the first of these that fails. */
  lemma AskIs(s: System, a: Action, id: string)
    requires Reachable(s) && ValidAction(a) && !a.kind.Wait? && Identifier(id) && id !in s.issued
    ensures var c, s' := Step(s, Tick), Step(s, Ask(a, id));
            && (id in s'.issued <==> c.b.session != "" && c.b.pending.None? && OnLastShot(a, c.shot))
            && (id !in s'.issued ==> s' == c)
            && (id in s'.issued ==>
                  && s'.b.pending == Some(Pending(Request(id, a), false, s.clock + 30000))
                  && s'.issued == s.issued[id := Issue(c.b.owner, c.b.session, a, s.clock, c.shot)]
                  && s' == c.(b := s'.b, issued := s'.issued)
                  && s'.b == c.b.(pending := s'.b.pending, wake := c.b.wake + 1))
            && (Refuse(c.b, a) == Some(NoDesktop) <==> c.b.session == "")
            && (Refuse(c.b, a) == Some(Busy) <==> c.b.pending.Some?)
            && (Refuse(c.b, a).None? <==> id in s'.issued)
  {
    hide Inv, Checked, ValidAction, Identifier, OnLastShot, Refuse;
    ReachableInv(s);
    CheckedInv(s);
    RefuseIs(Checked(s), a);
    PendingInSession(Checked(s));
  }

  // ---- Results ------------------------------------------------------------------------------------

  lemma OpenIfHanded(c: System, id: string)
    requires Inv(c) && id in c.handed && id !in c.b.channels && id !in c.abandoned
    ensures c.b.pending.Some? && c.b.pending.value.request.id == id && c.b.pending.value.delivered && !c.b.closed
  {
  }

  lemma MatchesIs(c: System, e: Exchange)
    requires Inv(c) && e.result.Some?
    ensures Matches(c.b, e) <==>
            e.requestID in c.handed && e.requestID !in c.b.channels && e.requestID !in c.abandoned
    ensures Matches(c.b, e) ==> e.requestID in c.issued
                                && c.issued[e.requestID].action == c.b.pending.value.request.action
  {
    hide Inv;
    if e.requestID in c.handed && e.requestID !in c.b.channels && e.requestID !in c.abandoned {
      OpenIfHanded(c, e.requestID);
    }
    if c.b.pending.Some? {
      InvDeadline(c);
    }
  }

  lemma TakeResultIs(c: System, e: Exchange, available: bool)
    requires Inv(c) && e.result.Some?
    ensures var s', r := AfterResult(c, e, available), TakeResult(c.b, e, available, c.clock).reply;
            var owner := c.b.session != "" && c.b.owner == e.owner && c.b.session == e.sessionID;
            if owner && e.requestID in c.handed && e.requestID !in c.b.channels && e.requestID !in c.abandoned then
              var shot, id := e.result.value.screenshot, e.requestID;
              && r == Some(Response(2, true, available, NoReason, None))
              && s'.b.pending.None? && s'.b.channels == c.b.channels[id := Answer(e.result.value)]
              && id in c.issued
              && s'.shot == (if shot.Some? && c.issued[id].action.kind != Zoom
                             then Some((shot.value.width, shot.value.height)) else c.shot)
            else
              && r == Some(Response(2, owner, available, if owner then StaleResult else NoSession, None))
              && s'.b.pending == c.b.pending && s'.b.channels == c.b.channels && s'.shot == c.shot
  {
    hide Inv;
    MatchesIs(c, e);
  }

  /** A result is taken exactly if it comes from the owning session and answers a request that was
      handed over and is still open; then it is what the agent gets, and its screenshot is the new
      reference for coordinates unless it shows a zoomed region. */
  lemma ResultIs(s: System, e: Exchange, available: bool, poll: nat)
    requires Reachable(s) && ValidExchange(e) && e.operation.ResultOp? && poll !in s.polls
    requires ForThisRun(s.b, e) && !s.b.closed
    ensures var c, s', r := Step(s, Tick), Step(s, Call(e, available, poll)), Answered(s, Call(e, available, poll));
            var owner := c.b.session != "" && c.b.owner == e.owner && c.b.session == e.sessionID;
            if owner && e.requestID in c.handed && e.requestID !in c.b.channels && e.requestID !in c.abandoned then
              var shot, id := e.result.value.screenshot, e.requestID;
              && r == Some(Response(2, true, available, NoReason, None))
              && s'.b.pending.None? && s'.b.channels == c.b.channels[id := Answer(e.result.value)]
              && id in c.issued
              && s'.shot == (if shot.Some? && c.issued[id].action.kind != Zoom
                             then Some((shot.value.width, shot.value.height)) else c.shot)
            else
              && r == Some(Response(2, owner, available, if owner then StaleResult else NoSession, None))
              && s'.b.pending == c.b.pending && s'.b.channels == c.b.channels && s'.shot == c.shot
  {
    hide Inv, Checked, AfterResult, TakeResult, ValidResult, Identifier;
    ReachableInv(s);
    CheckedInv(s);
    RunIsKept(s);
    TakeResultIs(Checked(s), e, available);
  }

  // ---- Sessions -----------------------------------------------------------------------------------

  lemma CallIsHandled(c: System, e: Exchange, available: bool, poll: nat)
    ensures AfterCall(c, e, available, poll).b == Handle(c.b, e, available, c.clock).b
  {
    hide Connect, Disconnect, TakeResult, Next, Owns, Matches, FullScreen, Handed, Waiting;
  }

  lemma HandleActive(b: State, e: Exchange, available: bool, now: nat)
    requires (b.closed ==> b.session == "") && e.sessionID != ""
    ensures var served := Handle(b, e, available, now);
            served.reply.Some? ==>
              && served.reply.value.active == (ForThisRun(b, e) && Owns(served.b, e))
              && served.reply.value.available == (ForThisRun(b, e) && available)
  {
  }

  lemma ResumedActive(b: State, e: Exchange, stop: bool, available: bool, now: nat)
    requires b.closed ==> b.session == ""
    ensures var served := Resumed(b, e, stop, available, now);
            served.reply.Some? ==>
              served.reply.value.active == Owns(served.b, e) && served.reply.value.available == available
  {
  }

  /** A reply calls the caller active exactly if its session is the connected one after the call. */
  lemma ActiveMeansConnected(s: System, event: Event)
    requires Reachable(s) && Answered(s, event).Some?
    ensures event.Call? || (event.Wake? && event.poll in s.polls)
    ensures var r, e, b := Answered(s, event).value, Caller(s, event), Step(s, event).b;
            var heard := event.Call? ==> ValidExchange(e) && ForThisRun(s.b, e);
            && r.active == (heard && b.session != "" && b.owner == e.owner && b.session == e.sessionID)
            && r.available == (heard && event.available)
  {
    hide Inv, Checked, Leave, Handle, Resumed, AfterCall, ValidExchange;
    ReachableInv(s);
    if event.Call? {
      CheckedInv(s);
      RunIsKept(s);
      if ValidExchange(event.exchange) {
        ValidSession(event.exchange);
        ClosedHasNone(Checked(s));
        CallIsHandled(Checked(s), event.exchange, event.available, event.poll);
        HandleActive(Checked(s).b, event.exchange, event.available, s.clock);
      }
    } else {
      LeftInv(s, event.poll);
      var left := Leave(s, event.poll);
      CheckedInv(left);
      ClosedHasNone(Checked(left));
      LeftKeeps(s, event.poll);
      ResumedActive(Checked(left).b, s.polls[event.poll].exchange, event.stop, event.available, s.clock);
    }
  }

  lemma ClosedHasNone(s: System)
    requires Inv(s)
    ensures s.b.closed ==> s.b.session == ""
  {
  }

  /** The session of `c` ended, with its request if it had one. */
  ghost predicate Ended(c: System, s': System) {
    && s'.b.pending.None? && s'.shot.None? && s'.handed == c.handed && s'.issued == c.issued
    && s'.b.channels == if c.b.pending.Some? then c.b.channels[c.b.pending.value.request.id := Failure(Disconnected)]
                        else c.b.channels
  }

  lemma EndedIs(c: System)
    ensures Ended(c, Become(c, EndSession(c.b, Disconnected)).(shot := None))
  {
  }

  /** Connecting succeeds exactly if nobody else's session is there. The same session goes on as it
      was; another session of the same owner ends first, and its request fails. */
  lemma ConnectIs(s: System, e: Exchange, available: bool, poll: nat)
    requires Reachable(s) && ValidExchange(e) && e.operation.ConnectOp? && poll !in s.polls
    requires ForThisRun(s.b, e) && !s.b.closed
    ensures var c, s' := Step(s, Tick), Step(s, Call(e, available, poll));
            if c.b.session != "" && c.b.owner != e.owner then s' == c
            else
              && s'.b.owner == e.owner && s'.b.session == e.sessionID && s'.contact == s.clock
              && if c.b.session == e.sessionID then s'.b == c.b.(leaseUntil := s.clock + 30000) && s'.shot == c.shot
                 else if c.b.session != "" then Ended(c, s')
                 else s'.b.pending.None? && s'.b.channels == c.b.channels && s'.shot.None?
  {
    hide Inv, Checked, ValidExchange;
    ReachableInv(s);
    CheckedInv(s);
    RunIsKept(s);
    ValidSession(e);
    PendingInSession(Checked(s));
  }

  /** Disconnecting ends the caller's own session and no other; closing ends any, for good. */
  lemma DisconnectIs(s: System, e: Exchange, available: bool, poll: nat)
    requires Reachable(s) && ValidExchange(e) && e.operation.DisconnectOp? && poll !in s.polls
    requires ForThisRun(s.b, e) && !s.b.closed
    ensures var c, s' := Step(s, Tick), Step(s, Call(e, available, poll));
            if Owns(c.b, e) then Ended(c, s') && s'.b.session == "" else s' == c
  {
    hide Inv, Checked, ValidExchange;
    ReachableInv(s);
    CheckedInv(s);
    RunIsKept(s);
    ValidSession(e);
  }

  lemma CloseEnds(s: System)
    requires Reachable(s)
    ensures Step(s, Close).b.closed && Step(s, Close).b.session == "" && Step(s, Close).b.pending.None?
    ensures !s.b.closed ==> Ended(s, Step(s, Close))
  {
    hide Inv;
    ReachableInv(s);
    ClosedHasNone(s);
    PendingInSession(s);
  }

  lemma HandleOpen(b: State, e: Exchange, available: bool, now: nat)
    ensures Handle(b, e, available, now).b.closed == b.closed
  {
  }

  lemma ShutCloses(b: State)
    ensures Shut(b).closed
  {
  }

  /** Nothing but closing closes the broker, and nothing reopens it. */
  lemma ClosedIff(s: System, event: Event)
    ensures Step(s, event).b.closed <==> s.b.closed || event.Close?
  {
    hide Checked, AfterCall, Handle, ValidAction, ValidExchange, Identifier, EndSession;
    RunIsKept(s);
    match event
    case Call(e, available, poll) =>
      CallIsHandled(Checked(s), e, available, poll);
      HandleOpen(Checked(s).b, e, available, Checked(s).clock);
    case Wake(poll, _, _) =>
      RunIsKept(Leave(s, poll));
    case Close => ShutCloses(s.b);
    case _ =>
  }
}
