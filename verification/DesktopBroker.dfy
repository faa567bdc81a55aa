/** The broker of internal/computeruse/broker.go, which relays the agent's desktop actions to one
    desktop session. Each section under the mutex is one atomic step that reads the clock once;
    times are in milliseconds.
 */
module DesktopBroker {
  import opened Wrappers
  import opened ActionProtocol

  const LEASE := 30000
  const PICKUP := 30000
  const DELIVERED := 300000

  datatype Fault = TimedOut | Disconnected

  datatype Outcome = Answer(result: Result) | Failure(fault: Fault)

  datatype Pending = Pending(request: Request, delivered: bool, deadline: nat)

  /** The broker's fields. `wake` counts the wake channels made so far, `channels` holds what was
      sent on each request's one-slot channel, and `stuck` is set by a send to a full one. */
  datatype State = State(
    namespace: string, run: string, owner: string, session: string, leaseUntil: nat, pending: Option<Pending>,
    screenW: int, screenH: int, polling: int, wake: nat, closed: bool,
    channels: map<string, Outcome>, stuck: bool)

  // ---- The locked sections ------------------------------------------------------------------------

  function Notify(b: State): State {
    b.(wake := b.wake + 1)
  }

  /** Sends on the pending request's channel and drops the request. */
  function Send(b: State, o: Outcome): State {
    if b.pending.None? then b
    else
      var id := b.pending.value.request.id;
      b.(channels := b.channels[id := o], stuck := b.stuck || id in b.channels, pending := None)
  }

  function EndSession(b: State, fault: Fault): State {
    Notify(Send(b, Failure(fault)).(owner := "", session := "", screenW := 0, screenH := 0))
  }

  function ExpirePending(b: State, now: nat): State {
    if b.pending.Some? && now >= b.pending.value.deadline then Notify(Send(b, Failure(TimedOut))) else b
  }

  predicate LeaseOver(b: State, now: nat) {
    b.session != "" && b.polling == 0 && now >= b.leaseUntil && (b.pending.None? || !b.pending.value.delivered)
  }

  function ExpireLease(b: State, now: nat): State {
    if LeaseOver(b, now) then EndSession(b, Disconnected) else b
  }

  function Expire(b: State, now: nat): State {
    ExpireLease(ExpirePending(b, now), now)
  }

  function Shut(b: State): State {
    if b.closed then b else EndSession(b.(closed := true), Disconnected)
  }

  predicate Owns(b: State, e: Exchange) {
    b.session != "" && b.owner == e.owner && b.session == e.sessionID
  }

  function Reply(active: bool, available: bool, reason: Reason): Response {
    Response(PROTOCOL, active, available, reason, None)
  }

  /** What a locked section leaves behind; no response means that it waits for the next wake. */
  datatype Served = Served(b: State, reply: Option<Response>)

  function Connect(b: State, e: Exchange, available: bool, now: nat): Served {
    if b.session != "" && b.owner != e.owner then Served(b, Some(Reply(false, available, ForeignOwner)))
    else
      var ended := if b.session != "" && b.session != e.sessionID then EndSession(b, Disconnected) else b;
      var joined := if b.session != e.sessionID then Notify(ended.(owner := e.owner, session := e.sessionID))
            else ended;
      Served(joined.(leaseUntil := now + LEASE), Some(Reply(true, available, NoReason)))
  }

  function Disconnect(b: State, e: Exchange, available: bool): Served {
    if !Owns(b, e) then Served(b, Some(Reply(false, available, NoSession)))
    else Served(EndSession(b, Disconnected), Some(Reply(false, available, LoggedOff)))
  }

  predicate Matches(b: State, e: Exchange) {
    b.pending.Some? && b.pending.value.delivered && b.pending.value.request.id == e.requestID && e.result.Some?
  }

  predicate FullScreen(b: State, e: Exchange) {
    Matches(b, e) && e.result.value.screenshot.Some? && b.pending.value.request.action.kind != Zoom
  }

  function TakeResult(b: State, e: Exchange, available: bool, now: nat): Served {
    if !Owns(b, e) then Served(b, Some(Reply(false, available, NoSession)))
    else
      var kept := b.(leaseUntil := now + LEASE);
      if !Matches(b, e) then Served(kept, Some(Reply(true, available, StaleResult)))
      else
        var shot := e.result.value.screenshot;
        var seen := if FullScreen(b, e) then kept.(screenW := shot.value.width, screenH := shot.value.height) else kept;
        Served(Notify(Send(seen, Answer(e.result.value))), Some(Reply(true, available, NoReason)))
  }

  /** One turn of the long-poll loop. */
  function PollOnce(b: State, available: bool, now: nat): Served {
    var kept := b.(leaseUntil := now + LEASE);
    if b.pending.None? then Served(kept.(polling := b.polling + 1), None)
    else
      var p := if b.pending.value.delivered then b.pending.value
            else b.pending.value.(delivered := true, deadline := now + DELIVERED);
      Served(kept.(pending := Some(p)), Some(Reply(true, available, NoReason).(request := Some(p.request))))
  }

  function Next(b: State, e: Exchange, available: bool, now: nat): Served {
    if !Owns(b, e) then Served(b, Some(Reply(false, available, NoSession))) else PollOnce(b, available, now)
  }

  /** The loop after the wait; `stop` says that its timer or its context ended it. */
  function Resumed(b: State, e: Exchange, stop: bool, available: bool, now: nat): Served {
    if b.closed then Served(b, Some(Reply(false, available, ClosedRun)))
    else if !Owns(b, e) then Served(b, Some(Reply(false, available, Ended)))
    else if stop then Served(b.(leaseUntil := now + LEASE), Some(Reply(true, available, NoReason)))
    else PollOnce(b, available, now)
  }

  predicate ForThisRun(b: State, e: Exchange) {
    e.namespace == b.namespace && e.run == b.run
  }

  /** An exchange after validation and the expiry check. */
  function Handle(b: State, e: Exchange, available: bool, now: nat): Served {
    if !ForThisRun(b, e) then Served(b, Some(Response(PROTOCOL, false, false, Invalid, None)))
    else if b.closed then Served(b, Some(Reply(false, available, ClosedRun)))
    else
      match e.operation
      case ConnectOp => Connect(b, e, available, now)
      case DisconnectOp => Disconnect(b, e, available)
      case ResultOp => TakeResult(b, e, available, now)
      case _ => Next(b, e, available, now)
  }

  datatype Refusal = Rejected | NoDesktop | Busy

  /** Why a request is refused after the expiry check, if it is. */
  function Refuse(b: State, a: Action): Option<Refusal> {
    if b.closed || b.session == "" then Some(NoDesktop)
    else if b.pending.Some? then Some(Busy)
    else if b.screenW > 0 && !WithinBounds(a, b.screenW, b.screenH) then Some(Rejected)
    else None
  }

  function Accept(b: State, a: Action, id: string, now: nat): State {
    Notify(b.(pending := Some(Pending(Request(id, a), false, now + PICKUP))))
  }

  function Abandon(b: State, id: string): State {
    if b.pending.Some? && b.pending.value.request.id == id then Notify(b.(pending := None)) else b
  }

  // ---- The class ----------------------------------------------------------------------------------

  class Broker {
    const namespace: string
    const run: string
    var owner: string
    var session: string
    var leaseUntil: nat
    var pending: Option<Pending>
    var screenW: int
    var screenH: int
    var polling: int
    var wake: nat
    var closed: bool
    var channels: map<string, Outcome>
    var stuck: bool

    ghost function Model(): State
      reads this
    {
      State(namespace, run, owner, session, leaseUntil, pending, screenW, screenH, polling, wake, closed, channels,
            stuck)
    }

    constructor (namespace: string, run: string)
      ensures Model() == Fresh(namespace, run)
    {
      this.namespace, this.run := namespace, run;
      owner, session, leaseUntil, pending := "", "", 0, None;
      screenW, screenH, polling, wake, closed := 0, 0, 0, 0, false;
      channels, stuck := map[], false;
    }

    method NotifyAll()
      modifies this`wake
      ensures Model() == Notify(old(Model()))
    {
      wake := wake + 1;
    }

    method Resolve(o: Outcome)
      modifies this`channels, this`stuck, this`pending
      ensures Model() == Send(old(Model()), o)
    {
      if pending.Some? {
        var id := pending.value.request.id;
        stuck := stuck || id in channels;
        channels := channels[id := o];
        pending := None;
      }
    }

    method Finish(fault: Fault)
      modifies this
      ensures Model() == EndSession(old(Model()), fault)
    {
      Resolve(Failure(fault));
      owner, session := "", "";
      screenW, screenH := 0, 0;
      NotifyAll();
    }

    method CheckExpiry(now: nat)
      modifies this
      ensures Model() == Expire(old(Model()), now)
    {
      if pending.Some? && now >= pending.value.deadline {
        Resolve(Failure(TimedOut));
        NotifyAll();
      }
      if session != "" && polling == 0 && now >= leaseUntil && (pending.None? || !pending.value.delivered) {
        Finish(Disconnected);
      }
    }

    method Close()
      modifies this
      ensures Model() == Shut(old(Model()))
    {
      if !closed {
        closed := true;
        Finish(Disconnected);
      }
    }

    method Active(now: nat) returns (active: bool)
      modifies this
      ensures Model() == Expire(old(Model()), now)
      ensures active <==> !closed && session != ""
    {
      CheckExpiry(now);
      active := !closed && session != "";
    }

    predicate OwnedBy(e: Exchange)
      reads this
    {
      session != "" && owner == e.owner && session == e.sessionID
    }

    /** An exchange up to its answer or its first wait. */
    method Handling(e: Exchange, available: bool, now: nat) returns (reply: Option<Response>)
      modifies this
      ensures Served(Model(), reply) == Handle(old(Model()), e, available, now)
    {
      if e.namespace != namespace || e.run != run {
        return Some(Response(PROTOCOL, false, false, Invalid, None));
      }
      if closed {
        return Some(Reply(false, available, ClosedRun));
      }
      match e.operation {
        case ConnectOp =>
          if session != "" && owner != e.owner {
            return Some(Reply(false, available, ForeignOwner));
          }
          if session != e.sessionID {
            if session != "" {
              Finish(Disconnected);
            }
            owner, session := e.owner, e.sessionID;
            NotifyAll();
          }
          leaseUntil := now + LEASE;
          reply := Some(Reply(true, available, NoReason));
        case DisconnectOp =>
          if !OwnedBy(e) {
            return Some(Reply(false, available, NoSession));
          }
          Finish(Disconnected);
          reply := Some(Reply(false, available, LoggedOff));
        case ResultOp =>
          reply := Result(e, available, now);
        case _ =>
          if !OwnedBy(e) {
            return Some(Reply(false, available, NoSession));
          }
          reply := Poll(available, now);
      }
    }

    method Result(e: Exchange, available: bool, now: nat) returns (reply: Option<Response>)
      modifies this
      ensures Served(Model(), reply) == TakeResult(old(Model()), e, available, now)
    {
      if !OwnedBy(e) {
        return Some(Reply(false, available, NoSession));
      }
      leaseUntil := now + LEASE;
      if pending.None? || !pending.value.delivered || pending.value.request.id != e.requestID || e.result.None? {
        return Some(Reply(true, available, StaleResult));
      }
      var result := e.result.value;
      if result.screenshot.Some? && pending.value.request.action.kind != Zoom {
        screenW, screenH := result.screenshot.value.width, result.screenshot.value.height;
      }
      Resolve(Answer(result));
      NotifyAll();
      reply := Some(Reply(true, available, NoReason));
    }

    method Poll(available: bool, now: nat) returns (reply: Option<Response>)
      modifies this
      ensures Served(Model(), reply) == PollOnce(old(Model()), available, now)
    {
      leaseUntil := now + LEASE;
      if pending.Some? {
        if !pending.value.delivered {
          pending := Some(pending.value.(delivered := true, deadline := now + DELIVERED));
        }
        return Some(Reply(true, available, NoReason).(request := Some(pending.value.request)));
      }
      polling := polling + 1;
      reply := None;
    }

    /** A long poll after its wait. */
    method Resume(e: Exchange, stop: bool, available: bool, now: nat) returns (reply: Option<Response>)
      modifies this
      ensures Served(Model(), reply)
              == Resumed(Expire(old(Model()).(polling := old(polling) - 1), now), e, stop, available, now)
    {
      polling := polling - 1;
      CheckExpiry(now);
      if closed {
        return Some(Reply(false, available, ClosedRun));
      }
      if !OwnedBy(e) {
        return Some(Reply(false, available, Ended));
      }
      if stop {
        leaseUntil := now + LEASE;
        return Some(Reply(true, available, NoReason));
      }
      reply := Poll(available, now);
    }

    /** Request up to its wait; `id` is the identifier drawn for it. */
    method Submit(a: Action, id: string, now: nat) returns (refusal: Option<Refusal>)
      modifies this
      ensures !ValidAction(a) || a.kind.Wait? ==> refusal == Some(Rejected) && Model() == old(Model())
      ensures ValidAction(a) && !a.kind.Wait? ==>
                var b := Expire(old(Model()), now);
                refusal == Refuse(b, a) && Model() == if refusal.None? then Accept(b, a, id, now) else b
    {
      if a.kind.Wait? || !ValidAction(a) {
        return Some(Rejected);
      }
      CheckExpiry(now);
      if closed || session == "" {
        return Some(NoDesktop);
      }
      if pending.Some? {
        return Some(Busy);
      }
      if screenW > 0 && !WithinBounds(a, screenW, screenH) {
        return Some(Rejected);
      }
      pending := Some(Pending(Request(id, a), false, now + PICKUP));
      NotifyAll();
      refusal := None;
    }

    /** Request when its context ends first. */
    method GiveUp(id: string)
      modifies this
      ensures Model() == Abandon(old(Model()), id)
    {
      if pending.Some? && pending.value.request.id == id {
        pending := None;
        NotifyAll();
      }
    }
  }

  function Fresh(namespace: string, run: string): State {
    State(namespace, run, "", "", 0, None, 0, 0, 0, 0, false, map[], false)
  }

  // ---- Runs ---------------------------------------------------------------------------------------

  /** Where and when a request was accepted, and the full screenshot the session last had then. */
  datatype Issue = Issue(owner: string, session: string, action: Action, at: nat, shot: Option<(int, int)>)

  /** Who a request was handed to, and when it was for the first time. */
  datatype Handing = Handing(owner: string, session: string, at: nat)

  datatype Poll = Poll(exchange: Exchange, generation: nat)

  /** The broker with what an observer has seen: the clock, the long polls that wait, the requests
      accepted, given up, handed out and answered, and the session's last full screenshot and contact. */
  datatype System = System(
    b: State, clock: nat, polls: map<nat, Poll>, issued: map<string, Issue>, abandoned: set<string>,
    handed: map<string, Handing>, answered: map<string, Exchange>, shot: Option<(int, int)>, contact: nat)

  datatype Event =
    | Pass(time: nat)
    | Tick
    | Call(exchange: Exchange, available: bool, poll: nat)
    | Wake(poll: nat, stop: bool, available: bool)
    | Ask(action: Action, id: string)
    | Cancel(id: string)
    | Close

  function Start(namespace: string, run: string): System {
    System(Fresh(namespace, run), 0, map[], map[], {}, map[], map[], None, 0)
  }

  /** The broker moved on; a session that ended takes its screenshot along. */
  function Become(s: System, b: State): System {
    s.(b := b, shot := if b.session == s.b.session then s.shot else None)
  }

  function Checked(s: System): System {
    Become(s, Expire(s.b, s.clock))
  }

  function Handed(s: System, reply: Option<Response>): map<string, Handing> {
    if reply.Some? && reply.value.request.Some? && reply.value.request.value.id !in s.handed
    then s.handed[reply.value.request.value.id := Handing(s.b.owner, s.b.session, s.clock)] else s.handed
  }

  function Waiting(s: System, poll: nat, e: Exchange, served: Served): map<nat, Poll> {
    if served.reply.None? then s.polls[poll := Poll(e, served.b.wake)] else s.polls
  }

  function AfterConnect(s: System, e: Exchange, available: bool): System {
    var served := Connect(s.b, e, available, s.clock);
    Become(s, served.b).(contact := if served.reply.value.active then s.clock else s.contact)
  }

  function AfterDisconnect(s: System, e: Exchange, available: bool): System {
    Become(s, Disconnect(s.b, e, available).b)
  }

  function AfterResult(s: System, e: Exchange, available: bool): System {
    var served := TakeResult(s.b, e, available, s.clock);
    Become(s, served.b).(
      contact := if Owns(s.b, e) then s.clock else s.contact,
      answered := if Owns(s.b, e) && Matches(s.b, e) then s.answered[e.requestID := e] else s.answered,
      shot := if Owns(s.b, e) && FullScreen(s.b, e)
              then Some((e.result.value.screenshot.value.width, e.result.value.screenshot.value.height)) else s.shot)
  }

  function AfterNext(s: System, e: Exchange, available: bool, poll: nat): System {
    var served := Next(s.b, e, available, s.clock);
    s.(b := served.b, contact := if Owns(s.b, e) then s.clock else s.contact,
       handed := Handed(s, served.reply), polls := Waiting(s, poll, e, served))
  }

  function AfterCall(s: System, e: Exchange, available: bool, poll: nat): System {
    if !ForThisRun(s.b, e) || s.b.closed then s
    else
      match e.operation
      case ConnectOp => AfterConnect(s, e, available)
      case DisconnectOp => AfterDisconnect(s, e, available)
      case ResultOp => AfterResult(s, e, available)
      case _ => AfterNext(s, e, available, poll)
  }

  /** The poll leaves the wait, before the expiry check. */
  function Leave(s: System, poll: nat): System {
    s.(polls := s.polls - {poll}, b := s.b.(polling := s.b.polling - 1))
  }

  function AfterWait(s: System, e: Exchange, stop: bool, available: bool, poll: nat): System {
    var served := Resumed(s.b, e, stop, available, s.clock);
    s.(b := served.b, contact := if !s.b.closed && Owns(s.b, e) then s.clock else s.contact,
       handed := Handed(s, served.reply), polls := Waiting(s, poll, e, served))
  }

  function AfterAsk(s: System, a: Action, id: string): System {
    if Refuse(s.b, a).Some? then s
    else s.(b := Accept(s.b, a, id, s.clock),
            issued := s.issued[id := Issue(s.b.owner, s.b.session, a, s.clock, s.shot)])
  }

  function AfterCancel(s: System, id: string): System {
    s.(b := Abandon(s.b, id),
       abandoned := if s.b.pending.Some? && s.b.pending.value.request.id == id then s.abandoned + {id} else s.abandoned)
  }

  /** Events that cannot happen as described change nothing: identifiers are never drawn twice, a
      poll has one number, and a waiting poll only goes on when its channel is closed or it stops. */
  function Step(s: System, event: Event): System {
    match event
    case Pass(time) => s.(clock := s.clock + time)
    case Tick => Checked(s)
    case Call(e, available, poll) =>
      if !ValidExchange(e) || poll in s.polls then s else AfterCall(Checked(s), e, available, poll)
    case Wake(poll, stop, available) =>
      if poll !in s.polls || (!stop && s.polls[poll].generation == s.b.wake) then s
      else AfterWait(Checked(Leave(s, poll)), s.polls[poll].exchange, stop, available, poll)
    case Ask(a, id) =>
      if !ValidAction(a) || a.kind.Wait? || id in s.issued || !Identifier(id) then s else AfterAsk(Checked(s), a, id)
    case Cancel(id) => AfterCancel(s, id)
    case Close => Become(s, Shut(s.b))
  }

  function Run(s: System, events: seq<Event>): System {
    if events == [] then s else Step(Run(s, events[..|events| - 1]), events[|events| - 1])
  }

  // ---- Invariants ---------------------------------------------------------------------------------

  /** A pending request needs a live session, and a closed broker has neither. */
  ghost predicate Sessions(pending: Option<Pending>, session: string, closed: bool) {
    (pending.Some? ==> session != "") && (closed ==> session == "")
  }

  /** Every accepted request is pending, or has its one outcome, or was given up. */
  ghost predicate Slots(pending: Option<Pending>, channels: map<string, Outcome>, stuck: bool,
                        issued: map<string, Issue>, abandoned: set<string>)
  {
    && !stuck
    && (forall id | id in channels :: id in issued && id !in abandoned)
    && (forall id | id in abandoned :: id in issued)
    && (pending.Some? ==> var id := pending.value.request.id; id in issued && id !in channels && id !in abandoned)
    && (forall id | id in issued ::
          id in channels || id in abandoned || (pending.Some? && pending.value.request.id == id))
  }

  /** The pending request is the one accepted from this session, and its deadline follows from when it
      was accepted and, once it is, from when it was first handed over. */
  ghost predicate Current(pending: Option<Pending>, owner: string, session: string, issued: map<string, Issue>,
                          handed: map<string, Handing>)
  {
    pending.Some? ==>
      var p := pending.value;
      && p.request.id in issued
      && var i := issued[p.request.id];
         && i.owner == owner && i.session == session && i.action == p.request.action
         && (p.delivered <==> p.request.id in handed)
         && if p.delivered
            then var h := handed[p.request.id];
                 (h.owner, h.session) == (owner, session) && h.at < i.at + PICKUP && p.deadline == h.at + DELIVERED
            else p.deadline == i.at + PICKUP
  }

  ghost predicate Issued(issued: map<string, Issue>) {
    forall id | id in issued ::
      var i := issued[id];
      && Identifier(id) && ValidAction(i.action) && !i.action.kind.Wait?
      && (i.shot.Some? ==> WithinBounds(i.action, i.shot.value.0, i.shot.value.1))
  }

  /** Answers came from the session that the request was accepted from and handed to. */
  ghost predicate Answers(channels: map<string, Outcome>, issued: map<string, Issue>,
                          handed: map<string, Handing>, answered: map<string, Exchange>)
  {
    && (forall id | id in handed :: id in issued)
    && (forall id | id in channels && channels[id].Answer? ::
          id in answered && answered[id].result == Some(channels[id].result))
    && (forall id | id in answered :: id in channels && Faithful(id, channels[id], issued, handed, answered[id]))
  }

  ghost predicate Faithful(id: string, o: Outcome, issued: map<string, Issue>, handed: map<string, Handing>,
                           e: Exchange)
  {
    && e.requestID == id && e.result.Some? && o == Answer(e.result.value)
    && id in issued && (issued[id].owner, issued[id].session) == (e.owner, e.sessionID)
    && id in handed && (handed[id].owner, handed[id].session) == (e.owner, e.sessionID)
  }

  /** The broker's screen is the session's last full screenshot. */
  ghost predicate Screen(session: string, screenW: int, screenH: int, shot: Option<(int, int)>) {
    && (session == "" ==> shot.None?)
    && if shot.None? then screenW == 0 && screenH == 0 else screenW > 0 && (screenW, screenH) == shot.value
  }

  /** A poll that waits on the current channel has nothing to wake up for. */
  ghost predicate Polls(polling: int, wake: nat, polls: map<nat, Poll>, pending: Option<Pending>, owner: string,
                        session: string, closed: bool)
  {
    && polling == |polls|
    && forall k | k in polls ::
         && polls[k].generation <= wake
         && (polls[k].generation == wake ==>
               pending.None? && !closed && session != "" && owner == polls[k].exchange.owner
               && session == polls[k].exchange.sessionID)
  }

  /** The lease runs from the session's last contact. */
  ghost predicate Lease(session: string, leaseUntil: nat, contact: nat, clock: nat) {
    contact <= clock && (session != "" ==> leaseUntil == contact + LEASE)
  }

  ghost predicate Inv(s: System) {
    && Sessions(s.b.pending, s.b.session, s.b.closed)
    && Slots(s.b.pending, s.b.channels, s.b.stuck, s.issued, s.abandoned)
    && Current(s.b.pending, s.b.owner, s.b.session, s.issued, s.handed)
    && Issued(s.issued)
    && Answers(s.b.channels, s.issued, s.handed, s.answered)
    && Screen(s.b.session, s.b.screenW, s.b.screenH, s.shot)
    && Polls(s.b.polling, s.b.wake, s.polls, s.b.pending, s.b.owner, s.b.session, s.b.closed)
    && Lease(s.b.session, s.b.leaseUntil, s.contact, s.clock)
  }

  /** The pending request's deadline has not passed. */
  predicate Unexpired(s: System) {
    s.b.pending.Some? ==> s.clock < s.b.pending.value.deadline
  }

  // ---- Ending a request or a session --------------------------------------------------------------

  lemma SendSlots(b: State, o: Outcome, issued: map<string, Issue>, abandoned: set<string>)
    requires Slots(b.pending, b.channels, b.stuck, issued, abandoned)
    ensures var b' := Send(b, o); Slots(b'.pending, b'.channels, b'.stuck, issued, abandoned)
  {
  }

  lemma FailureAnswers(b: State, fault: Fault, s: System)
    requires Slots(b.pending, b.channels, b.stuck, s.issued, s.abandoned)
    requires Answers(b.channels, s.issued, s.handed, s.answered)
    ensures Answers(Send(b, Failure(fault)).channels, s.issued, s.handed, s.answered)
  {
    hide Faithful;
    var b' := Send(b, Failure(fault));
    forall id | id in s.answered
      ensures id in b'.channels && Faithful(id, b'.channels[id], s.issued, s.handed, s.answered[id])
    {
      assert b.pending.Some? ==> b.pending.value.request.id != id;
    }
  }

  lemma NotifiedPolls(was: State, now: State, polls: map<nat, Poll>)
    requires Polls(was.polling, was.wake, polls, was.pending, was.owner, was.session, was.closed)
    requires now.polling == was.polling && now.wake > was.wake
    ensures Polls(now.polling, now.wake, polls, now.pending, now.owner, now.session, now.closed)
  {
  }

  lemma EndSessionInv(s: System, fault: Fault)
    requires Inv(s)
    ensures Inv(Become(s, EndSession(s.b, fault)))
  {
    hide Slots, Answers, Issued, Polls;
    SendSlots(s.b, Failure(fault), s.issued, s.abandoned);
    FailureAnswers(s.b, fault, s);
    NotifiedPolls(s.b, EndSession(s.b, fault), s.polls);
  }

  lemma ExpirePendingInv(s: System)
    requires Inv(s)
    ensures Inv(Become(s, ExpirePending(s.b, s.clock))) && Unexpired(Become(s, ExpirePending(s.b, s.clock)))
  {
    hide Slots, Answers, Issued, Polls;
    SendSlots(s.b, Failure(TimedOut), s.issued, s.abandoned);
    FailureAnswers(s.b, TimedOut, s);
    var b := ExpirePending(s.b, s.clock);
    if b.wake > s.b.wake {
      NotifiedPolls(s.b, b, s.polls);
    }
  }

  lemma CheckedInv(s: System)
    requires Inv(s)
    ensures Inv(Checked(s)) && Unexpired(Checked(s))
    ensures Checked(s).clock == s.clock && Checked(s).polls == s.polls && Checked(s).issued == s.issued
  {
    hide Slots, Answers, Issued, Polls, Current;
    ExpirePendingInv(s);
    EndSessionInv(Become(s, ExpirePending(s.b, s.clock)), Disconnected);
  }

  lemma ShutInv(s: System)
    requires Inv(s)
    ensures Inv(Become(s, Shut(s.b)))
  {
    hide Slots, Answers, Issued, Polls, Current;
    SendSlots(s.b, Failure(Disconnected), s.issued, s.abandoned);
    FailureAnswers(s.b, Disconnected, s);
    if !s.b.closed {
      NotifiedPolls(s.b, Shut(s.b), s.polls);
    }
    NothingCurrent(s.b.owner, s.b.session, s.issued, s.handed);
  }

  lemma NothingCurrent(owner: string, session: string, issued: map<string, Issue>,
                       handed: map<string, Handing>)
    ensures forall owner, session :: Current(None, owner, session, issued, handed)
  {
  }

  // ---- The exchanges ------------------------------------------------------------------------------

  function Joined(b: State, e: Exchange, now: nat): State {
    Notify(b.(owner := e.owner, session := e.sessionID)).(leaseUntil := now + LEASE)
  }

  lemma JoinInv(s: System, e: Exchange)
    requires Inv(s) && !s.b.closed && s.b.session == "" && e.sessionID != ""
    ensures Inv(s.(b := Joined(s.b, e, s.clock), contact := s.clock))
  {
    hide Slots, Answers, Issued, Polls, Current;
    NotifiedPolls(s.b, Joined(s.b, e, s.clock), s.polls);
    NothingCurrent(e.owner, e.sessionID, s.issued, s.handed);
  }

  lemma RefreshInv(s: System)
    requires Inv(s)
    ensures Inv(s.(b := s.b.(leaseUntil := s.clock + LEASE), contact := s.clock))
  {
    hide Slots, Answers, Issued, Polls, Current, Screen;
  }

  function Vacated(s: System): System {
    if s.b.session != "" then Become(s, EndSession(s.b, Disconnected)) else s
  }

  /** A new session joins once any old one of the same owner has ended. */
  lemma ConnectJoins(s: System, e: Exchange, available: bool)
    requires !s.b.closed && s.b.session != e.sessionID && (s.b.session == "" || s.b.owner == e.owner)
    requires (s.b.session == "" ==> s.shot.None?) && e.sessionID != ""
    ensures Vacated(s).b.session == "" && !Vacated(s).b.closed
    ensures AfterConnect(s, e, available) == Vacated(s).(b := Joined(Vacated(s).b, e, s.clock), contact := s.clock)
  {
  }

  lemma ConnectInv(s: System, e: Exchange, available: bool)
    requires Inv(s) && !s.b.closed && ValidExchange(e)
    ensures Inv(AfterConnect(s, e, available))
  {
    hide Inv, ValidExchange, EndSession, Joined;
    ValidSession(e);
    NoSessionNoShot(s);
    if s.b.session != "" && s.b.owner != e.owner {
      assert AfterConnect(s, e, available) == s;
    } else if s.b.session == e.sessionID {
      RefreshInv(s);
    } else {
      EndSessionInv(s, Disconnected);
      ConnectJoins(s, e, available);
      JoinInv(Vacated(s), e);
    }
  }

  lemma NoSessionNoShot(s: System)
    requires Inv(s)
    ensures s.b.session == "" ==> s.shot.None?
  {
  }

  lemma ValidSession(e: Exchange)
    requires ValidExchange(e)
    ensures e.sessionID != "" && e.owner != ""
  {
  }

  lemma DisconnectInv(s: System, e: Exchange, available: bool)
    requires Inv(s)
    ensures Inv(AfterDisconnect(s, e, available))
  {
    hide Inv;
    EndSessionInv(s, Disconnected);
    assert Become(s, s.b) == s;
  }

  lemma AnswerFaithful(s: System, e: Exchange)
    requires Current(s.b.pending, s.b.owner, s.b.session, s.issued, s.handed) && Owns(s.b, e) && Matches(s.b, e)
    ensures Faithful(e.requestID, Answer(e.result.value), s.issued, s.handed, e)
  {
  }

  lemma AnswerAnswers(s: System, e: Exchange)
    requires Inv(s) && Owns(s.b, e) && Matches(s.b, e)
    ensures Answers(Send(s.b, Answer(e.result.value)).channels, s.issued, s.handed, s.answered[e.requestID := e])
  {
    hide Faithful, Slots, Current, Issued, Polls, Screen;
    AnswerFaithful(s, e);
    var id := e.requestID;
    var channels, answered := s.b.channels[id := Answer(e.result.value)], s.answered[id := e];
    assert Send(s.b, Answer(e.result.value)).channels == channels;
    forall k | k in answered ensures k in channels && Faithful(k, channels[k], s.issued, s.handed, answered[k]) {
      if k != id {
        assert k in s.answered && channels[k] == s.b.channels[k];
      }
    }
  }

  lemma ResultInv(s: System, e: Exchange, available: bool)
    requires Inv(s) && ValidExchange(e) && e.operation.ResultOp?
    ensures Inv(AfterResult(s, e, available))
  {
    hide Slots, Answers, Issued, Polls, Current, ValidExchange;
    if Owns(s.b, e) && Matches(s.b, e) {
      SendSlots(s.b, Answer(e.result.value), s.issued, s.abandoned);
      AnswerAnswers(s, e);
      NotifiedPolls(s.b, TakeResult(s.b, e, available, s.clock).b, s.polls);
      NothingCurrent(s.b.owner, s.b.session, s.issued, s.handed);
      ValidShot(e);
    }
  }

  lemma ValidShot(e: Exchange)
    requires ValidExchange(e) && e.result.Some? && e.operation.ResultOp?
    ensures e.result.value.screenshot.Some? ==> e.result.value.screenshot.value.width > 0
  {
  }

  // ---- Long polls ---------------------------------------------------------------------------------

  lemma HandedKeeps(s: System, reply: Option<Response>)
    requires Answers(s.b.channels, s.issued, s.handed, s.answered)
    requires reply.Some? && reply.value.request.Some? ==> reply.value.request.value.id in s.issued
    ensures Answers(s.b.channels, s.issued, Handed(s, reply), s.answered)
  {
    var handed := Handed(s, reply);
    forall id | id in s.answered ensures Faithful(id, s.b.channels[id], s.issued, handed, s.answered[id]) {
      assert Faithful(id, s.b.channels[id], s.issued, s.handed, s.answered[id]);
    }
  }

  lemma PendingIsIssued(s: System)
    requires Inv(s) && s.b.pending.Some?
    ensures s.b.pending.value.request.id in s.issued
  {
  }

  lemma PolledPolls(b: State, polls: map<nat, Poll>, poll: nat, e: Exchange)
    requires Polls(b.polling, b.wake, polls, b.pending, b.owner, b.session, b.closed)
    requires poll !in polls && b.pending.None? && !b.closed && Owns(b, e)
    ensures Polls(b.polling + 1, b.wake, polls[poll := Poll(e, b.wake)], b.pending, b.owner, b.session, b.closed)
  {
  }

  lemma DeliveredPolls(b: State, polls: map<nat, Poll>, pending: Option<Pending>)
    requires Polls(b.polling, b.wake, polls, b.pending, b.owner, b.session, b.closed) && b.pending.Some?
    ensures Polls(b.polling, b.wake, polls, pending, b.owner, b.session, b.closed)
  {
  }

  lemma HandOverInv(s: System, e: Exchange, available: bool)
    requires Inv(s) && Unexpired(s) && Owns(s.b, e) && s.b.pending.Some?
    ensures var served := PollOnce(s.b, available, s.clock);
            Inv(s.(b := served.b, contact := s.clock, handed := Handed(s, served.reply)))
  {
    hide Slots, Answers, Issued, Polls, Screen, Sessions, Current;
    var served := PollOnce(s.b, available, s.clock);
    HandOverCurrent(s, available);
    PendingIsIssued(s);
    HandedKeeps(s, served.reply);
    DeliveredPolls(s.b, s.polls, served.b.pending);
    DeliveredSlots(s.b, served.b.pending, s);
    DeliveredSessions(s, served.b.pending);
  }

  /** A request handed over before its pickup deadline gets a deadline that is bounded too. */
  lemma HandOverCurrent(s: System, available: bool)
    requires Current(s.b.pending, s.b.owner, s.b.session, s.issued, s.handed) && Unexpired(s) && s.b.pending.Some?
    ensures var served := PollOnce(s.b, available, s.clock);
            Current(served.b.pending, s.b.owner, s.b.session, s.issued, Handed(s, served.reply))
  {
  }

  lemma DeliveredSessions(s: System, pending: Option<Pending>)
    requires Sessions(s.b.pending, s.b.session, s.b.closed) && s.b.pending.Some?
    ensures Sessions(pending, s.b.session, s.b.closed)
  {
  }

  lemma StartWaitInv(s: System, e: Exchange, available: bool, poll: nat)
    requires Inv(s) && Owns(s.b, e) && s.b.pending.None? && poll !in s.polls
    ensures Inv(s.(b := PollOnce(s.b, available, s.clock).b, contact := s.clock,
                   polls := s.polls[poll := Poll(e, s.b.wake)]))
  {
    hide Slots, Answers, Issued, Polls, Screen, Current;
    OwnedIsOpen(s, e);
    PolledPolls(s.b, s.polls, poll, e);
  }

  lemma OwnedIsOpen(s: System, e: Exchange)
    requires Inv(s) && Owns(s.b, e)
    ensures !s.b.closed
  {
  }

  /** One turn of the loop, whichever poll takes it. */
  lemma PollOnceInv(s: System, e: Exchange, available: bool, poll: nat)
    requires Inv(s) && Unexpired(s) && Owns(s.b, e) && poll !in s.polls
    ensures var served := PollOnce(s.b, available, s.clock);
            Inv(s.(b := served.b, contact := s.clock, handed := Handed(s, served.reply),
                   polls := Waiting(s, poll, e, served)))
  {
    hide Inv;
    if s.b.pending.Some? {
      HandOverInv(s, e, available);
    } else {
      StartWaitInv(s, e, available, poll);
    }
  }

  lemma DeliveredSlots(b: State, pending: Option<Pending>, s: System)
    requires Slots(b.pending, b.channels, b.stuck, s.issued, s.abandoned)
    requires b.pending.Some? && pending.Some? && pending.value.request.id == b.pending.value.request.id
    ensures Slots(pending, b.channels, b.stuck, s.issued, s.abandoned)
  {
  }

  lemma NextInv(s: System, e: Exchange, available: bool, poll: nat)
    requires Inv(s) && Unexpired(s) && poll !in s.polls
    ensures Inv(AfterNext(s, e, available, poll))
  {
    hide Inv;
    if Owns(s.b, e) {
      PollOnceInv(s, e, available, poll);
    }
  }

  lemma LeftInv(s: System, poll: nat)
    requires Inv(s) && poll in s.polls
    ensures Inv(Leave(s, poll)) && poll !in Leave(s, poll).polls
  {
    hide Slots, Answers, Issued, Current, Screen;
  }

  lemma AfterWaitInv(s: System, e: Exchange, stop: bool, available: bool, poll: nat)
    requires Inv(s) && Unexpired(s) && poll !in s.polls
    ensures Inv(AfterWait(s, e, stop, available, poll))
  {
    hide Slots, Answers, Issued, Current, Screen, Polls;
    if !s.b.closed && Owns(s.b, e) && !stop {
      PollOnceInv(s, e, available, poll);
    }
  }

  lemma CallInv(s: System, e: Exchange, available: bool, poll: nat)
    requires Inv(s) && Unexpired(s) && ValidExchange(e) && poll !in s.polls
    ensures Inv(AfterCall(s, e, available, poll))
  {
    hide Inv, AfterConnect, AfterDisconnect, AfterResult, AfterNext;
    if !s.b.closed {
      ConnectInv(s, e, available);
      DisconnectInv(s, e, available);
      if e.operation.ResultOp? {
        ResultInv(s, e, available);
      }
      NextInv(s, e, available, poll);
    }
  }

  // ---- Requests -----------------------------------------------------------------------------------

  lemma AskInv(s: System, a: Action, id: string)
    requires Inv(s) && ValidAction(a) && !a.kind.Wait? && id !in s.issued && Identifier(id)
    ensures Inv(AfterAsk(s, a, id))
  {
    hide Slots, Answers, Issued, Polls, Current, ValidAction, WithinBounds;
    if Refuse(s.b, a).None? {
      var b := Accept(s.b, a, id, s.clock);
      var i := Issue(s.b.owner, s.b.session, a, s.clock, s.shot);
      NotifiedPolls(s.b, b, s.polls);
      AskSlots(s, a, id, i);
      AskIssued(s.issued, id, i);
      AskAnswers(s, id, i);
      AskCurrent(s, a, id, i);
    }
  }

  lemma AskCurrent(s: System, a: Action, id: string, i: Issue)
    requires Answers(s.b.channels, s.issued, s.handed, s.answered) && id !in s.issued
    requires i == Issue(s.b.owner, s.b.session, a, s.clock, s.shot)
    ensures Current(Accept(s.b, a, id, s.clock).pending, s.b.owner, s.b.session, s.issued[id := i], s.handed)
  {
  }

  lemma AskSlots(s: System, a: Action, id: string, i: Issue)
    requires Slots(s.b.pending, s.b.channels, s.b.stuck, s.issued, s.abandoned) && s.b.pending.None? && id !in s.issued
    ensures Slots(Accept(s.b, a, id, s.clock).pending, s.b.channels, s.b.stuck, s.issued[id := i], s.abandoned)
  {
  }

  lemma AskIssued(issued: map<string, Issue>, id: string, i: Issue)
    requires Issued(issued) && Identifier(id) && ValidAction(i.action) && !i.action.kind.Wait?
    requires i.shot.Some? ==> WithinBounds(i.action, i.shot.value.0, i.shot.value.1)
    ensures Issued(issued[id := i])
  {
    hide Identifier, ValidAction, WithinBounds;
  }

  lemma AskAnswers(s: System, id: string, i: Issue)
    requires Answers(s.b.channels, s.issued, s.handed, s.answered) && id !in s.issued
    ensures Answers(s.b.channels, s.issued[id := i], s.handed, s.answered)
  {
    forall k | k in s.answered ensures Faithful(k, s.b.channels[k], s.issued[id := i], s.handed, s.answered[k]) {
      assert Faithful(k, s.b.channels[k], s.issued, s.handed, s.answered[k]);
    }
  }

  lemma CancelInv(s: System, id: string)
    requires Inv(s)
    ensures Inv(AfterCancel(s, id))
  {
    hide Answers, Issued, Polls, Current;
    if s.b.pending.Some? && s.b.pending.value.request.id == id {
      NotifiedPolls(s.b, Abandon(s.b, id), s.polls);
      NothingCurrent(s.b.owner, s.b.session, s.issued, s.handed);
    }
  }

  lemma PassInv(s: System, time: nat)
    requires Inv(s)
    ensures Inv(s.(clock := s.clock + time))
  {
    hide Slots, Answers, Issued, Polls, Current, Screen;
  }

  lemma StepInv(s: System, event: Event)
    requires Inv(s)
    ensures Inv(Step(s, event))
  {
    hide Inv, Checked, AfterCall, AfterWait, AfterAsk, AfterCancel, Leave, ValidAction, ValidExchange, Identifier;
    CheckedInv(s);
    match event
    case Pass(time) => PassInv(s, time);
    case Tick =>
    case Call(e, available, poll) =>
      if ValidExchange(e) && poll !in s.polls {
        CallInv(Checked(s), e, available, poll);
      }
    case Wake(poll, stop, available) =>
      if poll in s.polls {
        LeftInv(s, poll);
        CheckedInv(Leave(s, poll));
        AfterWaitInv(Checked(Leave(s, poll)), s.polls[poll].exchange, stop, available, poll);
      }
    case Ask(a, id) =>
      if ValidAction(a) && !a.kind.Wait? && id !in s.issued && Identifier(id) {
        AskInv(Checked(s), a, id);
      }
    case Cancel(id) => CancelInv(s, id);
    case Close => ShutInv(s);
  }

  lemma {:induction false} RunInv(s: System, events: seq<Event>)
    requires Inv(s)
    ensures Inv(Run(s, events))
  {
    hide Inv, Step;
    if events != [] {
      RunInv(s, events[..|events| - 1]);
      StepInv(Run(s, events[..|events| - 1]), events[|events| - 1]);
    }
  }

  lemma StartInv(namespace: string, run: string)
    ensures Inv(Start(namespace, run))
  {
  }

  ghost predicate Reachable(s: System) {
    exists namespace, run, events :: s == Run(Start(namespace, run), events)
  }

  lemma ReachableInv(s: System)
    requires Reachable(s)
    ensures Inv(s)
  {
    var namespace, run, events :| s == Run(Start(namespace, run), events);
    StartInv(namespace, run);
    RunInv(Start(namespace, run), events);
  }

  // ---- Theorems -----------------------------------------------------------------------------------

  /** A pending request implies a live session on an open broker, and a closed broker has neither. */
  lemma PendingNeedsSession(s: System)
    requires Reachable(s)
    ensures s.b.pending.Some? ==> s.b.session != "" && !s.b.closed
    ensures s.b.closed ==> s.b.session == "" && s.b.pending.None?
  {
    ReachableInv(s);
  }

  /** The broker never sends on a full channel, and every request it accepted is in exactly one of
      three states: pending, resolved by one outcome, or given up by its caller. */
  lemma OneFatePerRequest(s: System, id: string)
    requires Reachable(s) && id in s.issued
    ensures !s.b.stuck
    ensures var pending := s.b.pending.Some? && s.b.pending.value.request.id == id;
            var resolved, gaveUp := id in s.b.channels, id in s.abandoned;
            (pending || resolved || gaveUp) && !(pending && resolved) && !(pending && gaveUp) && !(resolved && gaveUp)
  {
    ReachableInv(s);
  }

  /** An answer reaches the agent only from the owner and session that the request was accepted
      from, after it was handed to that session, and under its exact identifier. */
  lemma AnswersAreFromTheSession(s: System, id: string)
    requires Reachable(s) && id in s.b.channels && s.b.channels[id].Answer?
    ensures id in s.issued && id in s.answered && id in s.handed
    ensures var e, i := s.answered[id], s.issued[id];
            && e.requestID == id && e.result == Some(s.b.channels[id].result)
            && e.owner == i.owner && e.sessionID == i.session
            && s.handed[id].owner == i.owner && s.handed[id].session == i.session
  {
    ReachableInv(s);
    assert Faithful(id, s.b.channels[id], s.issued, s.handed, s.answered[id]);
  }

  /** Handing a request over again never extends its deadline: a check of the clock at or after
      acceptance + PICKUP + DELIVERED finds it resolved or given up. */
  lemma ResolutionIsBounded(s: System, id: string)
    requires Reachable(s) && id in s.issued && s.clock >= s.issued[id].at + PICKUP + DELIVERED
    ensures id in Step(s, Tick).b.channels || id in Step(s, Tick).abandoned
  {
    hide Expire;
    ReachableInv(s);
    CheckedInv(s);
  }

  /** The expiry check ends a session only when no poll waits, no handed-over request is still
      within its deadline, and the session has been out of contact for the whole lease. */
  lemma LeaseSparesBusySessions(s: System)
    requires Reachable(s) && s.b.session != "" && Checked(s).b.session == ""
    ensures s.polls == map[] && s.clock >= s.contact + LEASE
    ensures s.b.pending.Some? && s.b.pending.value.delivered ==> s.clock >= s.b.pending.value.deadline
  {
    ReachableInv(s);
    hide Slots, Answers, Issued, Current;
    assert |s.polls| == 0;
  }

  /** A request accepted after a full screenshot of its session names only pixels of the latest. */
  lemma RequestsAreOnScreen(s: System, id: string)
    requires Reachable(s) && id in s.issued && s.issued[id].shot.Some?
    ensures ValidAction(s.issued[id].action)
    ensures var (w, h) := s.issued[id].shot.value;
            forall x, y | Names(s.issued[id].action, x, y) :: 0 <= x < w && 0 <= y < h
  {
    hide GoodShape, GoodFields, WithinBounds;
    ReachableInv(s);
    BoundsMeanOnScreen(s.issued[id].action, s.issued[id].shot.value.0, s.issued[id].shot.value.1);
  }

  /** No wake-up is lost: a poll that is still asleep has nothing to hand over and still owns the
      session, so whenever there is something to tell it, it can go on. */
  lemma NoLostWakeup(s: System, poll: nat)
    requires Reachable(s) && poll in s.polls && s.polls[poll].generation == s.b.wake
    ensures s.b.pending.None? && !s.b.closed && Owns(s.b, s.polls[poll].exchange)
  {
    ReachableInv(s);
  }

  /** The response to an event, if it gets one. */
  function Answered(s: System, event: Event): Option<Response> {
    match event
    case Call(e, available, poll) =>
      if !ValidExchange(e) then Some(Response(PROTOCOL, false, false, Invalid, None))
      else if poll in s.polls then None
      else Handle(Checked(s).b, e, available, s.clock).reply
    case Wake(poll, stop, available) =>
      if poll !in s.polls || (!stop && s.polls[poll].generation == s.b.wake) then None
      else Resumed(Checked(Leave(s, poll)).b, s.polls[poll].exchange, stop, available, s.clock).reply
    case _ => None
  }

  lemma PendingIsValid(s: System)
    requires Inv(s) && s.b.pending.Some?
    ensures var r := s.b.pending.value.request; Identifier(r.id) && !r.action.kind.Wait? && ValidAction(r.action)
  {
  }

  lemma HandleIsValid(s: System, e: Exchange, available: bool)
    requires Inv(s)
    ensures var r := Handle(s.b, e, available, s.clock).reply; r.Some? ==> ValidResponse(r.value)
  {
    hide Inv, ValidAction, Identifier, Send, EndSession;
    if s.b.pending.Some? {
      PendingIsValid(s);
    }
  }

  lemma ResumedIsValid(s: System, e: Exchange, stop: bool, available: bool)
    requires Inv(s)
    ensures var r := Resumed(s.b, e, stop, available, s.clock).reply; r.Some? ==> ValidResponse(r.value)
  {
    hide Inv, ValidAction, Identifier;
    if s.b.pending.Some? {
      PendingIsValid(s);
    }
  }

  /** Every response the broker gives passes Response.Validate. */
  lemma ResponsesAreValid(s: System, event: Event)
    requires Reachable(s) && Answered(s, event).Some?
    ensures ValidResponse(Answered(s, event).value)
  {
    hide Inv, Handle, Resumed, Checked, Leave, ValidAction, ValidExchange, Identifier;
    ReachableInv(s);
    CheckedInv(s);
    match event
    case Call(e, available, _) => HandleIsValid(Checked(s), e, available);
    case Wake(poll, stop, available) =>
      LeftInv(s, poll);
      CheckedInv(Leave(s, poll));
      LeftKeepsClock(s, poll);
      ResumedIsValid(Checked(Leave(s, poll)), s.polls[poll].exchange, stop, available);
    case _ =>
  }

  lemma LeftKeepsClock(s: System, poll: nat)
    ensures Leave(s, poll).clock == s.clock
  {
  }

  // ---- An outcome is final ------------------------------------------------------------------------

  ghost predicate KeepsOutcomes(b: State, b': State) {
    forall id | id in b.channels :: id in b'.channels && b'.channels[id] == b.channels[id]
  }

  lemma SendKeeps(s: System, o: Outcome)
    requires Slots(s.b.pending, s.b.channels, s.b.stuck, s.issued, s.abandoned)
    ensures KeepsOutcomes(s.b, Send(s.b, o))
  {
  }

  lemma CheckedKeeps(s: System)
    requires Inv(s)
    ensures KeepsOutcomes(s.b, Checked(s).b)
  {
    hide Slots, Answers, Issued, Polls, Current, Screen, Lease, Sessions;
    SendKeeps(s, Failure(TimedOut));
    ExpirePendingInv(s);
    SendKeeps(Become(s, ExpirePending(s.b, s.clock)), Failure(Disconnected));
  }

  lemma EndingKeeps(s: System, e: Exchange, available: bool)
    requires Inv(s)
    ensures KeepsOutcomes(s.b, AfterConnect(s, e, available).b)
            && KeepsOutcomes(s.b, AfterDisconnect(s, e, available).b)
  {
    hide Slots, Answers, Issued, Polls, Current, Screen, Lease, Sessions, Send, KeepsOutcomes;
    SendKeeps(s, Failure(Disconnected));
    SameKeeps(s.b);
    assert AfterConnect(s, e, available).b.channels in {s.b.channels, Send(s.b, Failure(Disconnected)).channels};
    assert AfterDisconnect(s, e, available).b.channels in {s.b.channels, Send(s.b, Failure(Disconnected)).channels};
    SameChannels(s.b, Send(s.b, Failure(Disconnected)), AfterConnect(s, e, available).b);
    SameChannels(s.b, Send(s.b, Failure(Disconnected)), AfterDisconnect(s, e, available).b);
  }

  lemma SameKeeps(b: State)
    ensures KeepsOutcomes(b, b)
  {
  }

  lemma SameChannels(b: State, sent: State, b': State)
    requires KeepsOutcomes(b, sent) && b'.channels in {b.channels, sent.channels}
    ensures KeepsOutcomes(b, b')
  {
  }

  lemma ResultKeeps(s: System, e: Exchange, available: bool)
    requires Inv(s)
    ensures KeepsOutcomes(s.b, AfterResult(s, e, available).b)
  {
    hide Slots, Answers, Issued, Polls, Current, Screen, Lease, Sessions;
    if e.result.Some? {
      SendKeeps(s, Answer(e.result.value));
    }
  }

  lemma CallKeeps(s: System, e: Exchange, available: bool, poll: nat)
    requires Inv(s)
    ensures KeepsOutcomes(s.b, AfterCall(s, e, available, poll).b)
  {
    hide Inv, AfterConnect, AfterDisconnect, AfterResult;
    EndingKeeps(s, e, available);
    ResultKeeps(s, e, available);
  }

  /** Once sent, a request's outcome never changes. */
  lemma OutcomesAreFinal(s: System, event: Event)
    requires Reachable(s)
    ensures KeepsOutcomes(s.b, Step(s, event).b)
  {
    hide Inv, Checked, AfterCall, ValidAction, ValidExchange, Identifier;
    ReachableInv(s);
    CheckedKeeps(s);
    CheckedInv(s);
    match event
    case Call(e, available, poll) => CallKeeps(Checked(s), e, available, poll);
    case Wake(poll, stop, available) =>
      if poll in s.polls {
        LeftInv(s, poll);
        CheckedKeeps(Leave(s, poll));
      }
    case Close => ShutKeeps(s);
    case _ =>
  }

  lemma ShutKeeps(s: System)
    requires Inv(s)
    ensures KeepsOutcomes(s.b, Shut(s.b))
  {
    SendKeeps(s, Failure(Disconnected));
  }
}
