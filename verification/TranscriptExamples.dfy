/** Runs of a session's passes in which a message is in the context twice, or not at all. */
module TranscriptExamples {
  import opened TranscriptFold
  import opened TranscriptRuns

  const FIRST_PASS :=
    Session(Memory([Tail([], 0)], 0, 0, 0, false), [], 0, 0, 0, 1, true, 1, true, 0, {}, {}, {})

  lemma FirstPassBegins()
    ensures Begins(FIRST_PASS) && FIRST_PASS.whole
  {
    assert FIRST_PASS.t.items == [Tail([], 0)];
  }

  /** The transcript goes on that the first pass started. */
  ghost predicate Ongoing(s: Session) {
    s.t.items != [] && s.floor == s.t.floor && s.start == 0 && s.begun == 1
  }

  lemma RunNext(s: Session, a: seq<Action>, i: nat)
    requires i < |a|
    ensures Run(s, a[..i + 1]) == Step(Run(s, a[..i]), a[i]) && Run(s, a[..0]) == s && a[..|a|] == a
  {
    assert a[..i + 1][..i] == a[..i];
  }

  lemma PrepareReads(s: Session)
    requires Inv(s) && !s.running && Ongoing(s)
    ensures var s' := Step(s, Prepare(true));
            && s'.durable == s.durable && s'.orphaned == s.orphaned && Ongoing(s')
            && (forall m | m in s.durable && m.id > 0 :: m.id <= s'.t.seen)
            && s'.openers == s.openers + if s.opening != 0 then {s.opening} else {}
  {
    hide Tracked, Passes, Mentions, AfterPrepare, Additions;
    PreparedIs(s, true);
    BelowLast(s.durable);
  }

  /** The end of each witness: a successful read after any number of steps. */
  lemma {:induction false} ReadAtLast(a: seq<Action>, m: Message)
    requires |a| > 0 && a[|a| - 1] == Prepare(true) && !m.origin.Outside? && m.id > 0
    requires m.origin.Reply? ==> m.origin.pass > 0
    requires var s := Run(FIRST_PASS, a[..|a| - 1]);
             !s.running && m in s.durable && m.id in s.orphaned && Ongoing(s)
    ensures var before, now := Run(FIRST_PASS, a[..|a| - 1]), Run(FIRST_PASS, a);
            m in now.durable && m.id in now.orphaned
            && Occurrences(now.t.items, m)
               == if m.origin.Reply? || m.id in before.openers || m.id == before.opening then 2 else 1
  {
    hide Step, Run, Inv, Occurrences, Begins;
    var n := |a| - 1;
    var before := Run(FIRST_PASS, a[..n]);
    FirstPassBegins();
    RunNext(FIRST_PASS, a, n);
    RunInv(FIRST_PASS, a[..n]);
    PrepareReads(before);
    OwnMessagesRepeatIff(FIRST_PASS, a, m);
  }

  /** One failed read is enough for a reply to come back: it is unread when the next reply replaces it. */
  lemma FailedReadRepeatsReply()
    ensures var a := [Finish, CommitReply(0), Prepare(false), Finish, CommitReply(0), Prepare(true)];
            var m := Message(1, Assistant, Reply(1));
            && Begins(FIRST_PASS) && m in Run(FIRST_PASS, a).durable && Occurrences(Run(FIRST_PASS, a).t.items, m) == 2
  {
    hide Step, Run, Occurrences, Begins;
    FirstPassBegins();
    var a := [Finish, CommitReply(0), Prepare(false), Finish, CommitReply(0), Prepare(true)];
    RunNext(FIRST_PASS, a, 0);
    RunNext(FIRST_PASS, a, 1);
    RunNext(FIRST_PASS, a, 2);
    RunNext(FIRST_PASS, a, 3);
    RunNext(FIRST_PASS, a, 4);
    FirstReply(FIRST_PASS, a[0], a[1]);
    var s3 := Step(Run(FIRST_PASS, a[..2]), a[2]);
    UnreadPass(Run(FIRST_PASS, a[..2]));
    SecondReply(s3);
    ReadAtLast(a, Message(1, Assistant, Reply(1)));
  }

  lemma FirstReply(s: Session, a: Action, b: Action)
    requires s == FIRST_PASS && a == Finish && b == CommitReply(0)
    ensures var s' := Step(Step(s, a), b);
            && s'.durable == [Message(1, Assistant, Reply(1))] && s'.t.selfAssistant == 1 && s'.t.seen == 0
            && !s'.running && s'.passes == 1 && s'.prompt == 0 && s'.opening == 0 && s'.orphaned == {}
            && s'.openers == {} && Ongoing(s')
  {
  }

  lemma UnreadPass(s: Session)
    requires !s.running && s.t.seen == 0 && Ongoing(s)
    ensures var s' := Step(s, Prepare(false));
            && s'.durable == s.durable && s'.t.selfAssistant == s.t.selfAssistant && s'.t.seen == 0 && Ongoing(s')
            && s'.running && s'.passes == s.passes + 1 && s'.orphaned == s.orphaned
  {
  }

  lemma SecondReply(s: Session)
    requires s.running && s.passes == 2 && s.t.selfAssistant == 1 && s.t.seen == 0 && Ongoing(s)
    requires s.durable == [Message(1, Assistant, Reply(1))]
    ensures var s' := Step(Step(s, Finish), CommitReply(0));
            !s'.running && Message(1, Assistant, Reply(1)) in s'.durable && 1 in s'.orphaned && Ongoing(s')
  {
    var s1 := Step(s, Finish);
    assert s1.durable == s.durable && s1.passes == 2 && !s1.running;
    assert Step(s1, CommitReply(0)).durable == s.durable + [Message(2, Assistant, Reply(2))];
  }

  /** With every read successful, a nudge whose append took effect but reported an error comes back:
      its text opens the pass and its copy is folded. */
  lemma LostNudgeRepeats()
    ensures var a := [Finish, CommitReply(0), CommitNudge(0, Lost), Prepare(true)];
            var m := Message(2, System, Nudge);
            m in Run(FIRST_PASS, a).durable && Occurrences(Run(FIRST_PASS, a).t.items, m) == 2
  {
    hide Step, Run, Occurrences;
    var a := [Finish, CommitReply(0), CommitNudge(0, Lost), Prepare(true)];
    RunNext(FIRST_PASS, a, 0);
    RunNext(FIRST_PASS, a, 1);
    RunNext(FIRST_PASS, a, 2);
    FirstReply(FIRST_PASS, a[0], a[1]);
    Nudging(Run(FIRST_PASS, a[..2]), Lost);
    ReadAtLast(a, Message(2, System, Nudge));
  }

  lemma Nudging(s: Session, fate: Fate)
    requires s.durable == [Message(1, Assistant, Reply(1))] && s.t.seen == 0
    requires !s.running && s.prompt == 0 && s.opening == 0 && !fate.Refused? && Ongoing(s)
    ensures var s', m := Step(s, CommitNudge(0, fate)), Message(2, System, Nudge);
            && s'.durable == s.durable + [m] && s'.opening == 2 && s'.prompt == (if fate.Lost? then 0 else 2)
            && s'.t.seen == 0 && !s'.running && s'.openers == s.openers && (fate.Lost? ==> 2 in s'.orphaned)
            && Ongoing(s')
  {
  }

  /** A nudge that a steering message replaces has stopped being skipped while unread as well, but it
      never opened a pass: the fold is the only way it enters. */
  lemma ReplacedNudgeEntersOnce()
    ensures var a := [Finish, CommitReply(0), CommitNudge(0, Done), Append(User, 0), NextUserTurn(3), Prepare(true)];
            var m := Message(2, System, Nudge);
            var now := Run(FIRST_PASS, a);
            m in now.durable && m.id in now.orphaned && Occurrences(now.t.items, m) == 1
  {
    hide Step, Run, Occurrences;
    var a := [Finish, CommitReply(0), CommitNudge(0, Done), Append(User, 0), NextUserTurn(3), Prepare(true)];
    var m := Message(2, System, Nudge);
    RunNext(FIRST_PASS, a, 0);
    RunNext(FIRST_PASS, a, 1);
    RunNext(FIRST_PASS, a, 2);
    RunNext(FIRST_PASS, a, 3);
    RunNext(FIRST_PASS, a, 4);
    FirstReply(FIRST_PASS, a[0], a[1]);
    Nudging(Run(FIRST_PASS, a[..2]), Done);
    Steering(Run(FIRST_PASS, a[..3]));
    ReadAtLast(a, m);
  }

  lemma Steering(s: Session)
    requires s.durable == [Message(1, Assistant, Reply(1)), Message(2, System, Nudge)] && s.t.seen == 0
    requires !s.running && s.prompt == 2 && s.opening == 2 && s.openers == {} && Ongoing(s)
    ensures var s' := Step(Step(s, Append(User, 0)), NextUserTurn(3));
            !s'.running && Message(2, System, Nudge) in s'.durable && 2 in s'.orphaned && s'.opening == 3
            && s'.openers == {} && Ongoing(s')
  {
    var s1 := Step(s, Append(User, 0));
    assert s1.durable == s.durable + [Message(3, User, Outside)];
    assert Message(3, User, Outside) in s1.durable;
  }

  /** Reading is only made up for above the watermark: if a transcript starts over in a pass that cannot
      read, what had been read before is in no context of it, although it is above the floor. Here the
      first pass ends with an open approval, the second one too, after it has read a note, and the third
      cannot read. */
  lemma FailedReadForgets()
    ensures var a := [Append(System, 0), Interrupt, Prepare(true), Interrupt, Prepare(false), Finish, Prepare(true)];
            var m, now := Message(1, System, Outside), Run(FIRST_PASS, a);
            && m in now.durable && now.t.floor < m.id <= now.t.seen && now.t.items != []
            && InContext(now.t.items, m) == 0
  {
    hide Step, Run, Occurrences;
    var a := [Append(System, 0), Interrupt, Prepare(true), Interrupt, Prepare(false), Finish, Prepare(true)];
    RunNext(FIRST_PASS, a, 0);
    RunNext(FIRST_PASS, a, 1);
    RunNext(FIRST_PASS, a, 2);
    RunNext(FIRST_PASS, a, 3);
    RunNext(FIRST_PASS, a, 4);
    RunNext(FIRST_PASS, a, 5);
    RunNext(FIRST_PASS, a, 6);
    NotedAndInterrupted(FIRST_PASS);
    ReadAndInterrupted(Run(FIRST_PASS, a[..2]));
    StartedBlind(Run(FIRST_PASS, a[..4]));
    NeverRead(Run(FIRST_PASS, a[..6]));
    NothingOfIt(Run(FIRST_PASS, a).t.items, Message(1, System, Outside));
  }

  lemma NotedAndInterrupted(s: Session)
    requires s == FIRST_PASS
    ensures var s' := Step(Step(s, Append(System, 0)), Interrupt);
            && s'.durable == [Message(1, System, Outside)] && s'.t.items == [] && s'.t.seen == 0 && !s'.running
            && s'.t.floor == s'.floor == s'.opening == s'.prompt == 0
  {
    var s1 := Step(s, Append(System, 0));
    assert s1.durable == s.durable + [Message(1, System, Outside)];
  }

  lemma ReadAndInterrupted(s: Session)
    requires s.durable == [Message(1, System, Outside)] && s.t.items == [] && s.t.seen == 0 && !s.running
    requires s.t.floor == s.floor == s.opening == s.prompt == 0
    ensures var s' := Step(Step(s, Prepare(true)), Interrupt);
            && s'.durable == s.durable && s'.t.items == [] && s'.t.seen == 1 && !s'.running && s'.t.historyLoaded
            && s'.t.floor == s'.floor == s'.opening == s'.prompt == 0
  {
    hide AfterPrepare;
    StartsOver(s, true);
  }

  lemma StartedBlind(s: Session)
    requires s.durable == [Message(1, System, Outside)] && s.t.items == [] && s.t.seen == 1 && !s.running
    requires s.t.historyLoaded
    requires s.t.floor == s.floor == s.opening == s.prompt == 0
    ensures var s' := Step(Step(s, Prepare(false)), Finish);
            && s'.durable == s.durable && s'.t.items == [Tail([], 0), Generated(s.passes + 1)] && s'.t.seen == 1
            && !s'.running && s'.t.floor == s'.floor == s'.opening == s'.prompt == 0 && s'.t.historyLoaded
  {
    hide AfterPrepare;
    StartsOver(s, false);
  }

  lemma NeverRead(s: Session)
    requires s.durable == [Message(1, System, Outside)] && s.t.seen == 1 && !s.running && |s.t.items| == 2
    requires s.t.historyLoaded
    requires s.t.floor == s.floor == s.opening == s.prompt == 0
    ensures var s' := Step(s, Prepare(true));
            s'.durable == s.durable && s'.t.items == s.t.items && s'.t.seen == 1 && s'.t.floor == 0
  {
    hide FoldItems, MaxSeen, Since;
    NothingFolds(1, {s.t.selfAssistant, 0});
    NothingSeen(1);
    assert s.t.items + [] + [] == s.t.items;
    assert Loaded(s.t, s.durable, 0, true) == [] by {
      NothingNewer(s.durable, ReadFrom(s.t, 0));
    }
  }

  lemma NothingNewer(durable: seq<Message>, id: nat)
    requires durable == [Message(1, System, Outside)] && id >= 1
    ensures Since(durable, id) == []
  {
  }

  lemma NothingSeen(seen: nat)
    ensures MaxSeen(seen, []) == seen
  {
  }

  lemma NothingOfIt(items: seq<Item>, m: Message)
    requires |items| == 2 && items[0] == Tail([], 0) && items[1].Generated? && m.origin.Outside?
    ensures InContext(items, m) == 0
  {
    assert items == [items[0], items[1]];
  }
}
