/** What each click on a draft of cmd/agent/slack_interactions.go comes to when its statements and posts
    get through: the text that is posted, the row that is left, and the message that stays away.
 */
module DraftOutcomes {
  import opened Wrappers
  import opened WhiteSpace
  import opened DraftMachine

  /** The handler of a click goes on undisturbed for `n` steps. */
  function Undisturbed(h: nat, n: nat): seq<Action> {
    seq(n, i => Next(h, Done, ""))
  }

  lemma {:induction false} UndisturbedNext(s: State, h: nat, n: nat)
    ensures Run(s, Undisturbed(h, n + 1)) == Step(Run(s, Undisturbed(h, n)), Next(h, Done, ""))
  {
    hide Step;
    assert Undisturbed(h, n + 1)[..n] == Undisturbed(h, n);
  }

  lemma NoSteps(s: State, h: nat)
    ensures Run(s, Undisturbed(h, 0)) == s
  {
    assert Undisturbed(h, 0) == [];
  }

  /** After `n` undisturbed requests, that many messages are in the channel. */
  lemma {:induction false} PostsMessages(s: State, h: nat, text: string, edited: bool, n: nat)
    requires h in s.handlers && s.handlers[h] == Claimed(text, edited, 0) && n <= |Chunks(text)| && s.calls != []
    ensures var t := Run(s, Undisturbed(h, n));
            && t.row == s.row && t.channel == s.channel + Chunks(text)[..n] && t.calls != []
            && h in t.handlers
            && t.handlers[h] == if n == |Chunks(text)| && n > 0 then Posted(text, edited) else Claimed(text, edited, n)
  {
    hide Chunks, Run;
    if n == 0 {
      NoSteps(s, h);
      assert s.channel + Chunks(text)[..0] == s.channel;
    } else {
      PostsMessages(s, h, text, edited, n - 1);
      UndisturbedNext(s, h, n - 1);
      OneMessage(Run(s, Undisturbed(h, n - 1)), h, text, edited, n - 1);
      assert Chunks(text)[..n - 1] + [Chunks(text)[n - 1]] == Chunks(text)[..n];
      Associative(s.channel, Chunks(text)[..n - 1], [Chunks(text)[n - 1]]);
    }
  }

  lemma OneMessage(s: State, h: nat, text: string, edited: bool, sent: nat)
    requires h in s.handlers && s.handlers[h] == Claimed(text, edited, sent) && sent < |Chunks(text)| && s.calls != []
    ensures var t := Step(s, Next(h, Done, ""));
            && t.row == s.row && t.channel == s.channel + [Chunks(text)[sent]] && t.calls != [] && h in t.handlers
            && t.handlers[h] ==
               if sent + 1 == |Chunks(text)| then Posted(text, edited) else Claimed(text, edited, sent + 1)
  {
    hide Chunks;
  }

  /** An empty text is a call without a message. */
  lemma NoMessage(s: State, h: nat, text: string, edited: bool)
    requires h in s.handlers && s.handlers[h] == Claimed(text, edited, 0) && Chunks(text) == [] && s.calls != []
    ensures var t := Step(s, Next(h, Done, ""));
            t.row == s.row && t.channel == s.channel && h in t.handlers && t.handlers[h] == Posted(text, edited)
  {
    hide Chunks;
  }

  lemma Settles(s: State, h: nat, text: string, edited: bool)
    requires h in s.handlers && s.handlers[h] == Posted(text, edited) && s.row.status == Sending
    ensures var t := Step(s, Next(h, Done, ""));
            && t.channel == s.channel && h !in t.handlers
            && t.row ==
               if edited then s.row.(status := Sent, edited := Some(text)) else s.row.(status := Sent, text := text)
  {
  }

  /** From a claimed row, the call goes through and the row records it. */
  lemma CallGoesThrough(s: State, h: nat, text: string, edited: bool) returns (n: nat)
    requires h in s.handlers && s.handlers[h] == Claimed(text, edited, 0) && s.row.status == Sending && s.calls != []
    ensures var t := Run(s, Undisturbed(h, n));
            && t.channel == s.channel + Chunks(text) && h !in t.handlers
            && t.row ==
               if edited then s.row.(status := Sent, edited := Some(text)) else s.row.(status := Sent, text := text)
  {
    hide Chunks, Run, Step;
    var k := |Chunks(text)|;
    PostsMessages(s, h, text, edited, k);
    assert Chunks(text)[..k] == Chunks(text);
    if k == 0 {
      NoMessage(s, h, text, edited);
      NoSteps(s, h);
      UndisturbedNext(s, h, 0);
      assert s.channel + Chunks(text) == s.channel;
      k := 1;
    }
    Settles(Run(s, Undisturbed(h, k)), h, text, edited);
    UndisturbedNext(s, h, k);
    n := k + 1;
  }

  lemma ClaimsToSend(s: State, h: nat, intent: Intent, text: string, edited: bool)
    requires s.row.status == Pending && h !in s.handlers
    requires if edited then intent.SendEdited? && Trim(intent.text) == text != ""
             else intent.Approve? && text == s.row.text
    ensures var t := Run(s, [Click(h, intent), Next(h, Done, "")]);
            && t.row == s.row.(status := Sending) && t.channel == s.channel && t.calls != []
            && h in t.handlers && t.handlers[h] == Claimed(text, edited, 0)
  {
    hide Run, Trim;
    Run2(s, Click(h, intent), Next(h, Done, ""));
    assert Step(s, Click(h, intent)).handlers[h] == Loaded(s.row, intent);
  }

  /** An undisturbed approval of a pending draft posts exactly its text, whose messages joined are the
      text, and leaves it sent. */
  lemma ApprovalPosts(s: State, h: nat) returns (n: nat)
    requires s.row.status == Pending && h !in s.handlers
    ensures var t := Run(s, [Click(h, Approve), Next(h, Done, "")] + Undisturbed(h, n));
            && t.channel == s.channel + Chunks(s.row.text) && Join(Chunks(s.row.text)) == s.row.text
            && t.row == s.row.(status := Sent) && h !in t.handlers
  {
    hide Run, Step, Chunks;
    ClaimsToSend(s, h, Approve, s.row.text, false);
    var claimed := Run(s, [Click(h, Approve), Next(h, Done, "")]);
    n := CallGoesThrough(claimed, h, s.row.text, false);
    RunAppend(s, [Click(h, Approve), Next(h, Done, "")], Undisturbed(h, n));
    ChunksJoin(s.row.text);
  }

  /** An undisturbed edit posts what was typed without the white space around it, keeps the drafted text,
      and records the edit beside it. */
  lemma EditPosts(s: State, h: nat, typed: string) returns (n: nat, text: string)
    requires s.row.status == Pending && h !in s.handlers && !Blank(typed)
    ensures TrimmedTo(typed, text) && Join(Chunks(text)) == text
    ensures var t := Run(s, [Click(h, SendEdited(typed)), Next(h, Done, "")] + Undisturbed(h, n));
            && t.channel == s.channel + Chunks(text) && h !in t.handlers
            && t.row == s.row.(status := Sent, edited := Some(text))
  {
    hide Run, Step, Chunks, Trim;
    TrimIs(typed);
    text := Trim(typed);
    ClaimsToSend(s, h, SendEdited(typed), text, true);
    var claimed := Run(s, [Click(h, SendEdited(typed)), Next(h, Done, "")]);
    n := CallGoesThrough(claimed, h, text, true);
    RunAppend(s, [Click(h, SendEdited(typed)), Next(h, Done, "")], Undisturbed(h, n));
    ChunksJoin(text);
  }

  /** A click is taken up with the row as it is, but unless it is a dismissal only if that is pending. */
  lemma ClickIs(s: State, h: nat, intent: Intent)
    requires h !in s.handlers
    ensures var t := Step(s, Click(h, intent));
            && t == s.(handlers := t.handlers)
            && (h in t.handlers <==> s.row.status == Pending || intent.Dismiss?)
            && t.handlers == if h in t.handlers then s.handlers[h := Loaded(s.row, intent)] else s.handlers
  {
  }

  /** A handler that has only loaded the row moves it on exactly if it is pending still and its statement
      takes effect; a dismissal does so at once, a blank edit not at all, and none of them posts. */
  lemma LoadedMoves(s: State, h: nat, fate: Fate)
    requires h in s.handlers && s.handlers[h].Loaded?
    ensures var t, seen, intent := Step(s, Next(h, fate, "")), s.handlers[h].seen, s.handlers[h].intent;
            && t.channel == s.channel
            && t.row == if s.row.status != Pending || fate.Refused? then s.row
                        else match intent
                             case Approve => s.row.(status := Sending)
                             case SendEdited(typed) => if Blank(typed) then s.row else s.row.(status := Sending)
                             case Dismiss => s.row.(status := Dismissed, text := seen.text)
                             case Regenerate => s.row.(status := Regenerating)
  {
    hide Trim, Blank;
    if s.handlers[h].intent.SendEdited? {
      TrimIs(s.handlers[h].intent.text);
      NotEmpty(s.handlers[h].intent.text);
    }
  }

  lemma NotEmpty(s: string)
    ensures !TrimmedTo(s, "")
  {
  }

  /** A failed call leaves the draft pending with the text that it tried to post. */
  lemma FailedCallIsPending(s: State, h: nat, fate: Fate)
    requires Reachable(s) && h in s.handlers && s.handlers[h].Failed?
    ensures s.calls != []
    ensures var t, last := Step(s, Next(h, fate, "")), s.calls[|s.calls| - 1];
            && t.row == (if fate.Refused? then s.row else s.row.(status := Pending, text := last.text))
            && t.channel == s.channel && h !in t.handlers
  {
    hide Unedited, Flat, AllBroken, Fits;
    ReachableInv(s);
    assert Knows(s.handlers[h], Latest(s.calls));
  }

  /** The end of a regeneration makes the draft pending again, with the revision unless that is blank,
      and with its text as it was otherwise. */
  lemma RegenerationIs(s: State, h: nat, fate: Fate, revised: string)
    requires Reachable(s) && h in s.handlers && s.handlers[h].Revising?
    ensures var t := Step(s, Next(h, fate, revised));
            && s.row.status == Regenerating && s.handlers[h].text == s.row.text
            && t.row == (if fate.Refused? then s.row
                         else s.row.(status := Pending, text := if Blank(revised) then s.row.text else revised))
            && t.channel == s.channel && t.calls == s.calls && h !in t.handlers
  {
    hide Counted, Flat, Trim, Blank;
    ReachableInv(s);
    TrimIs(revised);
    NotEmpty(revised);
  }
}
