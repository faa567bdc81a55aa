/** Delivering operational notices from several connectors, as deliverOperationalNotice in
    cmd/agent/slack_notifications.go does: a lease on the run's annotations under an optimistic
    lock, the post, then the record of it.

    One run and its annotations; connectors interleave between reads, patches and posts, and may
    work from copies of the run that are out of date. Times are in milliseconds, leases in seconds.
 */
module NoticeLease {

  const POLL_LIMIT := 45000
  const LEASE := 120000

  /** The run's notice annotations under their resource version. */
  datatype Annotations = Annotations(version: nat, recorded: map<string, string>, lease: map<string, nat>)

  /** A connector's progress within one poll; `copy` is its own copy of the run. */
  datatype Connector =
    | Polling(copy: Annotations, deadline: nat)
    | Leased(copy: Annotations, deadline: nat, key: string, value: string)
    | Posted(copy: Annotations, deadline: nat, key: string, value: string, post: nat)

  datatype Status = Open | Recorded | Broken

  /** A message sent, by when its poster has to record it, and what became of that. */
  datatype Post = Post(key: string, value: string, deadline: nat, status: Status)

  datatype State = State(now: nat, run: Annotations, history: seq<Annotations>, connectors: map<nat, Connector>,
                         posts: seq<Post>)

  /** How a request ends: done, failed without effect, or done with the answer lost. */
  datatype Fate = Done | Refused | Lost

  datatype Action =
    | Tick(time: nat)
    | BeginPoll(c: nat, read: nat)
    | Deliver(c: nat, key: string, value: string, fate: Fate)
    | Send(c: nat, fate: Fate)
    | Record(c: nat, fate: Fate)
    | OtherPatch
    | Crash(c: nat)

  const NO_ANNOTATIONS := Annotations(0, map[], map[])

  const INITIAL := State(0, NO_ANNOTATIONS, [NO_ANNOTATIONS], map[], [])

  function Goto(s: State, c: nat, to: Connector): State {
    s.(connectors := s.connectors[c := to])
  }

  /** The connector stops working on the run; a post it has not recorded stays unrecorded. */
  function GiveUp(s: State, c: nat): State {
    var posts :=
      if c in s.connectors && s.connectors[c].Posted? && s.connectors[c].post < |s.posts| then
        s.posts[s.connectors[c].post := s.posts[s.connectors[c].post].(status := Broken)]
      else s.posts;
    s.(connectors := s.connectors - {c}, posts := posts)
  }

  function Patched(s: State, recorded: map<string, string>, lease: map<string, nat>): State {
    var run := Annotations(s.run.version + 1, recorded, lease);
    s.(run := run, history := s.history + [run])
  }

  predicate InTime(s: State, c: nat) {
    c in s.connectors && s.now <= s.connectors[c].deadline
  }

  /** Skips a recorded or leased notice, else tries to lease it. */
  function AfterDeliver(s: State, c: nat, key: string, value: string, fate: Fate): State {
    if c !in s.connectors || !s.connectors[c].Polling? then s
    else if !InTime(s, c) then GiveUp(s, c)
    else
      var w := s.connectors[c];
      if key in w.copy.recorded && w.copy.recorded[key] == value then s
      else if key in w.copy.lease && w.copy.lease[key] > s.now / 1000 then s
      else if fate.Refused? then GiveUp(s, c)
      else
        var lease := w.copy.lease[key := (s.now + LEASE) / 1000];
        if w.copy.version != s.run.version then Goto(s, c, Polling(w.copy.(lease := lease), w.deadline))
        else
          var s' := Patched(s, s.run.recorded, lease);
          if fate.Done? then Goto(s', c, Leased(s'.run, w.deadline, key, value)) else GiveUp(s', c)
  }

  function AfterSend(s: State, c: nat, fate: Fate): State {
    if c !in s.connectors || !s.connectors[c].Leased? then s
    else if !InTime(s, c) || fate.Refused? then GiveUp(s, c)
    else
      var w := s.connectors[c];
      var sent := s.(posts := s.posts + [Post(w.key, w.value, w.deadline, if fate.Done? then Open else Broken)]);
      if fate.Done? then Goto(sent, c, Posted(w.copy, w.deadline, w.key, w.value, |s.posts|)) else GiveUp(sent, c)
  }

  /** The record is a merge patch without a version check. */
  function AfterRecord(s: State, c: nat, fate: Fate): State {
    if c !in s.connectors || !s.connectors[c].Posted? || s.connectors[c].post >= |s.posts| then s
    else if !InTime(s, c) || fate.Refused? then GiveUp(s, c)
    else
      var w := s.connectors[c];
      var s' := Patched(s, s.run.recorded[w.key := w.value], s.run.lease - {w.key});
      var done := s'.(posts := s.posts[w.post := s.posts[w.post].(status := Recorded)]);
      if fate.Done? then Goto(done, c, Polling(s'.run, w.deadline)) else done.(connectors := s.connectors - {c})
  }

  function AfterBegin(s: State, c: nat, read: nat): State {
    if c in s.connectors || read >= |s.history| then s
    else Goto(s, c, Polling(s.history[read], s.now + POLL_LIMIT))
  }

  function Step(s: State, a: Action): State {
    match a
    case Tick(time) => s.(now := s.now + time)
    case BeginPoll(c, read) => AfterBegin(s, c, read)
    case Deliver(c, key, value, fate) => AfterDeliver(s, c, key, value, fate)
    case Send(c, fate) => AfterSend(s, c, fate)
    case Record(c, fate) => AfterRecord(s, c, fate)
    case OtherPatch => Patched(s, s.run.recorded, s.run.lease)
    case Crash(c) => GiveUp(s, c)
  }

  function Run(s: State, actions: seq<Action>): State {
    if actions == [] then s else Step(Run(s, actions[..|actions| - 1]), actions[|actions| - 1])
  }

  // ---- Invariants ---------------------------------------------------------------------------------

  /** Between its lease and its record, and still in time for it. */
  ghost predicate Active(s: State, c: nat) {
    InTime(s, c) && !s.connectors[c].Polling?
  }

  /** Versions number the history, so a copy of the current version is current. */
  ghost predicate Versions(s: State) {
    && |s.history| > 0 && s.history[|s.history| - 1] == s.run
    && (forall i | 0 <= i < |s.history| :: s.history[i].version == i)
  }

  ghost predicate Copies(s: State) {
    forall c | c in s.connectors ::
      CopyOf(s.connectors[c].copy, s.run) && s.connectors[c].deadline <= s.now + POLL_LIMIT
  }

  ghost predicate CopyOf(copy: Annotations, run: Annotations) {
    copy.version <= run.version && (copy.version == run.version ==> copy == run)
  }

  /** An active connector's lease outlasts its deadline, and its value is not recorded. */
  ghost predicate Leases(s: State) {
    forall c | Active(s, c) ::
      var w := s.connectors[c];
      && w.key in s.run.lease && s.run.lease[w.key] * 1000 > w.deadline
      && !(w.key in s.run.recorded && s.run.recorded[w.key] == w.value)
  }

  ghost predicate Exclusive(s: State) {
    forall c, d | Active(s, c) && Active(s, d) && s.connectors[c].key == s.connectors[d].key :: c == d
  }

  /** Posted connectors and open posts belong together; an active one's post is the last for its key. */
  ghost predicate Posters(s: State) {
    && (forall c | c in s.connectors && s.connectors[c].Posted? ::
          var w := s.connectors[c];
          w.post < |s.posts| && s.posts[w.post] == Post(w.key, w.value, w.deadline, Open))
    && (forall i | 0 <= i < |s.posts| && s.posts[i].status.Open? :: HasPoster(s, i))
    && (forall c, d | c in s.connectors && d in s.connectors && s.connectors[c].Posted? && s.connectors[d].Posted?
                      && s.connectors[c].post == s.connectors[d].post :: c == d)
    && (forall c, i | Active(s, c) && s.connectors[c].Posted? && s.connectors[c].post < i < |s.posts| ::
          s.posts[i].key != s.connectors[c].key)
  }

  ghost predicate HasPoster(s: State, i: nat) {
    exists c :: c in s.connectors && s.connectors[c].Posted? && s.connectors[c].post == i
  }

  /** Another value of the same notice was sent after `i` and before `j`. */
  ghost predicate ChangedBetween(posts: seq<Post>, i: nat, j: nat) {
    exists m :: i < m < j && m < |posts| && posts[m].key == posts[i].key && posts[m].value != posts[i].value
  }

  ghost predicate Records(s: State) {
    && (forall k | k in s.run.recorded ::
          exists i :: 0 <= i < |s.posts| && s.posts[i].key == k && s.posts[i].value == s.run.recorded[k])
    && (forall i | 0 <= i < |s.posts| && s.posts[i].status.Recorded? ::
          (s.posts[i].key in s.run.recorded && s.run.recorded[s.posts[i].key] == s.posts[i].value)
          || ChangedBetween(s.posts, i, |s.posts|))
  }

  /** The poster of `i` failed or crashed after posting, or ran out of time. */
  ghost predicate Unfinished(s: State, i: nat)
    requires i < |s.posts|
  {
    s.posts[i].status.Broken? || (s.posts[i].status.Open? && s.posts[i].deadline < s.now)
  }

  ghost predicate Repeats(s: State) {
    forall i, j | 0 <= i < j < |s.posts| && s.posts[i].key == s.posts[j].key && s.posts[i].value == s.posts[j].value ::
      Unfinished(s, i) || ChangedBetween(s.posts, i, j)
  }

  ghost predicate Inv(s: State) {
    Versions(s) && Copies(s) && Leases(s) && Exclusive(s) && Posters(s) && Records(s) && Repeats(s)
  }

  // ---- Giving up ----------------------------------------------------------------------------------

  lemma BrokenKeepsChanges(posts: seq<Post>, p: nat, status: Status, i: nat, j: nat)
    requires p < |posts|
    ensures ChangedBetween(posts, i, j) <==> ChangedBetween(posts[p := posts[p].(status := status)], i, j)
  {
    var now := posts[p := posts[p].(status := status)];
    assert |now| == |posts| && forall m | 0 <= m < |posts| ::
             now[m].key == posts[m].key && now[m].value == posts[m].value;
    if ChangedBetween(posts, i, j) {
      var m :| i < m < j && m < |posts| && posts[m].key == posts[i].key && posts[m].value != posts[i].value;
      assert now[m].key == now[i].key && now[m].value != now[i].value;
    }
    if ChangedBetween(now, i, j) {
      var m :| i < m < j && m < |now| && now[m].key == now[i].key && now[m].value != now[i].value;
      assert posts[m].key == posts[i].key && posts[m].value != posts[i].value;
    }
  }

  lemma GiveUpRecords(s: State, c: nat)
    requires Records(s) && Posters(s) && Repeats(s)
    ensures Records(GiveUp(s, c)) && Repeats(GiveUp(s, c))
  {
    hide ChangedBetween;
    var s' := GiveUp(s, c);
    if c in s.connectors && s.connectors[c].Posted? {
      forall i: nat, j: nat ensures ChangedBetween(s.posts, i, j) <==> ChangedBetween(s'.posts, i, j) {
        BrokenKeepsChanges(s.posts, s.connectors[c].post, Broken, i, j);
      }
      forall k | k in s'.run.recorded
        ensures exists i :: 0 <= i < |s'.posts| && s'.posts[i].key == k && s'.posts[i].value == s'.run.recorded[k]
      {
        var i :| 0 <= i < |s.posts| && s.posts[i].key == k && s.posts[i].value == s.run.recorded[k];
        assert s'.posts[i].key == k;
      }
    }
  }

  lemma GivenUp(s: State, c: nat)
    requires Posters(s)
    ensures var s' := GiveUp(s, c);
            && s'.connectors == s.connectors - {c} && |s'.posts| == |s.posts| && s'.now == s.now
            && (forall i | 0 <= i < |s.posts| :: s'.posts[i].key == s.posts[i].key)
            && forall i | 0 <= i < |s.posts| ::
                 if c in s.connectors && s.connectors[c].Posted? && s.connectors[c].post == i
                 then s'.posts[i].status.Broken? else s'.posts[i] == s.posts[i]
  {
    hide HasPoster, Active;
  }

  lemma GiveUpPosters(s: State, c: nat)
    requires Posters(s)
    ensures Posters(GiveUp(s, c))
  {
    hide GiveUp;
    GivenUp(s, c);
    var s' := GiveUp(s, c);
    assert forall d | Active(s', d) :: Active(s, d) && s'.connectors[d] == s.connectors[d];
    forall i | 0 <= i < |s'.posts| && s'.posts[i].status.Open? ensures HasPoster(s', i) {
      assert HasPoster(s, i);
      var d :| d in s.connectors && s.connectors[d].Posted? && s.connectors[d].post == i;
      assert d in s'.connectors && s'.connectors[d].Posted?;
    }
  }

  lemma GiveUpInv(s: State, c: nat)
    requires Inv(s)
    ensures Inv(GiveUp(s, c))
  {
    hide Posters, Records, Repeats;
    GiveUpPosters(s, c);
    GiveUpRecords(s, c);
  }

  // ---- The steps ----------------------------------------------------------------------------------

  lemma TickInv(s: State, time: nat)
    requires Inv(s)
    ensures Inv(Step(s, Tick(time)))
  {
    hide ChangedBetween, HasPoster;
    var s' := Step(s, Tick(time));
    assert forall c | Active(s', c) :: Active(s, c);
    assert forall i: nat | HasPoster(s, i) :: HasPoster(s', i) by {
      SamePosters(s, s');
    }
  }

  lemma SamePosters(s: State, s': State)
    requires s.connectors == s'.connectors
    ensures forall i: nat | HasPoster(s, i) :: HasPoster(s', i)
  {
    forall i: nat | HasPoster(s, i) ensures HasPoster(s', i) {
      var c :| c in s.connectors && s.connectors[c].Posted? && s.connectors[c].post == i;
      assert c in s'.connectors;
    }
  }

  lemma PatchedVersions(s: State, recorded: map<string, string>, lease: map<string, nat>)
    requires Versions(s)
    ensures Versions(Patched(s, recorded, lease))
  {
  }

  /** A connector that polls is neither active nor a poster. */
  lemma PollingInv(s: State, c: nat, copy: Annotations, deadline: nat)
    requires Inv(s) && (c in s.connectors ==> s.connectors[c].Polling?)
    requires CopyOf(copy, s.run) && deadline <= s.now + POLL_LIMIT
    ensures Inv(Goto(s, c, Polling(copy, deadline)))
  {
    hide ChangedBetween, CopyOf, HasPoster, Versions;
    var s' := Goto(s, c, Polling(copy, deadline));
    assert forall d | Active(s', d) :: Active(s, d) && s'.connectors[d] == s.connectors[d];
    KeepPosters(s, s', c);
    assert Versions(s') by {
      SameVersions(s, s');
    }
  }

  lemma SameVersions(s: State, s': State)
    requires Versions(s) && s'.history == s.history && s'.run == s.run
    ensures Versions(s')
  {
  }

  lemma KeepPosters(s: State, s': State, c: nat)
    requires forall d | d in s.connectors && d != c :: d in s'.connectors && s'.connectors[d] == s.connectors[d]
    requires c in s.connectors ==> !s.connectors[c].Posted?
    ensures forall i: nat | HasPoster(s, i) :: HasPoster(s', i)
  {
    forall i: nat | HasPoster(s, i) ensures HasPoster(s', i) {
      var d :| d in s.connectors && s.connectors[d].Posted? && s.connectors[d].post == i;
      assert d in s'.connectors && s'.connectors[d].Posted?;
    }
  }

  lemma BeginInv(s: State, c: nat, read: nat)
    requires Inv(s)
    ensures Inv(AfterBegin(s, c, read))
  {
    hide Inv;
    if c !in s.connectors && read < |s.history| {
      ReadCopy(s, read);
      PollingInv(s, c, s.history[read], s.now + POLL_LIMIT);
    }
  }

  lemma ReadCopy(s: State, read: nat)
    requires Inv(s) && read < |s.history|
    ensures CopyOf(s.history[read], s.run)
  {
    hide Posters, Records, Repeats;
  }

  /** Nobody else is active for a notice whose lease has run out. */
  lemma NobodyActive(s: State, key: string, d: nat)
    requires Leases(s) && !(key in s.run.lease && s.run.lease[key] > s.now / 1000)
    ensures !(Active(s, d) && s.connectors[d].key == key)
  {
  }

  function LeaseTaken(s: State, c: nat, key: string, value: string): State
    requires c in s.connectors
  {
    var s' := Patched(s, s.run.recorded, s.run.lease[key := (s.now + LEASE) / 1000]);
    Goto(s', c, Leased(s'.run, s.connectors[c].deadline, key, value))
  }

  lemma LeaseLeases(s: State, c: nat, key: string, value: string)
    requires Inv(s) && InTime(s, c) && s.connectors[c].Polling?
    requires !(key in s.run.recorded && s.run.recorded[key] == value)
    requires !(key in s.run.lease && s.run.lease[key] > s.now / 1000)
    ensures Leases(LeaseTaken(s, c, key, value)) && Exclusive(LeaseTaken(s, c, key, value))
  {
    hide Posters, Records, Repeats, Versions;
    var s' := LeaseTaken(s, c, key, value);
    forall d | Active(s', d) && d != c
      ensures Active(s, d) && s'.connectors[d] == s.connectors[d] && s.connectors[d].key != key
    {
      NobodyActive(s, key, d);
    }
    assert (s.now + LEASE) / 1000 * 1000 > s.now + LEASE - 1000;
  }

  lemma LeasePosters(s: State, c: nat, key: string, value: string)
    requires Posters(s) && InTime(s, c) && s.connectors[c].Polling?
    ensures Posters(LeaseTaken(s, c, key, value))
  {
    hide HasPoster;
    var s' := LeaseTaken(s, c, key, value);
    KeepPosters(s, s', c);
    assert forall d | Active(s', d) && s'.connectors[d].Posted? :: Active(s, d) && s'.connectors[d] == s.connectors[d];
  }

  lemma LeaseInv(s: State, c: nat, key: string, value: string)
    requires Inv(s) && InTime(s, c) && s.connectors[c].Polling?
    requires !(key in s.run.recorded && s.run.recorded[key] == value)
    requires !(key in s.run.lease && s.run.lease[key] > s.now / 1000)
    ensures Inv(LeaseTaken(s, c, key, value))
  {
    hide ChangedBetween, HasPoster, Leases, Exclusive, Posters, Versions;
    var s' := LeaseTaken(s, c, key, value);
    LeaseLeases(s, c, key, value);
    LeasePosters(s, c, key, value);
    PatchedVersions(s, s.run.recorded, s.run.lease[key := (s.now + LEASE) / 1000]);
    SameVersions(Patched(s, s.run.recorded, s.run.lease[key := (s.now + LEASE) / 1000]), s');
  }

  lemma DeliverInv(s: State, c: nat, key: string, value: string, fate: Fate)
    requires Inv(s)
    ensures Inv(AfterDeliver(s, c, key, value, fate))
  {
    hide Inv, CopyOf;
    GiveUpInv(s, c);
    if InTime(s, c) && s.connectors[c].Polling? {
      var w := s.connectors[c];
      if w.copy.version != s.run.version {
        StaleCopy(s, c, w.copy.lease[key := (s.now + LEASE) / 1000]);
        PollingInv(s, c, w.copy.(lease := w.copy.lease[key := (s.now + LEASE) / 1000]), w.deadline);
      } else {
        CurrentCopy(s, c);
        if !(key in s.run.recorded && s.run.recorded[key] == value)
          && !(key in s.run.lease && s.run.lease[key] > s.now / 1000)
        {
          LeaseInv(s, c, key, value);
          var s' := LeaseTaken(s, c, key, value);
          GiveUpInv(s', c);
          assert GiveUp(s', c).connectors == s.connectors - {c};
        }
      }
    }
  }

  lemma StaleCopy(s: State, c: nat, lease: map<string, nat>)
    requires Inv(s) && c in s.connectors && s.connectors[c].copy.version != s.run.version
    ensures CopyOf(s.connectors[c].copy.(lease := lease), s.run) && s.connectors[c].deadline <= s.now + POLL_LIMIT
  {
    hide Posters, Records, Repeats, Leases, Exclusive;
  }

  lemma CurrentCopy(s: State, c: nat)
    requires Inv(s) && c in s.connectors && s.connectors[c].copy.version == s.run.version
    ensures s.connectors[c].copy == s.run
  {
    hide Posters, Records, Repeats, Leases, Exclusive;
  }

  // ---- Posting ------------------------------------------------------------------------------------

  lemma AppendChanges(posts: seq<Post>, p: Post, i: nat, j: nat)
    requires i < |posts|
    ensures j <= |posts| ==> (ChangedBetween(posts, i, j) <==> ChangedBetween(posts + [p], i, j))
    ensures ChangedBetween(posts, i, |posts|) ==> ChangedBetween(posts + [p], i, |posts| + 1)
  {
    var more := posts + [p];
    assert forall m | 0 <= m < |posts| :: more[m] == posts[m];
    if ChangedBetween(posts, i, j) {
      var m :| i < m < j && m < |posts| && posts[m].key == posts[i].key && posts[m].value != posts[i].value;
      assert more[m].key == more[i].key && more[m].value != more[i].value;
    }
    if ChangedBetween(posts, i, |posts|) {
      var m :| i < m < |posts| && posts[m].key == posts[i].key && posts[m].value != posts[i].value;
      assert more[m].key == more[i].key && more[m].value != more[i].value;
    }
    if j <= |posts| && ChangedBetween(more, i, j) {
      var m :| i < m < j && m < |more| && more[m].key == more[i].key && more[m].value != more[i].value;
      assert posts[m].key == posts[i].key && posts[m].value != posts[i].value;
    }
  }

  function Sent(s: State, c: nat): State
    requires c in s.connectors && s.connectors[c].Leased?
  {
    var w := s.connectors[c];
    Goto(s.(posts := s.posts + [Post(w.key, w.value, w.deadline, Open)]), c,
         Posted(w.copy, w.deadline, w.key, w.value, |s.posts|))
  }

  /** When a value goes out again, its earlier post was left unfinished or another came between. */
  lemma SentRepeats(s: State, c: nat, i: nat)
    requires Inv(s) && Active(s, c) && s.connectors[c].Leased?
    requires i < |s.posts| && s.posts[i].key == s.connectors[c].key && s.posts[i].value == s.connectors[c].value
    ensures Unfinished(s, i) || ChangedBetween(s.posts, i, |s.posts|)
  {
    hide ChangedBetween, Versions, Copies, Repeats, HasPoster;
    if s.posts[i].status.Open? {
      var d := PosterOf(s, i);
    }
  }

  /** An open post that is not overdue has an active poster. */
  lemma PosterOf(s: State, i: nat) returns (d: nat)
    requires Posters(s) && i < |s.posts| && s.posts[i].status.Open?
    ensures d in s.connectors && s.connectors[d].Posted? && s.connectors[d].key == s.posts[i].key
    ensures s.now <= s.posts[i].deadline ==> Active(s, d)
  {
    assert HasPoster(s, i);
    d :| d in s.connectors && s.connectors[d].Posted? && s.connectors[d].post == i;
  }

  lemma SentPosters(s: State, c: nat)
    requires Inv(s) && Active(s, c) && s.connectors[c].Leased?
    ensures Posters(Sent(s, c))
  {
    hide Versions, Copies, Records, Repeats, Leases;
    var s' := Sent(s, c);
    forall i | 0 <= i < |s'.posts| && s'.posts[i].status.Open? ensures HasPoster(s', i) {
      if i == |s.posts| {
        assert s'.connectors[c].Posted?;
      } else {
        assert HasPoster(s, i);
        KeepPosters(s, s', c);
      }
    }
    forall d | Active(s', d) ensures Active(s, d) && s'.connectors[d].key == s.connectors[d].key {}
  }

  lemma SentRecords(s: State, c: nat)
    requires Inv(s) && Active(s, c) && s.connectors[c].Leased?
    ensures Records(Sent(s, c)) && Repeats(Sent(s, c))
  {
    hide Versions, Copies, Leases, Posters, ChangedBetween, Exclusive;
    var s' := Sent(s, c);
    var p := s'.posts[|s.posts|];
    assert s'.posts == s.posts + [p];
    forall k | k in s'.run.recorded
      ensures exists i :: 0 <= i < |s'.posts| && s'.posts[i].key == k && s'.posts[i].value == s'.run.recorded[k]
    {
      var i :| 0 <= i < |s.posts| && s.posts[i].key == k && s.posts[i].value == s.run.recorded[k];
      assert s'.posts[i] == s.posts[i];
    }
    forall i | 0 <= i < |s'.posts| && s'.posts[i].status.Recorded?
      ensures (s'.posts[i].key in s'.run.recorded && s'.run.recorded[s'.posts[i].key] == s'.posts[i].value)
              || ChangedBetween(s'.posts, i, |s'.posts|)
    {
      AppendChanges(s.posts, p, i, i);
    }
    forall i, j | 0 <= i < j < |s'.posts| && s'.posts[i].key == s'.posts[j].key
      && s'.posts[i].value == s'.posts[j].value
      ensures Unfinished(s', i) || ChangedBetween(s'.posts, i, j)
    {
      AppendChanges(s.posts, p, i, j);
      if j == |s.posts| {
        SentRepeats(s, c, i);
      } else {
        assert Unfinished(s, i) || ChangedBetween(s.posts, i, j);
      }
    }
  }

  lemma SentLeases(s: State, c: nat)
    requires Inv(s) && Active(s, c) && s.connectors[c].Leased?
    ensures Leases(Sent(s, c)) && Exclusive(Sent(s, c)) && Copies(Sent(s, c)) && Versions(Sent(s, c))
  {
    hide Posters, Records, Repeats;
    var s' := Sent(s, c);
    forall d | Active(s', d)
      ensures Active(s, d) && s'.connectors[d].key == s.connectors[d].key
              && s'.connectors[d].value == s.connectors[d].value {}
  }

  lemma SendInv(s: State, c: nat, fate: Fate)
    requires Inv(s)
    ensures Inv(AfterSend(s, c, fate))
  {
    hide Versions, Copies, Leases, Posters, Exclusive, Records, Repeats;
    GiveUpInv(s, c);
    if InTime(s, c) && s.connectors[c].Leased? && !fate.Refused? {
      SentPosters(s, c);
      SentRecords(s, c);
      SentLeases(s, c);
      GiveUpInv(Sent(s, c), c);
      var w := s.connectors[c];
      if fate.Lost? {
        var sent := s.posts + [Post(w.key, w.value, w.deadline, Open)];
        assert sent[|s.posts| := Post(w.key, w.value, w.deadline, Broken)]
               == s.posts + [Post(w.key, w.value, w.deadline, Broken)];
        assert GiveUp(Sent(s, c), c).connectors == s.connectors - {c};
      }
    }
  }

  // ---- Recording ----------------------------------------------------------------------------------

  function Noted(s: State, c: nat): State
    requires c in s.connectors && s.connectors[c].Posted? && s.connectors[c].post < |s.posts|
  {
    var w := s.connectors[c];
    Patched(s, s.run.recorded[w.key := w.value], s.run.lease - {w.key}).(
      posts := s.posts[w.post := s.posts[w.post].(status := Recorded)], connectors := s.connectors - {c})
  }

  lemma NotedLeases(s: State, c: nat)
    requires Inv(s) && Active(s, c) && s.connectors[c].Posted? && s.connectors[c].post < |s.posts|
    ensures Leases(Noted(s, c)) && Exclusive(Noted(s, c))
  {
    hide Versions, Copies, Posters, Records, Repeats;
    var s' := Noted(s, c);
    forall d | Active(s', d)
      ensures Active(s, d) && s'.connectors[d] == s.connectors[d] && d != c
              && s.connectors[d].key != s.connectors[c].key
    {
    }
  }

  lemma NotedPosters(s: State, c: nat)
    requires Inv(s) && Active(s, c) && s.connectors[c].Posted? && s.connectors[c].post < |s.posts|
    ensures Posters(Noted(s, c))
  {
    hide Versions, Copies, Records, Repeats, Leases, Exclusive;
    var s' := Noted(s, c);
    forall i | 0 <= i < |s'.posts| && s'.posts[i].status.Open? ensures HasPoster(s', i) {
      assert HasPoster(s, i);
      var d :| d in s.connectors && s.connectors[d].Posted? && s.connectors[d].post == i;
      assert d in s'.connectors && s'.connectors[d].Posted?;
    }
    forall d | Active(s', d) ensures Active(s, d) {}
  }

  lemma NotedRepeats(s: State, c: nat)
    requires Inv(s) && Active(s, c) && s.connectors[c].Posted? && s.connectors[c].post < |s.posts|
    ensures Repeats(Noted(s, c))
  {
    hide Versions, Copies, Leases, Exclusive, Records, ChangedBetween, HasPoster;
    var s', p := Noted(s, c), s.connectors[c].post;
    forall i, j | 0 <= i < j < |s'.posts| && s'.posts[i].key == s'.posts[j].key
      && s'.posts[i].value == s'.posts[j].value
      ensures Unfinished(s', i) || ChangedBetween(s'.posts, i, j)
    {
      BrokenKeepsChanges(s.posts, p, Recorded, i, j);
      assert Unfinished(s, i) || ChangedBetween(s.posts, i, j);
    }
  }

  /** A recorded value stands until another one is sent and recorded after it. */
  lemma NotedRecords(s: State, c: nat)
    requires Inv(s) && Active(s, c) && s.connectors[c].Posted? && s.connectors[c].post < |s.posts|
    ensures Records(Noted(s, c))
  {
    hide Versions, Copies, Leases, Exclusive, Repeats, ChangedBetween, HasPoster;
    var s', p := Noted(s, c), s.connectors[c].post;
    forall k | k in s'.run.recorded
      ensures exists i :: 0 <= i < |s'.posts| && s'.posts[i].key == k && s'.posts[i].value == s'.run.recorded[k]
    {
      if k == s.connectors[c].key {
        assert s'.posts[p].key == k;
      } else {
        var i :| 0 <= i < |s.posts| && s.posts[i].key == k && s.posts[i].value == s.run.recorded[k];
        assert s'.posts[i].key == k;
      }
    }
    forall i | 0 <= i < |s'.posts| && s'.posts[i].status.Recorded?
      ensures (s'.posts[i].key in s'.run.recorded && s'.run.recorded[s'.posts[i].key] == s'.posts[i].value)
              || ChangedBetween(s'.posts, i, |s'.posts|)
    {
      BrokenKeepsChanges(s.posts, p, Recorded, i, |s.posts|);
      if i != p && s.posts[i].key == s.posts[p].key && s.posts[i].value != s.posts[p].value {
        assert i < p;
        ChangedAt(s.posts, i, p);
      }
    }
  }

  lemma ChangedAt(posts: seq<Post>, i: nat, m: nat)
    requires i < m < |posts| && posts[m].key == posts[i].key && posts[m].value != posts[i].value
    ensures ChangedBetween(posts, i, |posts|)
  {
  }

  lemma NotedInv(s: State, c: nat)
    requires Inv(s) && Active(s, c) && s.connectors[c].Posted? && s.connectors[c].post < |s.posts|
    ensures Inv(Noted(s, c))
  {
    hide Leases, Posters, Exclusive, Records, Repeats;
    var w := s.connectors[c];
    NotedLeases(s, c);
    NotedPosters(s, c);
    NotedRepeats(s, c);
    NotedRecords(s, c);
    PatchedVersions(s, s.run.recorded[w.key := w.value], s.run.lease - {w.key});
    SameVersions(Patched(s, s.run.recorded[w.key := w.value], s.run.lease - {w.key}), Noted(s, c));
  }

  lemma RecordInv(s: State, c: nat, fate: Fate)
    requires Inv(s)
    ensures Inv(AfterRecord(s, c, fate))
  {
    hide Inv, Active, CopyOf;
    GiveUpInv(s, c);
    if c in s.connectors && s.connectors[c].Posted? && s.connectors[c].post < |s.posts| && InTime(s, c)
      && !fate.Refused?
    {
      var w := s.connectors[c];
      PostedActive(s, c);
      NotedInv(s, c);
      var s' := Noted(s, c);
      if fate.Done? {
        OwnCopy(s);
        OwnCopy(s');
        DeadlineNear(s, c);
        PollingInv(s', c, s'.run, w.deadline);
        assert AfterRecord(s, c, fate) == Goto(s', c, Polling(s'.run, w.deadline)) by {
          assert (s.connectors - {c})[c := Polling(s'.run, w.deadline)]
                 == s.connectors[c := Polling(s'.run, w.deadline)];
        }
      }
    }
  }

  lemma PostedActive(s: State, c: nat)
    requires InTime(s, c) && s.connectors[c].Posted?
    ensures Active(s, c)
  {
  }

  lemma OwnCopy(s: State)
    ensures CopyOf(s.run, s.run)
  {
  }

  lemma DeadlineNear(s: State, c: nat)
    requires Inv(s) && c in s.connectors
    ensures s.connectors[c].deadline <= s.now + POLL_LIMIT
  {
    hide Posters, Records, Repeats, Leases, Exclusive;
  }

  lemma OtherPatchInv(s: State)
    requires Inv(s)
    ensures Inv(Step(s, OtherPatch))
  {
    hide ChangedBetween, HasPoster;
    var s' := Step(s, OtherPatch);
    PatchedVersions(s, s.run.recorded, s.run.lease);
    SamePosters(s, s');
    assert forall d | Active(s', d) :: Active(s, d);
  }

  lemma StepInv(s: State, a: Action)
    requires Inv(s)
    ensures Inv(Step(s, a))
  {
    hide Inv, AfterBegin, AfterDeliver, AfterSend, AfterRecord, GiveUp;
    match a
    case Tick(time) => TickInv(s, time);
    case BeginPoll(c, read) => BeginInv(s, c, read);
    case Deliver(c, key, value, fate) => DeliverInv(s, c, key, value, fate);
    case Send(c, fate) => SendInv(s, c, fate);
    case Record(c, fate) => RecordInv(s, c, fate);
    case OtherPatch => OtherPatchInv(s);
    case Crash(c) => GiveUpInv(s, c);
  }

  lemma {:induction false} RunInv(actions: seq<Action>)
    ensures Inv(Run(INITIAL, actions))
  {
    hide Inv, Step;
    if actions == [] {
      InitialInv();
    } else {
      RunInv(actions[..|actions| - 1]);
      StepInv(Run(INITIAL, actions[..|actions| - 1]), actions[|actions| - 1]);
    }
  }

  lemma InitialInv()
    ensures Inv(INITIAL)
  {
  }

  // ---- Theorems -----------------------------------------------------------------------------------

  /** At most one connector in time is between its lease and its record for a notice. */
  lemma LeaseExcludes(actions: seq<Action>, c: nat, d: nat)
    ensures var s := Run(INITIAL, actions);
            Active(s, c) && Active(s, d) && s.connectors[c].key == s.connectors[d].key ==> c == d
  {
    RunInv(actions);
  }

  /** A recorded value was posted. */
  lemma RecordedWasPosted(actions: seq<Action>, key: string)
    ensures var s := Run(INITIAL, actions);
            key in s.run.recorded ==>
              exists i :: 0 <= i < |s.posts| && s.posts[i].key == key && s.posts[i].value == s.run.recorded[key]
  {
    RunInv(actions);
  }

  /** A notice's value is posted twice without another of its values in between only if the first
      poster failed, crashed or ran out of time between its post and its record. */
  lemma RepeatsNeedAFailure(actions: seq<Action>, i: nat, j: nat)
    ensures var posts := Run(INITIAL, actions).posts;
            i < j < |posts| && posts[i].key == posts[j].key && posts[i].value == posts[j].value
            && !(exists m :: i < m < j && posts[m].key == posts[i].key && posts[m].value != posts[i].value) ==>
              posts[i].status.Broken? || (posts[i].status.Open? && posts[i].deadline < Run(INITIAL, actions).now)
  {
    RunInv(actions);
    var s := Run(INITIAL, actions);
    if i < j < |s.posts| && s.posts[i].key == s.posts[j].key && s.posts[i].value == s.posts[j].value {
      assert Unfinished(s, i) || ChangedBetween(s.posts, i, j);
    }
  }

  // ---- Exactly when a value can be repeated -------------------------------------------------------

  /** Nothing has been posted for the notice after `i`. */
  predicate LastOfKey(posts: seq<Post>, i: nat) {
    i < |posts| && forall j | i < j < |posts| :: posts[j].key != posts[i].key
  }

  /** The last post of a notice counts as delivered only if its own record was made. */
  ghost predicate Unrecorded(recorded: map<string, string>, posts: seq<Post>) {
    forall i: nat :: UnrecordedAt(recorded, posts, i)
  }

  predicate UnrecordedAt(recorded: map<string, string>, posts: seq<Post>, i: nat) {
    LastOfKey(posts, i) && !posts[i].status.Recorded? ==>
      !(posts[i].key in recorded && recorded[posts[i].key] == posts[i].value)
  }

  lemma SameLast(posts: seq<Post>, p: nat, status: Status, i: nat)
    requires p < |posts| && LastOfKey(posts[p := posts[p].(status := status)], i)
    ensures LastOfKey(posts, i)
  {
    var now := posts[p := posts[p].(status := status)];
    assert forall j | 0 <= j < |posts| :: now[j].key == posts[j].key;
  }

  lemma GiveUpUnrecorded(s: State, c: nat)
    requires Posters(s) && Unrecorded(s.run.recorded, s.posts)
    ensures Unrecorded(GiveUp(s, c).run.recorded, GiveUp(s, c).posts)
  {
    hide HasPoster, LastOfKey;
    var s' := GiveUp(s, c);
    forall i: nat ensures UnrecordedAt(s'.run.recorded, s'.posts, i) {
      assert UnrecordedAt(s.run.recorded, s.posts, i);
      if LastOfKey(s'.posts, i) && c in s.connectors && s.connectors[c].Posted? {
        SameLast(s.posts, s.connectors[c].post, Broken, i);
        InRange(s'.posts, i);
      }
    }
  }

  lemma InRange(posts: seq<Post>, i: nat)
    requires LastOfKey(posts, i)
    ensures i < |posts|
  {
  }

  lemma SentUnrecorded(s: State, c: nat)
    requires Inv(s) && Active(s, c) && s.connectors[c].Leased? && Unrecorded(s.run.recorded, s.posts)
    ensures Unrecorded(Sent(s, c).run.recorded, Sent(s, c).posts)
  {
    hide Versions, Copies, Exclusive, Posters, Records, Repeats, LastOfKey;
    var s' := Sent(s, c);
    forall i: nat ensures UnrecordedAt(s'.run.recorded, s'.posts, i) {
      assert UnrecordedAt(s.run.recorded, s.posts, i);
      if LastOfKey(s'.posts, i) {
        InRange(s'.posts, i);
        if i < |s.posts| {
          LastBefore(s.posts, s'.posts[|s.posts|], i);
        }
      }
    }
  }

  lemma LastBefore(posts: seq<Post>, p: Post, i: nat)
    requires i < |posts| && LastOfKey(posts + [p], i)
    ensures LastOfKey(posts, i) && (posts + [p])[i] == posts[i]
  {
    assert forall j | 0 <= j < |posts| :: (posts + [p])[j] == posts[j];
  }

  /** The post of an active connector is the last one for its notice. */
  lemma OtherKey(s: State, c: nat, i: nat)
    requires Posters(s) && Active(s, c) && s.connectors[c].Posted? && LastOfKey(s.posts, i) && i != s.connectors[c].post
    ensures s.posts[i].key != s.connectors[c].key
  {
    hide HasPoster;
  }

  lemma NotedUnrecorded(s: State, c: nat)
    requires Inv(s) && Active(s, c) && s.connectors[c].Posted? && s.connectors[c].post < |s.posts|
    requires Unrecorded(s.run.recorded, s.posts)
    ensures Unrecorded(Noted(s, c).run.recorded, Noted(s, c).posts)
  {
    hide Versions, Copies, Leases, Exclusive, Records, Repeats, HasPoster;
    var s', p := Noted(s, c), s.connectors[c].post;
    forall i: nat ensures UnrecordedAt(s'.run.recorded, s'.posts, i) {
      assert UnrecordedAt(s.run.recorded, s.posts, i);
      if LastOfKey(s'.posts, i) && i != p {
        SameLast(s.posts, p, Recorded, i);
        OtherKey(s, c, i);
      }
    }
  }

  lemma SendUnrecorded(s: State, c: nat, fate: Fate)
    requires Inv(s) && Unrecorded(s.run.recorded, s.posts)
    ensures Unrecorded(AfterSend(s, c, fate).run.recorded, AfterSend(s, c, fate).posts)
  {
    hide Versions, Copies, Leases, Exclusive, Records, Repeats, Posters, Unrecorded;
    GiveUpUnrecorded(s, c);
    if InTime(s, c) && s.connectors[c].Leased? && !fate.Refused? {
      SentUnrecorded(s, c);
      SentPosters(s, c);
      GiveUpUnrecorded(Sent(s, c), c);
      if fate.Lost? {
        var w := s.connectors[c];
        var sent := s.posts + [Post(w.key, w.value, w.deadline, Open)];
        assert sent[|s.posts| := Post(w.key, w.value, w.deadline, Broken)]
               == s.posts + [Post(w.key, w.value, w.deadline, Broken)];
      }
    }
  }

  lemma RecordUnrecorded(s: State, c: nat, fate: Fate)
    requires Inv(s) && Unrecorded(s.run.recorded, s.posts)
    ensures Unrecorded(AfterRecord(s, c, fate).run.recorded, AfterRecord(s, c, fate).posts)
  {
    hide Versions, Copies, Leases, Exclusive, Records, Repeats, Posters, Unrecorded;
    GiveUpUnrecorded(s, c);
    if c in s.connectors && s.connectors[c].Posted? && s.connectors[c].post < |s.posts| && InTime(s, c)
      && !fate.Refused?
    {
      NotedUnrecorded(s, c);
    }
  }

  lemma DeliverUnrecorded(s: State, c: nat, key: string, value: string, fate: Fate)
    requires Inv(s) && Unrecorded(s.run.recorded, s.posts)
    ensures Unrecorded(AfterDeliver(s, c, key, value, fate).run.recorded, AfterDeliver(s, c, key, value, fate).posts)
  {
    hide Versions, Copies, Leases, Exclusive, Records, Repeats, Posters, Unrecorded;
    GiveUpUnrecorded(s, c);
    if c in s.connectors && s.connectors[c].Polling? {
      PollersPostNothing(s, c);
    }
  }

  lemma PollersPostNothing(s: State, c: nat)
    requires c in s.connectors && s.connectors[c].Polling?
    ensures GiveUp(s, c).posts == s.posts
    ensures forall recorded, lease :: GiveUp(Patched(s, recorded, lease), c).posts == s.posts
  {
  }

  lemma StepUnrecorded(s: State, a: Action)
    requires Inv(s) && Unrecorded(s.run.recorded, s.posts)
    ensures Unrecorded(Step(s, a).run.recorded, Step(s, a).posts)
  {
    hide Versions, Copies, Leases, Exclusive, Records, Repeats, Posters, Unrecorded, AfterDeliver, AfterSend,
         AfterRecord, GiveUp;
    match a
    case Deliver(c, key, value, fate) => DeliverUnrecorded(s, c, key, value, fate);
    case Send(c, fate) => SendUnrecorded(s, c, fate);
    case Record(c, fate) => RecordUnrecorded(s, c, fate);
    case Crash(c) => GiveUpUnrecorded(s, c);
    case _ =>
  }

  lemma {:induction false} RunUnrecorded(actions: seq<Action>)
    ensures var s := Run(INITIAL, actions); Unrecorded(s.run.recorded, s.posts)
  {
    hide Step, Unrecorded, Inv;
    if actions == [] {
      NothingPosted();
    } else {
      RunInv(actions[..|actions| - 1]);
      RunUnrecorded(actions[..|actions| - 1]);
      StepUnrecorded(Run(INITIAL, actions[..|actions| - 1]), actions[|actions| - 1]);
    }
  }

  lemma NothingPosted()
    ensures Unrecorded(INITIAL.run.recorded, INITIAL.posts)
  {
  }

  /** Posts keep their order, notice and value, and a recorded one stays recorded. */
  ghost predicate Kept(posts: seq<Post>, posts': seq<Post>) {
    |posts| <= |posts'| && forall i | 0 <= i < |posts| :: SamePost(posts[i], posts'[i])
  }

  predicate SamePost(p: Post, p': Post) {
    p.key == p'.key && p.value == p'.value && (p.status.Recorded? ==> p'.status.Recorded?)
  }

  lemma StepKeeps(s: State, a: Action)
    requires Inv(s)
    ensures Kept(s.posts, Step(s, a).posts)
  {
    hide Versions, Copies, Leases, Exclusive, Records, Repeats, HasPoster;
  }

  lemma {:induction false} RunKeeps(actions: seq<Action>, more: seq<Action>)
    ensures var s := Run(INITIAL, actions);
            Run(INITIAL, actions + more) == Run(s, more) && Kept(s.posts, Run(s, more).posts)
  {
    hide Step, Inv, Kept;
    var s := Run(INITIAL, actions);
    if more == [] {
      assert actions + more == actions;
      KeptItself(s.posts);
    } else {
      var init, last := more[..|more| - 1], more[|more| - 1];
      RunKeeps(actions, init);
      assert (actions + more)[..|actions + more| - 1] == actions + init;
      RunInv(actions + init);
      StepKeeps(Run(s, init), last);
      KeptOn(s.posts, Run(s, init).posts, Run(s, more).posts);
    }
  }

  lemma KeptItself(posts: seq<Post>)
    ensures Kept(posts, posts)
  {
  }

  lemma KeptOn(a: seq<Post>, b: seq<Post>, c: seq<Post>)
    requires Kept(a, b) && Kept(b, c)
    ensures Kept(a, c)
  {
    forall i | 0 <= i < |a| ensures SamePost(a[i], c[i]) {
      assert SamePost(a[i], b[i]) && SamePost(b[i], c[i]);
    }
  }

  /** No request fails and nobody crashes; time may pass. */
  predicate Smooth(a: Action) {
    match a
    case Deliver(_, _, _, fate) => fate.Done?
    case Send(_, fate) => fate.Done?
    case Record(_, fate) => fate.Done?
    case Crash(_) => false
    case _ => true
  }

  /** The value of post `i` goes out again with no other value of the notice in between. */
  ghost predicate Repeated(posts: seq<Post>, i: nat) {
    exists j ::
      i < j < |posts| && posts[j].key == posts[i].key && posts[j].value == posts[i].value
      && !ChangedBetween(posts, i, j)
  }

  lemma FreshConnector(connectors: map<nat, Connector>) returns (c: nat)
    ensures c !in connectors
  {
    c := 0;
    var rest := connectors.Keys;
    while rest != {}
      invariant rest <= connectors.Keys && forall k | k in connectors && k !in rest :: k < c
      decreases rest
    {
      var k :| k in rest;
      rest, c := rest - {k}, if k < c then c else k + 1;
    }
  }

  /** A connector of its own leases and posts a notice that is neither recorded nor leased. */
  lemma FreshPost(s: State, c: nat, key: string, value: string)
    requires Versions(s) && c !in s.connectors
    requires !(key in s.run.recorded && s.run.recorded[key] == value)
             && !(key in s.run.lease && s.run.lease[key] > s.now / 1000)
    ensures var s' := Step(Step(Step(s, BeginPoll(c, |s.history| - 1)), Deliver(c, key, value, Done)), Send(c, Done));
            s'.posts == s.posts + [Post(key, value, s.now + POLL_LIMIT, Open)]
  {
    var s1 := Step(s, BeginPoll(c, |s.history| - 1));
    assert c in s1.connectors && s1.connectors[c] == Polling(s.run, s.now + POLL_LIMIT);
    var s2 := Step(s1, Deliver(c, key, value, Done));
    assert c in s2.connectors && s2.connectors[c].Leased? && s2.connectors[c].key == key
           && s2.connectors[c].value == value;
  }

  lemma Run4(s: State, a: Action, b: Action, c: Action, d: Action)
    ensures Run(s, [a, b, c, d]) == Step(Step(Step(Step(s, a), b), c), d)
  {
    hide Step;
    assert [a, b, c, d][..3] == [a, b, c] && [a, b, c][..2] == [a, b] && [a, b][..1] == [a] && [a][..0] == [];
    assert Run(s, []) == s;
    assert Run(s, [a]) == Step(s, a);
    assert Run(s, [a, b]) == Step(Run(s, [a]), b);
    assert Run(s, [a, b, c]) == Step(Run(s, [a, b]), c);
  }

  /** The last post of a notice, unless recorded, goes out again once its lease has run out. */
  lemma Repeating(s: State, i: nat) returns (more: seq<Action>)
    requires Inv(s) && Unrecorded(s.run.recorded, s.posts) && LastOfKey(s.posts, i) && !s.posts[i].status.Recorded?
    ensures (forall a | a in more :: Smooth(a)) && Repeated(Run(s, more).posts, i)
  {
    hide Copies, Leases, Exclusive, Records, Repeats, Posters, Run, Step;
    assert UnrecordedAt(s.run.recorded, s.posts, i);
    var p := s.posts[i];
    var time := if p.key in s.run.lease then s.run.lease[p.key] * 1000 else 0;
    var s1 := Step(s, Tick(time));
    var c := FreshConnector(s.connectors);
    Waited(s, time);
    more := [Tick(time), BeginPoll(c, |s.history| - 1), Deliver(c, p.key, p.value, Done), Send(c, Done)];
    Run4(s, more[0], more[1], more[2], more[3]);
    FreshPost(s1, c, p.key, p.value);
    NextIsRepeat(s.posts, Post(p.key, p.value, s1.now + POLL_LIMIT, Open), i);
  }

  lemma Waited(s: State, time: nat)
    requires Versions(s)
    ensures var s' := Step(s, Tick(time));
            && Versions(s') && s'.run == s.run && s'.history == s.history && s'.connectors == s.connectors
               && s'.posts == s.posts
            && s'.now == s.now + time
  {
  }

  lemma NextIsRepeat(posts: seq<Post>, p: Post, i: nat)
    requires LastOfKey(posts, i) && p.key == posts[i].key && p.value == posts[i].value
    ensures Repeated(posts + [p], i)
  {
    var more := posts + [p];
    assert more[|posts|] == p && forall j | 0 <= j < |posts| :: more[j] == posts[j];
    assert !ChangedBetween(more, i, |posts|);
  }

  /** Exactly when: with no further failure, the value of a notice's last post can go out again before
      any other value of it if and only if that post has not been recorded. */
  lemma RepeatsIff(actions: seq<Action>, i: nat)
    requires LastOfKey(Run(INITIAL, actions).posts, i)
    ensures var s := Run(INITIAL, actions);
            (exists more :: (forall a | a in more :: Smooth(a)) && Repeated(Run(s, more).posts, i))
            <==> !s.posts[i].status.Recorded?
  {
    hide Inv, Run, Repeated, LastOfKey;
    var s := Run(INITIAL, actions);
    InRange(s.posts, i);
    if s.posts[i].status.Recorded? {
      forall more ensures !Repeated(Run(s, more).posts, i) {
        RunKeeps(actions, more);
        RunInv(actions + more);
        RecordedIsFinal(s.posts, Run(s, more), i);
      }
    } else {
      RunInv(actions);
      RunUnrecorded(actions);
      var more := Repeating(s, i);
    }
  }

  lemma RecordedIsFinal(posts: seq<Post>, s: State, i: nat)
    requires Inv(s) && i < |posts| && Kept(posts, s.posts) && posts[i].status.Recorded?
    ensures !Repeated(s.posts, i)
  {
    hide Versions, Copies, Leases, Exclusive, Posters, Records, ChangedBetween;
    assert SamePost(posts[i], s.posts[i]);
  }

  /** A request that was refused changes nothing in the run and posts nothing, and a connector goes on to
      post, or to record, only after an answer. */
  lemma OnlyAnswersLeadOn(s: State, a: Action)
    requires (a.Deliver? || a.Send? || a.Record?) && !a.fate.Done?
    ensures var s' := Step(s, a);
            && (a.fate.Refused? ==> s'.run == s.run && |s'.posts| == |s.posts|)
            && forall c | c in s'.connectors ::
                 c in s.connectors && (s'.connectors[c].Polling? || s'.connectors[c] == s.connectors[c])
  {
  }

  // ---- Delivery gets through ----------------------------------------------------------------------

  /** A connector of its own leases, posts and records a notice that is neither recorded nor leased. */
  lemma FreshDelivery(s: State, c: nat, key: string, value: string)
    requires Versions(s) && c !in s.connectors
    requires !(key in s.run.recorded && s.run.recorded[key] == value)
             && !(key in s.run.lease && s.run.lease[key] > s.now / 1000)
    ensures var s2 := Step(Step(s, BeginPoll(c, |s.history| - 1)), Deliver(c, key, value, Done));
            var s4 := Step(Step(s2, Send(c, Done)), Record(c, Done));
            && s4.posts == s.posts + [Post(key, value, s.now + 45000, Recorded)]
            && s4.run.recorded == s.run.recorded[key := value] && s4.run.lease == s.run.lease - {key}
            && c in s4.connectors && s4.connectors[c].Polling? && s4.connectors - {c} == s.connectors
  {
    var s1 := Step(s, BeginPoll(c, |s.history| - 1));
    assert s1 == Goto(s, c, Polling(s.run, s.now + POLL_LIMIT));
    var run := Annotations(s.run.version + 1, s.run.recorded, s.run.lease[key := (s.now + LEASE) / 1000]);
    var s2 := Step(s1, Deliver(c, key, value, Done));
    LeasesNow(s1, c, key, value);
    var s3 := Step(s2, Send(c, Done));
    PostsNow(s2, c, key, value);
    RecordsNow(s3, c, key, value);
    assert run.lease - {key} == s.run.lease - {key};
  }

  lemma LeasesNow(s: State, c: nat, key: string, value: string)
    requires c in s.connectors && s.connectors[c] == Polling(s.run, s.now + POLL_LIMIT)
    requires !(key in s.run.recorded && s.run.recorded[key] == value)
             && !(key in s.run.lease && s.run.lease[key] > s.now / 1000)
    ensures var s' := Step(s, Deliver(c, key, value, Done));
            && s'.run == Annotations(s.run.version + 1, s.run.recorded, s.run.lease[key := s.now / 1000 + 120])
            && s' == s.(run := s'.run, history := s.history + [s'.run],
                        connectors := s.connectors[c := Leased(s'.run, s.now + POLL_LIMIT, key, value)])
  {
  }

  lemma PostsNow(s: State, c: nat, key: string, value: string)
    requires c in s.connectors && s.connectors[c].Leased? && InTime(s, c)
    requires s.connectors[c].key == key && s.connectors[c].value == value
    ensures var s', w := Step(s, Send(c, Done)), s.connectors[c];
            s' == s.(posts := s.posts + [Post(key, value, w.deadline, Open)],
                     connectors := s.connectors[c := Posted(w.copy, w.deadline, key, value, |s.posts|)])
  {
  }

  lemma RecordsNow(s: State, c: nat, key: string, value: string)
    requires c in s.connectors && s.connectors[c].Posted? && InTime(s, c) && s.connectors[c].post + 1 == |s.posts|
    requires s.connectors[c].key == key && s.connectors[c].value == value
    ensures var s', n := Step(s, Record(c, Done)), |s.posts| - 1;
            && s'.run.recorded == s.run.recorded[key := value] && s'.run.lease == s.run.lease - {key}
            && s'.posts == s.posts[..n] + [s.posts[n].(status := Recorded)]
            && c in s'.connectors && s'.connectors[c].Polling? && s'.connectors - {c} == s.connectors - {c}
  {
  }

  lemma Run5(s: State, a: Action, b: Action, c: Action, d: Action, e: Action)
    ensures Run(s, [a, b, c, d, e]) == Step(Step(Step(Step(Step(s, a), b), c), d), e)
  {
    hide Step;
    assert [a, b, c, d, e][..4] == [a, b, c, d];
    Run4(s, a, b, c, d);
    assert Run(s, [a, b, c, d, e]) == Step(Run(s, [a, b, c, d]), e);
  }

  /** After any run, whoever failed or crashed, a notice can still be delivered: without further failure
      its value gets posted, unless it is recorded already, and recorded. */
  lemma DeliveryGetsThrough(actions: seq<Action>, key: string, value: string) returns (more: seq<Action>)
    ensures forall a | a in more :: Smooth(a)
    ensures var s, t := Run(INITIAL, actions), Run(Run(INITIAL, actions), more);
            && key in t.run.recorded && t.run.recorded[key] == value
            && (exists i :: 0 <= i < |t.posts| && t.posts[i].key == key && t.posts[i].value == value)
  {
    hide Inv, Run, Step, Smooth;
    RunInv(actions);
    var s := Run(INITIAL, actions);
    if key in s.run.recorded && s.run.recorded[key] == value {
      more := [];
      RunNone(s);
      RecordedWasThere(s, key);
    } else {
      more := Delivering(s, key, value);
    }
  }

  lemma RunNone(s: State)
    ensures Run(s, []) == s
  {
  }

  lemma RecordedWasThere(s: State, key: string)
    requires Inv(s) && key in s.run.recorded
    ensures exists i :: 0 <= i < |s.posts| && s.posts[i].key == key && s.posts[i].value == s.run.recorded[key]
  {
    hide Versions, Copies, Leases, Exclusive, Posters, Repeats;
  }

  lemma Delivering(s: State, key: string, value: string) returns (more: seq<Action>)
    requires Inv(s) && !(key in s.run.recorded && s.run.recorded[key] == value)
    ensures forall a | a in more :: Smooth(a)
    ensures var t := Run(s, more);
            && key in t.run.recorded && t.run.recorded[key] == value
            && (exists i :: 0 <= i < |t.posts| && t.posts[i].key == key && t.posts[i].value == value)
  {
    hide Copies, Leases, Exclusive, Records, Repeats, Posters, Run, Step;
    var time := if key in s.run.lease then s.run.lease[key] * 1000 else 0;
    var s1 := Step(s, Tick(time));
    var c := FreshConnector(s.connectors);
    Waited(s, time);
    more := [Tick(time), BeginPoll(c, |s.history| - 1), Deliver(c, key, value, Done), Send(c, Done), Record(c, Done)];
    Run5(s, more[0], more[1], more[2], more[3], more[4]);
    FreshDelivery(s1, c, key, value);
    assert Run(s, more).posts[|s.posts|] == Post(key, value, s1.now + 45000, Recorded);
  }
}
