/** The hand-off of Slack messages to one worker per conversation, as in cmd/agent/slack_dispatch.go.
    A section under convMu and a channel receive are one atomic step each. */
module ConversationDispatch {
  import opened WhiteSpace

  const CAPACITY := 64

  datatype Decision = Decision(conversation: string, target: string, text: string, files: seq<string>)

  // ---- Merging a burst ----------------------------------------------------------------------------

  function Texts(ds: seq<Decision>): seq<string> {
    if ds == [] then []
    else Texts(ds[..|ds| - 1]) + if Trim(ds[|ds| - 1].text) != "" then [Trim(ds[|ds| - 1].text)] else []
  }

  function Files(ds: seq<Decision>): seq<string> {
    if ds == [] then [] else Files(ds[..|ds| - 1]) + ds[|ds| - 1].files
  }

  /** strings.Join with newlines. */
  function Lines(texts: seq<string>): string {
    if texts == [] then "" else if |texts| == 1 then texts[0] else texts[0] + "\n" + Lines(texts[1..])
  }

  /** Where the text of a message is in a merged text. */
  datatype Place = Place(message: nat, start: nat, stop: nat)

  ghost predicate Fits(text: string, ds: seq<Decision>, p: Place) {
    p.message < |ds| && p.start <= p.stop <= |text| && TrimmedTo(ds[p.message].text, text[p.start..p.stop])
  }

  /** Exactly a newline lies between two places. */
  predicate Follows(text: string, p: Place, q: Place) {
    p.message < q.message && p.stop < |text| && text[p.stop] == '\n' && q.start == p.stop + 1
  }

  ghost predicate PlacedOrBlank(ds: seq<Decision>, places: seq<Place>, i: nat)
    requires i < |ds|
  {
    Blank(ds[i].text) || exists p | p in places :: p.message == i
  }

  /** `text` is made of the trimmed texts of all messages that are not blank, in order and with one
      newline between two of them. */
  ghost predicate Spells(text: string, ds: seq<Decision>, places: seq<Place>) {
    && (forall k | 0 <= k < |places| :: Fits(text, ds, places[k]))
    && (forall k | 0 < k < |places| :: Follows(text, places[k - 1], places[k]))
    && (if places == [] then text == "" else places[0].start == 0 && places[|places| - 1].stop == |text|)
    && (forall i | 0 <= i < |ds| :: PlacedOrBlank(ds, places, i))
  }

  lemma {:induction false} LinesAppend(texts: seq<string>, t: string)
    ensures Lines(texts + [t]) == if texts == [] then t else Lines(texts) + "\n" + t
  {
    if |texts| > 1 {
      LinesAppend(texts[1..], t);
      assert (texts + [t])[1..] == texts[1..] + [t];
    }
  }

  lemma FitsMore(text: string, more: string, ds: seq<Decision>, d: Decision, p: Place)
    requires Fits(text, ds, p)
    ensures Fits(text + more, ds + [d], p)
  {
    hide TrimmedTo;
    assert (text + more)[p.start..p.stop] == text[p.start..p.stop];
  }

  lemma PlacedMore(ds: seq<Decision>, places: seq<Place>, d: Decision, more: seq<Place>)
    requires forall i | 0 <= i < |ds| :: PlacedOrBlank(ds, places, i)
    ensures forall i | 0 <= i < |ds| :: PlacedOrBlank(ds + [d], places + more, i)
  {
    hide Blank;
    forall i | 0 <= i < |ds| ensures PlacedOrBlank(ds + [d], places + more, i) {
      assert PlacedOrBlank(ds, places, i);
    }
  }

  lemma SpellsBlank(text: string, ds: seq<Decision>, places: seq<Place>, d: Decision)
    requires Spells(text, ds, places) && Blank(d.text)
    ensures Spells(text, ds + [d], places)
  {
    hide Fits, Blank, Follows;
    assert text + "" == text && places + [] == places;
    forall k | 0 <= k < |places| ensures Fits(text, ds + [d], places[k]) {
      FitsMore(text, "", ds, d, places[k]);
    }
    PlacedMore(ds, places, d, []);
    assert PlacedOrBlank(ds + [d], places, |ds|);
  }

  /** One more text, after a newline unless it is the first. */
  lemma SpellsNext(text: string, ds: seq<Decision>, places: seq<Place>, d: Decision, t: string)
    requires Spells(text, ds, places) && TrimmedTo(d.text, t)
    ensures var more := if places == [] then t else "\n" + t;
            Spells(text + more, ds + [d], places + [Place(|ds|, |text + more| - |t|, |text + more|)])
  {
    hide Fits, Blank, TrimmedTo, PlacedOrBlank;
    var more := if places == [] then t else "\n" + t;
    var now, p := text + more, Place(|ds|, |text + more| - |t|, |text + more|);
    forall k | 0 <= k < |places| ensures Fits(now, ds + [d], places[k]) {
      FitsMore(text, more, ds, d, places[k]);
    }
    LastFits(now, ds, d, t);
    PlacedMore(ds, places, d, [p]);
    LastPlaced(ds, places, d, p);
    if places != [] {
      LastFollows(text, ds, places[|places| - 1], t);
    }
  }

  lemma LastFits(now: string, ds: seq<Decision>, d: Decision, t: string)
    requires |t| <= |now| && now[|now| - |t|..] == t && TrimmedTo(d.text, t)
    ensures Fits(now, ds + [d], Place(|ds|, |now| - |t|, |now|))
  {
    hide TrimmedTo;
    assert now[|now| - |t|..|now|] == t && (ds + [d])[|ds|] == d;
  }

  lemma LastPlaced(ds: seq<Decision>, places: seq<Place>, d: Decision, p: Place)
    requires p.message == |ds|
    ensures PlacedOrBlank(ds + [d], places + [p], |ds|)
  {
    assert p in places + [p];
  }

  lemma LastFollows(text: string, ds: seq<Decision>, last: Place, t: string)
    requires Fits(text, ds, last) && last.stop == |text|
    ensures var now := text + ("\n" + t); Follows(now, last, Place(|ds|, |now| - |t|, |now|))
  {
  }

  /** What one more message adds to the merged text. */
  lemma LinesNext(ds: seq<Decision>, d: Decision)
    ensures var t, text := Trim(d.text), Lines(Texts(ds));
            && |Texts(ds + [d])| == |Texts(ds)| + (if t == "" then 0 else 1)
            && Lines(Texts(ds + [d])) == if t == "" then text else text + if Texts(ds) == [] then t else "\n" + t
  {
    hide Trim, Lines;
    var t := Trim(d.text);
    assert (ds + [d])[..|ds|] == ds;
    if t == "" {
      assert Texts(ds) + [] == Texts(ds);
    } else {
      LinesAppend(Texts(ds), t);
      NoLines();
      assert Lines(Texts(ds)) + "\n" + t == Lines(Texts(ds)) + ("\n" + t);
      assert "" + t == t;
    }
  }

  lemma NoLines()
    ensures Lines([]) == ""
  {
  }

  lemma {:induction false} TextsSpell(ds: seq<Decision>) returns (places: seq<Place>)
    ensures Spells(Lines(Texts(ds)), ds, places) && |places| == |Texts(ds)|
  {
    hide TrimmedTo, Blank, Trim, Spells, Lines, Texts;
    places := [];
    if ds == [] {
      NothingSpelled();
    } else {
      var init, d := ds[..|ds| - 1], ds[|ds| - 1];
      places := TextsSpell(init);
      assert ds == init + [d];
      TrimIs(d.text);
      TrimmedIsText(d.text);
      LinesNext(init, d);
      var text, t := Lines(Texts(init)), Trim(d.text);
      if t == "" {
        SpellsBlank(text, init, places, d);
      } else {
        SpellsNext(text, init, places, d, t);
        var more := if places == [] then t else "\n" + t;
        places := places + [Place(|init|, |text + more| - |t|, |text + more|)];
      }
    }
  }

  lemma NothingSpelled()
    ensures Spells(Lines(Texts([])), [], []) && Texts([]) == []
  {
  }

  lemma TrimmedIsText(s: string)
    ensures !TrimmedTo(s, "")
  {
  }

  /** Replies go to the latest message; the texts are joined in order and no file is lost. */
  method MergeDecisions(ds: seq<Decision>)
    returns (merged: Decision, ghost places: seq<Place>)
    requires ds != []
    ensures merged.conversation == ds[|ds| - 1].conversation && merged.target == ds[|ds| - 1].target
    ensures merged.files == Files(ds)
    ensures |ds| == 1 ==> merged == ds[0]
    ensures |ds| > 1 ==> Spells(merged.text, ds, places)
  {
    hide Spells, Trim, Lines;
    merged := ds[|ds| - 1];
    places := TextsSpell(ds);
    if |ds| == 1 {
      assert Files([]) == [] && ds[..0] == [];
      return;
    }
    var texts: seq<string> := [];
    var files: seq<string> := [];
    for i := 0 to |ds|
      invariant texts == Texts(ds[..i]) && files == Files(ds[..i])
    {
      assert ds[..i + 1][..i] == ds[..i];
      var t := Trim(ds[i].text);
      if t != "" {
        texts := texts + [t];
      }
      files := files + ds[i].files;
    }
    assert ds[..|ds|] == ds;
    merged := merged.(text := Lines(texts), files := files);
  }

  // ---- The hand-off -------------------------------------------------------------------------------

  datatype Phase = Listening | Coalescing(batch: seq<Decision>) | Handling(batch: seq<Decision>)

  /** A worker serves the queue it was started with. */
  datatype Worker = Worker(conversation: string, phase: Phase)

  /** `queues` is convQueues; channels and workers are known by the number of their queue. `accepted`
      and `handled` record the messages taken in and the batches finished. */
  datatype State = State(
    queues: map<string, nat>, channels: map<nat, seq<Decision>>, workers: map<nat, Worker>, made: nat, alive: bool,
    accepted: map<string, seq<Decision>>, handled: map<string, seq<seq<Decision>>>)

  const INITIAL := State(map[], map[], map[], 0, true, map[], map[])

  datatype Action =
    | Enqueue(d: Decision)
    | Receive(q: nat)
    | WindowCloses(q: nat)
    | Finish(q: nat)
    | IdleFires(q: nat)
    | Cancel
    | Quit(q: nat)

  function Log(m: map<string, seq<Decision>>, key: string): seq<Decision> {
    if key in m then m[key] else []
  }

  function Batches(m: map<string, seq<seq<Decision>>>, key: string): seq<seq<Decision>> {
    if key in m then m[key] else []
  }

  function Started(s: State, key: string): State {
    if key in s.queues then s
    else s.(queues := s.queues[key := s.made], channels := s.channels[s.made := []],
            workers := s.workers[s.made := Worker(key, Listening)], made := s.made + 1)
  }

  function Sent(s: State, d: Decision): State {
    var key := d.conversation;
    if key !in s.queues || s.queues[key] !in s.channels || |s.channels[s.queues[key]]| >= CAPACITY then s
    else
      var q := s.queues[key];
      s.(channels := s.channels[q := s.channels[q] + [d]], accepted := s.accepted[key := Log(s.accepted, key) + [d]])
  }

  /** enqueueConversation: start a worker on first use, then send without blocking. */
  function AfterEnqueue(s: State, d: Decision): State {
    Sent(Started(s, d.conversation), d)
  }

  /** A receive, by the worker's own loop or while it coalesces. */
  function AfterReceive(s: State, q: nat): State {
    if q !in s.workers || q !in s.channels || s.channels[q] == [] || s.workers[q].phase.Handling? then s
    else
      var w := s.workers[q];
      var batch := (if w.phase.Coalescing? then w.phase.batch else []) + [s.channels[q][0]];
      s.(channels := s.channels[q := s.channels[q][1..]], workers := s.workers[q := w.(phase := Coalescing(batch))])
  }

  function AfterWindow(s: State, q: nat): State {
    if q !in s.workers || !s.workers[q].phase.Coalescing? then s
    else s.(workers := s.workers[q := s.workers[q].(phase := Handling(s.workers[q].phase.batch))])
  }

  function AfterFinish(s: State, q: nat): State {
    if q !in s.workers || !s.workers[q].phase.Handling? then s
    else
      var w := s.workers[q];
      s.(workers := s.workers[q := w.(phase := Listening)],
         handled := s.handled[w.conversation := Batches(s.handled, w.conversation) + [w.phase.batch]])
  }

  /** The idle timer: under the lock, take a message that came in meanwhile or leave. */
  function AfterIdle(s: State, q: nat): State {
    if q !in s.workers || !s.workers[q].phase.Listening? || q !in s.channels then s
    else if s.channels[q] != [] then AfterReceive(s, q)
    else s.(queues := s.queues - {s.workers[q].conversation}, workers := s.workers - {q})
  }

  function Step(s: State, a: Action): State {
    match a
    case Enqueue(d) => AfterEnqueue(s, d)
    case Receive(q) => AfterReceive(s, q)
    case WindowCloses(q) => AfterWindow(s, q)
    case Finish(q) => AfterFinish(s, q)
    case IdleFires(q) => AfterIdle(s, q)
    case Cancel => s.(alive := false)
    case Quit(q) => if s.alive then s else s.(workers := s.workers - {q})
  }

  function Run(s: State, actions: seq<Action>): State {
    if actions == [] then s else Step(Run(s, actions[..|actions| - 1]), actions[|actions| - 1])
  }

  // ---- Invariants ---------------------------------------------------------------------------------

  function Flat(batches: seq<seq<Decision>>): seq<Decision> {
    if batches == [] then [] else Flat(batches[..|batches| - 1]) + batches[|batches| - 1]
  }

  function Current(w: Worker): seq<Decision> {
    if w.phase.Listening? then [] else w.phase.batch
  }

  /** The messages of a conversation that are not handled yet, in order. */
  function InFlight(s: State, key: string): seq<Decision> {
    if key in s.queues && s.queues[key] in s.workers && s.queues[key] in s.channels
    then Current(s.workers[s.queues[key]]) + s.channels[s.queues[key]] else []
  }

  /** The map of queues and the live workers belong together one to one. */
  ghost predicate Paired(s: State) {
    && (forall key | key in s.queues :: s.queues[key] in s.workers && s.workers[s.queues[key]].conversation == key)
    && (forall q | q in s.workers :: s.workers[q].conversation in s.queues && s.queues[s.workers[q].conversation] == q)
    && (forall q | q in s.workers :: q in s.channels)
    && (forall q | q in s.channels :: q < s.made)
  }

  /** Only a live worker's channel holds messages, and never too many. */
  ghost predicate Attended(s: State) {
    forall q | q in s.channels :: |s.channels[q]| <= CAPACITY && (q !in s.workers ==> s.channels[q] == [])
  }

  ghost predicate OrderedAt(s: State, key: string) {
    Flat(Batches(s.handled, key)) + InFlight(s, key) == Log(s.accepted, key)
  }

  ghost predicate Ordered(s: State) {
    forall key :: OrderedAt(s, key)
  }

  ghost predicate Inv(s: State) {
    s.alive ==> Paired(s) && Attended(s) && Ordered(s)
  }

  lemma StartedPaired(s: State, key: string)
    requires Paired(s) && Attended(s)
    ensures Paired(Started(s, key)) && Attended(Started(s, key))
  {
  }

  lemma StartedOrdered(s: State, key: string, k: string)
    requires Paired(s) && OrderedAt(s, k)
    ensures OrderedAt(Started(s, key), k)
  {
    assert InFlight(Started(s, key), k) == InFlight(s, k);
  }

  lemma SentPaired(s: State, d: Decision)
    requires Paired(s) && Attended(s)
    ensures Paired(Sent(s, d)) && Attended(Sent(s, d))
  {
  }

  lemma SentOrdered(s: State, d: Decision, k: string)
    requires Paired(s) && OrderedAt(s, k)
    ensures OrderedAt(Sent(s, d), k)
  {
    if k == d.conversation && Sent(s, d) != s {
      assert InFlight(Sent(s, d), k) == InFlight(s, k) + [d];
    } else {
      assert InFlight(Sent(s, d), k) == InFlight(s, k);
    }
  }

  lemma EnqueueInv(s: State, d: Decision)
    requires Inv(s)
    ensures Inv(AfterEnqueue(s, d))
  {
    hide Paired, Attended, OrderedAt, Sent, Started;
    Unchanged(s, d);
    if s.alive {
      StartedPaired(s, d.conversation);
      SentPaired(Started(s, d.conversation), d);
      forall k ensures OrderedAt(AfterEnqueue(s, d), k) {
        assert OrderedAt(s, k);
        StartedOrdered(s, d.conversation, k);
        SentOrdered(Started(s, d.conversation), d, k);
      }
    }
  }

  lemma Unchanged(s: State, d: Decision)
    ensures AfterEnqueue(s, d).alive == s.alive
  {
  }

  lemma ReceivePaired(s: State, q: nat)
    requires Paired(s) && Attended(s)
    ensures Paired(AfterReceive(s, q)) && Attended(AfterReceive(s, q))
  {
  }

  lemma ReceiveOrdered(s: State, q: nat, k: string)
    requires Paired(s) && OrderedAt(s, k)
    ensures OrderedAt(AfterReceive(s, q), k)
  {
    assert InFlight(AfterReceive(s, q), k) == InFlight(s, k);
  }

  lemma ReceiveInv(s: State, q: nat)
    requires Inv(s)
    ensures Inv(AfterReceive(s, q))
  {
    hide Paired, Attended, OrderedAt;
    if s.alive {
      ReceivePaired(s, q);
      forall k ensures OrderedAt(AfterReceive(s, q), k) {
        assert OrderedAt(s, k);
        ReceiveOrdered(s, q, k);
      }
    }
  }

  lemma WindowOrdered(s: State, q: nat, k: string)
    requires Paired(s) && OrderedAt(s, k)
    ensures OrderedAt(AfterWindow(s, q), k)
  {
    assert InFlight(AfterWindow(s, q), k) == InFlight(s, k);
  }

  lemma WindowInv(s: State, q: nat)
    requires Inv(s)
    ensures Inv(AfterWindow(s, q))
  {
    hide OrderedAt;
    if s.alive {
      forall k ensures OrderedAt(AfterWindow(s, q), k) {
        assert OrderedAt(s, k);
        WindowOrdered(s, q, k);
      }
    }
  }

  lemma FlatAppend(batches: seq<seq<Decision>>, batch: seq<Decision>)
    ensures Flat(batches + [batch]) == Flat(batches) + batch
  {
    assert (batches + [batch])[..|batches|] == batches;
  }

  /** Finishing moves the current batch of the worker's conversation to the handled ones. */
  lemma FinishMoves(s: State, q: nat, k: string)
    requires Paired(s) && q in s.workers && s.workers[q].phase.Handling?
    ensures var s' := AfterFinish(s, q);
            s'.accepted == s.accepted &&
            if s.workers[q].conversation == k
            then Batches(s'.handled, k) == Batches(s.handled, k) + [s.workers[q].phase.batch]
                 && InFlight(s, k) == s.workers[q].phase.batch + InFlight(s', k)
            else Batches(s'.handled, k) == Batches(s.handled, k) && InFlight(s', k) == InFlight(s, k)
  {
  }

  lemma FinishOrdered(s: State, q: nat, k: string)
    requires Paired(s) && OrderedAt(s, k)
    ensures OrderedAt(AfterFinish(s, q), k)
  {
    hide Paired, InFlight, Batches, Flat, Log;
    if q in s.workers && s.workers[q].phase.Handling? {
      FinishMoves(s, q, k);
      FlatAppend(Batches(s.handled, k), s.workers[q].phase.batch);
    }
  }

  lemma FinishPaired(s: State, q: nat)
    requires Paired(s) && Attended(s)
    ensures Paired(AfterFinish(s, q)) && Attended(AfterFinish(s, q))
  {
  }

  lemma FinishInv(s: State, q: nat)
    requires Inv(s)
    ensures Inv(AfterFinish(s, q))
  {
    hide Paired, Attended, OrderedAt;
    if s.alive {
      FinishPaired(s, q);
      forall k ensures OrderedAt(AfterFinish(s, q), k) {
        assert OrderedAt(s, k);
        FinishOrdered(s, q, k);
      }
    }
  }

  lemma IdlePaired(s: State, q: nat)
    requires Paired(s) && Attended(s)
    ensures Paired(AfterIdle(s, q)) && Attended(AfterIdle(s, q))
  {
    hide AfterReceive;
    ReceivePaired(s, q);
  }

  lemma IdleOrdered(s: State, q: nat, k: string)
    requires Paired(s) && OrderedAt(s, k)
    ensures OrderedAt(AfterIdle(s, q), k)
  {
    hide AfterReceive;
    ReceiveOrdered(s, q, k);
    if q in s.workers && s.workers[q].phase.Listening? && q in s.channels && s.channels[q] == [] {
      assert InFlight(AfterIdle(s, q), k) == InFlight(s, k);
    }
  }

  lemma IdleInv(s: State, q: nat)
    requires Inv(s)
    ensures Inv(AfterIdle(s, q))
  {
    hide Paired, Attended, OrderedAt;
    if s.alive {
      IdlePaired(s, q);
      forall k ensures OrderedAt(AfterIdle(s, q), k) {
        assert OrderedAt(s, k);
        IdleOrdered(s, q, k);
      }
    }
  }

  lemma StepInv(s: State, a: Action)
    requires Inv(s)
    ensures Inv(Step(s, a))
  {
    hide Paired, Attended, Ordered, AfterEnqueue, AfterReceive, AfterWindow, AfterFinish, AfterIdle;
    match a
    case Enqueue(d) => EnqueueInv(s, d);
    case Receive(q) => ReceiveInv(s, q);
    case WindowCloses(q) => WindowInv(s, q);
    case Finish(q) => FinishInv(s, q);
    case IdleFires(q) => IdleInv(s, q);
    case Cancel =>
    case Quit(q) =>
  }

  lemma {:induction false} RunInv(actions: seq<Action>)
    ensures Inv(Run(INITIAL, actions))
  {
    hide Inv, Step;
    if actions == [] {
      InitialInv();
    } else {
      RunInv(actions[..|actions| - 1]);
      StepInv(Run(INITIAL, actions[..|actions| - 1]), actions[|actions| - 1]);
    }
  }

  lemma InitialInv()
    ensures Inv(INITIAL)
  {
  }

  // ---- Theorems -----------------------------------------------------------------------------------

  /** While the context lives a conversation has at most one worker. */
  lemma OneWorkerPerConversation(actions: seq<Action>, q: nat, r: nat)
    ensures var s := Run(INITIAL, actions);
            s.alive && q in s.workers && r in s.workers && s.workers[q].conversation == s.workers[r].conversation ==>
              q == r
  {
    RunInv(actions);
  }

  /** While the context lives no accepted message sits in a channel without a live worker, not even
      across the idle exit, and a worker that exists is the one new messages go to. */
  lemma NoMessageIsStranded(actions: seq<Action>, q: nat)
    ensures var s := Run(INITIAL, actions);
            s.alive && q in s.channels && s.channels[q] != [] ==>
              q in s.workers && s.workers[q].conversation in s.queues && s.queues[s.workers[q].conversation] == q
  {
    RunInv(actions);
  }

  /** Every conversation's messages are handled once each and in order: what was accepted is what
      was handled, then the current batch, then the channel. */
  lemma HandledInOrder(actions: seq<Action>, key: string)
    ensures var s := Run(INITIAL, actions);
            s.alive ==> Flat(Batches(s.handled, key)) + InFlight(s, key) == Log(s.accepted, key)
  {
    RunInv(actions);
    assert Run(INITIAL, actions).alive ==> OrderedAt(Run(INITIAL, actions), key);
  }

  /** The messages of a conversation that wait in its channel. */
  function Waiting(s: State, key: string): nat {
    if key in s.queues && s.queues[key] in s.channels then |s.channels[s.queues[key]]| else 0
  }

  /** A message is taken in exactly if fewer than 64 wait in its conversation's channel, and a worker
      serves that channel from then on; no other conversation notices. */
  lemma EnqueueIs(actions: seq<Action>, d: Decision, key: string)
    ensures var s := Run(INITIAL, actions);
            var s' := Step(s, Enqueue(d));
            s.alive ==>
              && Log(s'.accepted, key) == Log(s.accepted, key) +
                 (if key == d.conversation && Waiting(s, key) < 64 then [d] else [])
              && d.conversation in s'.queues && s'.queues[d.conversation] in s'.workers
              && s'.alive && s'.handled == s.handled
  {
    hide Paired, Attended, Ordered, AfterEnqueue, Run;
    RunInv(actions);
    if Run(INITIAL, actions).alive {
      SentIs(Run(INITIAL, actions), d, key);
    }
  }

  lemma SentIs(s: State, d: Decision, key: string)
    requires Paired(s)
    ensures var s' := AfterEnqueue(s, d);
            && Log(s'.accepted, key) == Log(s.accepted, key) +
                 (if key == d.conversation && Waiting(s, key) < 64 then [d] else [])
            && d.conversation in s'.queues && s'.queues[d.conversation] in s'.workers
            && s'.alive == s.alive && s'.handled == s.handled
  {
    hide Paired, Started, Sent, Waiting, Log;
    StartedServes(s, d.conversation);
    SentTo(Started(s, d.conversation), d, key);
  }

  lemma StartedServes(s: State, key: string)
    requires Paired(s)
    ensures var t := Started(s, key);
            && key in t.queues && t.queues[key] in t.workers && t.queues[key] in t.channels
            && Waiting(t, key) == Waiting(s, key)
            && t.accepted == s.accepted && t.handled == s.handled && t.alive == s.alive
  {
  }

  lemma SentTo(t: State, d: Decision, key: string)
    requires d.conversation in t.queues && t.queues[d.conversation] in t.channels
    ensures var s' := Sent(t, d);
            && Log(s'.accepted, key) == Log(t.accepted, key) +
                 (if key == d.conversation && Waiting(t, key) < 64 then [d] else [])
            && s' == t.(channels := s'.channels, accepted := s'.accepted)
  {
    assert Log(t.accepted, key) + [] == Log(t.accepted, key);
  }

  /** An idle worker leaves, and with it the queue, exactly if no message waits; otherwise it takes one. */
  lemma IdleIs(actions: seq<Action>, q: nat)
    requires var s := Run(INITIAL, actions); s.alive && q in s.workers && s.workers[q].phase.Listening?
    ensures var s := Run(INITIAL, actions);
            var s', key := Step(s, IdleFires(q)), s.workers[q].conversation;
            && (key in s'.queues <==> Waiting(s, key) > 0) && (q in s'.workers <==> Waiting(s, key) > 0)
            && (Waiting(s, key) > 0 ==> s' == Step(s, Receive(q)) && Waiting(s', key) == Waiting(s, key) - 1)
  {
    hide Attended, Ordered, Run;
    RunInv(actions);
  }

  lemma {:induction false} RunAppend(s: State, a: Action, rest: seq<Action>)
    ensures Run(s, [a] + rest) == Run(Step(s, a), rest)
  {
    hide Step;
    if rest == [] {
      assert [a] + rest == [a] && [a][..0] == [];
      assert Run(s, []) == s;
    } else {
      RunAppend(s, a, rest[..|rest| - 1]);
      assert ([a] + rest)[..|rest|] == [a] + rest[..|rest| - 1];
    }
  }

  function Rank(w: Worker): nat {
    match w.phase case Listening => 0 case Handling(_) => 1 case Coalescing(_) => 2
  }

  /** What a conversation's worker does next when no further message comes. */
  function NextAction(s: State, q: nat): Action
    requires q in s.workers && q in s.channels
  {
    match s.workers[q].phase
    case Handling(_) => Finish(q)
    case Coalescing(_) => if s.channels[q] != [] then Receive(q) else WindowCloses(q)
    case Listening => Receive(q)
  }

  lemma WorkerMoves(s: State, key: string)
    requires Inv(s) && s.alive && key in s.queues
    ensures s.queues[key] in s.workers && s.queues[key] in s.channels
    ensures var q := s.queues[key];
            var s' := Step(s, NextAction(s, q));
            s'.alive && s'.accepted == s.accepted && key in s'.queues && s'.queues[key] == q
            && q in s'.workers && q in s'.channels
            && (InFlight(s, key) != [] ==>
                  3 * |s'.channels[q]| + Rank(s'.workers[q]) < 3 * |s.channels[q]| + Rank(s.workers[q]))
  {
    hide Attended, Ordered;
  }

  /** From any state while the context lives, the worker can finish what was taken in. */
  lemma {:induction false} WorkDrains(s: State, key: string) returns (rest: seq<Action>)
    requires Inv(s) && s.alive
    ensures var t := Run(s, rest);
            Inv(t) && t.alive && t.accepted == s.accepted && InFlight(t, key) == []
    decreases Waiting(s, key),
              if key in s.queues && s.queues[key] in s.workers then Rank(s.workers[s.queues[key]]) else 0
  {
    hide Inv, Step, InFlight, Paired, Attended, Ordered;
    if InFlight(s, key) == [] {
      rest := [];
    } else {
      InFlightIsQueued(s, key);
      WorkerMoves(s, key);
      var a := NextAction(s, s.queues[key]);
      StepInv(s, a);
      rest := WorkDrains(Step(s, a), key);
      RunAppend(s, a, rest);
      rest := [a] + rest;
    }
  }

  lemma InFlightIsQueued(s: State, key: string)
    ensures InFlight(s, key) != [] ==> key in s.queues
  {
  }

  /** No message is stuck: after any run, what the worker does on its own handles every message of the
      conversation that was taken in. */
  lemma EveryMessageCanBeHandled(actions: seq<Action>, key: string) returns (rest: seq<Action>)
    ensures var s, t := Run(INITIAL, actions), Run(Run(INITIAL, actions), rest);
            s.alive ==> t.alive && t.accepted == s.accepted && Flat(Batches(t.handled, key)) == Log(s.accepted, key)
  {
    hide InFlight, Paired, Attended;
    RunInv(actions);
    rest := [];
    if Run(INITIAL, actions).alive {
      rest := WorkDrains(Run(INITIAL, actions), key);
      assert OrderedAt(Run(Run(INITIAL, actions), rest), key);
    }
  }

  /** The files that merged batches carry. */
  function HandledFiles(batches: seq<seq<Decision>>): seq<string> {
    if batches == [] then [] else HandledFiles(batches[..|batches| - 1]) + Files(batches[|batches| - 1])
  }

  lemma {:induction false} FilesAppend(a: seq<Decision>, b: seq<Decision>)
    ensures Files(a + b) == Files(a) + Files(b)
  {
    if b == [] {
      assert a + b == a;
    } else {
      FilesAppend(a, b[..|b| - 1]);
      assert (a + b)[..|a + b| - 1] == a + b[..|b| - 1];
    }
  }

  lemma {:induction false} BatchFiles(batches: seq<seq<Decision>>)
    ensures HandledFiles(batches) == Files(Flat(batches))
  {
    if batches != [] {
      BatchFiles(batches[..|batches| - 1]);
      FilesAppend(Flat(batches[..|batches| - 1]), batches[|batches| - 1]);
    }
  }

  /** However the messages are batched, no attachment is lost, duplicated or reordered. */
  lemma NoFileIsLost(actions: seq<Action>, key: string)
    ensures var s := Run(INITIAL, actions);
            s.alive ==> HandledFiles(Batches(s.handled, key)) + Files(InFlight(s, key)) == Files(Log(s.accepted, key))
  {
    HandledInOrder(actions, key);
    var s := Run(INITIAL, actions);
    BatchFiles(Batches(s.handled, key));
    FilesAppend(Flat(Batches(s.handled, key)), InFlight(s, key));
  }
}
