/** Whole runs of checkpoint publication: processes start from what they find in the store, take
    checkpoints, retire them and die at any moment. */
module CheckpointRuns {
  import opened Wrappers
  import opened CheckpointPublication
  import opened CheckpointInvariants
  import opened CheckpointAnswers

  // ---- Runs ---------------------------------------------------------------------------------------

  datatype Command =
    | Start
    | Snapshot(attempt: Attempt)
    | Exit(clean: bool, attempt: Attempt, keys: seq<Key>)

  /** A command runs to its end, or the pod dies when the store has reached its `at`-th content. */
  datatype Event = Whole(command: Command) | Died(command: Command, at: nat)

  /** `doubt` records, of the running process, that the answer to its last manifest was lost. */
  datatype World = World(disk: Disk, process: Option<Memory>, doubt: bool)

  /** loadWorkspaceCheckpoint and newWorkspaceSnapshotter; the run does not start on a bad manifest. */
  function Load(t: Objects): Option<Memory> {
    if Latest !in t then Some(Remember(None))
    else if t[Latest].OfManifest? && Acceptable(t[Latest].manifest) then Some(Remember(Some(t[Latest].manifest)))
    else None
  }

  function Do(w: World, c: Command): World {
    match c
    case Start => if w.process.None? then World(w.disk, Load(w.disk.objects), false) else w
    case Snapshot(a) =>
      if w.process.None? then w
      else
        var p := Checkpoint(w.disk, w.process.value, a);
        World(p.disk, Some(p.memory), DoubtAfter(w.doubt, w.disk, w.process.value, a))
    case Exit(clean, a, keys) =>
      if w.process.None? then w
      else if clean then World(Retire(w.disk, keys), None, false)
      else World(Checkpoint(w.disk, w.process.value, a).disk, None, false)
  }

  function Die(before: Disk, after: Disk, at: nat): Disk {
    if |before.trace| < at <= |after.trace| then
      Disk(after.trace[at - 1], before.fates[Min(at - |before.trace|, |before.fates|)..], after.trace[..at])
    else before
  }

  function Min(a: nat, b: nat): nat {
    if a < b then a else b
  }

  function Step(w: World, e: Event): World {
    match e
    case Whole(c) => Do(w, c)
    case Died(c, at) => World(Die(w.disk, Do(w, c).disk, at), None, false)
  }

  function Run(w: World, events: seq<Event>): World {
    if events == [] then w else Step(Run(w, events[..|events| - 1]), events[|events| - 1])
  }

  ghost predicate Possible(e: Event) {
    match e.command
    case Start => true
    case Snapshot(a) => Listed(a)
    case Exit(_, a, _) => Listed(a)
  }

  ghost predicate Inv(w: World) {
    AllGood(w.disk)
    && (w.process.Some? ==> Known(w.process.value, w.disk.objects) && Aware(w.process.value, w.disk.objects, w.doubt))
  }

  lemma {:induction false} RememberKnows(t: Objects, es: seq<Entry>, g: Generation)
    requires DistinctIds(es) && AllBacked(t, es)
    ensures Known(Memory(KeyMap(es), EntryMap(es), AnchorMap(es), g), t)
  {
    AnchorMapKnows(t, es);
    KnownAfterPublish(Memory(map[], map[], AnchorMap(es), g), t, es, g);
  }

  lemma {:induction false} AnchorMapKnows(t: Objects, es: seq<Entry>)
    requires AllBacked(t, es)
    ensures forall a | a in AnchorMap(es) ::
              AnchorMap(es)[a].AnchorKey? && AnchorMap(es)[a].payload.commit == a && AnchorMap(es)[a] in t
    ensures forall i | 0 <= i < |es| && es[i].anchor != "" :: es[i].anchor in AnchorMap(es)
  {
    if es != [] {
      var init, last := es[..|es| - 1], es[|es| - 1];
      assert forall i | 0 <= i < |init| :: init[i] == es[i];
      AnchorMapKnows(t, init);
      assert Backed(t, last);
    }
  }

  /** A store that is good at every moment always loads. */
  lemma LoadKnows(d: Disk)
    requires AllGood(d)
    ensures Load(d.objects).Some? && Known(Load(d.objects).value, d.objects)
            && Aware(Load(d.objects).value, d.objects, false)
  {
    hide AllGood, Intact, Known, Sound, KeyMap, EntryMap, AnchorMap, DistinctIds, AllBacked, Acceptable, AllComplete,
         SameUpload;
    LastIsGood(d);
    GoodIsIntact(d.objects);
    if Latest in d.objects {
      var m := d.objects[Latest].manifest;
      IntactLoads(d.objects);
      RememberKnows(d.objects, m.repositories, m.generation);
      EntryMapRemembers(m.repositories);
      SameUploadItself();
    } else {
      EmptyKnows(d.objects);
    }
  }

  lemma IntactLoads(t: Objects)
    requires Intact(t) && Latest in t
    ensures t[Latest].OfManifest? && Acceptable(t[Latest].manifest)
  {
  }

  lemma EmptyKnows(t: Objects)
    ensures Known(Remember(None), t)
  {
  }

  lemma DeleteGood(d: Disk, key: Key)
    requires AllGood(d) && (key == Latest || Latest !in d.objects)
    ensures AllGood(AfterDelete(d, key))
    ensures NextFate(d).Stored? ==> key !in AfterDelete(d, key).objects
    ensures Latest !in d.objects ==> Latest !in AfterDelete(d, key).objects
  {
    LastIsGood(d);
    assert Good(AfterDelete(d, key).objects);
  }

  lemma {:induction false} DeleteAllGood(d: Disk, keys: seq<Key>)
    requires AllGood(d) && Latest !in d.objects
    ensures AllGood(DeleteAll(d, keys)) && Latest !in DeleteAll(d, keys).objects
  {
    if keys != [] {
      DeleteAllGood(d, keys[..|keys| - 1]);
      DeleteGood(DeleteAll(d, keys[..|keys| - 1]), keys[|keys| - 1]);
    }
  }

  lemma RetireGood(d: Disk, keys: seq<Key>)
    requires AllGood(d)
    ensures AllGood(Retire(d, keys))
  {
    DeleteGood(d, Latest);
    if NextFate(d).Stored? {
      DeleteAllGood(AfterDelete(d, Latest), keys);
    }
  }

  lemma DoInv(w: World, c: Command)
    requires Inv(w) && Possible(Whole(c))
    ensures Inv(Do(w, c))
  {
    hide AllGood, Known, Aware, Checkpoint, Retire, Load, Describes, Listed, DoubtAfter, Publishes;
    match c
    case Start => LoadKnows(w.disk);
    case Snapshot(a) =>
      if w.process.Some? {
        CheckpointStep(w.disk, w.process.value, a);
        NilStep(w.disk, w.process.value, a, w.doubt);
      }
    case Exit(_, a, keys) =>
      RetireGood(w.disk, keys);
      if w.process.Some? {
        CheckpointStep(w.disk, w.process.value, a);
      }
  }

  lemma DieGood(before: Disk, after: Disk, at: nat)
    requires AllGood(before) && AllGood(after)
    ensures AllGood(Die(before, after, at))
  {
  }

  lemma {:induction false} RunInv(w: World, events: seq<Event>)
    requires Inv(w) && forall e | e in events :: Possible(e)
    ensures Inv(Run(w, events))
  {
    hide Possible, AllGood, Known, Aware, Do;
    if events != [] {
      var init, last := events[..|events| - 1], events[|events| - 1];
      RunInv(w, init);
      PossibleCommand(last);
      DoInv(Run(w, init), last.command);
      if last.Died? {
        DieGood(Run(w, init).disk, Do(Run(w, init), last.command).disk, last.at);
      }
    }
  }

  lemma PossibleCommand(e: Event)
    requires Possible(e)
    ensures Possible(Whole(e.command))
  {
  }

  ghost predicate Fresh(w: World) {
    w.process.None? && w.disk.objects == map[] && w.disk.trace == [map[]]
  }

  /** Whatever crashes, refusals and lost answers: at every moment of every run, the store either
      has no latest manifest or one that loads and restores to exactly what it recorded. */
  lemma EveryMomentIsIntact(w: World, events: seq<Event>)
    requires Fresh(w) && forall e | e in events :: Possible(e)
    ensures forall t | t in Run(w, events).disk.trace :: Intact(t)
    ensures Load(Run(w, events).disk.objects).Some?
  {
    RunInv(w, events);
    LoadKnows(Run(w, events).disk);
    forall t | t in Run(w, events).disk.trace ensures Intact(t) {
      GoodIsIntact(t);
    }
  }

  // ---- When an answer can be trusted --------------------------------------------------------------

  /** In every run, an attempt that returns nil has left a latest manifest that restores to exactly
      what it captured, if and only if it sent that manifest itself or the process knows the answer
      to its last one; lost answers to payloads or to earlier processes do no harm. */
  lemma NilMeansCaptured(w: World, events: seq<Event>, a: Attempt)
    requires Fresh(w) && (forall e | e in events :: Possible(e)) && Listed(a)
    ensures var now := Run(w, events);
            now.process.Some? ==>
              var p := Checkpoint(now.disk, now.process.value, a);
              p.result.Some? ==>
                (Describes(p.disk.objects, Present(Captures(a)))
                 <==> Publishes(now.disk, now.process.value, a) || !now.doubt)
  {
    hide AllGood, Known, Aware, Checkpoint, Describes, Listed, Run, Possible, DoubtAfter, Publishes;
    FreshInv(w);
    RunInv(w, events);
    var now := Run(w, events);
    if now.process.Some? {
      NilStep(now.disk, now.process.value, a, now.doubt);
    }
  }

  lemma FreshInv(w: World)
    requires Fresh(w)
    ensures Inv(w)
  {
  }
}
