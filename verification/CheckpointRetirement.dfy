/** What a checkpoint attempt does after the checkpoint was retired, as it can when the periodic
    goroutine of cmd/agent/workspace_snapshot.go gets the lock after Cleanup: nothing makes the
    process forget what it remembers of the store. */
module CheckpointRetirement {
  import opened Wrappers
  import opened Sorting
  import opened CheckpointPublication
  import opened CheckpointInvariants
  import opened CheckpointAnswers
  import opened CheckpointRuns

  // ---- What retiring leaves -----------------------------------------------------------------------

  /** What a process remembers makes sense by itself, whatever has become of the store. */
  ghost predicate Proper(mem: Memory) {
    && AnchorsCached(mem)
    && (forall id | id in mem.lastEntries :: mem.lastEntries[id].id == id && WellNamed(mem.lastEntries[id]))
    && (forall id | id in mem.lastEntries :: id in mem.lastKeys && mem.lastKeys[id] == mem.lastEntries[id].semanticKey)
    && (forall a | a in mem.anchorObjects ::
          mem.anchorObjects[a].AnchorKey? && mem.anchorObjects[a].payload.commit == a)
  }

  /** Every object that the process may reuse is stored or known to be gone. */
  ghost predicate Accounted(mem: Memory, t: Objects, gone: set<Key>) {
    && (forall id, k | id in mem.lastEntries && k in EntryKeys(mem.lastEntries[id]) :: k in t || k in gone)
    && (forall a | a in mem.anchorObjects :: mem.anchorObjects[a] in t || mem.anchorObjects[a] in gone)
  }

  lemma {:induction false} DeleteAllKeeps(d: Disk, keys: seq<Key>)
    ensures forall k | k in d.objects && k !in Elements(keys) :: k in DeleteAll(d, keys).objects
    ensures forall k | k in DeleteAll(d, keys).objects :: k in d.objects
  {
    if keys != [] {
      var init, last := keys[..|keys| - 1], keys[|keys| - 1];
      DeleteAllKeeps(d, init);
      assert keys == init + [last];
      ElementsNext(init, last);
    }
  }

  ghost predicate Acknowledged(d: Disk, n: nat) {
    forall i | 0 <= i < n && i < |d.fates| :: d.fates[i].Stored?
  }

  lemma {:induction false} DeleteAllDeletes(d: Disk, keys: seq<Key>, more: nat)
    requires Acknowledged(d, |keys| + more)
    ensures forall k | k in Elements(keys) :: k !in DeleteAll(d, keys).objects
    ensures Acknowledged(DeleteAll(d, keys), more)
  {
    if keys == [] {
      assert DeleteAll(d, keys) == d;
    } else {
      var init, last := keys[..|keys| - 1], keys[|keys| - 1];
      DeleteAllDeletes(d, init, more + 1);
      assert keys == init + [last];
      ElementsNext(init, last);
      var before := DeleteAll(d, init);
      assert before.fates != [] ==> before.fates[0].Stored?;
      assert DeleteAll(d, keys) == AfterDelete(before, last);
    }
  }

  /** The remembered payloads that retiring has removed. */
  ghost function Gone(d: Disk, mem: Memory, keys: seq<Key>): set<Key> {
    PayloadKeys(mem.lastEntries) - Retire(d, keys).objects.Keys
  }

  /** Every object that the process may use again without an upload. */
  ghost function Remembered(mem: Memory): set<Key> {
    PayloadKeys(mem.lastEntries) + (set a | a in mem.anchorObjects :: mem.anchorObjects[a])
  }

  /** Those of them that the store does not have. */
  ghost function Missing(mem: Memory, t: Objects): set<Key> {
    Remembered(mem) - t.Keys
  }

  lemma RememberedKey(mem: Memory, k: Key)
    requires Proper(mem) && k in Remembered(mem)
    ensures k.BundleKey? || k.AnchorKey?
    ensures k.BundleKey? ==> k.id in mem.lastEntries && k == mem.lastEntries[k.id].objectKey
    ensures k.AnchorKey? ==> k.payload.commit in mem.anchorObjects
  {
    if k in PayloadKeys(mem.lastEntries) {
      var id :| id in mem.lastEntries && k in EntryKeys(mem.lastEntries[id]);
      assert WellNamed(mem.lastEntries[id]);
    }
  }

  lemma KnownIsProper(mem: Memory, t: Objects)
    requires Known(mem, t)
    ensures Proper(mem) && Accounted(mem, t, {})
  {
    forall id, k | id in mem.lastEntries && k in EntryKeys(mem.lastEntries[id]) ensures k in t {
      assert Backed(t, mem.lastEntries[id]);
    }
  }

  lemma RetiringAccounts(d: Disk, mem: Memory, keys: seq<Key>)
    requires Known(mem, d.objects) && Elements(keys) == PayloadKeys(mem.lastEntries)
    ensures Accounted(mem, Retire(d, keys).objects, Gone(d, mem, keys))
  {
    hide Known, Proper, DeleteAll;
    KnownIsProper(mem, d.objects);
    var t := Retire(d, keys).objects;
    DeleteAllKeeps(AfterDelete(d, Latest), keys);
    assert forall k | k in d.objects && k != Latest && k !in PayloadKeys(mem.lastEntries) :: k in t;
    forall id, k | id in mem.lastEntries && k in EntryKeys(mem.lastEntries[id])
      ensures k in t || k in Gone(d, mem, keys)
    {
      assert k in PayloadKeys(mem.lastEntries);
    }
    AnchorsAreNotLatest(mem, d.objects);
  }

  lemma AnchorsAreNotLatest(mem: Memory, t: Objects)
    requires Known(mem, t)
    ensures forall a | a in mem.anchorObjects :: mem.anchorObjects[a] != Latest && mem.anchorObjects[a] in t
  {
  }

  // ---- Uploads after retiring ---------------------------------------------------------------------

  /** A capture relies on an object: through the entry that stands for it, or as its anchor. */
  predicate Relies(mem: Memory, c: Capture, gone: set<Key>) {
    if Unchanged(mem, c) then EntryKeys(mem.lastEntries[RepoID(c)]) * gone != {}
    else CachedAnchor(mem, c.anchor) in gone
  }

  /** The memory of a process that began its uploads with the memory `start`. */
  ghost predicate Extends(start: Memory, mem: Memory, gone: set<Key>) {
    && mem == start.(anchorObjects := mem.anchorObjects)
    && (forall a | a in start.anchorObjects :: a in mem.anchorObjects && mem.anchorObjects[a] == start.anchorObjects[a])
    && (forall a | a in mem.anchorObjects && a !in start.anchorObjects :: mem.anchorObjects[a] !in gone)
  }

  ghost predicate Absent(gone: set<Key>, t: Objects) {
    forall k | k in gone :: k !in t
  }

  /** What uploading after retiring keeps. */
  ghost predicate Proceeds(start: Memory, mem: Memory, t: Objects, gone: set<Key>) {
    Sound(t) && Proper(mem) && Extends(start, mem, gone) && Accounted(mem, t, gone) && Absent(gone, t)
  }

  lemma PutProceeds(start: Memory, mem: Memory, d: Disk, gone: set<Key>, key: Key, body: Blob)
    requires Proceeds(start, mem, d.objects, gone) && key !in gone
    requires (key.BundleKey? && body == OfBundle(key.bundle)) || (key.AnchorKey? && body == OfAnchor(key.payload))
    ensures var t := AfterPut(d, key, body).objects;
            && Proceeds(start, mem, t, gone) && Grows(d.objects, t) && SameLatest(d.objects, t)
            && (NextFate(d).Stored? ==> key in t)
  {
  }

  /** The anchor object that an entry will name, if it has an anchor, and whether it is gone. */
  ghost predicate Anchored(start: Memory, t: Objects, gone: set<Key>, anchor: Sha, key: Key) {
    && (if anchor == "" then key.NoKey?
        else key.AnchorKey? && key.payload.commit == anchor && (key in t || key in gone))
    && (key in gone <==> CachedAnchor(start, anchor) in gone)
  }

  lemma CachedIsAnchored(start: Memory, mem: Memory, t: Objects, gone: set<Key>, anchor: Sha)
    requires Proper(mem) && Extends(start, mem, gone) && Accounted(mem, t, gone) && NoKey !in gone
    requires anchor == "" || !CachedAnchor(mem, anchor).NoKey?
    ensures Anchored(start, t, gone, anchor, CachedAnchor(mem, anchor))
  {
  }

  lemma NotGone(start: Memory, mem: Memory, gone: set<Key>, key: Key)
    requires Proper(start) && Extends(start, mem, gone) && gone <= Remembered(start)
    requires key.NoKey? || (key.AnchorKey? && key.payload.commit !in mem.anchorObjects)
             || (key.BundleKey? && (key.id in mem.lastEntries ==> mem.lastEntries[key.id].objectKey != key))
    ensures key !in gone
  {
    hide Proper, Remembered;
    if key in gone {
      RememberedKey(start, key);
    }
  }

  lemma RememberProceeds(start: Memory, mem: Memory, t: Objects, gone: set<Key>, key: Key)
    requires Proceeds(start, mem, t, gone)
    requires key.AnchorKey? && key in t && key.payload.commit !in mem.anchorObjects
    ensures Proceeds(start, mem.(anchorObjects := mem.anchorObjects[key.payload.commit := key]), t, gone)
  {
    hide Sound;
  }

  lemma AnchorProceeds(start: Memory, mem: Memory, d: Disk, gone: set<Key>, c: Capture)
    requires Proceeds(start, mem, d.objects, gone) && Proper(start) && gone <= Remembered(start)
    ensures var p := UploadAnchor(d, mem, c);
            && Proceeds(start, p.memory, p.disk.objects, gone) && Grows(d.objects, p.disk.objects)
               && SameLatest(d.objects, p.disk.objects)
            && (p.result.Some? ==> Anchored(start, p.disk.objects, gone, c.anchor, p.result.value))
  {
    hide Sound, Remembered, Proper, Accounted, AfterPut, Grows, SameLatest, Anchored;
    var cached := CachedAnchor(mem, c.anchor);
    NotGone(start, mem, gone, NoKey);
    if c.anchor == "" || !cached.NoKey? {
      CachedIsAnchored(start, mem, d.objects, gone, c.anchor);
      SameStore(d.objects);
    } else if !c.anchorReady {
      SameStore(d.objects);
    } else {
      Uncached(mem, c.anchor);
      FreshAnchor(start, mem, d, gone, Payload(c.anchor, c.packing));
    }
  }

  lemma SameStore(t: Objects)
    ensures Grows(t, t) && SameLatest(t, t)
  {
  }

  lemma Uncached(mem: Memory, anchor: Sha)
    requires Proper(mem) && anchor != "" && CachedAnchor(mem, anchor).NoKey?
    ensures anchor !in mem.anchorObjects
  {
  }

  lemma FreshAnchor(start: Memory, mem: Memory, d: Disk, gone: set<Key>, payload: Payload)
    requires Proceeds(start, mem, d.objects, gone) && Proper(start) && gone <= Remembered(start)
    requires payload.commit != "" && payload.commit !in mem.anchorObjects
    ensures var key := AnchorKey(payload);
            var t := AfterPut(d, key, OfAnchor(payload)).objects;
            && Proceeds(start, mem, t, gone) && Grows(d.objects, t) && SameLatest(d.objects, t)
            && (NextFate(d).Stored? ==>
                  && Proceeds(start, mem.(anchorObjects := mem.anchorObjects[payload.commit := key]), t, gone)
                  && Anchored(start, t, gone, payload.commit, key))
  {
    hide Sound, Remembered, Proper, Accounted, AfterPut, Grows, SameLatest;
    var key := AnchorKey(payload);
    NotGone(start, mem, gone, key);
    NotGone(start, mem, gone, NoKey);
    PutProceeds(start, mem, d, gone, key, OfAnchor(payload));
    if NextFate(d).Stored? {
      RememberProceeds(start, mem, AfterPut(d, key, OfAnchor(payload)).objects, gone, key);
    }
  }

  // ---- One repository -----------------------------------------------------------------------------

  /** Of the objects of an entry each is stored or gone, and one is gone just if the capture relies on it. */
  ghost predicate Stands(start: Memory, t: Objects, gone: set<Key>, e: Entry, c: Capture) {
    && WellNamed(e) && Records(e, c)
    && (forall k | k in EntryKeys(e) :: k in t || k in gone)
    && (Relies(start, c, gone) <==> EntryKeys(e) * gone != {})
  }

  ghost predicate Continues(start: Memory, d: Disk, p: Progress<Entry>, gone: set<Key>) {
    Proceeds(start, p.memory, p.disk.objects, gone) && Grows(d.objects, p.disk.objects)
    && SameLatest(d.objects, p.disk.objects)
  }

  lemma NewStands(start: Memory, t: Objects, gone: set<Key>, c: Capture, key: Key)
    requires Anchored(start, t, gone, c.anchor, key) && !Unchanged(start, c) && c.content.head != ""
    requires NewEntry(c, key).objectKey in t && Absent(gone, t) && NoKey !in gone
    ensures Stands(start, t, gone, NewEntry(c, key), c)
  {
    var e := NewEntry(c, key);
    assert RepoID(c) != "";
    if key in gone {
      assert key in EntryKeys(e) * gone;
    } else {
      assert forall k | k in EntryKeys(e) :: k !in gone;
    }
  }

  lemma OldStands(start: Memory, mem: Memory, t: Objects, gone: set<Key>, c: Capture)
    requires Proper(mem) && Extends(start, mem, gone) && Accounted(mem, t, gone) && Unchanged(mem, c)
    ensures Stands(start, t, gone, Refreshed(mem.lastEntries[RepoID(c)], c), c)
  {
    var e := mem.lastEntries[RepoID(c)];
    assert WellNamed(e);
    assert EntryKeys(Refreshed(e, c)) == EntryKeys(e);
  }

  lemma RepoProceeds(start: Memory, mem: Memory, d: Disk, gone: set<Key>, c: Capture)
    requires Proceeds(start, mem, d.objects, gone) && Proper(start) && gone <= Remembered(start) && c.content.head != ""
    ensures var p := UploadRepo(d, mem, c);
            Continues(start, d, p, gone) && (p.result.Some? ==> Stands(start, p.disk.objects, gone, p.result.value, c))
  {
    hide Sound, Remembered, Proper, Accounted, Grows, SameLatest, UploadPayloads, Stands, Absent;
    SameStore(d.objects);
    if c.readable && Unchanged(mem, c) {
      OldStands(start, mem, d.objects, gone, c);
    } else if c.readable && c.bundled {
      PayloadsProceed(start, mem, d, gone, c);
    }
  }

  lemma PayloadsProceed(start: Memory, mem: Memory, d: Disk, gone: set<Key>, c: Capture)
    requires Proceeds(start, mem, d.objects, gone) && Proper(start) && gone <= Remembered(start)
    requires !Unchanged(mem, c) && c.content.head != ""
    ensures var p := UploadPayloads(d, mem, c);
            Continues(start, d, p, gone) && (p.result.Some? ==> Stands(start, p.disk.objects, gone, p.result.value, c))
  {
    hide Sound, Remembered, Proper, Accounted, Grows, SameLatest, Stands, UploadAnchor, AfterPut, Anchored, Absent;
    AnchorProceeds(start, mem, d, gone, c);
    var a := UploadAnchor(d, mem, c);
    if a.result.Some? && c.sealed {
      var e := NewEntry(c, a.result.value);
      NewKey(a.memory, c, a.result.value);
      NotGone(start, a.memory, gone, e.objectKey);
      NotGone(start, a.memory, gone, NoKey);
      PutProceeds(start, a.memory, a.disk, gone, e.objectKey, OfBundle(e.objectKey.bundle));
      var t := AfterPut(a.disk, e.objectKey, OfBundle(e.objectKey.bundle)).objects;
      GrowsOn(d.objects, a.disk.objects, t);
      if NextFate(a.disk).Stored? {
        AnchoredGrows(start, a.disk.objects, t, gone, c.anchor, a.result.value);
        NewStands(start, t, gone, c, a.result.value);
      }
    }
  }

  lemma NewKey(mem: Memory, c: Capture, key: Key)
    requires Proper(mem) && !Unchanged(mem, c)
    ensures RepoID(c) in mem.lastEntries ==> mem.lastEntries[RepoID(c)].objectKey != NewEntry(c, key).objectKey
  {
  }

  lemma GrowsOn(t: Objects, t': Objects, t'': Objects)
    requires Grows(t, t') && Grows(t', t'') && SameLatest(t, t') && SameLatest(t', t'')
    ensures Grows(t, t'') && SameLatest(t, t'')
  {
  }

  lemma AnchoredGrows(start: Memory, t: Objects, t': Objects, gone: set<Key>, anchor: Sha, key: Key)
    requires Anchored(start, t, gone, anchor, key) && Grows(t, t')
    ensures Anchored(start, t', gone, anchor, key)
  {
  }

  // ---- All repositories ---------------------------------------------------------------------------

  ghost predicate AllStand(start: Memory, t: Objects, gone: set<Key>, es: seq<Entry>, cs: seq<Capture>) {
    |es| == |cs| && forall i | 0 <= i < |es| :: Stands(start, t, gone, es[i], cs[i])
  }

  lemma AllStandGrows(start: Memory, t: Objects, t': Objects, gone: set<Key>, es: seq<Entry>, cs: seq<Capture>)
    requires AllStand(start, t, gone, es, cs) && Grows(t, t')
    ensures AllStand(start, t', gone, es, cs)
  {
    hide WellNamed, Records, Relies;
    forall i | 0 <= i < |es| ensures Stands(start, t', gone, es[i], cs[i]) {
      StandsGrows(start, t, t', gone, es[i], cs[i]);
    }
  }

  lemma StandsGrows(start: Memory, t: Objects, t': Objects, gone: set<Key>, e: Entry, c: Capture)
    requires Stands(start, t, gone, e, c) && Grows(t, t')
    ensures Stands(start, t', gone, e, c)
  {
    hide Relies;
  }

  lemma {:induction false} AllProceed(start: Memory, d: Disk, gone: set<Key>, cs: seq<Capture>)
    requires Proceeds(start, start, d.objects, gone) && gone <= Remembered(start)
    requires forall i | 0 <= i < |cs| :: cs[i].content.head != ""
    ensures var p := UploadAll(d, start, cs);
            && Proceeds(start, p.memory, p.disk.objects, gone) && Grows(d.objects, p.disk.objects)
               && SameLatest(d.objects, p.disk.objects)
            && (p.result.Some? ==> AllStand(start, p.disk.objects, gone, p.result.value, Present(cs)))
  {
    hide Proceeds, Remembered, Grows, SameLatest, Stands, UploadRepo;
    SameStore(d.objects);
    if cs != [] {
      var init, c := cs[..|cs| - 1], cs[|cs| - 1];
      AllProceed(start, d, gone, init);
      var p := UploadAll(d, start, init);
      if p.result.Some? && (c.primary || c.born) {
        StartIsProper(start, d.objects, gone);
        RepoProceeds(start, p.memory, p.disk, gone, c);
        var q := UploadRepo(p.disk, p.memory, c);
        GrowsOn(d.objects, p.disk.objects, q.disk.objects);
        AllStandGrows(start, p.disk.objects, q.disk.objects, gone, p.result.value, Present(init));
      }
    }
  }

  lemma StartIsProper(start: Memory, t: Objects, gone: set<Key>)
    requires Proceeds(start, start, t, gone)
    ensures Proper(start)
  {
  }

  // ---- The manifest -------------------------------------------------------------------------------

  ghost predicate AllNamed(es: seq<Entry>) {
    forall i | 0 <= i < |es| :: WellNamed(es[i])
  }

  lemma RestoresIff(t: Objects, e: Entry)
    requires Sound(t) && WellNamed(e)
    ensures Restore(t, e) == Some(e.semanticKey) <==> forall k | k in EntryKeys(e) :: k in t
  {
    assert e.objectKey in EntryKeys(e);
    if e.anchor != "" {
      assert e.anchorObjectKey in EntryKeys(e);
    }
  }

  lemma NamedIsAcceptable(m: Manifest)
    requires m.version == VERSION && DistinctIds(m.repositories) && AllNamed(m.repositories)
    ensures Acceptable(m)
  {
    var es := m.repositories;
    forall i | 0 <= i < |es| ensures Complete(es[i]) && (es[i].primary ==> es[i].id == "primary") {
      assert WellNamed(es[i]);
    }
    OnePrimary(es);
  }

  lemma IntactIff(t: Objects, m: Manifest)
    requires Sound(t) && Latest in t && t[Latest] == OfManifest(m)
    requires m.version == VERSION && DistinctIds(m.repositories) && AllNamed(m.repositories)
    ensures Intact(t) <==> forall e | e in m.repositories :: forall k | k in EntryKeys(e) :: k in t
  {
    hide Sound, Restore, WellNamed, EntryKeys, Acceptable;
    NamedIsAcceptable(m);
    var es := m.repositories;
    forall i | 0 <= i < |es|
      ensures Restore(t, es[i]) == Some(es[i].semanticKey) <==> forall k | k in EntryKeys(es[i]) :: k in t
    {
      assert WellNamed(es[i]);
      RestoresIff(t, es[i]);
    }
  }

  lemma StandsIntact(start: Memory, t: Objects, t': Objects, gone: set<Key>, e: Entry, c: Capture)
    requires Stands(start, t, gone, e, c) && Grows(t, t') && Absent(gone, t')
    ensures (forall k | k in EntryKeys(e) :: k in t') <==> !Relies(start, c, gone)
  {
    hide Relies, Records;
    assert Latest !in EntryKeys(e);
  }

  /** Whether a published manifest restores, in terms of what was captured. */
  lemma ManifestRestoresIff(start: Memory, t: Objects, t': Objects, gone: set<Key>, es: seq<Entry>, cs: seq<Capture>,
                            m: Manifest)
    requires AllStand(start, t, gone, es, cs) && DistinctIds(es)
    requires Sound(t') && Grows(t, t') && Absent(gone, t') && Latest in t' && t'[Latest] == OfManifest(m)
    requires m.version == VERSION && m.repositories == SortById(es)
    ensures Intact(t') <==> forall c | c in cs :: !Relies(start, c, gone)
  {
    hide Sound, Stands, WellNamed, Intact, Relies, EntryKeys, Grows, Absent, SortById, Sorted;
    SortIsSorted(es);
    SortIsPermutation(es);
    var rs := SortById(es);
    forall i | 0 <= i < |rs| ensures WellNamed(rs[i]) {
      assert rs[i] in es;
      var j :| 0 <= j < |es| && es[j] == rs[i];
      StandsNamed(start, t, gone, es[j], cs[j]);
    }
    IntactIff(t', m);
    forall i | 0 <= i < |es| ensures (forall k | k in EntryKeys(es[i]) :: k in t') <==> !Relies(start, cs[i], gone) {
      StandsIntact(start, t, t', gone, es[i], cs[i]);
    }
    SameForAll(es, rs, cs, e => forall k | k in EntryKeys(e) :: k in t', c => !Relies(start, c, gone));
  }

  lemma StandsNamed(start: Memory, t: Objects, gone: set<Key>, e: Entry, c: Capture)
    requires Stands(start, t, gone, e, c)
    ensures WellNamed(e)
  {
  }

  lemma SameForAll(es: seq<Entry>, rs: seq<Entry>, cs: seq<Capture>, p: Entry -> bool, q: Capture -> bool)
    requires |es| == |cs| && (forall i | 0 <= i < |es| :: p(es[i]) <==> q(cs[i]))
    requires (forall e | e in es :: e in rs) && (forall e | e in rs :: e in es)
    ensures (forall e | e in rs :: p(e)) <==> forall c | c in cs :: q(c)
  {
    if forall e | e in rs :: p(e) {
      forall c | c in cs ensures q(c) {
        var i :| 0 <= i < |cs| && cs[i] == c;
        assert es[i] in es;
      }
    }
    if forall c | c in cs :: q(c) {
      forall e | e in rs ensures p(e) {
        var i :| 0 <= i < |es| && es[i] == e;
        assert cs[i] in cs;
      }
    }
  }

  lemma PublishRestoresIff(start: Memory, mem: Memory, d: Disk, gone: set<Key>, es: seq<Entry>, cs: seq<Capture>,
                           fits: bool, now: nat)
    requires Proceeds(start, mem, d.objects, gone) && AllStand(start, d.objects, gone, es, cs) && DistinctIds(es)
             && Latest !in gone
    requires mem.lastGeneration != Digest(SortById(es)) && fits && !NextFate(d).Refused?
    ensures Intact(Publish(d, mem, es, fits, now).disk.objects) <==> forall c | c in cs :: !Relies(start, c, gone)
  {
    hide Stands, Intact, Relies, SortById, KeyMap, EntryMap, Proper, Accounted, DistinctIds;
    var p := Publish(d, mem, es, fits, now);
    var m := Manifest(VERSION, Digest(SortById(es)), now, SortById(es));
    ManifestRestoresIff(start, d.objects, p.disk.objects, gone, es, cs, m);
  }

  lemma ProperAfterPublish(mem: Memory, es: seq<Entry>, g: Generation)
    requires Proper(mem) && DistinctIds(es) && AllNamed(es) && AnchorsOf(es, mem)
    ensures Proper(Memory(KeyMap(es), EntryMap(es), mem.anchorObjects, g))
  {
    hide WellNamed;
    EntryMapKnows(es);
    KeyMapKnows(es);
    forall id | id in EntryMap(es)
      ensures WellNamed(EntryMap(es)[id]) && EntryMap(es)[id].id == id
      ensures EntryMap(es)[id].anchor != "" && !EntryMap(es)[id].anchorObjectKey.NoKey? ==>
                EntryMap(es)[id].anchor in mem.anchorObjects
    {
      assert EntryMap(es)[id] in es;
    }
  }

  lemma PublishKeepsSound(d: Disk, mem: Memory, es: seq<Entry>, fits: bool, now: nat)
    requires Sound(d.objects) && Proper(mem) && DistinctIds(es) && AllNamed(es) && AnchorsOf(es, mem)
    ensures var p := Publish(d, mem, es, fits, now); Sound(p.disk.objects) && Proper(p.memory)
  {
    hide SortById, KeyMap, EntryMap, DistinctIds, AllNamed, AnchorsOf, Proper;
    ProperAfterPublish(mem, es, Digest(SortById(es)));
  }

  // ---- Any attempt --------------------------------------------------------------------------------

  lemma StartProceeds(mem: Memory, t: Objects)
    requires Sound(t) && Proper(mem)
    ensures Proceeds(mem, mem, t, Missing(mem, t)) && Latest !in Missing(mem, t)
  {
    hide Sound, Proper;
    forall id, k | id in mem.lastEntries && k in EntryKeys(mem.lastEntries[id]) ensures k in Remembered(mem) {
      assert k in PayloadKeys(mem.lastEntries);
    }
    if Latest in Remembered(mem) {
      RememberedKey(mem, Latest);
    }
  }

  lemma StandNamed(start: Memory, t: Objects, gone: set<Key>, es: seq<Entry>, cs: seq<Capture>)
    requires AllStand(start, t, gone, es, cs) && DistinctRepos(cs)
    ensures AllNamed(es) && DistinctIds(es)
  {
    hide Relies, WellNamed;
    assert RecordsAll(es, cs);
    RecordsDiffer(es, cs);
  }

  /** What the uploads of an attempt leave, whatever is missing. */
  lemma AnyUploads(d: Disk, mem: Memory, a: Attempt)
    requires Sound(d.objects) && Proper(mem) && Listed(a)
    ensures var p, gone := UploadAll(d, mem, Captures(a)), Missing(mem, d.objects);
            && Proceeds(mem, p.memory, p.disk.objects, gone) && SameLatest(d.objects, p.disk.objects)
            && (p.result.Some? ==>
                  && AllStand(mem, p.disk.objects, gone, p.result.value, Present(Captures(a)))
                  && AllNamed(p.result.value) && DistinctIds(p.result.value) && AnchorsOf(p.result.value, p.memory))
  {
    hide Sound, Proper, Listed, Captures, Proceeds, UploadAll, AllStand, AllNamed, DistinctIds, AnchorsOf,
         AnchorsCached, Missing, SameLatest;
    var cs := Captures(a);
    StartProceeds(mem, d.objects);
    MissingIsRemembered(mem, d.objects);
    ListedReposDiffer(a);
    AllProceed(mem, d, Missing(mem, d.objects), cs);
    ProperCaches(mem);
    UploadAllAnchors(d, mem, cs);
    PresentDiffer(cs);
    var p := UploadAll(d, mem, cs);
    if p.result.Some? {
      StandNamed(mem, p.disk.objects, Missing(mem, d.objects), p.result.value, Present(cs));
    }
  }

  lemma MissingIsRemembered(mem: Memory, t: Objects)
    ensures Missing(mem, t) <= Remembered(mem)
  {
  }

  lemma ProperCaches(mem: Memory)
    requires Proper(mem)
    ensures AnchorsCached(mem)
  {
  }

  lemma ProceedsParts(start: Memory, mem: Memory, t: Objects, gone: set<Key>)
    requires Proceeds(start, mem, t, gone)
    ensures Sound(t) && Proper(mem) && mem.lastGeneration == start.lastGeneration
  {
  }

  /** Whatever is missing from the store, an attempt whose manifest takes effect leaves a checkpoint that
      restores if and only if no repository in it relies on a missing object; any other attempt leaves
      the latest manifest alone. */
  lemma AnyAttempt(d: Disk, mem: Memory, a: Attempt)
    requires Sound(d.objects) && Proper(mem) && Listed(a)
    ensures var p := Checkpoint(d, mem, a);
            && Sound(p.disk.objects) && Proper(p.memory)
            && if Publishes(d, mem, a) && !ManifestFate(d, mem, a).Refused?
               then Latest in p.disk.objects &&
                    (Intact(p.disk.objects) <==> forall c | c in Present(Captures(a)) ::
                       !Relies(mem, c, Missing(mem, d.objects)))
               else SameLatest(d.objects, p.disk.objects)
  {
    hide Sound, Proper, Listed, Captures, Proceeds, UploadAll, AllStand, AllNamed, DistinctIds, AnchorsOf, Missing,
         Intact, SortById, Relies;
    AnyUploads(d, mem, a);
    StartProceeds(mem, d.objects);
    var p, gone := UploadAll(d, mem, Captures(a)), Missing(mem, d.objects);
    ProceedsParts(mem, p.memory, p.disk.objects, gone);
    if p.result.Some? && a.discovered {
      PublishKeepsSound(p.disk, p.memory, p.result.value, a.fits, a.now);
      if Publishes(d, mem, a) && !NextFate(p.disk).Refused? {
        PublishRestoresIff(mem, p.memory, p.disk, gone, p.result.value, Present(Captures(a)), a.fits, a.now);
      }
    }
  }

  // ---- After retiring -----------------------------------------------------------------------------

  lemma AfterRetiring(d: Disk, mem: Memory, keys: seq<Key>)
    requires AllGood(d) && Known(mem, d.objects) && Elements(keys) == PayloadKeys(mem.lastEntries)
    ensures var t := Retire(d, keys).objects;
            && Sound(t) && Proper(mem) && Missing(mem, t) == Gone(d, mem, keys)
            && (!NextFate(d).Refused? ==> Latest !in t)
  {
    hide Known, DeleteAll, Elements, AllGood, PayloadKeys;
    KnownIsProper(mem, d.objects);
    RetiringAccounts(d, mem, keys);
    RetireGood(d, keys);
    LastIsGood(Retire(d, keys));
    DeleteGood(d, Latest);
    if NextFate(d).Stored? {
      DeleteAllGood(AfterDelete(d, Latest), keys);
    }
  }

  /** If the latest manifest could not be retired nothing else is deleted. */
  lemma NotRetired(d: Disk, mem: Memory, keys: seq<Key>, a: Attempt)
    requires AllGood(d) && Known(mem, d.objects) && !NextFate(d).Stored? && Listed(a)
    ensures Gone(d, mem, keys) == {} && Intact(Checkpoint(Retire(d, keys), mem, a).disk.objects)
  {
    hide AllGood, Checkpoint, Intact, Listed;
    var r := Retire(d, keys);
    DeleteGood(d, Latest);
    KnownIsProper(mem, d.objects);
    forall k | k in PayloadKeys(mem.lastEntries) ensures k in r.objects {
      RememberedKey(mem, k);
    }
    KnownWithout(mem, d.objects, r.objects);
    CheckpointStep(r, mem, a);
    LastIsGood(Checkpoint(r, mem, a).disk);
    GoodIsIntact(Checkpoint(r, mem, a).disk.objects);
  }

  lemma KnownWithout(mem: Memory, t: Objects, t': Objects)
    requires Known(mem, t) && forall k | k in t && k != Latest :: k in t'
    ensures Known(mem, t')
  {
    KnownGrows(mem, t, t');
  }

  /** After retiring, whatever the deletes met, an attempt leaves a checkpoint that restores if and only
      if no repository in it relies on an object that is gone. Unless the delete of the manifest was
      refused, an attempt that returns nil leaves a manifest if and only if its generation is new. */
  lemma AttemptAfterRetiring(d: Disk, mem: Memory, keys: seq<Key>, a: Attempt)
    requires AllGood(d) && Known(mem, d.objects) && Elements(keys) == PayloadKeys(mem.lastEntries) && Listed(a)
    ensures var p := Checkpoint(Retire(d, keys), mem, a);
            Latest in p.disk.objects ==>
              (Intact(p.disk.objects) <==> forall c | c in Present(Captures(a)) :: !Relies(mem, c, Gone(d, mem, keys)))
    ensures var r := Retire(d, keys);
            var p := Checkpoint(r, mem, a);
            !NextFate(d).Refused? && p.result.Some? ==>
              (Latest in p.disk.objects
               <==> mem.lastGeneration != Digest(SortById(UploadAll(r, mem, Captures(a)).result.value)))
  {
    hide AllGood, Known, Listed, Captures, Retire, Elements, Gone, Intact, SortById, PayloadKeys, Missing, Sound,
         Proper, Publishes, Checkpoint;
    AfterRetiring(d, mem, keys);
    var r := Retire(d, keys);
    AnyAttempt(r, mem, a);
    NilPublishes(r, mem, a);
    if !NextFate(d).Stored? {
      NotRetired(d, mem, keys, a);
      NothingRelies(mem, Present(Captures(a)));
    }
  }

  /** An attempt that returns nil has sent a manifest if and only if its generation is new. */
  lemma NilPublishes(d: Disk, mem: Memory, a: Attempt)
    ensures var p := Checkpoint(d, mem, a);
            p.result.Some? ==>
              && UploadAll(d, mem, Captures(a)).result.Some?
              && (Publishes(d, mem, a)
                  <==> mem.lastGeneration != Digest(SortById(UploadAll(d, mem, Captures(a)).result.value)))
              && (Publishes(d, mem, a) ==> ManifestFate(d, mem, a).Stored?)
  {
    hide Captures, SortById, KeyMap, EntryMap, UploadRepo;
    UploadsKeepGeneration(d, mem, Captures(a));
  }

  lemma {:induction false} UploadsKeepGeneration(d: Disk, mem: Memory, cs: seq<Capture>)
    ensures UploadAll(d, mem, cs).memory.lastGeneration == mem.lastGeneration
  {
    if cs != [] {
      UploadsKeepGeneration(d, mem, cs[..|cs| - 1]);
    }
  }

  lemma NothingRelies(mem: Memory, cs: seq<Capture>)
    ensures forall c | c in cs :: !Relies(mem, c, {})
  {
  }

  /** The store and the memory after several attempts, the answers of which nobody needs. */
  function Attempts(d: Disk, mem: Memory, earlier: seq<Attempt>): Progress<()> {
    if earlier == [] then Progress(d, mem, None)
    else
      var p := Attempts(d, mem, earlier[..|earlier| - 1]);
      Checkpoint(p.disk, p.memory, earlier[|earlier| - 1])
  }

  /** Nor does it end with the first attempt: after any number of them, the next one whose manifest takes
      effect restores if and only if no repository relies on what the store is still missing. */
  lemma {:induction false} AttemptsAfterRetiring(d: Disk, mem: Memory, keys: seq<Key>, earlier: seq<Attempt>,
                                                 a: Attempt)
    requires AllGood(d) && Known(mem, d.objects) && Elements(keys) == PayloadKeys(mem.lastEntries)
    requires Listed(a) && forall i | 0 <= i < |earlier| :: Listed(earlier[i])
    ensures var p := Attempts(Retire(d, keys), mem, earlier);
            && Sound(p.disk.objects) && Proper(p.memory)
            && (Publishes(p.disk, p.memory, a) && !ManifestFate(p.disk, p.memory, a).Refused? ==>
                  (Intact(Checkpoint(p.disk, p.memory, a).disk.objects) <==>
                   forall c | c in Present(Captures(a)) :: !Relies(p.memory, c, Missing(p.memory, p.disk.objects))))
  {
    hide AllGood, Known, Listed, Captures, Retire, Elements, Intact, PayloadKeys, Missing, Sound, Proper, Publishes,
         Checkpoint, Relies;
    if earlier == [] {
      AfterRetiring(d, mem, keys);
    } else {
      AttemptsAfterRetiring(d, mem, keys, earlier[..|earlier| - 1], earlier[|earlier| - 1]);
      var q := Attempts(Retire(d, keys), mem, earlier[..|earlier| - 1]);
      AnyAttempt(q.disk, q.memory, earlier[|earlier| - 1]);
    }
    var p := Attempts(Retire(d, keys), mem, earlier);
    AnyAttempt(p.disk, p.memory, a);
  }

  /** When every request of the retiring was acknowledged: the next manifest restores if and only if
      no repository is unchanged and none uses the cached anchor of a retired entry. An attempt that
      finds the generation unchanged returns nil and leaves the store without any manifest. */
  lemma RetiringMustBeLastUnless(d: Disk, mem: Memory, keys: seq<Key>, a: Attempt)
    requires AllGood(d) && Known(mem, d.objects) && Elements(keys) == PayloadKeys(mem.lastEntries) && Listed(a)
    requires Acknowledged(d, 1 + |keys|)
    ensures var p := Checkpoint(Retire(d, keys), mem, a);
            Latest in p.disk.objects ==>
              (Intact(p.disk.objects) <==>
               forall c | c in Present(Captures(a)) ::
                 !Unchanged(mem, c) && CachedAnchor(mem, c.anchor) !in PayloadKeys(mem.lastEntries))
    ensures var r := Retire(d, keys);
            var p := Checkpoint(r, mem, a);
            p.result.Some? ==>
              (Latest in p.disk.objects
               <==> mem.lastGeneration != Digest(SortById(UploadAll(r, mem, Captures(a)).result.value)))
  {
    hide AllGood, Known, Listed, Captures, Elements, UploadAll, Publish, Checkpoint, Intact, SortById, PayloadKeys,
         DeleteAll, Unchanged, CachedAnchor;
    assert NextFate(d).Stored?;
    AttemptAfterRetiring(d, mem, keys, a);
    AllGone(d, mem, keys);
    KnownIsProper(mem, d.objects);
    forall c | c in Present(Captures(a))
      ensures Relies(mem, c, Gone(d, mem, keys))
              <==> Unchanged(mem, c) || CachedAnchor(mem, c.anchor) in PayloadKeys(mem.lastEntries)
    {
      ReliesOnAny(mem, c);
    }
  }

  lemma AllGone(d: Disk, mem: Memory, keys: seq<Key>)
    requires Elements(keys) == PayloadKeys(mem.lastEntries) && Acknowledged(d, 1 + |keys|)
    ensures Gone(d, mem, keys) == PayloadKeys(mem.lastEntries)
  {
    hide PayloadKeys, Elements;
    assert Acknowledged(AfterDelete(d, Latest), |keys| + 0);
    DeleteAllDeletes(AfterDelete(d, Latest), keys, 0);
  }

  lemma ReliesOnAny(mem: Memory, c: Capture)
    requires Proper(mem)
    ensures Relies(mem, c, PayloadKeys(mem.lastEntries))
            <==> Unchanged(mem, c) || CachedAnchor(mem, c.anchor) in PayloadKeys(mem.lastEntries)
  {
    if Unchanged(mem, c) {
      var e := mem.lastEntries[RepoID(c)];
      assert WellNamed(e);
      assert e.objectKey in EntryKeys(e) && e.objectKey in PayloadKeys(mem.lastEntries);
      assert e.objectKey in EntryKeys(e) * PayloadKeys(mem.lastEntries);
    }
  }
}
