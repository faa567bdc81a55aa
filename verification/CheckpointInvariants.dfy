/** What one checkpoint attempt of cmd/agent/workspace_snapshot.go keeps in the store and in the
    memory of the process, whatever its requests meet. */
module CheckpointInvariants {
  import opened Wrappers
  import opened Sorting
  import opened CheckpointPublication

  // ---- What every moment keeps --------------------------------------------------------------------

  /** Payloads are stored under their own digest. */
  ghost predicate Sound(t: Objects) {
    forall k | k in t ::
      && (k.BundleKey? ==> t[k] == OfBundle(k.bundle))
      && (k.AnchorKey? ==> t[k] == OfAnchor(k.payload))
  }

  ghost predicate WellNamed(e: Entry) {
    && e.id != "" && e.parent != "" && e.parent == e.semanticKey.head
    && e.snapshot.Commit? && e.snapshot.content == e.semanticKey
    && e.objectKey == BundleKey(e.id, Bundle(e.snapshot, e.anchor))
    && (if e.anchor == "" then e.anchorObjectKey.NoKey?
        else e.anchorObjectKey.AnchorKey? && e.anchorObjectKey.payload.commit == e.anchor)
    && (e.primary ==> e.id == "primary")
  }

  /** The payloads of an entry are in the store. */
  ghost predicate Backed(t: Objects, e: Entry) {
    WellNamed(e) && e.objectKey in t && (e.anchor != "" ==> e.anchorObjectKey in t)
  }

  ghost predicate AllBacked(t: Objects, es: seq<Entry>) {
    forall i | 0 <= i < |es| :: Backed(t, es[i])
  }

  ghost predicate LatestGood(t: Objects) {
    Latest in t ==>
      && t[Latest].OfManifest?
      && var m := t[Latest].manifest;
         m.version == VERSION && m.generation == Digest(m.repositories) && DistinctIds(m.repositories)
         && AllBacked(t, m.repositories)
         && Sorted(EntryBefore, m.repositories)
  }

  ghost predicate Good(t: Objects) {
    Sound(t) && LatestGood(t)
  }

  /** What a process remembers is in the store. */
  ghost predicate Known(mem: Memory, t: Objects) {
    && AnchorsCached(mem)
    && (forall id | id in mem.lastEntries :: mem.lastEntries[id].id == id && Backed(t, mem.lastEntries[id]))
    && (forall id | id in mem.lastEntries :: id in mem.lastKeys && mem.lastKeys[id] == mem.lastEntries[id].semanticKey)
    && (forall a | a in mem.anchorObjects ::
          mem.anchorObjects[a].AnchorKey? && mem.anchorObjects[a].payload.commit == a && mem.anchorObjects[a] in t)
  }

  ghost predicate AllGood(d: Disk) {
    && |d.trace| > 0 && d.trace[|d.trace| - 1] == d.objects
    && forall i | 0 <= i < |d.trace| :: Good(d.trace[i])
  }

  /** No payload disappears. */
  ghost predicate Grows(t: Objects, t': Objects) {
    forall k | k in t && k != Latest :: k in t'
  }

  ghost predicate SameLatest(t: Objects, t': Objects) {
    (Latest in t <==> Latest in t') && (Latest in t ==> t[Latest] == t'[Latest])
  }

  lemma BackedGrows(t: Objects, t': Objects, es: seq<Entry>)
    requires Grows(t, t') && AllBacked(t, es)
    ensures AllBacked(t', es)
  {
  }

  lemma KnownGrows(mem: Memory, t: Objects, t': Objects)
    requires Known(mem, t) && Grows(t, t')
    ensures Known(mem, t')
  {
  }

  lemma BackedRestores(t: Objects, e: Entry)
    requires Sound(t) && Backed(t, e)
    ensures Restore(t, e) == Some(e.semanticKey)
  {
  }

  /** Good stores restore completely. */
  lemma GoodIsIntact(t: Objects)
    requires Good(t)
    ensures Intact(t)
  {
    if Latest in t {
      var rs := t[Latest].manifest.repositories;
      forall i | 0 <= i < |rs| ensures Complete(rs[i]) && Restore(t, rs[i]) == Some(rs[i].semanticKey) {
        BackedRestores(t, rs[i]);
      }
      OnePrimary(rs);
    }
  }

  lemma {:induction false} OnePrimary(es: seq<Entry>)
    requires DistinctIds(es) && forall i | 0 <= i < |es| :: es[i].primary ==> es[i].id == "primary"
    ensures Primaries(es) <= 1
    ensures Primaries(es) == 1 ==> exists i :: 0 <= i < |es| && es[i].id == "primary"
  {
    if es != [] {
      var init := es[..|es| - 1];
      assert forall i | 0 <= i < |init| :: init[i] == es[i];
      OnePrimary(init);
    }
  }

  lemma PutPayload(d: Disk, key: Key, body: Blob)
    requires AllGood(d)
    requires (key.BundleKey? && body == OfBundle(key.bundle)) || (key.AnchorKey? && body == OfAnchor(key.payload))
    ensures var d' := AfterPut(d, key, body);
            && AllGood(d') && Grows(d.objects, d'.objects) && SameLatest(d.objects, d'.objects)
            && (NextFate(d).Stored? ==> key in d'.objects)
  {
    var d' := AfterPut(d, key, body);
    assert Grows(d.objects, d'.objects);
    if Latest in d.objects {
      BackedGrows(d.objects, d'.objects, d.objects[Latest].manifest.repositories);
    }
  }

  // ---- One repository -----------------------------------------------------------------------------

  /** The entry says what the capture found. */
  ghost predicate Records(e: Entry, c: Capture) {
    && e.id == RepoID(c) && e.semanticKey == c.content
    && (e.alias, e.location, e.primary, e.url, e.branch, e.upstream)
       == (c.alias, c.location, c.primary, c.url, c.branch, c.upstream)
  }

  /** What uploading payloads does to the store and to the memory of the process. */
  ghost predicate Uploads(d: Disk, mem: Memory, d': Disk, mem': Memory) {
    && AllGood(d') && Grows(d.objects, d'.objects) && SameLatest(d.objects, d'.objects)
    && Known(mem', d'.objects)
    && mem' == mem.(anchorObjects := mem'.anchorObjects)
  }

  lemma UploadAnchorStep(d: Disk, mem: Memory, c: Capture)
    requires AllGood(d) && Known(mem, d.objects)
    ensures var p := UploadAnchor(d, mem, c);
            && Uploads(d, mem, p.disk, p.memory)
            && (p.result.Some? && c.anchor == "" ==> p.result.value.NoKey?)
            && (p.result.Some? && c.anchor != "" ==>
                  p.result.value.AnchorKey? && p.result.value.payload.commit == c.anchor
                  && p.result.value in p.disk.objects)
  {
    var p := UploadAnchor(d, mem, c);
    var payload := Payload(c.anchor, c.packing);
    if c.anchor != "" && CachedAnchor(mem, c.anchor).NoKey? && c.anchorReady {
      PutPayload(d, AnchorKey(payload), OfAnchor(payload));
      KnownGrows(mem, d.objects, p.disk.objects);
    }
  }

  lemma UploadPayloadsStep(d: Disk, mem: Memory, c: Capture)
    requires AllGood(d) && Known(mem, d.objects) && c.content.head != ""
    ensures var p := UploadPayloads(d, mem, c);
            && Uploads(d, mem, p.disk, p.memory)
            && (p.result.Some? ==> Backed(p.disk.objects, p.result.value) && Records(p.result.value, c))
  {
    hide AllGood, Known, CachedAnchor, UploadAnchor;
    UploadAnchorStep(d, mem, c);
    var a := UploadAnchor(d, mem, c);
    if a.result.Some? && c.sealed {
      var e := NewEntry(c, a.result.value);
      PutPayload(a.disk, e.objectKey, OfBundle(e.objectKey.bundle));
      KnownGrows(a.memory, a.disk.objects, AfterPut(a.disk, e.objectKey, OfBundle(e.objectKey.bundle)).objects);
    }
  }

  lemma UploadRepoStep(d: Disk, mem: Memory, c: Capture)
    requires AllGood(d) && Known(mem, d.objects) && c.content.head != ""
    ensures var p := UploadRepo(d, mem, c);
            && Uploads(d, mem, p.disk, p.memory)
            && (p.result.Some? ==> Backed(p.disk.objects, p.result.value) && Records(p.result.value, c))
  {
    hide AllGood, UploadPayloads;
    if c.readable && !Unchanged(mem, c) && c.bundled {
      UploadPayloadsStep(d, mem, c);
    }
  }

  // ---- All repositories ---------------------------------------------------------------------------

  /** The repositories that get an entry. */
  function Present(cs: seq<Capture>): seq<Capture> {
    if cs == [] then []
    else Present(cs[..|cs| - 1]) + if cs[|cs| - 1].primary || cs[|cs| - 1].born then [cs[|cs| - 1]] else []
  }

  ghost predicate RecordsAll(es: seq<Entry>, cs: seq<Capture>) {
    |es| == |cs| && forall i | 0 <= i < |es| :: Records(es[i], cs[i])
  }

  lemma {:induction false} UploadAllStep(d: Disk, mem: Memory, cs: seq<Capture>)
    requires AllGood(d) && Known(mem, d.objects) && forall i | 0 <= i < |cs| :: cs[i].content.head != ""
    ensures var p := UploadAll(d, mem, cs);
            && Uploads(d, mem, p.disk, p.memory)
            && (p.result.Some? ==> AllBacked(p.disk.objects, p.result.value) && RecordsAll(p.result.value, Present(cs)))
  {
    hide AllGood, Known, UploadRepo, Records, Backed;
    if cs != [] {
      var p := UploadAll(d, mem, cs[..|cs| - 1]);
      UploadAllStep(d, mem, cs[..|cs| - 1]);
      var c := cs[|cs| - 1];
      if p.result.Some? && (c.primary || c.born) {
        UploadRepoStep(p.disk, p.memory, c);
        BackedGrows(p.disk.objects, UploadRepo(p.disk, p.memory, c).disk.objects, p.result.value);
      }
    }
  }

  // ---- What the source's listing guarantees -------------------------------------------------------

  /** Repositories are listed by directory name, once each, and HEAD resolved to a commit. */
  ghost predicate Listed(a: Attempt) {
    && (a.primary.Some? ==> a.primary.value.primary && a.primary.value.content.head != "")
    && (forall i | 0 <= i < |a.extras| :: !a.extras[i].primary && a.extras[i].content.head != "")
    && (forall i, j | 0 <= i < j < |a.extras| ::
          (a.extras[i].location, a.extras[i].alias) != (a.extras[j].location, a.extras[j].alias))
  }

  ghost predicate DistinctRepos(cs: seq<Capture>) {
    forall i, j | 0 <= i < j < |cs| :: RepoID(cs[i]) != RepoID(cs[j])
  }

  lemma ExtrasDiffer(c: Capture, c': Capture)
    requires !c.primary
    requires c'.primary || (c.location, c.alias) != (c'.location, c'.alias)
    ensures RepoID(c) != RepoID(c')
  {
    var a, b := RepoID(c), RepoID(c');
    assert a[0] == if c.location.InWorkspace? then 'w' else 's';
    var n := if c.location.InWorkspace? then 10 else 6;
    assert a[n..] == c.alias;
    if !c'.primary && c.location == c'.location {
      assert b[n..] == c'.alias;
    }
  }

  lemma ListedReposDiffer(a: Attempt)
    requires Listed(a)
    ensures DistinctRepos(Captures(a)) && forall i | 0 <= i < |Captures(a)| :: Captures(a)[i].content.head != ""
  {
    var cs := Captures(a);
    var k := if a.primary.Some? then 1 else 0;
    assert forall i | k <= i < |cs| :: cs[i] == a.extras[i - k];
    forall i, j | 0 <= i < j < |cs| ensures RepoID(cs[i]) != RepoID(cs[j]) {
      if i < k {
        var e := cs[j];
        assert RepoID(e)[0] != 'p';
      } else {
        ExtrasDiffer(cs[i], cs[j]);
      }
    }
  }

  lemma {:induction false} PresentDiffer(cs: seq<Capture>)
    requires DistinctRepos(cs)
    ensures DistinctRepos(Present(cs))
    ensures forall c | c in Present(cs) :: c in cs
  {
    if cs != [] {
      var init, last := cs[..|cs| - 1], cs[|cs| - 1];
      assert forall i | 0 <= i < |init| :: init[i] == cs[i];
      PresentDiffer(init);
      forall i | 0 <= i < |Present(init)| ensures RepoID(Present(init)[i]) != RepoID(last) {
        assert Present(init)[i] in init;
      }
    }
  }

  // ---- One attempt --------------------------------------------------------------------------------

  lemma {:induction false} SortIsPermutation(es: seq<Entry>)
    ensures |SortById(es)| == |es|
    ensures forall e | e in SortById(es) :: e in es
    ensures forall e | e in es :: e in SortById(es)
  {
    if es != [] {
      var init, last := es[..|es| - 1], es[|es| - 1];
      SortIsPermutation(init);
      InsertElements(EntryBefore, last, SortById(init));
      assert es == init + [last];
    }
  }

  function ElementSet(es: seq<Entry>): set<Entry> {
    set i | 0 <= i < |es| :: es[i]
  }

  lemma EntriesOrdered(es: seq<Entry>)
    requires DistinctIds(es)
    ensures StrictOrder(EntryBefore, ElementSet(es))
  {
    var s := ElementSet(es);
    forall a | a in s ensures !EntryBefore(a, a) {
      StringLessIrreflexive(a.id);
    }
    forall a, b | a in s && b in s ensures a == b || EntryBefore(a, b) || EntryBefore(b, a) {
      StringLessTotal(a.id, b.id);
    }
    forall a, b, c | a in s && b in s && c in s && EntryBefore(a, b) && EntryBefore(b, c) ensures EntryBefore(a, c) {
      StringLessTransitive(a.id, b.id, c.id);
    }
  }

  lemma {:induction false} SortIsSorted(es: seq<Entry>)
    requires DistinctIds(es)
    ensures Sorted(EntryBefore, SortById(es)) && DistinctIds(SortById(es))
  {
    if es != [] {
      var init, last := es[..|es| - 1], es[|es| - 1];
      assert forall i | 0 <= i < |init| :: init[i] == es[i];
      SortIsSorted(init);
      EntriesOrdered(es);
      SortIsPermutation(init);
      forall y | y in SortById(init) ensures y in ElementSet(es) && y.id != last.id {
        var i :| 0 <= i < |init| && init[i] == y;
        assert es[i] == y;
      }
      assert last in ElementSet(es);
      InsertSorted(EntryBefore, ElementSet(es), last, SortById(init));
    }
    SortedDistinct(SortById(es));
  }

  lemma SortedDistinct(es: seq<Entry>)
    requires Sorted(EntryBefore, es)
    ensures DistinctIds(es)
  {
    forall i, j | 0 <= i < j < |es| ensures es[i].id != es[j].id {
      assert EntryBefore(es[i], es[j]);
      StringLessIrreflexive(es[i].id);
    }
  }

  lemma BackedSorted(t: Objects, es: seq<Entry>)
    requires AllBacked(t, es)
    ensures AllBacked(t, SortById(es))
  {
    SortIsPermutation(es);
    forall i | 0 <= i < |SortById(es)| ensures Backed(t, SortById(es)[i]) {
      assert SortById(es)[i] in es;
    }
  }

  lemma {:induction false} EntryMapKnows(es: seq<Entry>)
    requires DistinctIds(es)
    ensures forall id | id in EntryMap(es) :: EntryMap(es)[id] in es && EntryMap(es)[id].id == id
  {
    if es != [] {
      var init, last := es[..|es| - 1], es[|es| - 1];
      assert forall i | 0 <= i < |init| :: init[i] == es[i];
      assert es == init + [last];
      EntryMapKnows(init);
    }
  }

  lemma {:induction false} KeyMapKnows(es: seq<Entry>)
    ensures forall id | id in EntryMap(es) :: id in KeyMap(es) && KeyMap(es)[id] == EntryMap(es)[id].semanticKey
  {
    if es != [] {
      KeyMapKnows(es[..|es| - 1]);
    }
  }

  /** The answer of an attempt that stands for the latest manifest: it has the very entries of `es`. */
  ghost predicate ManifestIs(t: Objects, es: seq<Entry>) {
    Latest in t && t[Latest].OfManifest? && t[Latest].manifest.repositories == es
  }

  /** The process is right about what the latest manifest is. */
  ghost predicate Synced(mem: Memory, t: Objects) {
    mem.lastGeneration.Digest? ==> ManifestIs(t, mem.lastGeneration.entries)
  }

  /** Anchors of the published entries are all in the cache. */
  ghost predicate AnchorsOf(es: seq<Entry>, mem: Memory) {
    forall i | 0 <= i < |es| && es[i].anchor != "" && !es[i].anchorObjectKey.NoKey? :: es[i].anchor in mem.anchorObjects
  }

  lemma KnownAfterPublish(mem: Memory, t: Objects, es: seq<Entry>, g: Generation)
    requires Known(mem, t) && DistinctIds(es) && AllBacked(t, es) && AnchorsOf(es, mem)
    ensures Known(Memory(KeyMap(es), EntryMap(es), mem.anchorObjects, g), t)
  {
    EntryMapKnows(es);
    KeyMapKnows(es);
    forall id | id in EntryMap(es) ensures Backed(t, EntryMap(es)[id]) && EntryMap(es)[id].id == id {
      assert EntryMap(es)[id] in es;
    }
    forall id | id in EntryMap(es) && EntryMap(es)[id].anchor != "" && !EntryMap(es)[id].anchorObjectKey.NoKey?
      ensures EntryMap(es)[id].anchor in mem.anchorObjects
    {
      assert EntryMap(es)[id] in es;
    }
  }

  lemma PutManifest(d: Disk, m: Manifest)
    requires AllGood(d) && m.version == VERSION && m.generation == Digest(m.repositories)
    requires DistinctIds(m.repositories) && AllBacked(d.objects, m.repositories) && Sorted(EntryBefore, m.repositories)
    ensures var d' := AfterPut(d, Latest, OfManifest(m));
            && AllGood(d') && Grows(d.objects, d'.objects)
            && (NextFate(d).Refused? ==> SameLatest(d.objects, d'.objects))
            && (!NextFate(d).Refused? ==> ManifestIs(d'.objects, m.repositories))
  {
    var d' := AfterPut(d, Latest, OfManifest(m));
    BackedGrows(d.objects, d'.objects, m.repositories);
    assert Good(d.objects);
    assert Good(d'.objects);
  }

  lemma PublishStep(d: Disk, mem: Memory, captured: seq<Entry>, fits: bool, now: nat)
    requires AllGood(d) && Known(mem, d.objects)
    requires DistinctIds(captured) && AllBacked(d.objects, captured) && AnchorsOf(captured, mem)
    ensures var p := Publish(d, mem, captured, fits, now);
            && AllGood(p.disk) && Known(p.memory, p.disk.objects) && Grows(d.objects, p.disk.objects)
            && (p.result.Some? ==>
                  (ManifestIs(p.disk.objects, SortById(captured))
                   <==> mem.lastGeneration != Digest(SortById(captured)) || Synced(mem, d.objects)))
  {
    hide Known, AllGood, AllBacked, SortById, KeyMap, EntryMap, DistinctIds;
    var entries := SortById(captured);
    if mem.lastGeneration != Digest(entries) && fits {
      SortIsSorted(captured);
      BackedSorted(d.objects, captured);
      PutManifest(d, Manifest(VERSION, Digest(entries), now, entries));
      var t' := Publish(d, mem, captured, fits, now).disk.objects;
      KnownGrows(mem, d.objects, t');
      BackedGrows(d.objects, t', captured);
      KnownAfterPublish(mem, t', captured, Digest(entries));
    }
  }

  lemma UploadRepoAnchors(d: Disk, mem: Memory, c: Capture)
    requires AnchorsCached(mem)
    ensures var p := UploadRepo(d, mem, c);
            && AnchorsCached(p.memory) && (forall a | a in mem.anchorObjects :: a in p.memory.anchorObjects)
            && (p.result.Some? && p.result.value.anchor != "" && !p.result.value.anchorObjectKey.NoKey? ==>
                  p.result.value.anchor in p.memory.anchorObjects)
  {
  }

  lemma {:induction false} UploadAllAnchors(d: Disk, mem: Memory, cs: seq<Capture>)
    requires AnchorsCached(mem)
    ensures var p := UploadAll(d, mem, cs);
            && AnchorsCached(p.memory)
            && (p.result.Some? ==> AnchorsOf(p.result.value, p.memory))
  {
    hide UploadRepo, AnchorsCached;
    if cs != [] {
      var p := UploadAll(d, mem, cs[..|cs| - 1]);
      UploadAllAnchors(d, mem, cs[..|cs| - 1]);
      var c := cs[|cs| - 1];
      if p.result.Some? && (c.primary || c.born) {
        UploadRepoAnchors(p.disk, p.memory, c);
      }
    }
  }

  lemma RecordsDiffer(es: seq<Entry>, cs: seq<Capture>)
    requires RecordsAll(es, cs) && DistinctRepos(cs)
    ensures DistinctIds(es)
  {
  }

  ghost predicate RestoresAll(t: Objects, rs: seq<Entry>, cs: seq<Capture>) {
    forall c | c in cs :: exists e :: e in rs && Records(e, c) && Restore(t, e) == Some(c.content)
  }

  ghost predicate NamesOnly(rs: seq<Entry>, cs: seq<Capture>) {
    forall e | e in rs :: exists c :: c in cs && Records(e, c)
  }

  /** The latest manifest is a checkpoint of exactly the repositories `cs`, and restores to what
      was captured of each. */
  ghost predicate Describes(t: Objects, cs: seq<Capture>) {
    && Latest in t && t[Latest].OfManifest?
    && var rs := t[Latest].manifest.repositories;
       |rs| == |cs| && RestoresAll(t, rs, cs) && NamesOnly(rs, cs)
  }

  lemma ManifestDescribes(t: Objects, es: seq<Entry>, cs: seq<Capture>)
    requires Good(t) && RecordsAll(es, cs) && ManifestIs(t, SortById(es))
    ensures Describes(t, cs)
  {
    hide Restore, Backed, Records, SortById;
    SortIsPermutation(es);
    var rs := SortById(es);
    forall c | c in cs ensures exists e :: e in rs && Records(e, c) && Restore(t, e) == Some(c.content) {
      var i :| 0 <= i < |cs| && cs[i] == c;
      assert Records(es[i], c);
      RecordsContent(es[i], c);
      assert es[i] in es;
      var k :| 0 <= k < |rs| && rs[k] == es[i];
      BackedRestores(t, rs[k]);
    }
    forall e | e in rs ensures exists c :: c in cs && Records(e, c) {
      var i :| 0 <= i < |es| && es[i] == e;
      assert cs[i] in cs;
    }
  }

  lemma RecordsContent(e: Entry, c: Capture)
    requires Records(e, c)
    ensures e.semanticKey == c.content
  {
  }

  /** Whatever an attempt meets, the store stays good and the memory of the process true. */
  lemma CheckpointStep(d: Disk, mem: Memory, a: Attempt)
    requires AllGood(d) && Known(mem, d.objects) && Listed(a)
    ensures var p := Checkpoint(d, mem, a);
            AllGood(p.disk) && Known(p.memory, p.disk.objects) && Grows(d.objects, p.disk.objects)
  {
    hide Known, AllGood, AllBacked, DistinctIds, UploadAll, Publish, Listed, Captures, AnchorsOf, ManifestIs, SortById;
    var p := UploadAll(d, mem, Captures(a));
    UploadAllResult(d, mem, a);
    if p.result.Some? && a.discovered {
      PublishStep(p.disk, p.memory, p.result.value, a.fits, a.now);
    }
  }

  /** What the uploads of an attempt leave to be published. */
  lemma UploadAllResult(d: Disk, mem: Memory, a: Attempt)
    requires AllGood(d) && Known(mem, d.objects) && Listed(a)
    ensures var p := UploadAll(d, mem, Captures(a));
            && Uploads(d, mem, p.disk, p.memory)
            && (p.result.Some? ==>
                  && DistinctIds(p.result.value) && AllBacked(p.disk.objects, p.result.value)
                     && AnchorsOf(p.result.value, p.memory)
                  && RecordsAll(p.result.value, Present(Captures(a))))
  {
    hide Known, AllGood, AllBacked, UploadAll, Listed, Captures, AnchorsOf, AnchorsCached, DistinctIds, Records,
         Grows, SameLatest;
    var cs := Captures(a);
    ListedReposDiffer(a);
    UploadAllStep(d, mem, cs);
    KnownCaches(mem, d.objects);
    UploadAllAnchors(d, mem, cs);
    PresentDiffer(cs);
    var p := UploadAll(d, mem, cs);
    if p.result.Some? {
      RecordsDiffer(p.result.value, Present(cs));
    }
  }

  lemma KnownCaches(mem: Memory, t: Objects)
    requires Known(mem, t)
    ensures AnchorsCached(mem)
  {
  }

  lemma LastIsGood(d: Disk)
    requires AllGood(d)
    ensures Good(d.objects)
  {
  }
}
