/** What the answer of a checkpoint attempt of cmd/agent/workspace_snapshot.go is worth: an attempt
    that finds its generation unchanged uploads no manifest and trusts its memory of the last one. */
module CheckpointAnswers {
  import opened Wrappers
  import opened Sorting
  import opened CheckpointPublication
  import opened CheckpointInvariants

  // ---- The one answer that matters ----------------------------------------------------------------

  /** The sorted entries of an attempt that gets as far as comparing generations. */
  function Finding(d: Disk, mem: Memory, a: Attempt): Option<seq<Entry>> {
    var p := UploadAll(d, mem, Captures(a));
    if p.result.None? || !a.discovered then None else Some(SortById(p.result.value))
  }

  /** The attempt sends a manifest. */
  predicate Publishes(d: Disk, mem: Memory, a: Attempt) {
    var es := Finding(d, mem, a);
    es.Some? && mem.lastGeneration != Digest(es.value) && a.fits
  }

  function ManifestFate(d: Disk, mem: Memory, a: Attempt): Fate {
    NextFate(UploadAll(d, mem, Captures(a)).disk)
  }

  /** Whether the answer to the last manifest that took effect was lost. */
  function DoubtAfter(doubt: bool, d: Disk, mem: Memory, a: Attempt): bool {
    if !Publishes(d, mem, a) || ManifestFate(d, mem, a).Refused? then doubt else ManifestFate(d, mem, a).Lost?
  }

  /** Two entries for the same upload; listing a repository anew changes only the other fields. */
  ghost predicate SameUpload(e: Entry, e': Entry) {
    && e.id == e'.id && e.semanticKey == e'.semanticKey && e.objectKey == e'.objectKey
    && e.snapshot == e'.snapshot && e.parent == e'.parent
    && e.anchor == e'.anchor && e.anchorObjectKey == e'.anchorObjectKey
  }

  /** Where entries have a content that the process remembers, they have it from the same upload. */
  ghost predicate Kin(mem: Memory, es: seq<Entry>) {
    forall e | e in es && e.id in mem.lastEntries && mem.lastEntries[e.id].semanticKey == e.semanticKey ::
      SameUpload(e, mem.lastEntries[e.id])
  }

  ghost predicate KinManifest(mem: Memory, t: Objects) {
    Latest in t && t[Latest].OfManifest? ==> Kin(mem, t[Latest].manifest.repositories)
  }

  ghost predicate Remembers(mem: Memory, es: seq<Entry>) {
    forall e | e in es :: e.id in mem.lastEntries && mem.lastEntries[e.id] == e
  }

  /** The process is right about the latest manifest exactly if no doubt is left. */
  ghost predicate Aware(mem: Memory, t: Objects, doubt: bool) {
    mem.lastGeneration.Digest? ==>
      && (ManifestIs(t, mem.lastGeneration.entries) <==> !doubt)
      && Remembers(mem, mem.lastGeneration.entries) && KinManifest(mem, t)
  }

  // ---- Uploads keep it ----------------------------------------------------------------------------

  lemma RepoKin(d: Disk, mem: Memory, c: Capture, t: Objects)
    requires Known(mem, t)
    ensures UploadRepo(d, mem, c).result.Some? ==> Kin(mem, [UploadRepo(d, mem, c).result.value])
  {
  }

  lemma SameKin(mem: Memory, mem': Memory)
    requires mem' == mem.(anchorObjects := mem'.anchorObjects)
    ensures forall es :: Kin(mem', es) <==> Kin(mem, es)
  {
  }

  lemma {:induction false} UploadAllKin(d: Disk, mem: Memory, cs: seq<Capture>)
    requires AllGood(d) && Known(mem, d.objects) && forall i | 0 <= i < |cs| :: cs[i].content.head != ""
    ensures UploadAll(d, mem, cs).result.Some? ==> Kin(mem, UploadAll(d, mem, cs).result.value)
  {
    hide AllGood, Known, UploadRepo, SameUpload, Grows, SameLatest, AllBacked, RecordsAll;
    if cs != [] {
      var init, c := cs[..|cs| - 1], cs[|cs| - 1];
      UploadAllKin(d, mem, init);
      UploadAllStep(d, mem, init);
      var p := UploadAll(d, mem, init);
      if p.result.Some? && (c.primary || c.born) {
        RepoKin(p.disk, p.memory, c, p.disk.objects);
      }
    }
  }

  lemma {:induction false} EntryMapRemembers(es: seq<Entry>)
    requires DistinctIds(es)
    ensures forall e | e in es :: e.id in EntryMap(es) && EntryMap(es)[e.id] == e
  {
    if es != [] {
      var init, last := es[..|es| - 1], es[|es| - 1];
      assert forall i | 0 <= i < |init| :: init[i] == es[i];
      assert es == init + [last];
      EntryMapRemembers(init);
    }
  }

  lemma AwareAfterUploads(mem: Memory, mem': Memory, t: Objects, t': Objects, doubt: bool)
    requires Aware(mem, t, doubt) && SameLatest(t, t') && mem' == mem.(anchorObjects := mem'.anchorObjects)
    ensures Aware(mem', t', doubt)
  {
  }

  lemma AwareOfOwn(keys: map<string, SemanticKey>, es: seq<Entry>, anchors: map<Sha, Key>, t: Objects)
    requires DistinctIds(es) && ManifestIs(t, SortById(es))
    ensures Aware(Memory(keys, EntryMap(es), anchors, Digest(SortById(es))), t, false)
  {
    hide SortById, SameUpload, EntryMap;
    EntryMapRemembers(es);
    SortIsPermutation(es);
    SameUploadItself();
  }

  lemma SameUploadItself()
    ensures forall e :: SameUpload(e, e)
  {
  }

  lemma AwareAfterPublish(d: Disk, mem: Memory, captured: seq<Entry>, fits: bool, now: nat, doubt: bool)
    requires Aware(mem, d.objects, doubt) && DistinctIds(captured) && Kin(mem, captured)
    ensures var p := Publish(d, mem, captured, fits, now);
            var sent := mem.lastGeneration != Digest(SortById(captured)) && fits;
            Aware(p.memory, p.disk.objects, if !sent || NextFate(d).Refused? then doubt else NextFate(d).Lost?)
  {
    hide SortById, SameUpload, KeyMap, EntryMap, DistinctIds;
    var p := Publish(d, mem, captured, fits, now);
    SortIsPermutation(captured);
    if mem.lastGeneration != Digest(SortById(captured)) && fits && NextFate(d).Stored? {
      AwareOfOwn(KeyMap(captured), captured, mem.anchorObjects, p.disk.objects);
    }
  }

  // ---- Only the very manifest describes an attempt that skips the upload --------------------------

  lemma SameRecord(e: Entry, e': Entry, c: Capture)
    requires Records(e, c) && Records(e', c)
    ensures e.id == e'.id && e.semanticKey == e'.semanticKey
    ensures SameUpload(e, e') ==> e == e'
  {
  }

  lemma OwnEntry(mem: Memory, rs: seq<Entry>, e: Entry, own: Entry, c: Capture)
    requires Kin(mem, rs) && e in rs && own.id in mem.lastEntries && mem.lastEntries[own.id] == own
    requires Records(e, c) && Records(own, c)
    ensures e == own
  {
    hide SameUpload;
    SameRecord(e, own, c);
  }

  lemma RecordedAreOwn(mem: Memory, rs: seq<Entry>, es: seq<Entry>, cs: seq<Capture>, own: seq<Entry>)
    requires Kin(mem, rs) && Remembers(mem, own) && RecordsAll(es, cs) && forall e | e in es :: e in own
    requires NamesOnly(rs, cs)
    ensures forall e | e in rs :: e in own
  {
    hide Records, Kin;
    forall e | e in rs ensures e in own {
      var c :| c in cs && Records(e, c);
      var i :| 0 <= i < |cs| && cs[i] == c;
      assert es[i] in es;
      OwnEntry(mem, rs, e, es[i], c);
    }
  }

  lemma OwnAreRecorded(mem: Memory, t: Objects, rs: seq<Entry>, es: seq<Entry>, cs: seq<Capture>, own: seq<Entry>)
    requires Kin(mem, rs) && Remembers(mem, own) && RecordsAll(es, cs) && forall e | e in own :: e in es
    requires RestoresAll(t, rs, cs)
    ensures forall e | e in own :: e in rs
  {
    hide Records, Kin, Restore;
    forall e | e in own ensures e in rs {
      var i :| 0 <= i < |es| && es[i] == e;
      assert cs[i] in cs;
      var e' :| e' in rs && Records(e', cs[i]);
      OwnEntry(mem, rs, e', e, cs[i]);
    }
  }

  lemma DescribedIsOwn(mem: Memory, t: Objects, es: seq<Entry>, cs: seq<Capture>)
    requires Good(t) && Describes(t, cs) && RecordsAll(es, cs) && DistinctIds(es)
    requires Remembers(mem, SortById(es)) && KinManifest(mem, t)
    ensures ManifestIs(t, SortById(es))
  {
    hide RecordsAll, Kin, SortById, Sound, AllBacked, Sorted, Remembers, DistinctIds, RestoresAll, NamesOnly;
    var rs, own := t[Latest].manifest.repositories, SortById(es);
    SortIsPermutation(es);
    SortIsSorted(es);
    RecordedAreOwn(mem, rs, es, cs, own);
    OwnAreRecorded(mem, t, rs, es, cs, own);
    SameSorted(rs, own);
  }

  lemma SameSorted(rs: seq<Entry>, own: seq<Entry>)
    requires Sorted(EntryBefore, rs) && Sorted(EntryBefore, own)
    requires (forall e | e in rs :: e in own) && (forall e | e in own :: e in rs)
    ensures rs == own
  {
    hide EntryBefore, Sorted;
    SortedDistinct(own);
    EntriesOrdered(own);
    forall e | e in rs ensures e in ElementSet(own) {
      assert e in own;
    }
    SortedUnique(EntryBefore, ElementSet(own), rs, own);
  }

  /** An attempt that returns nil has left a checkpoint of exactly what it captured if and only if it
      sent the manifest itself or no doubt is left about an earlier one. */
  lemma NilStep(d: Disk, mem: Memory, a: Attempt, doubt: bool)
    requires AllGood(d) && Known(mem, d.objects) && Listed(a) && Aware(mem, d.objects, doubt)
    ensures var p := Checkpoint(d, mem, a);
            && Aware(p.memory, p.disk.objects, DoubtAfter(doubt, d, mem, a))
            && (p.result.Some? ==>
                  (Describes(p.disk.objects, Present(Captures(a))) <==> Publishes(d, mem, a) || !doubt))
  {
    hide Known, AllGood, AllBacked, DistinctIds, UploadAll, Publish, Listed, Captures, AnchorsOf, SortById, Describes,
         Aware, Kin;
    hide SameLatest, Grows, ManifestIs;
    UploadAllResult(d, mem, a);
    ListedReposDiffer(a);
    UploadAllKin(d, mem, Captures(a));
    var p := UploadAll(d, mem, Captures(a));
    AwareAfterUploads(mem, p.memory, d.objects, p.disk.objects, doubt);
    if p.result.Some? && a.discovered {
      SameKin(mem, p.memory);
      PublishAnswer(p.disk, p.memory, p.result.value, Present(Captures(a)), a.fits, a.now, doubt);
    }
  }

  lemma PublishAnswer(d: Disk, mem: Memory, es: seq<Entry>, cs: seq<Capture>, fits: bool, now: nat, doubt: bool)
    requires AllGood(d) && Known(mem, d.objects) && Aware(mem, d.objects, doubt)
    requires DistinctIds(es) && AllBacked(d.objects, es) && AnchorsOf(es, mem) && RecordsAll(es, cs) && Kin(mem, es)
    ensures var p := Publish(d, mem, es, fits, now);
            var sent := mem.lastGeneration != Digest(SortById(es)) && fits;
            && Aware(p.memory, p.disk.objects, if !sent || NextFate(d).Refused? then doubt else NextFate(d).Lost?)
            && (p.result.Some? ==> (Describes(p.disk.objects, cs) <==> sent || !doubt))
  {
    hide Known, AllGood, AllBacked, DistinctIds, AnchorsOf, RecordsAll, SortById, Describes, Kin, ManifestIs, KeyMap,
         EntryMap;
    PublishStep(d, mem, es, fits, now);
    AwareAfterPublish(d, mem, es, fits, now, doubt);
    var p := Publish(d, mem, es, fits, now);
    LastIsGood(p.disk);
    if p.result.Some? {
      if ManifestIs(p.disk.objects, SortById(es)) {
        ManifestDescribes(p.disk.objects, es, cs);
      } else if Describes(p.disk.objects, cs) {
        DescribedIsOwn(mem, p.disk.objects, es, cs);
      }
    }
  }
}
