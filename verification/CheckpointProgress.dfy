/** Checkpoint attempts of cmd/agent/workspace_snapshot.go that nothing gets in the way of: they leave a
    checkpoint of what they captured, and send no more than has changed. */
module CheckpointProgress {
  import opened Wrappers
  import opened Sorting
  import opened CheckpointPublication
  import opened CheckpointInvariants
  import opened CheckpointAnswers

  // ---- An attempt that gets through ---------------------------------------------------------------

  /** Git will manage to read, bundle, anchor and seal the repository. */
  predicate Ready(c: Capture) {
    c.readable && c.bundled && c.anchorReady && c.sealed
  }

  lemma ReadyUploads(d: Disk, mem: Memory, c: Capture)
    requires d.fates == [] && Ready(c)
    ensures UploadRepo(d, mem, c).result.Some? && UploadRepo(d, mem, c).disk.fates == []
  {
  }

  lemma {:induction false} AllReadyUpload(d: Disk, mem: Memory, cs: seq<Capture>)
    requires d.fates == [] && forall c | c in Present(cs) :: Ready(c)
    ensures UploadAll(d, mem, cs).result.Some? && UploadAll(d, mem, cs).disk.fates == []
  {
    hide UploadRepo, Ready;
    if cs != [] {
      var init, last := cs[..|cs| - 1], cs[|cs| - 1];
      forall c | c in Present(init) ensures Ready(c) {
        assert c in Present(cs);
      }
      AllReadyUpload(d, mem, init);
      if last.primary || last.born {
        assert last in Present(cs);
        ReadyUploads(UploadAll(d, mem, init).disk, UploadAll(d, mem, init).memory, last);
      }
    }
  }

  /** With every request answered and every repository ready, an attempt succeeds, and unless the process
      is in doubt about its last manifest it leaves a checkpoint that restores exactly what it captured. */
  lemma ReadyAttemptCheckpoints(d: Disk, mem: Memory, a: Attempt)
    requires AllGood(d) && Known(mem, d.objects) && Listed(a) && Aware(mem, d.objects, false)
    requires d.fates == [] && a.discovered && a.fits && forall c | c in Present(Captures(a)) :: Ready(c)
    ensures var p := Checkpoint(d, mem, a);
            p.result.Some? && Describes(p.disk.objects, Present(Captures(a)))
  {
    hide AllGood, Known, Listed, Aware, Describes, UploadAll, Captures, Present, Ready, SortById;
    NilStep(d, mem, a, false);
    AllReadyUpload(d, mem, Captures(a));
    var p := UploadAll(d, mem, Captures(a));
    PublishesIfAnswered(p.disk, p.memory, p.result.value, a.now);
  }

  lemma PublishesIfAnswered(d: Disk, mem: Memory, es: seq<Entry>, now: nat)
    requires d.fates == []
    ensures Publish(d, mem, es, true, now).result.Some?
  {
    hide SortById, KeyMap, EntryMap;
  }

  // ---- What is not sent again ---------------------------------------------------------------------

  /** The process remembers publishing the entries `es`. */
  ghost predicate Published(mem: Memory, es: seq<Entry>) {
    mem.lastKeys == KeyMap(es) && mem.lastEntries == EntryMap(es) && mem.lastGeneration == Digest(SortById(es))
  }

  lemma SuccessIsPublished(d: Disk, mem: Memory, es: seq<Entry>, now: nat)
    requires d.fates == [] && mem.lastGeneration != Digest(SortById(es))
    ensures Published(Publish(d, mem, es, true, now).memory, es)
  {
    hide SortById, KeyMap, EntryMap;
  }

  lemma {:induction false} MapsHave(es: seq<Entry>, i: nat)
    requires DistinctIds(es) && i < |es|
    ensures es[i].id in EntryMap(es) && EntryMap(es)[es[i].id] == es[i]
    ensures es[i].id in KeyMap(es) && KeyMap(es)[es[i].id] == es[i].semanticKey
  {
    var init := es[..|es| - 1];
    assert forall k | 0 <= k < |init| :: init[k] == es[k];
    if i < |init| {
      MapsHave(init, i);
    }
  }

  /** A repository found as it was published comes back as the same entry, with nothing sent. */
  lemma SameRepo(d: Disk, mem: Memory, es: seq<Entry>, i: nat, c: Capture)
    requires Published(mem, es) && DistinctIds(es) && i < |es| && Records(es[i], c) && c.readable
    ensures UploadRepo(d, mem, c) == Progress(d, mem, Some(es[i]))
  {
    hide SortById;
    MapsHave(es, i);
    assert Refreshed(es[i], c) == es[i];
  }

  lemma {:induction false} SameRepos(d: Disk, mem: Memory, es: seq<Entry>, cs: seq<Capture>, n: nat)
    requires Published(mem, es) && DistinctIds(es) && n == |Present(cs)| <= |es|
    requires forall i | 0 <= i < n :: Records(es[i], Present(cs)[i]) && Present(cs)[i].readable
    ensures UploadAll(d, mem, cs) == Progress(d, mem, Some(es[..n]))
  {
    hide Published, DistinctIds, Records, UploadRepo;
    if cs != [] {
      var init, last := cs[..|cs| - 1], cs[|cs| - 1];
      if last.primary || last.born {
        assert forall i | 0 <= i < n - 1 :: Present(cs)[i] == Present(init)[i];
        SameRepos(d, mem, es, init, n - 1);
        SameRepo(d, mem, es, n - 1, last);
        assert es[..n - 1] + [es[n - 1]] == es[..n];
      } else {
        assert Present(cs) == Present(init) + [] == Present(init);
        SameRepos(d, mem, es, init, n);
      }
    }
  }

  /** An attempt that finds every repository as the process has published it sends nothing at all and
      succeeds, whatever the store would have answered. */
  lemma RepeatIsFree(d: Disk, mem: Memory, es: seq<Entry>, a: Attempt)
    requires Published(mem, es) && DistinctIds(es) && RecordsAll(es, Present(Captures(a))) && a.discovered
    requires forall c | c in Present(Captures(a)) :: c.readable
    ensures Checkpoint(d, mem, a) == Progress(d, mem, Some(()))
  {
    hide DistinctIds, Records, UploadAll, Captures, Present, SortById, KeyMap, EntryMap;
    var cs := Captures(a);
    forall i | 0 <= i < |es| ensures Records(es[i], Present(cs)[i]) && Present(cs)[i].readable {
      assert Present(cs)[i] in Present(cs);
    }
    SameRepos(d, mem, es, cs, |es|);
    assert es[..|es|] == es;
  }

  /** So a second attempt at a workspace that has not changed since the first has published it is free. */
  lemma SecondAttemptIsFree(d: Disk, mem: Memory, a: Attempt, later: nat)
    requires AllGood(d) && Known(mem, d.objects) && Listed(a) && Publishes(d, mem, a)
    requires d.fates == [] && a.discovered && a.fits && forall c | c in Present(Captures(a)) :: Ready(c)
    ensures var p := Checkpoint(d, mem, a);
            Checkpoint(p.disk, p.memory, a.(now := later)) == Progress(p.disk, p.memory, Some(()))
  {
    hide AllGood, Known, Listed, UploadAll, Present, SortById, KeyMap, EntryMap, AllBacked, DistinctIds, AnchorsOf,
         Records, Grows, SameLatest;
    var cs := Captures(a);
    UploadAllResult(d, mem, a);
    AllReadyUpload(d, mem, cs);
    var u := UploadAll(d, mem, cs);
    ListedReposDiffer(a);
    UploadsKeepGeneration(mem, u.memory, d, u.disk);
    SuccessIsPublished(u.disk, u.memory, u.result.value, a.now);
    assert Captures(a.(now := later)) == cs;
    var p := Checkpoint(d, mem, a);
    RepeatIsFree(p.disk, p.memory, u.result.value, a.(now := later));
  }

  lemma UploadsKeepGeneration(mem: Memory, mem': Memory, d: Disk, d': Disk)
    requires Uploads(d, mem, d', mem')
    ensures mem'.lastGeneration == mem.lastGeneration
  {
    hide AllGood, Known, Grows, SameLatest;
  }

  /** A changed repository costs one request for its bundle, and one more for its anchor unless it has
      none or the process has sent that before, which it remembers from then on. */
  lemma ChangeCosts(d: Disk, mem: Memory, c: Capture)
    requires d.fates == [] && Ready(c) && AnchorsCached(mem) && !Unchanged(mem, c)
    ensures var p, known := UploadRepo(d, mem, c), c.anchor == "" || c.anchor in mem.anchorObjects;
            && |p.disk.trace| == |d.trace| + (if known then 1 else 2)
            && (c.anchor != "" ==> c.anchor in p.memory.anchorObjects)
            && (forall k | k in p.disk.objects :: k in d.objects || k.BundleKey? || (!known && k.AnchorKey?))
  {
  }
}
