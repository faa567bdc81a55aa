/** Publishing workspace checkpoints, as in cmd/agent/workspace_snapshot.go: immutable payloads go
    up first and the one latest manifest last, so that a crash at any moment leaves a store whose
    latest manifest can be restored.

    Git objects, bundles and payloads are represented by what they contain; SHA-256 is taken to be
    injective, so a digest is the thing it is a digest of. The object store answers each request
    with a fate fixed in advance, and remembers every content it ever had.
 */
module CheckpointPublication {
  import opened Wrappers
  import opened Sorting

  const VERSION := 1

  type Sha = string

  /** What a checkpoint of one repository preserves: its working tree, HEAD and untracked files. */
  datatype SemanticKey = SemanticKey(tree: Sha, head: Sha, archive: Sha)

  /** A checkpoint commit; `stamp` stands for its date and message. */
  datatype Commit = NoCommit | Commit(content: SemanticKey, stamp: nat)

  datatype Bundle = Bundle(snapshot: Commit, prerequisite: Sha)

  /** An anchor commit with its tree, in one of its possible packings. */
  datatype Payload = Payload(commit: Sha, packing: nat)

  /** Object keys; `NoKey` is the empty string, `Foreign` any key outside the run prefix. */
  datatype Key =
    | NoKey
    | Latest
    | BundleKey(id: string, bundle: Bundle)
    | AnchorKey(payload: Payload)
    | Foreign(name: string)

  /** Where an attached repository lives: in the primary repository's store or beside it. */
  datatype Location = InStore | InWorkspace

  datatype Entry = Entry(
    id: string, alias: string, url: string, branch: string, upstream: string, location: Location, primary: bool,
    semanticKey: SemanticKey, objectKey: Key, snapshot: Commit, parent: Sha, anchor: Sha, anchorObjectKey: Key)

  datatype Generation = NoGeneration | Digest(entries: seq<Entry>)

  datatype Manifest = Manifest(version: nat, generation: Generation, createdAt: nat, repositories: seq<Entry>)

  datatype Blob = OfBundle(bundle: Bundle) | OfAnchor(payload: Payload) | OfManifest(manifest: Manifest)

  type Objects = map<Key, Blob>

  // ---- The object store ---------------------------------------------------------------------------

  /** A request takes effect, is refused, or takes effect although its answer is lost. */
  datatype Fate = Stored | Refused | Lost

  datatype Disk = Disk(objects: Objects, fates: seq<Fate>, trace: seq<Objects>)

  function NextFate(d: Disk): Fate {
    if d.fates == [] then Stored else d.fates[0]
  }

  function Settled(d: Disk, after: Objects): Disk {
    Disk(after, if d.fates == [] then [] else d.fates[1..], d.trace + [after])
  }

  function AfterPut(d: Disk, key: Key, body: Blob): Disk {
    Settled(d, if NextFate(d).Refused? then d.objects else d.objects[key := body])
  }

  function AfterDelete(d: Disk, key: Key): Disk {
    Settled(d, if NextFate(d).Refused? then d.objects else d.objects - {key})
  }

  /** Only a refusal keeps a request from taking effect, whatever becomes of its answer; a request touches
      its own key alone, and each meets the next fate. */
  lemma RequestsAre(d: Disk, key: Key, body: Blob)
    ensures var put, gone := AfterPut(d, key, body), AfterDelete(d, key);
            && (key in put.objects && put.objects[key] == body <==>
                !NextFate(d).Refused? || (key in d.objects && d.objects[key] == body))
            && (key !in gone.objects <==> !NextFate(d).Refused? || key !in d.objects)
            && put.objects - {key} == gone.objects - {key} == d.objects - {key}
            && (|d.fates| > 0 ==> NextFate(d) == d.fates[0] && put.fates == gone.fates == d.fates[1..])
            && (d.fates == [] ==> NextFate(d).Stored? && put.fates == gone.fates == [])
  {
  }

  // ---- What a checkpoint is good for --------------------------------------------------------------

  /** restoreWorkspaceCheckpointRepo into a checkout that has nothing: what comes back, if anything. */
  function Restore(objects: Objects, e: Entry): Option<SemanticKey> {
    if e.objectKey !in objects || !objects[e.objectKey].OfBundle? then None
    else
      var bundle := objects[e.objectKey].bundle;
      if e.anchor != "" && (e.anchorObjectKey !in objects || !objects[e.anchorObjectKey].OfAnchor?
                            || objects[e.anchorObjectKey].payload.commit != e.anchor) then None
      else if bundle.prerequisite != "" && bundle.prerequisite != e.anchor then None
      else if bundle.snapshot.NoCommit? || bundle.snapshot != e.snapshot || bundle.snapshot.content.head != e.parent
      then None
      else Some(bundle.snapshot.content)
  }

  /** What restoring an entry takes: its bundle, holding just its commit on top of its HEAD, and where it
      names an anchor, that very anchor, on which the bundle may depend and on nothing else. */
  lemma RestoreIff(objects: Objects, e: Entry, content: SemanticKey)
    ensures Restore(objects, e) == Some(content) <==>
            && e.objectKey in objects && objects[e.objectKey].OfBundle?
            && var bundle := objects[e.objectKey].bundle;
               && bundle.snapshot.Commit? && bundle.snapshot == e.snapshot
               && bundle.snapshot.content == content && content.head == e.parent
               && bundle.prerequisite in {"", e.anchor}
               && (e.anchor == "" || exists packing ::
                     e.anchorObjectKey in objects && objects[e.anchorObjectKey] == OfAnchor(Payload(e.anchor, packing)))
  {
    if e.anchorObjectKey in objects && objects[e.anchorObjectKey].OfAnchor? {
      var p := objects[e.anchorObjectKey].payload;
      assert objects[e.anchorObjectKey] == OfAnchor(Payload(p.commit, p.packing));
    }
  }

  predicate Complete(e: Entry) {
    && e.id != "" && !e.snapshot.NoCommit? && e.parent != ""
    && e.objectKey.BundleKey? && (e.anchor != "" ==> e.anchorObjectKey.AnchorKey?)
  }

  predicate AllComplete(es: seq<Entry>) {
    forall i | 0 <= i < |es| :: Complete(es[i])
  }

  predicate DistinctIds(es: seq<Entry>) {
    forall i, j | 0 <= i < j < |es| :: es[i].id != es[j].id
  }

  function Primaries(es: seq<Entry>): nat {
    if es == [] then 0 else Primaries(es[..|es| - 1]) + if es[|es| - 1].primary then 1 else 0
  }

  /** loadWorkspaceCheckpoint's checks on a decoded manifest. */
  predicate Acceptable(m: Manifest) {
    && m.version == VERSION
    && AllComplete(m.repositories)
    && DistinctIds(m.repositories)
    && Primaries(m.repositories) <= 1
  }

  /** A reader of the store finds either no checkpoint or one that loads and restores completely. */
  ghost predicate Intact(objects: Objects) {
    Latest in objects ==>
      && objects[Latest].OfManifest? && Acceptable(objects[Latest].manifest)
      && var rs := objects[Latest].manifest.repositories;
         forall i | 0 <= i < |rs| :: Restore(objects, rs[i]) == Some(rs[i].semanticKey)
  }

  // ---- Capturing a repository ---------------------------------------------------------------------

  /** One repository as an attempt finds it, with what Git will manage to do with it. */
  datatype Capture = Capture(
    alias: string, location: Location, primary: bool, born: bool,
    url: string, branch: string, upstream: string, content: SemanticKey,
    stamp: nat, anchor: Sha, packing: nat,
    readable: bool, bundled: bool, anchorReady: bool, sealed: bool)

  function RepoID(c: Capture): string {
    if c.primary then "primary"
    else if c.location.InWorkspace? then "workspace-" + c.alias
    else "store-" + c.alias
  }

  datatype Memory = Memory(
    lastKeys: map<string, SemanticKey>, lastEntries: map<string, Entry>,
    anchorObjects: map<Sha, Key>, lastGeneration: Generation)

  datatype Progress<T> = Progress(disk: Disk, memory: Memory, result: Option<T>)

  function CachedAnchor(mem: Memory, anchor: Sha): Key {
    if anchor != "" && anchor in mem.anchorObjects then mem.anchorObjects[anchor] else NoKey
  }

  function UploadAnchor(d: Disk, mem: Memory, c: Capture): Progress<Key> {
    var cached := CachedAnchor(mem, c.anchor);
    if c.anchor == "" || !cached.NoKey? then Progress(d, mem, Some(cached))
    else if !c.anchorReady then Progress(d, mem, None)
    else
      var payload := Payload(c.anchor, c.packing);
      var d' := AfterPut(d, AnchorKey(payload), OfAnchor(payload));
      if NextFate(d).Stored? then
        Progress(d', mem.(anchorObjects := mem.anchorObjects[c.anchor := AnchorKey(payload)]), Some(AnchorKey(payload)))
      else Progress(d', mem, None)
  }

  function Unchanged(mem: Memory, c: Capture): bool {
    RepoID(c) in mem.lastKeys && mem.lastKeys[RepoID(c)] == c.content && RepoID(c) in mem.lastEntries
  }

  function Refreshed(e: Entry, c: Capture): Entry {
    e.(url := c.url, branch := c.branch, upstream := c.upstream,
       alias := c.alias, location := c.location, primary := c.primary)
  }

  function NewEntry(c: Capture, anchorKey: Key): Entry {
    var snapshot := Commit(c.content, c.stamp);
    Entry(RepoID(c), c.alias, c.url, c.branch, c.upstream, c.location, c.primary, c.content,
          BundleKey(RepoID(c), Bundle(snapshot, c.anchor)), snapshot, c.content.head, c.anchor, anchorKey)
  }

  function UploadRepo(d: Disk, mem: Memory, c: Capture): Progress<Entry> {
    if !c.readable then Progress(d, mem, None)
    else if Unchanged(mem, c) then Progress(d, mem, Some(Refreshed(mem.lastEntries[RepoID(c)], c)))
    else if !c.bundled then Progress(d, mem, None)
    else UploadPayloads(d, mem, c)
  }

  function UploadPayloads(d: Disk, mem: Memory, c: Capture): Progress<Entry> {
    var a := UploadAnchor(d, mem, c);
    if a.result.None? || !c.sealed then Progress(a.disk, a.memory, None)
    else
      var e := NewEntry(c, a.result.value);
      var d' := AfterPut(a.disk, e.objectKey, OfBundle(e.objectKey.bundle));
      Progress(d', a.memory, if NextFate(a.disk).Stored? then Some(e) else None)
  }

  /** Repositories in turn, skipping attached ones without a commit; the first failure stops. */
  function UploadAll(d: Disk, mem: Memory, cs: seq<Capture>): Progress<seq<Entry>> {
    if cs == [] then Progress(d, mem, Some([]))
    else
      var p := UploadAll(d, mem, cs[..|cs| - 1]);
      var c := cs[|cs| - 1];
      if p.result.None? || (!c.primary && !c.born) then p
      else
        var q := UploadRepo(p.disk, p.memory, c);
        Progress(q.disk, q.memory, if q.result.None? then None else Some(p.result.value + [q.result.value]))
  }

  predicate EntryBefore(a: Entry, b: Entry) {
    StringLess(a.id, b.id)
  }

  function SortById(es: seq<Entry>): seq<Entry> {
    if es == [] then [] else Insert(EntryBefore, es[|es| - 1], SortById(es[..|es| - 1]))
  }

  function EntryMap(es: seq<Entry>): map<string, Entry> {
    if es == [] then map[] else EntryMap(es[..|es| - 1])[es[|es| - 1].id := es[|es| - 1]]
  }

  function KeyMap(es: seq<Entry>): map<string, SemanticKey> {
    if es == [] then map[] else KeyMap(es[..|es| - 1])[es[|es| - 1].id := es[|es| - 1].semanticKey]
  }

  // ---- One attempt --------------------------------------------------------------------------------

  /** What one checkpoint attempt finds. `primary` is absent in a run without a repository. */
  datatype Attempt = Attempt(primary: Option<Capture>, discovered: bool, extras: seq<Capture>, fits: bool, now: nat)

  function Captures(a: Attempt): seq<Capture> {
    (if a.primary.Some? then [a.primary.value] else []) + if a.discovered then a.extras else []
  }

  function Checkpoint(d: Disk, mem: Memory, a: Attempt): Progress<()> {
    var p := UploadAll(d, mem, Captures(a));
    if p.result.None? || !a.discovered then Progress(p.disk, p.memory, None)
    else Publish(p.disk, p.memory, p.result.value, a.fits, a.now)
  }

  function Publish(d: Disk, mem: Memory, captured: seq<Entry>, fits: bool, now: nat): Progress<()> {
    var entries := SortById(captured);
    if mem.lastGeneration == Digest(entries) then Progress(d, mem, Some(()))
    else if !fits then Progress(d, mem, None)
    else
      var d' := AfterPut(d, Latest, OfManifest(Manifest(VERSION, Digest(entries), now, entries)));
      if NextFate(d).Stored? then
        Progress(d', Memory(KeyMap(captured), EntryMap(captured), mem.anchorObjects, Digest(entries)), Some(()))
      else Progress(d', mem, None)
  }

  // ---- Starting and retiring ----------------------------------------------------------------------

  function AnchorMap(es: seq<Entry>): map<Sha, Key> {
    if es == [] then map[]
    else
      var e, before := es[|es| - 1], AnchorMap(es[..|es| - 1]);
      if e.anchor != "" && !e.anchorObjectKey.NoKey? then before[e.anchor := e.anchorObjectKey] else before
  }

  function Remember(loaded: Option<Manifest>): Memory {
    if loaded.None? then Memory(map[], map[], map[], NoGeneration)
    else
      var es := loaded.value.repositories;
      Memory(KeyMap(es), EntryMap(es), AnchorMap(es), loaded.value.generation)
  }

  function EntryKeys(e: Entry): set<Key> {
    {e.objectKey, e.anchorObjectKey} - {NoKey}
  }

  function PayloadKeys(entries: map<string, Entry>): set<Key> {
    set id, k | id in entries && k in EntryKeys(entries[id]) :: k
  }

  function DeleteAll(d: Disk, keys: seq<Key>): Disk {
    if keys == [] then d else AfterDelete(DeleteAll(d, keys[..|keys| - 1]), keys[|keys| - 1])
  }

  /** Retiring the checkpoint: the latest manifest goes first, the payloads in any order after it. */
  function Retire(d: Disk, keys: seq<Key>): Disk {
    var d' := AfterDelete(d, Latest);
    if NextFate(d).Stored? then DeleteAll(d', keys) else d'
  }

  // ---- The classes --------------------------------------------------------------------------------

  class ObjectStore {
    var objects: Objects
    var fates: seq<Fate>
    ghost var trace: seq<Objects>

    constructor (objects: Objects, fates: seq<Fate>)
      ensures Now() == Disk(objects, fates, [objects])
    {
      this.objects, this.fates, this.trace := objects, fates, [objects];
    }

    ghost function Now(): Disk
      reads this
    {
      Disk(objects, fates, trace)
    }

    method Answer() returns (fate: Fate)
      modifies this`fates
      ensures fate == NextFate(old(Now()))
      ensures fates == if old(fates) == [] then [] else old(fates)[1..]
    {
      if fates == [] {
        fate := Stored;
      } else {
        fate, fates := fates[0], fates[1..];
      }
    }

    method Put(key: Key, body: Blob) returns (ok: bool)
      modifies this
      ensures Now() == AfterPut(old(Now()), key, body) && ok == NextFate(old(Now())).Stored?
    {
      var fate := Answer();
      if !fate.Refused? {
        objects := objects[key := body];
      }
      trace := trace + [objects];
      ok := fate.Stored?;
    }

    method Delete(key: Key) returns (ok: bool)
      modifies this
      ensures Now() == AfterDelete(old(Now()), key) && ok == NextFate(old(Now())).Stored?
    {
      var fate := Answer();
      if !fate.Refused? {
        objects := objects - {key};
      }
      trace := trace + [objects];
      ok := fate.Stored?;
    }
  }

  function Ids(es: seq<Entry>): set<string> {
    set i | 0 <= i < |es| :: es[i].id
  }

  lemma CheckNext(es: seq<Entry>, i: nat)
    requires i < |es|
    ensures AllComplete(es[..i + 1]) <==> AllComplete(es[..i]) && Complete(es[i])
    ensures DistinctIds(es[..i + 1]) <==> DistinctIds(es[..i]) && es[i].id !in Ids(es[..i])
    ensures Ids(es[..i + 1]) == Ids(es[..i]) + {es[i].id}
    ensures Primaries(es[..i + 1]) == Primaries(es[..i]) + if es[i].primary then 1 else 0
    ensures AllComplete(es) ==> AllComplete(es[..i + 1])
    ensures DistinctIds(es) ==> DistinctIds(es[..i + 1])
  {
    assert es[..i + 1] == es[..i] + [es[i]];
    assert es[..i + 1][..i] == es[..i];
  }

  lemma {:induction false} OnePrimaryMeans(es: seq<Entry>)
    ensures Primaries(es) == 0 <==> forall i | 0 <= i < |es| :: !es[i].primary
    ensures Primaries(es) <= 1 <==> forall i, j | 0 <= i < j < |es| :: !(es[i].primary && es[j].primary)
  {
    if es != [] {
      var init, last := es[..|es| - 1], es[|es| - 1];
      OnePrimaryMeans(init);
      assert forall i | 0 <= i < |init| :: init[i] == es[i];
    }
  }

  lemma AcceptableMeans(m: Manifest)
    ensures Acceptable(m) <==>
            && m.version == 1
            && (forall i | 0 <= i < |m.repositories| ::
                  var e := m.repositories[i];
                  && e.id != "" && e.snapshot != NoCommit && e.parent != "" && e.objectKey.BundleKey?
                  && (e.anchor == "" || e.anchorObjectKey.AnchorKey?))
            && (forall i, j | 0 <= i < j < |m.repositories| ::
                  m.repositories[i].id != m.repositories[j].id
                  && !(m.repositories[i].primary && m.repositories[j].primary))
  {
    OnePrimaryMeans(m.repositories);
    hide Primaries;
  }

  /** The loop over a decoded manifest in loadWorkspaceCheckpoint. */
  method CheckManifest(m: Manifest) returns (ok: bool)
    ensures ok <==> Acceptable(m)
    ensures ok <==>
            && m.version == 1
            && (forall i | 0 <= i < |m.repositories| ::
                  var e := m.repositories[i];
                  && e.id != "" && e.snapshot != NoCommit && e.parent != "" && e.objectKey.BundleKey?
                  && (e.anchor == "" || e.anchorObjectKey.AnchorKey?))
            && (forall i, j | 0 <= i < j < |m.repositories| ::
                  m.repositories[i].id != m.repositories[j].id
                  && !(m.repositories[i].primary && m.repositories[j].primary))
  {
    AcceptableMeans(m);
    hide AllComplete, DistinctIds, Ids, Primaries;
    if m.version != VERSION {
      return false;
    }
    var repos := m.repositories;
    var seen: set<string> := {};
    var primary := 0;
    Nothing();
    for i := 0 to |repos|
      invariant AllComplete(repos[..i]) && DistinctIds(repos[..i])
      invariant seen == Ids(repos[..i]) && primary == Primaries(repos[..i])
    {
      var repo := repos[i];
      CheckNext(repos, i);
      if repo.id == "" || repo.objectKey.NoKey? || repo.snapshot.NoCommit? || repo.parent == "" {
        return false;
      }
      if repo.id in seen {
        return false;
      }
      seen := seen + {repo.id};
      if repo.primary {
        primary := primary + 1;
      }
      if !repo.objectKey.BundleKey? {
        return false;
      }
      if repo.anchor != "" && !repo.anchorObjectKey.AnchorKey? {
        return false;
      }
    }
    assert repos[..|repos|] == repos;
    ok := primary <= 1;
  }

  lemma Nothing()
    ensures AllComplete([]) && DistinctIds([]) && Ids([]) == {} && Primaries([]) == 0
  {
  }

  class WorkspaceSnapshotter {
    const store: ObjectStore
    var lastKeys: map<string, SemanticKey>
    var lastEntries: map<string, Entry>
    var anchorObjects: map<Sha, Key>
    var lastGeneration: Generation

    ghost function Mem(): Memory
      reads this
    {
      Memory(lastKeys, lastEntries, anchorObjects, lastGeneration)
    }

    constructor (store: ObjectStore, loaded: Option<Manifest>)
      ensures this.store == store && Mem() == Remember(loaded)
    {
      this.store := store;
      lastKeys, lastEntries, anchorObjects, lastGeneration := map[], map[], map[], NoGeneration;
      new;
      if loaded.Some? {
        var es := loaded.value.repositories;
        lastGeneration := loaded.value.generation;
        for i := 0 to |es|
          invariant Mem() == Memory(KeyMap(es[..i]), EntryMap(es[..i]), AnchorMap(es[..i]), loaded.value.generation)
        {
          var entry := es[i];
          lastKeys := lastKeys[entry.id := entry.semanticKey];
          lastEntries := lastEntries[entry.id := entry];
          if entry.anchor != "" && !entry.anchorObjectKey.NoKey? {
            anchorObjects := anchorObjects[entry.anchor := entry.anchorObjectKey];
          }
          assert es[..i + 1][..i] == es[..i];
        }
        assert es[..|es|] == es;
      }
    }

    /** The search of the last entries never finds an anchor that the cache does not have. */
    method CachedAnchorObject(anchor: Sha) returns (key: Key)
      requires AnchorsCached(Mem())
      ensures key == CachedAnchor(Mem(), anchor)
    {
      if anchor == "" {
        return NoKey;
      }
      if anchor in anchorObjects && !anchorObjects[anchor].NoKey? {
        return anchorObjects[anchor];
      }
      var ids := lastEntries.Keys;
      while ids != {}
        invariant ids <= lastEntries.Keys
        decreases ids
      {
        var id :| id in ids;
        var entry := lastEntries[id];
        if entry.anchor == anchor && !entry.anchorObjectKey.NoKey? {
          return entry.anchorObjectKey;
        }
        ids := ids - {id};
      }
      key := NoKey;
    }

    method RememberAnchorObject(anchor: Sha, key: Key)
      requires anchor != "" && !key.NoKey?
      modifies this`anchorObjects
      ensures anchorObjects == old(anchorObjects)[anchor := key]
    {
      anchorObjects := anchorObjects[anchor := key];
    }

    method SnapshotRepo(c: Capture) returns (entry: Option<Entry>)
      requires AnchorsCached(Mem())
      modifies this`anchorObjects, store
      ensures Progress(store.Now(), Mem(), entry) == UploadRepo(old(store.Now()), old(Mem()), c)
    {
      if !c.readable {
        return None;
      }
      var id := RepoID(c);
      if id in lastKeys && lastKeys[id] == c.content && id in lastEntries {
        var reused := lastEntries[id].(url := c.url, branch := c.branch, upstream := c.upstream);
        return Some(reused.(alias := c.alias, location := c.location, primary := c.primary));
      }
      if !c.bundled {
        return None;
      }
      var anchorKey := CachedAnchorObject(c.anchor);
      if c.anchor != "" && anchorKey.NoKey? {
        if !c.anchorReady {
          return None;
        }
        var payload := Payload(c.anchor, c.packing);
        anchorKey := AnchorKey(payload);
        var ok := store.Put(anchorKey, OfAnchor(payload));
        if !ok {
          return None;
        }
        RememberAnchorObject(c.anchor, anchorKey);
      }
      if !c.sealed {
        return None;
      }
      var snapshot := Commit(c.content, c.stamp);
      var bundle := Bundle(snapshot, c.anchor);
      var ok := store.Put(BundleKey(id, bundle), OfBundle(bundle));
      if !ok {
        return None;
      }
      entry := Some(Entry(id, c.alias, c.url, c.branch, c.upstream, c.location, c.primary, c.content,
                          BundleKey(id, bundle), snapshot, c.content.head, c.anchor, anchorKey));
    }

    method SnapshotLocked(a: Attempt) returns (ok: bool)
      requires AnchorsCached(Mem()) && (a.primary.Some? ==> a.primary.value.primary)
      modifies this, store
      ensures Progress(store.Now(), Mem(), if ok then Some(()) else None) == Checkpoint(old(store.Now()), old(Mem()), a)
    {
      var entries: seq<Entry> := [];
      var keys: map<string, SemanticKey> := map[];
      var entryMap: map<string, Entry> := map[];
      hide UploadRepo, SortById;
      var captures := (if a.primary.Some? then [a.primary.value] else []) + if a.discovered then a.extras else [];
      for i := 0 to |captures|
        invariant Progress(store.Now(), Mem(), Some(entries)) == UploadAll(old(store.Now()), old(Mem()), captures[..i])
        invariant keys == KeyMap(entries) && entryMap == EntryMap(entries)
        invariant AnchorsCached(Mem())
      {
        var c := captures[i];
        UploadAllNext(old(store.Now()), old(Mem()), captures, i);
        if c.primary || c.born {
          UploadKeepsCache(store.Now(), Mem(), c);
          var entry := SnapshotRepo(c);
          if entry.None? {
            UploadAllStops(old(store.Now()), old(Mem()), captures, i + 1);
            return false;
          }
          MapsNext(entries, entry.value);
          entries := entries + [entry.value];
          keys := keys[entry.value.id := entry.value.semanticKey];
          entryMap := entryMap[entry.value.id := entry.value];
        }
      }
      assert captures[..|captures|] == captures;
      if !a.discovered {
        return false;
      }
      var sorted := SortById(entries);
      if Digest(sorted) == lastGeneration {
        return true;
      }
      if !a.fits {
        return false;
      }
      var put := store.Put(Latest, OfManifest(Manifest(VERSION, Digest(sorted), a.now, sorted)));
      if !put {
        return false;
      }
      lastKeys, lastEntries, lastGeneration := keys, entryMap, Digest(sorted);
      ok := true;
    }

    method DeleteOnce(key: Key, already: set<Key>, ghost start: Disk, ghost before: seq<Key>)
      returns (deleted: set<Key>, ghost order: seq<Key>)
      requires store.Now() == DeleteAll(start, before) && Elements(before) == already
      modifies store
      ensures store.Now() == DeleteAll(start, order) && Elements(order) == deleted
      ensures deleted == already + ({key} - {NoKey})
      ensures order == before + if key.NoKey? || key in already then [] else [key]
    {
      deleted, order := already, before;
      if !key.NoKey? && key !in already {
        deleted := already + {key};
        DeleteAllNext(start, before, key);
        ElementsNext(before, key);
        var _ := store.Delete(key);
        order := before + [key];
      }
    }

    /** Deletes every payload of the last entries, each once. */
    method DeletePayloads() returns (ghost order: seq<Key>)
      modifies store
      ensures store.Now() == DeleteAll(old(store.Now()), order)
      ensures Elements(order) == PayloadKeys(lastEntries)
    {
      hide DeleteAll, Elements;
      order := [];
      var deleted: set<Key> := {};
      var ids := lastEntries.Keys;
      NothingDeleted(store.Now());
      while ids != {}
        invariant ids <= lastEntries.Keys
        invariant store.Now() == DeleteAll(old(store.Now()), order) && Elements(order) == deleted
        invariant deleted <= PayloadKeys(lastEntries)
        invariant forall id | id in lastEntries && id !in ids :: EntryKeys(lastEntries[id]) <= deleted
        decreases ids
      {
        var id :| id in ids;
        var entry := lastEntries[id];
        ids := ids - {id};
        assert EntryKeys(entry) <= PayloadKeys(lastEntries);
        deleted, order := DeleteOnce(entry.objectKey, deleted, old(store.Now()), order);
        deleted, order := DeleteOnce(entry.anchorObjectKey, deleted, old(store.Now()), order);
      }
    }

    /** The end of a run. `listed` says whether the repositories could be listed, `safe` of each
        whether it is known to be clean and pushed; `a` is the last checkpoint, should one be needed. */
    method Cleanup(listed: bool, safe: seq<bool>, a: Attempt) returns (ok: bool, ghost keys: seq<Key>)
      requires AnchorsCached(Mem()) && (a.primary.Some? ==> a.primary.value.primary)
      modifies this, store
      ensures listed && (forall i | 0 <= i < |safe| :: safe[i]) ==>
                store.Now() == Retire(old(store.Now()), keys) && Mem() == old(Mem()) && ok
      ensures !(listed && (forall i | 0 <= i < |safe| :: safe[i])) ==>
                var p := Checkpoint(old(store.Now()), old(Mem()), a);
                store.Now() == p.disk && Mem() == p.memory && (ok <==> listed && p.result.Some?)
      ensures Elements(keys) == PayloadKeys(old(lastEntries))
    {
      keys := SomeOrder(PayloadKeys(lastEntries));
      if !listed {
        ok := SnapshotLocked(a);
        return false, keys;
      }
      for i := 0 to |safe|
        invariant unchanged(this) && unchanged(store)
        invariant forall k | 0 <= k < i :: safe[k]
      {
        if !safe[i] {
          ok := SnapshotLocked(a);
          return ok, keys;
        }
      }
      ok := true;
      var retired := store.Delete(Latest);
      if !retired {
        return ok, keys;
      }
      keys := DeletePayloads();
    }
  }

  function Elements(keys: seq<Key>): set<Key> {
    set i | 0 <= i < |keys| :: keys[i]
  }

  lemma NothingDeleted(d: Disk)
    ensures DeleteAll(d, []) == d && Elements([]) == {}
  {
  }

  lemma SomeOrder(keys: set<Key>) returns (order: seq<Key>)
    ensures Elements(order) == keys
  {
    order := [];
    var rest := keys;
    while rest != {}
      invariant rest <= keys && Elements(order) == keys - rest
      decreases rest
    {
      var k :| k in rest;
      ElementsNext(order, k);
      order, rest := order + [k], rest - {k};
    }
  }

  lemma ElementsNext(keys: seq<Key>, key: Key)
    ensures Elements(keys + [key]) == Elements(keys) + {key}
  {
    var now := keys + [key];
    assert forall i | 0 <= i < |keys| :: now[i] == keys[i];
    assert now[|keys|] == key;
  }

  lemma DeleteAllNext(d: Disk, keys: seq<Key>, key: Key)
    ensures DeleteAll(d, keys + [key]) == AfterDelete(DeleteAll(d, keys), key)
  {
    assert (keys + [key])[..|keys|] == keys;
  }

  lemma MapsNext(es: seq<Entry>, e: Entry)
    ensures KeyMap(es + [e]) == KeyMap(es)[e.id := e.semanticKey]
    ensures EntryMap(es + [e]) == EntryMap(es)[e.id := e]
  {
    assert (es + [e])[..|es|] == es;
  }

  lemma UploadAllNext(d: Disk, mem: Memory, cs: seq<Capture>, i: nat)
    requires i < |cs|
    ensures cs[..i + 1][..i] == cs[..i] && cs[..i + 1][i] == cs[i]
    ensures var p := UploadAll(d, mem, cs[..i]);
            UploadAll(d, mem, cs[..i + 1]) ==
            if p.result.None? || (!cs[i].primary && !cs[i].born) then p
            else var q := UploadRepo(p.disk, p.memory, cs[i]);
                 Progress(q.disk, q.memory, if q.result.None? then None else Some(p.result.value + [q.result.value]))
  {
    assert cs[..i + 1][..i] == cs[..i];
  }

  lemma {:induction false} UploadAllStops(d: Disk, mem: Memory, cs: seq<Capture>, i: nat)
    requires i <= |cs| && UploadAll(d, mem, cs[..i]).result.None?
    ensures UploadAll(d, mem, cs) == UploadAll(d, mem, cs[..i])
    decreases |cs|
  {
    if i < |cs| {
      var init := cs[..|cs| - 1];
      assert init[..i] == cs[..i];
      UploadAllStops(d, mem, init, i);
    } else {
      assert cs[..i] == cs;
    }
  }

  /** Every anchor of a remembered entry is in the cache under a real key. */
  ghost predicate AnchorsCached(mem: Memory) {
    && (forall a | a in mem.anchorObjects :: !mem.anchorObjects[a].NoKey?)
    && (forall id | id in mem.lastEntries && mem.lastEntries[id].anchor != ""
        && !mem.lastEntries[id].anchorObjectKey.NoKey? ::
          mem.lastEntries[id].anchor in mem.anchorObjects)
  }

  lemma UploadKeepsCache(d: Disk, mem: Memory, c: Capture)
    requires AnchorsCached(mem)
    ensures AnchorsCached(UploadRepo(d, mem, c).memory)
  {
  }
}
