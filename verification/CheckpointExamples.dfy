/** Runs that break what CheckpointRuns and CheckpointRetirement give conditions for. */
module CheckpointExamples {
  import opened Wrappers
  import opened CheckpointPublication
  import opened CheckpointInvariants

  /** An empty listing, which is a repository-free run's whole checkpoint. */
  function NoRepos(now: nat): Attempt {
    Attempt(None, true, [], true, now)
  }

  function OneRepo(branch: string): Attempt {
    Attempt(Some(Capture("", InStore, true, true, "u", branch, "", SemanticKey("t", "h", ""), 0, "", 0, true, true,
                         true, true)), true, [], true, 0)
  }

  lemma Single(d: Disk, mem: Memory, c: Capture)
    requires c.primary
    ensures UploadAll(d, mem, [c]) == var q := UploadRepo(d, mem, c);
                                      Progress(q.disk, q.memory, if q.result.None? then None
                                               else Some([q.result.value]))
  {
    hide UploadRepo;
    assert [c][..0] == [];
    assert UploadAll(d, mem, []) == Progress(d, mem, Some([]));
    var q := UploadRepo(d, mem, c);
    if q.result.Some? {
      assert [] + [q.result.value] == [q.result.value];
    }
  }

  lemma SingleEntry(e: Entry)
    ensures SortById([e]) == [e]
    ensures EntryMap([e]) == map[e.id := e] && KeyMap([e]) == map[e.id := e.semanticKey]
  {
    assert [e][..0] == [];
    assert SortById([]) == [];
    assert EntryMap([]) == map[] && KeyMap([]) == map[];
  }

  /** The one repository's first entry. */
  function FirstEntry(): Entry {
    NewEntry(OneRepo("b").primary.value, NoKey)
  }

  lemma FirstAttempt(d: Disk, mem: Memory)
    requires mem.lastKeys == map[] && mem.lastGeneration != Digest([FirstEntry()]) && NextFate(d).Stored?
    ensures var e := FirstEntry();
            Checkpoint(d, mem, OneRepo("b"))
            == Publish(AfterPut(d, e.objectKey, OfBundle(e.objectKey.bundle)), mem, [e], true, 0)
  {
    hide Publish;
    var c := OneRepo("b").primary.value;
    assert Captures(OneRepo("b")) == [c];
    Single(d, mem, c);
    assert UploadAnchor(d, mem, c) == Progress(d, mem, Some(NoKey));
  }

  lemma NoAttempt(d: Disk, mem: Memory, now: nat)
    ensures Checkpoint(d, mem, NoRepos(now)) == Publish(d, mem, [], true, now) && SortById([]) == []
    ensures Captures(NoRepos(now)) == []
  {
  }

  /** With a lost answer nil can be stale: empty, then one repository whose manifest is stored but
      reported as failed, then empty again. The third attempt returns nil and uploads nothing. */
  lemma LostAnswerMakesNilStale()
    ensures var d0 := Disk(map[], [Stored, Stored, Lost], [map[]]);
            var p1 := Checkpoint(d0, Remember(None), NoRepos(0));
            var p2 := Checkpoint(p1.disk, p1.memory, OneRepo("b"));
            var p3 := Checkpoint(p2.disk, p2.memory, NoRepos(1));
            && p1.result.Some? && p2.result.None? && p3.result.Some?
            && p3.disk == p2.disk
            && !Describes(p3.disk.objects, Present(Captures(NoRepos(1))))
  {
    hide Checkpoint, SortById, NewEntry;
    var d0 := Disk(map[], [Stored, Stored, Lost], [map[]]);
    NoAttempt(d0, Remember(None), 0);
    var p1 := Checkpoint(d0, Remember(None), NoRepos(0));
    assert p1.disk.fates == [Stored, Lost] && p1.memory.lastGeneration == Digest([]);
    FirstAttempt(p1.disk, p1.memory);
    SingleEntry(FirstEntry());
    var p2 := Checkpoint(p1.disk, p1.memory, OneRepo("b"));
    NoAttempt(p2.disk, p2.memory, 1);
  }

  /** One run for each way in which an attempt after retiring goes wrong: it reuses a remembered
      entry whose payload is gone and publishes a manifest that cannot be restored, or it finds
      nothing changed and returns nil with no manifest in the store. */
  lemma RetiringMustBeLast()
    ensures var p1 := Checkpoint(Disk(map[], [], [map[]]), Remember(None), OneRepo("b"));
            var keys := [FirstEntry().objectKey];
            var p2 := Checkpoint(Retire(p1.disk, keys), p1.memory, OneRepo("c"));
            var p3 := Checkpoint(Retire(p1.disk, keys), p1.memory, OneRepo("b"));
            && Elements(keys) == PayloadKeys(p1.memory.lastEntries) && p1.result.Some?
            && p2.result.Some? && !Intact(p2.disk.objects)
            && p3.result.Some? && Latest !in p3.disk.objects
  {
    hide Checkpoint, SortById, Intact, Retire, PayloadKeys, KeyMap, EntryMap;
    var e, d0 := FirstEntry(), Disk(map[], [], [map[]]);
    var p1 := Checkpoint(d0, Remember(None), OneRepo("b"));
    FirstAttempt(d0, Remember(None));
    SingleEntry(e);
    RetireOne(p1.disk, e.objectKey);
    assert p1.memory == Memory(map[e.id := e.semanticKey], map[e.id := e], map[], Digest([e]));
    OnlyPayload(p1.memory.lastEntries, e);
    var d := Retire(p1.disk, [e.objectKey]);
    ReuseAttempt(d, p1.memory, "b");
    ReuseAttempt(d, p1.memory, "c");
    var e' := e.(branch := "c");
    SingleEntry(e');
    var t := Checkpoint(d, p1.memory, OneRepo("c")).disk.objects;
    Dangling(t, e');
  }

  lemma RetireOne(d: Disk, key: Key)
    requires d.fates == []
    ensures Retire(d, [key]).objects == d.objects - {Latest} - {key} && Retire(d, [key]).fates == []
  {
    assert [key][..0] == [];
    assert DeleteAll(AfterDelete(d, Latest), []) == AfterDelete(d, Latest);
  }

  lemma OnlyPayload(entries: map<string, Entry>, e: Entry)
    requires entries == map[e.id := e] && EntryKeys(e) == {e.objectKey}
    ensures Elements([e.objectKey]) == PayloadKeys(entries)
  {
    assert e.objectKey in EntryKeys(entries[e.id]);
    assert [] + [e.objectKey] == [e.objectKey] && Elements([]) == {};
    ElementsNext([], e.objectKey);
    assert forall k | k in PayloadKeys(entries) :: k == e.objectKey;
  }

  lemma ReuseAttempt(d: Disk, mem: Memory, branch: string)
    requires mem.lastKeys == map["primary" := FirstEntry().semanticKey]
             && mem.lastEntries == map["primary" := FirstEntry()]
    ensures Checkpoint(d, mem, OneRepo(branch)) == Publish(d, mem, [FirstEntry().(branch := branch)], true, 0)
  {
    hide Publish;
    var c := OneRepo(branch).primary.value;
    assert Captures(OneRepo(branch)) == [c];
    Single(d, mem, c);
    assert UploadRepo(d, mem, c) == Progress(d, mem, Some(Refreshed(FirstEntry(), c)));
  }

  lemma Dangling(t: Objects, e: Entry)
    requires ManifestIs(t, [e]) && e.objectKey !in t
    ensures !Intact(t)
  {
    assert Restore(t, t[Latest].manifest.repositories[0]) == None;
  }
}
