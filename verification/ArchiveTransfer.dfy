/** Building an untracked-file archive and restoring it, as in
    cmd/agent/workspace_untracked_snapshot.go. A tar stream is a sequence of records, and the
    checkout a file tree that restoring only ever adds to.
 */
module ArchiveTransfer {
  import opened RawBytes
  import opened Wrappers
  import opened WorkspaceTree
  import opened ArchiveSelection

  const MAX_INPUT_BYTES := 256 * 1024 * 1024

  /** What a compressed archive may have so that it still fits into an object once encrypted. */
  const MAX_COMPRESSED := 512 * 1024 * 1024 - 16 - 64

  datatype Flag = Reg | RegA | Link | Special

  datatype Record = Record(name: Path, flag: Flag, mode: nat, content: seq<byte>, target: string)

  /** The permission bits of a mode. */
  function Perm(mode: nat): nat {
    mode % 0x200
  }

  /** `m` is the low nine bits of `mode`. */
  predicate LowNine(mode: nat, m: nat) {
    m < 0x200 && exists k | 0 <= k <= mode :: mode == 0x200 * k + m
  }

  lemma PermIsLowNine(mode: nat)
    ensures LowNine(mode, Perm(mode)) && (mode < 0x200 ==> Perm(mode) == mode)
  {
    var k := mode / 0x200;
    assert 0 <= k <= mode && mode == 0x200 * k + Perm(mode);
  }

  function RecordBytes(r: Record): nat {
    if r.flag.Reg? || r.flag.RegA? then |r.content| else 0
  }

  function ArchiveBytes(archive: seq<Record>): nat {
    if archive == [] then 0 else ArchiveBytes(archive[..|archive| - 1]) + RecordBytes(archive[|archive| - 1])
  }

  datatype Failure =
    | BadPath(path: Path)
    | Repeated(path: Path)
    | BelowLink(path: Path)
    | TooLarge
    | BadTarget(path: Path)
    | BadType(path: Path)
    | Blocked(path: Path)
    | Exists(path: Path)
    | Changed(path: Path)

  datatype Outcome<T> = Done(value: T) | Failed(failure: Failure)

  // ---- Building -----------------------------------------------------------------------------------

  /** What opening a path and reading to the end gives, through links, while the files are copied;
      paths for which that fails are absent. It is later than the selection. */
  type Readable = map<Path, seq<byte>>

  function Pack(e: Entry, disk: Readable): Record {
    match e.node
    case Regular(_, mode) =>
      Record(e.path, Reg, Perm(mode), if e.path in disk then disk[e.path] else [], "")
    case Symlink(target) => Record(e.path, Link, Perm(0x1FF), [], target)
    case _ => Record(e.path, Special, 0, [], "")
  }

  function PackAll(es: seq<Entry>, disk: Readable): seq<Record> {
    seq(|es|, i requires 0 <= i < |es| => Pack(es[i], disk))
  }

  /** The file can still be read and has the size that was selected. */
  predicate Unresized(e: Entry, disk: Readable) {
    e.node.Regular? ==> e.path in disk && |disk[e.path]| == |e.node.content|
  }

  predicate Packable(e: Entry, disk: Readable) {
    (e.node.Regular? || e.node.Symlink?) && Unresized(e, disk)
  }

  /** What archiving an entry has to keep: the path, the content as read, the permissions, the link. */
  ghost predicate Packed(e: Entry, disk: Readable, r: Record) {
    && r.name == e.path
    && match e.node
       case Regular(_, mode) =>
         r.flag.Reg? && e.path in disk && r.content == disk[e.path] && LowNine(mode, r.mode) && r.target == ""
       case Symlink(target) => r.flag.Link? && r.target == target && r.content == [] && r.mode == 0x1FF
       case _ => false
  }

  lemma PackIsPacked(e: Entry, disk: Readable)
    requires Packable(e, disk)
    ensures Packed(e, disk, Pack(e, disk))
  {
    if e.node.Regular? {
      PermIsLowNine(e.node.mode);
    }
  }

  /** The writing loop of buildUntrackedWorkspaceArchiveWithBudget; `compressed` is the size that gzip
      gives the finished archive. */
  method Build(entries: seq<Entry>, disk: Readable, compressed: nat) returns (r: Outcome<seq<Record>>)
    ensures r.Done? <==> (forall i | 0 <= i < |entries| :: Packable(entries[i], disk)) && compressed <= MAX_COMPRESSED
    ensures r.Done? ==> r.value == PackAll(entries, disk)
    ensures r.Done? ==> |r.value| == |entries| && forall i | 0 <= i < |entries| :: Packed(entries[i], disk, r.value[i])
    ensures r.Failed? && !r.failure.TooLarge? ==>
              exists i | 0 <= i < |entries| ::
                r.failure.path == entries[i].path && !Packable(entries[i], disk)
                && forall k | 0 <= k < i :: Packable(entries[k], disk)
    ensures r.Failed? && r.failure.TooLarge? ==> compressed > MAX_COMPRESSED
  {
    var archive: seq<Record> := [];
    for i := 0 to |entries|
      invariant archive == PackAll(entries[..i], disk)
      invariant forall k | 0 <= k < i :: Packable(entries[k], disk)
    {
      var entry := entries[i];
      match entry.node {
        case Regular(content, mode) =>
          if entry.path !in disk {
            return Failed(BadPath(entry.path));
          }
          var written := disk[entry.path];
          if |written| != |content| {
            return Failed(Changed(entry.path));
          }
          archive := archive + [Record(entry.path, Reg, Perm(mode), written, "")];
        case Symlink(target) =>
          archive := archive + [Record(entry.path, Link, Perm(0x1FF), [], target)];
        case _ =>
          return Failed(BadType(entry.path));
      }
      assert PackAll(entries[..i + 1], disk) == PackAll(entries[..i], disk) + [Pack(entry, disk)];
    }
    assert entries[..|entries|] == entries;
    forall i | 0 <= i < |entries| ensures Packed(entries[i], disk, archive[i]) {
      PackIsPacked(entries[i], disk);
    }
    if compressed > MAX_COMPRESSED {
      return Failed(TooLarge);
    }
    r := Done(archive);
  }

  // ---- What a valid archive is --------------------------------------------------------------------

  predicate GoodRecord(r: Record) {
    ValidPath(r.name) && !r.flag.Special? && (r.flag.Link? ==> '\0' !in r.target)
  }

  /** Safe to extract, whatever the order of its records. */
  predicate Accepts(archive: seq<Record>) {
    && (forall i | 0 <= i < |archive| :: GoodRecord(archive[i]))
    && (forall i, j | 0 <= i < j < |archive| :: archive[i].name != archive[j].name)
    && (forall i, j | 0 <= i < |archive| && 0 <= j < |archive| && archive[j].flag.Link? ::
          !IsUnder(archive[i].name, archive[j].name))
    && ArchiveBytes(archive) <= MAX_INPUT_BYTES
  }

  // ---- Walking ------------------------------------------------------------------------------------

  predicate HasName(archive: seq<Record>, p: Path) {
    exists i | 0 <= i < |archive| :: archive[i].name == p
  }

  predicate BelowALink(archive: seq<Record>, p: Path) {
    exists i | 0 <= i < |archive| :: archive[i].flag.Link? && IsUnder(p, archive[i].name)
  }

  /** The checks on one record, given the records before it. */
  function CheckRecord(earlier: seq<Record>, r: Record): Outcome<()> {
    if !ValidPath(r.name) then Failed(BadPath(r.name))
    else if HasName(earlier, r.name) then Failed(Repeated(r.name))
    else if BelowALink(earlier, r.name) then Failed(BelowLink(r.name))
    else if r.flag.Special? then Failed(BadType(r.name))
    else if r.flag.Link? then if '\0' in r.target then Failed(BadTarget(r.name)) else Done(())
    else if ArchiveBytes(earlier) + RecordBytes(r) > MAX_INPUT_BYTES then Failed(TooLarge)
    else Done(())
  }

  function Seen(archive: seq<Record>): map<Path, Flag> {
    if archive == [] then map[]
    else Seen(archive[..|archive| - 1])[archive[|archive| - 1].name := archive[|archive| - 1].flag]
  }

  lemma {:induction false} SeenIs(archive: seq<Record>)
    requires forall i, j | 0 <= i < j < |archive| :: archive[i].name != archive[j].name
    ensures forall i | 0 <= i < |archive| ::
              archive[i].name in Seen(archive) && Seen(archive)[archive[i].name] == archive[i].flag
    ensures forall p | p in Seen(archive) :: exists i | 0 <= i < |archive| :: archive[i].name == p
  {
    if archive != [] {
      var init, last := archive[..|archive| - 1], archive[|archive| - 1];
      assert forall i | 0 <= i < |init| :: init[i] == archive[i];
      SeenIs(init);
      forall p | p in Seen(archive) ensures exists i | 0 <= i < |archive| :: archive[i].name == p {
        if p != last.name {
          var i :| 0 <= i < |init| && init[i].name == p;
          assert archive[i].name == p;
        }
      }
    }
  }

  // ---- Extracting ---------------------------------------------------------------------------------

  /** Creates the missing directories among the first `n` above `p`, up to one that is in the way. */
  function MakeParents(tree: Tree, p: Path, n: nat): (Tree, bool)
    requires n < |p|
  {
    if n == 0 then (tree, true)
    else
      var (t, ok) := MakeParents(tree, p, n - 1);
      if !ok then (t, false)
      else if p[..n] !in t then (t[p[..n] := Directory], true)
      else (t, t[p[..n]].Directory?)
  }

  function Unpacked(r: Record): Node {
    if r.flag.Link? then Symlink(r.target) else Regular(r.content, Perm(r.mode))
  }

  function Extract(tree: Tree, r: Record): (Tree, Outcome<()>)
    requires r.name != []
  {
    var (t, ok) := MakeParents(tree, r.name, |r.name| - 1);
    if !ok then (t, Failed(Blocked(r.name)))
    else if r.name in t then (t, Failed(Exists(r.name)))
    else (t[r.name := Unpacked(r)], Done(()))
  }

  /** The walk's loop over the records; a failure stops it where it is. */
  function WalkRecords(tree: Tree, archive: seq<Record>, extract: bool): (Tree, Outcome<()>) {
    if archive == [] then (tree, Done(()))
    else
      var init, last := archive[..|archive| - 1], archive[|archive| - 1];
      var (t, r) := WalkRecords(tree, init, extract);
      if r.Failed? then (t, r)
      else if CheckRecord(init, last).Failed? then (t, CheckRecord(init, last))
      else if extract then Extract(t, last)
      else (t, Done(()))
  }

  /** The check repeated once every link is known. */
  predicate LinksAreLeaves(archive: seq<Record>) {
    forall i | 0 <= i < |archive| :: !BelowALink(archive, archive[i].name)
  }

  lemma {:induction false} WalkStops(tree: Tree, archive: seq<Record>, extract: bool, n: nat)
    requires n <= |archive| && WalkRecords(tree, archive[..n], extract).1.Failed?
    ensures WalkRecords(tree, archive, extract) == WalkRecords(tree, archive[..n], extract)
    decreases |archive|
  {
    if n < |archive| {
      var init := archive[..|archive| - 1];
      assert init[..n] == archive[..n];
      WalkStops(tree, init, extract, n);
    } else {
      assert archive[..n] == archive;
    }
  }

  class Checkout {
    var tree: Tree

    constructor (tree: Tree)
      ensures this.tree == tree
    {
      this.tree := tree;
    }

    method SafeDestination(rel: Path) returns (ok: bool)
      requires rel != []
      modifies this
      ensures (tree, ok) == MakeParents(old(tree), rel, |rel| - 1)
    {
      for n := 1 to |rel|
        invariant (tree, true) == MakeParents(old(tree), rel, n - 1)
      {
        var current := rel[..n];
        if current !in tree {
          tree := tree[current := Directory];
        } else if !tree[current].Directory? {
          StoppedParents(old(tree), rel, n, |rel| - 1);
          return false;
        }
      }
      ok := true;
    }

    method ExtractRecord(r: Record) returns (done: Outcome<()>)
      requires r.name != []
      modifies this
      ensures (tree, done) == Extract(old(tree), r)
    {
      var ok := SafeDestination(r.name);
      if !ok {
        return Failed(Blocked(r.name));
      }
      if r.name in tree {
        return Failed(Exists(r.name));
      }
      match r.flag {
        case Link => tree := tree[r.name := Symlink(r.target)];
        case _ => tree := tree[r.name := Regular(r.content, Perm(r.mode))];
      }
      done := Done(());
    }

    /** walkWorkspaceArchive: validates, and extracts as it goes when asked to. */
    method Walk(archive: seq<Record>, extract: bool) returns (r: Outcome<nat>)
      modifies this
      ensures tree == WalkRecords(old(tree), archive, extract).0
      ensures r.Done? <==> WalkRecords(old(tree), archive, extract).1.Done? && LinksAreLeaves(archive)
      ensures r.Done? ==> r.value == |archive|
      ensures WalkRecords(old(tree), archive, extract).1.Failed? ==>
                r == Failed(WalkRecords(old(tree), archive, extract).1.failure)
    {
      var seen: map<Path, Flag> := map[];
      var count, total := 0, 0;
      for i := 0 to |archive|
        invariant count == i && seen == Seen(archive[..i]) && total == ArchiveBytes(archive[..i])
        invariant DistinctNames(archive[..i])
        invariant (tree, Done(())) == WalkRecords(old(tree), archive[..i], extract)
      {
        var header := archive[i];
        NextRecord(archive, i);
        var checked := CheckHeader(archive[..i], seen, total, header);
        if checked.Failed? {
          WalkStops(old(tree), archive, extract, i + 1);
          return Failed(checked.failure);
        }
        seen := seen[header.name := header.flag];
        total := checked.value;
        if extract {
          var done := ExtractRecord(header);
          if done.Failed? {
            WalkStops(old(tree), archive, extract, i + 1);
            return Failed(done.failure);
          }
        }
        count := count + 1;
      }
      assert archive[..|archive|] == archive;
      var leaves := CheckLinksAreLeaves(archive, seen);
      r := if leaves.Failed? then Failed(leaves.failure) else Done(count);
    }

    /** restoreEncryptedWorkspaceArchive, once decrypted: validate everything, then extract. */
    method Restore(archive: seq<Record>) returns (r: Outcome<nat>)
      modifies this
      ensures !Accepts(archive) ==> r.Failed? && tree == old(tree)
      ensures Accepts(archive) ==> tree == WalkRecords(old(tree), archive, true).0
      ensures r.Done? <==> Accepts(archive) && WalkRecords(old(tree), archive, true).1.Done?
      ensures r.Done? ==> r.value == |archive|
    {
      ValidationIsExact(tree, archive);
      r := Walk(archive, false);
      if r.Done? {
        r := Walk(archive, true);
      }
    }
  }

  predicate DistinctNames(archive: seq<Record>) {
    forall i, j | 0 <= i < j < |archive| :: archive[i].name != archive[j].name
  }

  method CheckHeader(ghost earlier: seq<Record>, seen: map<Path, Flag>, total: nat, header: Record)
    returns (r: Outcome<nat>)
    requires DistinctNames(earlier) && seen == Seen(earlier) && total == ArchiveBytes(earlier)
    ensures CheckRecord(earlier, header).Failed? ==> r == Failed(CheckRecord(earlier, header).failure)
    ensures CheckRecord(earlier, header).Done? ==> r == Done(ArchiveBytes(earlier) + RecordBytes(header))
    ensures r.Done? ==> DistinctNames(earlier + [header])
  {
    if !ValidPath(header.name) {
      return Failed(BadPath(header.name));
    }
    SeenIs(earlier);
    if header.name in seen {
      return Failed(Repeated(header.name));
    }
    var below := BelowSeenLink(earlier, seen, header.name);
    if below {
      return Failed(BelowLink(header.name));
    }
    match header.flag {
      case Link =>
        if '\0' in header.target {
          return Failed(BadTarget(header.name));
        }
        r := Done(total);
      case Special =>
        r := Failed(BadType(header.name));
      case _ =>
        if total + |header.content| > MAX_INPUT_BYTES {
          return Failed(TooLarge);
        }
        r := Done(total + |header.content|);
    }
  }

  method BelowSeenLink(ghost earlier: seq<Record>, seen: map<Path, Flag>, name: Path) returns (below: bool)
    requires DistinctNames(earlier) && seen == Seen(earlier)
    ensures below <==> BelowALink(earlier, name)
  {
    SeenIs(earlier);
    var n := |name| - 1;
    while n > 0
      invariant n < |name|
      invariant forall m | n < m < |name| && 0 < m :: name[..m] !in seen || !seen[name[..m]].Link?
    {
      if name[..n] in seen && seen[name[..n]].Link? {
        assert IsUnder(name, name[..n]);
        return true;
      }
      n := n - 1;
    }
    below := false;
  }

  /** The final loop, over the names in the order of the map. */
  method CheckLinksAreLeaves(archive: seq<Record>, seen: map<Path, Flag>) returns (r: Outcome<()>)
    requires DistinctNames(archive) && seen == Seen(archive)
    ensures r.Done? <==> LinksAreLeaves(archive)
    ensures r.Failed? ==>
              r.failure.BelowLink? && HasName(archive, r.failure.path) && BelowALink(archive, r.failure.path)
  {
    SeenIs(archive);
    var rest := seen.Keys;
    while rest != {}
      invariant rest <= seen.Keys
      invariant forall p | p in seen && p !in rest :: !BelowALink(archive, p)
      decreases rest
    {
      var name :| name in rest;
      var below := BelowSeenLink(archive, seen, name);
      if below {
        return Failed(BelowLink(name));
      }
      rest := rest - {name};
    }
    r := Done(());
  }

  lemma {:induction false} StoppedParents(tree: Tree, p: Path, n: nat, m: nat)
    requires n <= m < |p| && !MakeParents(tree, p, n).1
    ensures MakeParents(tree, p, m) == MakeParents(tree, p, n)
  {
    if n < m {
      StoppedParents(tree, p, n, m - 1);
    }
  }

  /** How one more record changes what is known of a prefix. */
  lemma NextRecord(archive: seq<Record>, i: nat)
    requires i < |archive|
    ensures archive[..i + 1] == archive[..i] + [archive[i]]
    ensures archive[..i + 1][..i] == archive[..i]
    ensures ArchiveBytes(archive[..i + 1]) == ArchiveBytes(archive[..i]) + RecordBytes(archive[i])
    ensures Seen(archive[..i + 1]) == Seen(archive[..i])[archive[i].name := archive[i].flag]
  {
    assert archive[..i + 1][..i] == archive[..i];
  }

  // ---- Validation is exact ------------------------------------------------------------------------

  lemma {:induction false} WalkAccepts(tree: Tree, archive: seq<Record>)
    ensures WalkRecords(tree, archive, false).0 == tree
    ensures WalkRecords(tree, archive, false).1.Done? <==> InOrder(archive)
  {
    if archive != [] {
      var init, last := archive[..|archive| - 1], archive[|archive| - 1];
      WalkAccepts(tree, init);
      assert archive == init + [last];
      InOrderNext(init, last);
    }
  }

  /** What the loop alone establishes: links are only known from earlier records. */
  predicate InOrder(archive: seq<Record>) {
    && (forall i | 0 <= i < |archive| :: GoodRecord(archive[i]))
    && DistinctNames(archive)
    && (forall i, j | 0 <= j < i < |archive| && archive[j].flag.Link? :: !IsUnder(archive[i].name, archive[j].name))
    && ArchiveBytes(archive) <= MAX_INPUT_BYTES
  }

  lemma InOrderNext(init: seq<Record>, last: Record)
    ensures InOrder(init + [last]) <==> InOrder(init) && CheckRecord(init, last).Done?
  {
    var archive := init + [last];
    assert archive[..|init|] == init;
    assert forall i | 0 <= i < |init| :: archive[i] == init[i];
    assert archive[|init|] == last;
  }

  /** The validation walk accepts exactly the archives that are safe in any record order, and
      leaves the checkout alone. */
  lemma {:induction false} ValidationIsExact(tree: Tree, archive: seq<Record>)
    ensures WalkRecords(tree, archive, false).0 == tree
    ensures WalkRecords(tree, archive, false).1.Done? && LinksAreLeaves(archive) <==> Accepts(archive)
  {
    WalkAccepts(tree, archive);
  }

  /** Why a record cannot follow the ones before it. */
  ghost predicate Unfit(earlier: seq<Record>, r: Record, why: Failure) {
    match why
    case BadPath(p) => p == r.name && !ValidPath(p)
    case Repeated(p) => p == r.name && exists i | 0 <= i < |earlier| :: earlier[i].name == p
    case BelowLink(p) =>
      p == r.name && exists i | 0 <= i < |earlier| :: earlier[i].flag.Link? && IsUnder(p, earlier[i].name)
    case BadType(p) => p == r.name && r.flag.Special?
    case BadTarget(p) => p == r.name && r.flag.Link? && '\0' in r.target
    case TooLarge => ArchiveBytes(earlier + [r]) > MAX_INPUT_BYTES
    case _ => false
  }

  lemma CheckRecordUnfit(earlier: seq<Record>, r: Record)
    requires CheckRecord(earlier, r).Failed?
    ensures Unfit(earlier, r, CheckRecord(earlier, r).failure)
  {
    assert (earlier + [r])[..|earlier|] == earlier;
  }

  /** When the loop refuses an archive, everything before some record was in order and that record is
      unfit for the reason given. */
  lemma {:induction false} RefusalFits(tree: Tree, archive: seq<Record>)
    requires WalkRecords(tree, archive, false).1.Failed?
    ensures exists n | 0 <= n < |archive| ::
              InOrder(archive[..n]) && Unfit(archive[..n], archive[n], WalkRecords(tree, archive, false).1.failure)
  {
    var init, last := archive[..|archive| - 1], archive[|archive| - 1];
    WalkAccepts(tree, init);
    if WalkRecords(tree, init, false).1.Failed? {
      RefusalFits(tree, init);
      var n :| 0 <= n < |init| && InOrder(init[..n])
        && Unfit(init[..n], init[n], WalkRecords(tree, init, false).1.failure);
      assert init[..n] == archive[..n];
    } else {
      CheckRecordUnfit(init, last);
    }
  }

  // ---- Restoring only adds ------------------------------------------------------------------------

  /** Everything that was there is still there, unchanged. */
  ghost predicate Keeps(was: Tree, now: Tree) {
    forall p | p in was :: p in now && now[p] == was[p]
  }

  /** What restoring a record has to leave at its name: the very link, or a regular file with the very
      content and the low nine bits of the mode. */
  ghost predicate Placed(r: Record, node: Node) {
    if r.flag.Link? then node == Symlink(r.target)
    else node.Regular? && node.content == r.content && LowNine(r.mode, node.mode)
  }

  lemma UnpackedIsPlaced(r: Record)
    ensures Placed(r, Unpacked(r))
  {
    PermIsLowNine(r.mode);
  }

  /** Every new path is an archived file or link, or a directory above one. */
  ghost predicate AddsOnly(was: Tree, now: Tree, archive: seq<Record>) {
    forall p | p in now && p !in was ::
      exists i | 0 <= i < |archive| ::
        (archive[i].name == p && Placed(archive[i], now[p])) || (IsUnder(archive[i].name, p) && now[p].Directory?)
  }

  lemma {:induction false} ParentsMade(tree: Tree, p: Path, n: nat)
    requires Rooted(tree) && n < |p|
    ensures var (t, ok) := MakeParents(tree, p, n);
            && Rooted(t) && Keeps(tree, t)
            && (forall q | q in t && q !in tree :: IsUnder(p, q) && t[q].Directory?)
            && (ok ==> forall m | 0 < m <= n :: p[..m] in t && t[p[..m]].Directory?)
  {
    if n > 0 {
      ParentsMade(tree, p, n - 1);
      var (t, ok) := MakeParents(tree, p, n - 1);
      if ok && p[..n] !in t {
        forall m | 0 < m < n ensures p[..n][..m] in t && t[p[..n][..m]].Directory? {
          assert p[..n][..m] == p[..m];
        }
        RootedAdd(t, p[..n], Directory);
      }
    }
  }

  lemma RootedAdd(t: Tree, p: Path, node: Node)
    requires Rooted(t) && p !in t
    requires forall m | 0 < m < |p| :: p[..m] in t && t[p[..m]].Directory?
    ensures Rooted(t[p := node])
  {
    var now := t[p := node];
    forall q, n | q in now && 0 < n < |q| ensures q[..n] in now && now[q[..n]].Directory? {
      if q != p {
        assert q[..n] in t;
      }
    }
  }

  lemma ExtractAdds(tree: Tree, r: Record)
    requires Rooted(tree) && r.name != []
    ensures Rooted(Extract(tree, r).0) && Keeps(tree, Extract(tree, r).0)
    ensures AddsOnly(tree, Extract(tree, r).0, [r])
    ensures Extract(tree, r).1.Done? ==> r.name in Extract(tree, r).0 && Placed(r, Extract(tree, r).0[r.name])
  {
    ParentsMade(tree, r.name, |r.name| - 1);
    UnpackedIsPlaced(r);
    var (t, ok) := MakeParents(tree, r.name, |r.name| - 1);
    var now := Extract(tree, r).0;
    if ok && r.name !in t {
      RootedAdd(t, r.name, Unpacked(r));
    }
    forall p | p in now && p !in tree
      ensures ([r][0].name == p && Placed([r][0], now[p])) || (IsUnder([r][0].name, p) && now[p].Directory?) {}
  }

  lemma AddsOnlyMore(was: Tree, mid: Tree, now: Tree, init: seq<Record>, r: Record)
    requires AddsOnly(was, mid, init) && AddsOnly(mid, now, [r]) && Keeps(mid, now)
    ensures AddsOnly(was, now, init + [r])
  {
    var archive := init + [r];
    forall p | p in now && p !in was
      ensures exists i | 0 <= i < |archive| ::
                (archive[i].name == p && Placed(archive[i], now[p]))
                || (IsUnder(archive[i].name, p) && now[p].Directory?)
    {
      if p in mid {
        var i :| 0 <= i < |init|
          && ((init[i].name == p && Placed(init[i], mid[p])) || (IsUnder(init[i].name, p) && mid[p].Directory?));
        assert archive[i] == init[i];
      } else {
        assert archive[|init|] == r;
      }
    }
  }

  lemma KeepsOn(a: Tree, b: Tree, c: Tree)
    requires Keeps(a, b) && Keeps(b, c)
    ensures Keeps(a, c)
  {
  }

  /** Every record is there as it was archived. */
  ghost predicate AllPlaced(t: Tree, archive: seq<Record>) {
    forall i | 0 <= i < |archive| :: archive[i].name in t && Placed(archive[i], t[archive[i].name])
  }

  lemma AllPlacedNext(t: Tree, now: Tree, init: seq<Record>, r: Record)
    requires AllPlaced(t, init) && Keeps(t, now) && r.name in now && Placed(r, now[r.name])
    ensures AllPlaced(now, init + [r])
  {
    hide Placed;
    var archive := init + [r];
    forall i | 0 <= i < |archive| ensures archive[i].name in now && Placed(archive[i], now[archive[i].name]) {
      if i < |init| {
        assert archive[i] == init[i];
      } else {
        assert archive[i] == r;
      }
    }
  }

  /** Whatever the archive and the checkout, and whether it fails or not, extracting changes nothing
      that was there and adds nothing but archived paths and directories above them. */
  lemma {:induction false} ExtractionOnlyAdds(tree: Tree, archive: seq<Record>)
    requires Rooted(tree)
    ensures var (t, r) := WalkRecords(tree, archive, true);
            && Rooted(t) && Keeps(tree, t) && AddsOnly(tree, t, archive)
            && (r.Done? ==> AllPlaced(t, archive))
  {
    hide Rooted, Keeps, AddsOnly, AllPlaced, CheckRecord, Extract, Placed;
    if archive == [] {
      NothingAdded(tree);
    } else {
      var init, last := archive[..|archive| - 1], archive[|archive| - 1];
      ExtractionOnlyAdds(tree, init);
      assert archive == init + [last];
      var (t, r) := WalkRecords(tree, init, true);
      if r.Done? && CheckRecord(init, last).Done? {
        NewName(init, last);
        ExtractAdds(t, last);
        var now := Extract(t, last).0;
        AddsOnlyMore(tree, t, now, init, last);
        KeepsOn(tree, t, now);
        if Extract(t, last).1.Done? {
          AllPlacedNext(t, now, init, last);
        }
      } else {
        AddsOnlyPrefix(tree, t, init, last);
      }
    }
  }

  lemma NothingAdded(tree: Tree)
    ensures Keeps(tree, tree) && AddsOnly(tree, tree, []) && AllPlaced(tree, [])
  {
  }

  lemma AddsOnlyPrefix(was: Tree, now: Tree, init: seq<Record>, r: Record)
    requires AddsOnly(was, now, init)
    ensures AddsOnly(was, now, init + [r])
  {
    var archive := init + [r];
    assert forall i | 0 <= i < |init| :: archive[i] == init[i];
    forall p | p in now && p !in was
      ensures exists i | 0 <= i < |archive| ::
                (archive[i].name == p && Placed(archive[i], now[p]))
                || (IsUnder(archive[i].name, p) && now[p].Directory?)
    {
      var i :| 0 <= i < |init|
        && ((init[i].name == p && Placed(init[i], now[p])) || (IsUnder(init[i].name, p) && now[p].Directory?));
      assert archive[i] == init[i];
    }
  }

  lemma PrefixStaysBelow(p: Path, n: nat)
    requires StaysBelow(p) && n <= |p|
    ensures StaysBelow(p[..n])
  {
    forall m | 0 <= m <= n ensures Follow([], p[..n][..m]) == Some(p[..n][..m]) {
      assert p[..n][..m] == p[..m];
    }
  }

  /** Whatever an accepted archive adds, completely or not, lies below the root of the checkout at the
      end of a chain of directories, and Git's own directory is not on the way. */
  lemma RestoreStaysInside(tree: Tree, archive: seq<Record>)
    requires Rooted(tree) && Accepts(archive)
    ensures var t := WalkRecords(tree, archive, true).0;
            forall p | p in t && p !in tree ::
              && p != [] && StaysBelow(p)
              && (forall i | 0 <= i < |p| :: !IsGit(p[i]))
              && (forall n | 0 < n < |p| :: p[..n] in t && t[p[..n]].Directory?)
  {
    hide WalkRecords, Keeps, Placed, Follow, ValidComponent, IsGit, StaysBelow, ArchiveBytes;
    ExtractionOnlyAdds(tree, archive);
    var t := WalkRecords(tree, archive, true).0;
    forall p | p in t && p !in tree ensures p != [] && StaysBelow(p) && forall i | 0 <= i < |p| :: !IsGit(p[i]) {
      var k :| 0 <= k < |archive|
        && ((archive[k].name == p && Placed(archive[k], t[p])) || (IsUnder(archive[k].name, p) && t[p].Directory?));
      var name := archive[k].name;
      assert GoodRecord(archive[k]);
      ValidPathIff(name);
      assert p == name[..|p|];
      PrefixStaysBelow(name, |p|);
    }
  }

  /** The bytes of the files that records become. */
  function WrittenBytes(tree: Tree, archive: seq<Record>): nat {
    if archive == [] then 0
    else
      var last := archive[|archive| - 1];
      WrittenBytes(tree, archive[..|archive| - 1])
      + if last.name in tree then Size(Entry(last.name, tree[last.name])) else 0
  }

  lemma {:induction false} WrittenIsArchived(tree: Tree, archive: seq<Record>)
    requires AllPlaced(tree, archive) && forall i | 0 <= i < |archive| :: !archive[i].flag.Special?
    ensures WrittenBytes(tree, archive) == ArchiveBytes(archive)
  {
    if archive != [] {
      var init := archive[..|archive| - 1];
      assert forall i | 0 <= i < |init| :: init[i] == archive[i];
      WrittenIsArchived(tree, init);
    }
  }

  /** Restoring an accepted archive writes at most 256 MiB. */
  lemma RestoreIsBounded(tree: Tree, archive: seq<Record>)
    requires Rooted(tree) && Accepts(archive) && WalkRecords(tree, archive, true).1.Done?
    ensures WrittenBytes(WalkRecords(tree, archive, true).0, archive) <= 268435456
  {
    hide WalkRecords, Placed;
    ExtractionOnlyAdds(tree, archive);
    assert forall i | 0 <= i < |archive| :: GoodRecord(archive[i]);
    WrittenIsArchived(WalkRecords(tree, archive, true).0, archive);
  }

  // ---- When restoring succeeds --------------------------------------------------------------------

  /** A checkout with none of the archived paths and only real directories above them. */
  ghost predicate Clean(tree: Tree, archive: seq<Record>) {
    && Rooted(tree)
    && (forall i | 0 <= i < |archive| :: archive[i].name !in tree)
    && (forall i, d | 0 <= i < |archive| && IsUnder(archive[i].name, d) && d in tree :: tree[d].Directory?)
  }

  ghost predicate PrefixFree(archive: seq<Record>) {
    forall i, j | 0 <= i < |archive| && 0 <= j < |archive| :: !IsUnder(archive[i].name, archive[j].name)
  }

  lemma {:induction false} ParentsSucceed(tree: Tree, p: Path, n: nat)
    requires n < |p| && forall d | IsUnder(p, d) && d in tree :: tree[d].Directory?
    ensures MakeParents(tree, p, n).1
    ensures forall d | IsUnder(p, d) && d in MakeParents(tree, p, n).0 :: MakeParents(tree, p, n).0[d].Directory?
    ensures p in MakeParents(tree, p, n).0 <==> p in tree
  {
    if n > 0 {
      ParentsSucceed(tree, p, n - 1);
      assert IsUnder(p, p[..n]);
    }
  }

  lemma {:induction false} ParentsFail(tree: Tree, p: Path, n: nat, d: Path)
    requires n < |p| && IsUnder(p, d) && |d| <= n && d in tree && !tree[d].Directory?
    ensures !MakeParents(tree, p, n).1
  {
    if |d| < n {
      ParentsFail(tree, p, n - 1, d);
    } else {
      ParentsKeep(tree, p, n - 1);
    }
  }

  lemma {:induction false} ParentsKeep(tree: Tree, p: Path, n: nat)
    requires n < |p|
    ensures Keeps(tree, MakeParents(tree, p, n).0)
  {
    if n > 0 {
      ParentsKeep(tree, p, n - 1);
    }
  }

  /** One record is extracted exactly if nothing is at its name and nothing but directories above it;
      otherwise the refusal tells which of the two is wrong. */
  lemma ExtractIff(tree: Tree, r: Record)
    requires r.name != []
    ensures var clear := forall d | IsUnder(r.name, d) && d in tree :: tree[d].Directory?;
            && (Extract(tree, r).1.Done? <==> clear && r.name !in tree)
            && (!clear ==> Extract(tree, r).1 == Failed(Blocked(r.name)))
            && (clear && r.name in tree ==> Extract(tree, r).1 == Failed(Exists(r.name)))
  {
    if forall d | IsUnder(r.name, d) && d in tree :: tree[d].Directory? {
      ParentsSucceed(tree, r.name, |r.name| - 1);
    } else {
      var d :| IsUnder(r.name, d) && d in tree && !tree[d].Directory?;
      ParentsFail(tree, r.name, |r.name| - 1, d);
    }
  }

  lemma CleanPrefix(tree: Tree, init: seq<Record>, last: Record)
    requires Clean(tree, init + [last]) && PrefixFree(init + [last])
    ensures Clean(tree, init) && PrefixFree(init)
    ensures last.name !in tree && (forall d | IsUnder(last.name, d) && d in tree :: tree[d].Directory?)
    ensures forall i | 0 <= i < |init| :: !IsUnder(last.name, init[i].name) && !IsUnder(init[i].name, last.name)
  {
    var archive := init + [last];
    assert forall i | 0 <= i < |init| :: archive[i] == init[i];
    assert archive[|init|] == last;
  }

  /** After extracting the records before it, a record's own path is still free and every path
      above it still a directory. */
  lemma NextIsFree(tree: Tree, t: Tree, init: seq<Record>, name: Path)
    requires AddsOnly(tree, t, init) && Keeps(tree, t)
    requires name !in tree && (forall d | IsUnder(name, d) && d in tree :: tree[d].Directory?)
    requires forall i | 0 <= i < |init| ::
               init[i].name != name && !IsUnder(name, init[i].name) && !IsUnder(init[i].name, name)
    ensures name !in t
    ensures forall d | IsUnder(name, d) && d in t :: t[d].Directory?
  {
  }

  lemma FreeExtracts(tree: Tree, t: Tree, init: seq<Record>, last: Record)
    requires Clean(tree, init + [last]) && PrefixFree(init + [last]) && CheckRecord(init, last).Done?
    requires AddsOnly(tree, t, init) && Keeps(tree, t)
    ensures Extract(t, last).1.Done?
  {
    hide Clean, PrefixFree, AddsOnly, Keeps, CheckRecord;
    CleanPrefix(tree, init, last);
    NewName(init, last);
    NextIsFree(tree, t, init, last.name);
    ParentsSucceed(t, last.name, |last.name| - 1);
  }

  lemma {:induction false} CleanExtracts(tree: Tree, archive: seq<Record>)
    requires Clean(tree, archive) && PrefixFree(archive) && InOrder(archive)
    ensures WalkRecords(tree, archive, true).1.Done?
  {
    hide Clean, PrefixFree, InOrder, AddsOnly, Keeps, CheckRecord, Extract, Unpacked, Rooted;
    if archive != [] {
      var init, last := archive[..|archive| - 1], archive[|archive| - 1];
      assert archive == init + [last];
      CleanPrefix(tree, init, last);
      InOrderNext(init, last);
      CleanExtracts(tree, init);
      RootedIfClean(tree, init);
      ExtractionOnlyAdds(tree, init);
      FreeExtracts(tree, WalkRecords(tree, init, true).0, init, last);
    }
  }

  lemma RootedIfClean(tree: Tree, archive: seq<Record>)
    requires Clean(tree, archive)
    ensures Rooted(tree)
  {
  }

  lemma NewName(init: seq<Record>, last: Record)
    requires CheckRecord(init, last).Done?
    ensures last.name != [] && forall i | 0 <= i < |init| :: init[i].name != last.name
  {
  }

  /** Exactly when an accepted archive restores onto a clean checkout: none of its names may lie
      above another. */
  lemma RestoreSucceedsIff(tree: Tree, archive: seq<Record>)
    requires Accepts(archive) && Clean(tree, archive)
    ensures WalkRecords(tree, archive, true).1.Done? <==> PrefixFree(archive)
  {
    if PrefixFree(archive) {
      CleanExtracts(tree, archive);
    }
    ExtractionOnlyAdds(tree, archive);
    var (t, r) := WalkRecords(tree, archive, true);
    if r.Done? {
      forall i, j | 0 <= i < |archive| && 0 <= j < |archive| ensures !IsUnder(archive[i].name, archive[j].name) {
        DirectoryAbove(t, archive[i].name, archive[j].name);
      }
    }
  }

  // ---- The round trip -----------------------------------------------------------------------------

  lemma {:induction false} PackBytes(es: seq<Entry>, disk: Readable)
    requires forall i | 0 <= i < |es| :: Packable(es[i], disk)
    ensures ArchiveBytes(PackAll(es, disk)) == Total(es)
  {
    if es != [] {
      var init := es[..|es| - 1];
      assert PackAll(es, disk)[..|es| - 1] == PackAll(init, disk);
      PackBytes(init, disk);
    }
  }

  /** Entries that a selection can hand to the builder. */
  ghost predicate Archivable(es: seq<Entry>, disk: Readable) {
    && ProperEntries(es)
    && (forall i | 0 <= i < |es| :: ValidPath(es[i].path) && Packable(es[i], disk))
    && (forall i | 0 <= i < |es| && es[i].node.Symlink? :: '\0' !in es[i].node.target)
    && Total(es) <= MAX_INPUT_BYTES
  }

  lemma BuiltIsAccepted(es: seq<Entry>, disk: Readable)
    requires Archivable(es, disk)
    ensures Accepts(PackAll(es, disk)) && PrefixFree(PackAll(es, disk))
  {
    PackBytes(es, disk);
    var archive := PackAll(es, disk);
    assert forall i | 0 <= i < |es| :: archive[i] == Pack(es[i], disk);
    hide ProperEntries, ArchiveBytes, IsUnder, ValidPath;
    assert forall i | 0 <= i < |es| :: archive[i].name == es[i].path && GoodRecord(archive[i]);
    NamesProper(es, archive);
  }

  lemma NamesProper(es: seq<Entry>, archive: seq<Record>)
    requires ProperEntries(es) && |archive| == |es|
    requires forall i | 0 <= i < |es| :: archive[i].name == es[i].path
    ensures DistinctNames(archive) && PrefixFree(archive)
  {
  }

  /** What comes back of an entry: the same link, or the content as it was read with the low nine bits
      of the mode. */
  ghost predicate Restored(e: Entry, disk: Readable, node: Node) {
    if e.node.Symlink? then node == e.node
    else
      && e.node.Regular? && e.path in disk
      && node.Regular? && node.content == disk[e.path] && LowNine(e.node.mode, node.mode)
  }

  lemma PlacedRestores(e: Entry, disk: Readable, r: Record, node: Node)
    requires Packed(e, disk, r) && Placed(r, node)
    ensures Restored(e, disk, node)
    ensures e.node.Regular? && e.node.mode < 0x200 ==> node == Regular(disk[e.path], e.node.mode)
  {
  }

  lemma AddedEntries(es: seq<Entry>, disk: Readable, tree: Tree, t: Tree)
    requires AddsOnly(tree, t, PackAll(es, disk))
    ensures forall p | p in t && p !in tree ::
              (exists i | 0 <= i < |es| :: es[i].path == p) || (t[p].Directory? && IsFolder(es, p))
  {
    var archive := PackAll(es, disk);
    assert forall i | 0 <= i < |es| :: archive[i].name == es[i].path;
    forall p | p in t && p !in tree
      ensures (exists i | 0 <= i < |es| :: es[i].path == p) || (t[p].Directory? && IsFolder(es, p))
    {
      var i :| 0 <= i < |archive|
        && ((archive[i].name == p && Placed(archive[i], t[p])) || (IsUnder(archive[i].name, p) && t[p].Directory?));
      assert archive[i].name == es[i].path;
    }
  }

  /** Build, validate, restore: what was selected comes back, onto any clean checkout, and nothing
      else changes except for missing parent directories. */
  lemma RoundTrip(es: seq<Entry>, disk: Readable, tree: Tree)
    requires Archivable(es, disk) && Clean(tree, PackAll(es, disk))
    ensures Accepts(PackAll(es, disk))
    ensures var (t, r) := WalkRecords(tree, PackAll(es, disk), true);
            && r.Done?
            && (forall i | 0 <= i < |es| :: es[i].path in t && Restored(es[i], disk, t[es[i].path]))
            && (forall i | 0 <= i < |es| && es[i].node.Regular? && es[i].node.mode < 0x200 ::
                  t[es[i].path] == Regular(disk[es[i].path], es[i].node.mode))
            && (forall p | p in tree :: p in t && t[p] == tree[p])
            && (forall p | p in t && p !in tree ::
                  (exists i | 0 <= i < |es| :: es[i].path == p) || (t[p].Directory? && IsFolder(es, p)))
  {
    hide Accepts, Clean, PrefixFree, AddsOnly, WalkRecords, Restored, Placed, Packed, IsFolder, IsUnder,
         ProperEntries;
    var archive := PackAll(es, disk);
    BuiltIsAccepted(es, disk);
    RestoreSucceedsIff(tree, archive);
    RootedIfClean(tree, archive);
    ExtractionOnlyAdds(tree, archive);
    var t := WalkRecords(tree, archive, true).0;
    forall i | 0 <= i < |es|
      ensures es[i].path in t && Restored(es[i], disk, t[es[i].path])
      ensures es[i].node.Regular? && es[i].node.mode < 0x200 ==>
                t[es[i].path] == Regular(disk[es[i].path], es[i].node.mode)
    {
      assert archive[i] == Pack(es[i], disk);
      PackIsPacked(es[i], disk);
      PlacedRestores(es[i], disk, archive[i], t[es[i].path]);
    }
    AddedEntries(es, disk, tree, t);
  }

  lemma {:induction false} KeepIsSubset(es: seq<Entry>, skipped: set<Path>)
    ensures forall e | e in Keep(es, skipped) :: e in es
    ensures ProperEntries(es) ==> ProperEntries(Keep(es, skipped))
  {
    if es != [] {
      var init, last := es[..|es| - 1], es[|es| - 1];
      KeepIsSubset(init, skipped);
      assert es == init + [last];
      if ProperEntries(es) {
        ProperInit(init, last);
        ProperNext(init, last, Keep(init, skipped));
      }
    }
  }

  lemma ProperInit(init: seq<Entry>, last: Entry)
    requires ProperEntries(init + [last])
    ensures ProperEntries(init)
    ensures SlashFree(last.path) && !IsUnder(last.path, last.path)
    ensures forall e | e in init :: e.path != last.path && !IsUnder(e.path, last.path) && !IsUnder(last.path, e.path)
  {
    var es := init + [last];
    assert forall i | 0 <= i < |init| :: init[i] == es[i];
    assert es[|init|] == last;
  }

  lemma ProperNext(init: seq<Entry>, last: Entry, kept: seq<Entry>)
    requires ProperEntries(kept) && (forall e | e in kept :: e in init)
    requires SlashFree(last.path)
    requires forall e | e in init :: e.path != last.path && !IsUnder(e.path, last.path) && !IsUnder(last.path, e.path)
    ensures ProperEntries(kept + [last]) && kept + [] == kept
  {
    assert forall k | 0 <= k < |kept| :: kept[k] in init;
  }

  /** A selection within the archive limit is always archivable while the files keep their sizes. */
  lemma SelectionIsArchivable(tree: Tree, paths: seq<Path>, es: seq<Entry>, budget: nat, selected: seq<Entry>,
                              log: seq<Skip>, pruned: nat, groups: seq<Group>, disk: Readable)
    requires Rooted(tree) && budget <= MAX_INPUT_BYTES
    requires forall i, j | 0 <= i < j < |paths| :: paths[i] != paths[j]
    requires |es| == |paths| && forall i | 0 <= i < |es| ::
               ValidPath(paths[i]) && paths[i] in tree && (tree[paths[i]].Regular? || tree[paths[i]].Symlink?)
               && es[i] == Entry(paths[i], tree[paths[i]])
    requires Chosen(es, budget, selected, log, pruned, groups)
    requires forall p | p in tree && tree[p].Symlink? :: '\0' !in tree[p].target
    requires forall i | 0 <= i < |selected| :: Unresized(selected[i], disk)
    ensures Archivable(selected, disk)
  {
    hide LogSound, FoldersFit, RootGroups, IsFolder, ProperEntries, Keep;
    EntriesProper(tree, paths, es);
    KeepIsSubset(es, SkipPaths(log));
    forall i | 0 <= i < |selected|
      ensures ValidPath(selected[i].path) && Packable(selected[i], disk)
      ensures selected[i].node.Symlink? ==> '\0' !in selected[i].node.target
    {
      assert selected[i] in es;
      var k :| 0 <= k < |es| && es[k] == selected[i];
    }
  }
}
