/** selectWorkspaceArchiveEntries of cmd/agent/workspace_untracked_snapshot.go: which untracked
    paths fit an archive budget. Oversized subtrees are pruned deepest first, then whole root
    folders and root files are dropped largest first until the rest fits.
 */
module ArchiveSelection {
  import opened WorkspaceTree
  import opened Sorting

  datatype Entry = Entry(path: Path, node: Node)

  datatype Refusal = UnsafePath(path: Path) | Unreadable(path: Path) | Unsupported(path: Path)

  datatype Result<T> = Ok(value: T) | Err(refusal: Refusal)

  function Size(e: Entry): nat {
    if e.node.Regular? then |e.node.content| else 0
  }

  // ---- Sums over entries --------------------------------------------------------------------------

  function Sum(es: seq<Entry>, keep: Path -> bool): nat {
    if es == [] then 0 else
      Sum(es[..|es| - 1], keep) + if keep(es[|es| - 1].path) then Size(es[|es| - 1]) else 0
  }

  function Total(es: seq<Entry>): nat {
    Sum(es, Everything())
  }

  function Everything(): Path -> bool {
    p => true
  }

  lemma {:induction false} SumSplit(es: seq<Entry>, whole: Path -> bool, part: Path -> bool, rest: Path -> bool)
    requires forall i | 0 <= i < |es| :: whole(es[i].path) <==> part(es[i].path) || rest(es[i].path)
    requires forall i | 0 <= i < |es| :: !(part(es[i].path) && rest(es[i].path))
    ensures Sum(es, whole) == Sum(es, part) + Sum(es, rest)
  {
    if es != [] {
      var init := es[..|es| - 1];
      assert forall i | 0 <= i < |init| :: init[i] == es[i];
      SumSplit(init, whole, part, rest);
    }
  }

  lemma {:induction false} SumSame(es: seq<Entry>, a: Path -> bool, b: Path -> bool)
    requires forall i | 0 <= i < |es| && Size(es[i]) > 0 :: a(es[i].path) <==> b(es[i].path)
    ensures Sum(es, a) == Sum(es, b)
  {
    if es != [] {
      var init := es[..|es| - 1];
      assert forall i | 0 <= i < |init| :: init[i] == es[i];
      SumSame(init, a, b);
    }
  }

  lemma {:induction false} SumNothing(es: seq<Entry>, keep: Path -> bool)
    requires forall i | 0 <= i < |es| && Size(es[i]) > 0 :: !keep(es[i].path)
    ensures Sum(es, keep) == 0
  {
    if es != [] {
      var init := es[..|es| - 1];
      assert forall i | 0 <= i < |init| :: init[i] == es[i];
      SumNothing(init, keep);
    }
  }

  lemma SumAppend(es: seq<Entry>, e: Entry, keep: Path -> bool)
    ensures Sum(es + [e], keep) == Sum(es, keep) + if keep(e.path) then Size(e) else 0
  {
    assert (es + [e])[..|es|] == es;
  }

  // ---- Skipping -----------------------------------------------------------------------------------

  /** Skipping `r` omits `p`: it is `r` itself or lies below it. */
  predicate Covers(r: Path, p: Path) {
    0 < |r| <= |p| && p[..|r|] == r
  }

  predicate Covered(p: Path, skipped: set<Path>) {
    exists n | 0 < n <= |p| :: p[..n] in skipped
  }

  function Live(skipped: set<Path>): Path -> bool {
    p => !Covered(p, skipped)
  }

  function LiveBelow(r: Path, skipped: set<Path>): Path -> bool {
    p => Covers(r, p) && !Covered(p, skipped)
  }

  /** The bytes that skipping `r` would take out once `skipped` are gone. */
  function Charge(es: seq<Entry>, r: Path, skipped: set<Path>): nat {
    Sum(es, LiveBelow(r, skipped))
  }

  lemma CoveredAdd(p: Path, skipped: set<Path>, r: Path)
    requires r != []
    ensures Covered(p, skipped + {r}) <==> Covered(p, skipped) || Covers(r, p)
  {
    if Covers(r, p) {
      assert p[..|r|] in skipped + {r};
    }
    if Covered(p, skipped) {
      var n :| 0 < n <= |p| && p[..n] in skipped;
      assert p[..n] in skipped + {r};
    }
  }

  lemma CoversTransitive(d: Path, r: Path, p: Path)
    requires Covers(d, r) && Covers(r, p)
    ensures Covers(d, p)
  {
    assert p[..|d|] == p[..|r|][..|d|];
  }

  /** Two paths above the same path are one above the other. */
  lemma CoversComparable(d: Path, r: Path, p: Path)
    requires Covers(d, p) && Covers(r, p)
    ensures Covers(d, r) || Covers(r, d)
  {
    if |d| <= |r| {
      assert r[..|d|] == p[..|r|][..|d|];
    } else {
      assert d[..|r|] == p[..|d|][..|r|];
    }
  }

  lemma SkipTotal(es: seq<Entry>, skipped: set<Path>, r: Path)
    requires r != []
    ensures Sum(es, Live(skipped)) == Sum(es, Live(skipped + {r})) + Charge(es, r, skipped)
  {
    forall i | 0 <= i < |es|
      ensures Covered(es[i].path, skipped + {r}) <==> Covered(es[i].path, skipped) || Covers(r, es[i].path)
    {
      CoveredAdd(es[i].path, skipped, r);
    }
    SumSplit(es, Live(skipped), Live(skipped + {r}), LiveBelow(r, skipped));
  }

  lemma SkipAbove(es: seq<Entry>, skipped: set<Path>, r: Path, d: Path)
    requires Covers(d, r)
    ensures Charge(es, d, skipped) == Charge(es, d, skipped + {r}) + Charge(es, r, skipped)
  {
    forall i | 0 <= i < |es|
      ensures Covered(es[i].path, skipped + {r}) <==> Covered(es[i].path, skipped) || Covers(r, es[i].path)
      ensures Covers(r, es[i].path) ==> Covers(d, es[i].path)
    {
      CoveredAdd(es[i].path, skipped, r);
      if Covers(r, es[i].path) {
        CoversTransitive(d, r, es[i].path);
      }
    }
    SumSplit(es, LiveBelow(d, skipped), LiveBelow(d, skipped + {r}), LiveBelow(r, skipped));
  }

  lemma SkipApart(es: seq<Entry>, skipped: set<Path>, r: Path, d: Path)
    requires r != [] && !Covers(d, r) && !Covers(r, d)
    ensures Charge(es, d, skipped + {r}) == Charge(es, d, skipped)
  {
    forall i | 0 <= i < |es| ensures LiveBelow(d, skipped + {r})(es[i].path) <==> LiveBelow(d, skipped)(es[i].path) {
      CoveredAdd(es[i].path, skipped, r);
      if Covers(d, es[i].path) && Covers(r, es[i].path) {
        CoversComparable(d, r, es[i].path);
      }
    }
    SumSame(es, LiveBelow(d, skipped + {r}), LiveBelow(d, skipped));
  }

  lemma ChargeShrinks(es: seq<Entry>, skipped: set<Path>, r: Path, d: Path)
    requires r != []
    ensures Charge(es, d, skipped + {r}) <= Charge(es, d, skipped)
  {
    forall i | 0 <= i < |es| ensures Covered(es[i].path, skipped) ==> Covered(es[i].path, skipped + {r}) {
      CoveredAdd(es[i].path, skipped, r);
    }
    SumSplit(es, LiveBelow(d, skipped), LiveBelow(d, skipped + {r}),
             p => LiveBelow(d, skipped)(p) && !LiveBelow(d, skipped + {r})(p));
  }

  // ---- The running aggregates ---------------------------------------------------------------------

  /** `total` and every entry of `directoryBytes` not itself skipped are exact. */
  ghost predicate Tracked(es: seq<Entry>, skipped: set<Path>, total: int, directoryBytes: map<Path, int>) {
    && total == Sum(es, Live(skipped))
    && forall d | d in directoryBytes && !Covered(d, skipped) :: directoryBytes[d] == Charge(es, d, skipped)
  }

  lemma TrackedTotal(es: seq<Entry>, skipped: set<Path>, total: int, directoryBytes: map<Path, int>)
    requires Tracked(es, skipped, total, directoryBytes)
    ensures total == Sum(es, Live(skipped))
  {}

  ghost predicate Adjusted(was: map<Path, int>, now: map<Path, int>, rel: Path, delta: int, from: nat) {
    && (forall d | d in was :: d in now)
    && (forall d | d in now :: d in was || (IsUnder(rel, d) && |d| > from))
    && (forall d | IsUnder(rel, d) && |d| > from :: d in now)
    && (forall d | d in now ::
          now[d] == (if d in was then was[d] else 0) + if IsUnder(rel, d) && |d| > from then delta else 0)
  }

  lemma NothingAdjusted(was: map<Path, int>, rel: Path, delta: int)
    ensures Adjusted(was, was, rel, delta, if rel == [] then 0 else |rel| - 1)
  {
  }

  /** One more parent of `rel`, a component shorter than the last. */
  lemma AdjustedNext(was: map<Path, int>, now: map<Path, int>, rel: Path, delta: int, n: nat)
    requires 0 < n < |rel| && Adjusted(was, now, rel, delta, n)
    ensures var d := rel[..n];
            Adjusted(was, now[d := (if d in now then now[d] else 0) + delta], rel, delta, n - 1)
  {
    forall d | IsUnder(rel, d) && |d| == n ensures d == rel[..n] {}
  }

  lemma SkipTracked(es: seq<Entry>, skipped: set<Path>, total: int, was: map<Path, int>, now: map<Path, int>, r: Path,
                    size: int)
    requires Tracked(es, skipped, total, was) && r != [] && size == Charge(es, r, skipped)
    requires Adjusted(was, now, r, -size, 0) && now.Keys == was.Keys
    ensures Tracked(es, skipped + {r}, total - size, now)
  {
    SkipTotal(es, skipped, r);
    forall d | d in now && !Covered(d, skipped + {r}) ensures now[d] == Charge(es, d, skipped + {r}) {
      CoveredAdd(d, skipped, r);
      if Covers(d, r) {
        assert d == r || IsUnder(r, d);
        assert d[..|d|] == d;
        SkipAbove(es, skipped, r, d);
      } else {
        SkipApart(es, skipped, r, d);
      }
    }
  }

  // ---- The two orders -----------------------------------------------------------------------------

  /** Deepest directory first, then by name. */
  predicate DirectoryBefore(a: Path, b: Path) {
    |a| > |b| || (|a| == |b| && StringLess(Join(a), Join(b)))
  }

  datatype Group = Group(path: Path, size: int, directory: bool)

  /** Largest group first, then by name. */
  predicate GroupBefore(a: Group, b: Group) {
    a.size > b.size || (a.size == b.size && StringLess(Join(a.path), Join(b.path)))
  }

  predicate SlashFree(p: Path) {
    p != [] && forall i | 0 <= i < |p| :: '/' !in p[i]
  }

  lemma PathsOrdered(a: Path, b: Path)
    requires SlashFree(a) && SlashFree(b)
    ensures !StringLess(Join(a), Join(a))
    ensures a == b || StringLess(Join(a), Join(b)) || StringLess(Join(b), Join(a))
  {
    StringLessIrreflexive(Join(a));
    StringLessTotal(Join(a), Join(b));
    if Join(a) == Join(b) {
      JoinInjective(a, b);
    }
  }

  lemma DirectoriesOrdered(s: set<Path>)
    requires forall d | d in s :: SlashFree(d)
    ensures StrictOrder(DirectoryBefore, s)
  {
    forall a, b | a in s && b in s
      ensures !DirectoryBefore(a, a) && (a == b || DirectoryBefore(a, b) || DirectoryBefore(b, a))
    {
      PathsOrdered(a, b);
    }
    forall a, b, c | a in s && b in s && c in s && DirectoryBefore(a, b) && DirectoryBefore(b, c)
      ensures DirectoryBefore(a, c)
    {
      if |a| == |b| == |c| {
        StringLessTransitive(Join(a), Join(b), Join(c));
      }
    }
  }

  lemma GroupsOrdered(s: set<Group>)
    requires forall g | g in s :: SlashFree(g.path)
    requires forall g, h | g in s && h in s && g.path == h.path :: g == h
    ensures StrictOrder(GroupBefore, s)
  {
    forall a, b | a in s && b in s ensures !GroupBefore(a, a) && (a == b || GroupBefore(a, b) || GroupBefore(b, a)) {
      PathsOrdered(a.path, b.path);
    }
    forall a, b, c | a in s && b in s && c in s && GroupBefore(a, b) && GroupBefore(b, c) ensures GroupBefore(a, c) {
      if a.size == b.size == c.size {
        StringLessTransitive(Join(a.path), Join(b.path), Join(c.path));
      }
    }
  }

  // ---- What the listing guarantees ----------------------------------------------------------------

  /** The entries are at different, slash-free paths and none is a directory above another. */
  ghost predicate ProperEntries(es: seq<Entry>) {
    && (forall i | 0 <= i < |es| :: SlashFree(es[i].path))
    && (forall i, j | 0 <= i < j < |es| :: es[i].path != es[j].path)
    && (forall i, j | 0 <= i < |es| && 0 <= j < |es| :: !IsUnder(es[i].path, es[j].path))
  }

  ghost predicate IsFolder(es: seq<Entry>, d: Path) {
    exists i | 0 <= i < |es| :: IsUnder(es[i].path, d)
  }

  /** Files and links of one file tree never lie above each other. */
  lemma EntriesProper(tree: Tree, paths: seq<Path>, es: seq<Entry>)
    requires Rooted(tree) && forall i, j | 0 <= i < j < |paths| :: paths[i] != paths[j]
    requires |es| == |paths| && forall i | 0 <= i < |es| ::
               ValidPath(paths[i]) && paths[i] in tree && (tree[paths[i]].Regular? || tree[paths[i]].Symlink?)
               && es[i] == Entry(paths[i], tree[paths[i]])
    ensures ProperEntries(es)
  {
    forall i, j | 0 <= i < |es| && 0 <= j < |es| ensures !IsUnder(es[i].path, es[j].path) {
      DirectoryAbove(tree, paths[i], paths[j]);
    }
  }

  lemma DirectoryAbove(tree: Tree, p: Path, d: Path)
    requires Rooted(tree) && p in tree
    ensures IsUnder(p, d) ==> d in tree && tree[d].Directory?
  {
    assert IsUnder(p, d) ==> p[..|d|] in tree;
  }

  lemma CoversCases(d: Path, p: Path)
    requires d != []
    ensures Covers(d, p) <==> d == p || IsUnder(p, d)
  {
    assert p[..|p|] == p;
  }

  lemma FolderHasNoEntry(es: seq<Entry>, d: Path)
    requires ProperEntries(es) && IsFolder(es, d)
    ensures d != []
    ensures forall i | 0 <= i < |es| :: Covers(d, es[i].path) <==> IsUnder(es[i].path, d)
  {
    forall i | 0 <= i < |es| ensures Covers(d, es[i].path) <==> IsUnder(es[i].path, d) {
      CoversCases(d, es[i].path);
    }
  }

  // ---- The selection ------------------------------------------------------------------------------

  /** One warning: what was skipped and how many bytes of it were still in. */
  datatype Skip = Skip(path: Path, bytes: int, directory: bool)

  function SkipPaths(log: seq<Skip>): set<Path> {
    set k | 0 <= k < |log| :: log[k].path
  }

  function SkippedBytes(log: seq<Skip>): int {
    if log == [] then 0 else SkippedBytes(log[..|log| - 1]) + log[|log| - 1].bytes
  }

  function Keep(es: seq<Entry>, skipped: set<Path>): seq<Entry> {
    if es == [] then [] else
      Keep(es[..|es| - 1], skipped) + if Covered(es[|es| - 1].path, skipped) then [] else [es[|es| - 1]]
  }

  lemma {:induction false} KeepTotal(es: seq<Entry>, skipped: set<Path>)
    ensures Total(Keep(es, skipped)) == Sum(es, Live(skipped))
  {
    if es != [] {
      var init, last := es[..|es| - 1], es[|es| - 1];
      KeepTotal(init, skipped);
      SumAppend(Keep(init, skipped), last, Everything());
      assert Keep(init, skipped) + [] == Keep(init, skipped);
    }
  }

  lemma {:induction false} KeepAll(es: seq<Entry>)
    ensures Keep(es, {}) == es && Sum(es, Live({})) == Total(es)
  {
    if es != [] {
      KeepAll(es[..|es| - 1]);
    }
  }

  lemma SkipPathsAppend(log: seq<Skip>, s: Skip)
    ensures SkipPaths(log + [s]) == SkipPaths(log) + {s.path}
    ensures SkippedBytes(log + [s]) == SkippedBytes(log) + s.bytes
  {
    var now := log + [s];
    assert now[..|log|] == log;
    assert forall k | 0 <= k < |log| :: now[k] == log[k];
    assert now[|log|].path == s.path;
  }

  /** Each warning reports exactly the bytes below its path that earlier skips had left in. */
  ghost predicate Accounted(es: seq<Entry>, log: seq<Skip>) {
    forall k | 0 <= k < |log| :: log[k].bytes == Charge(es, log[k].path, SkipPaths(log[..k]))
  }

  /** Whatever is skipped, no folder inside it was itself over budget any more. */
  ghost predicate InnermostFirst(es: seq<Entry>, budget: nat, log: seq<Skip>) {
    forall k, d | 0 <= k < |log| && IsFolder(es, d) && IsUnder(d, log[k].path) ::
      Charge(es, d, SkipPaths(log[..k])) <= budget
  }

  /** What may be skipped: a folder, or a regular file at the root. */
  ghost predicate Skippable(es: seq<Entry>, s: Skip) {
    if s.directory then IsFolder(es, s.path)
    else |s.path| == 1 && exists i | 0 <= i < |es| :: es[i].path == s.path && es[i].node.Regular?
  }

  ghost predicate LogSound(es: seq<Entry>, budget: nat, log: seq<Skip>) {
    && Accounted(es, log)
    && InnermostFirst(es, budget, log)
    && (forall k | 0 <= k < |log| :: Skippable(es, log[k]))
  }

  lemma LogAppend(es: seq<Entry>, budget: nat, log: seq<Skip>, s: Skip)
    requires LogSound(es, budget, log) && Skippable(es, s)
    requires s.bytes == Charge(es, s.path, SkipPaths(log))
    requires forall d | IsFolder(es, d) && IsUnder(d, s.path) :: Charge(es, d, SkipPaths(log)) <= budget
    ensures LogSound(es, budget, log + [s])
  {
    var now := log + [s];
    assert now[..|log|] == log;
    forall k | 0 <= k < |log| ensures now[k] == log[k] && now[..k] == log[..k] {}
  }

  // ---- Loop by loop -------------------------------------------------------------------------------

  function Below(d: Path): Path -> bool {
    p => IsUnder(p, d)
  }

  /** What the first loop leaves behind: one entry per folder, with the bytes below it. */
  ghost predicate Measured(es: seq<Entry>, total: int, directoryBytes: map<Path, int>) {
    && total == Total(es)
    && (forall d | d in directoryBytes :: IsFolder(es, d) && directoryBytes[d] == Sum(es, Below(d)))
    && (forall i, d | 0 <= i < |es| && IsUnder(es[i].path, d) :: d in directoryBytes)
  }

  lemma NothingMeasured()
    ensures Measured([], 0, map[])
  {
  }

  lemma MeasuredAdd(es: seq<Entry>, total: int, was: map<Path, int>, e: Entry, now: map<Path, int>)
    requires Measured(es, total, was) && Adjusted(was, now, e.path, Size(e), 0)
    ensures Measured(es + [e], total + Size(e), now)
  {
    SumAppend(es, e, Everything());
    forall d | d in now ensures IsFolder(es + [e], d) && now[d] == Sum(es + [e], Below(d)) {
      SumAppend(es, e, Below(d));
      if d in was {
        var i :| 0 <= i < |es| && IsUnder(es[i].path, d);
        assert (es + [e])[i] == es[i];
      } else {
        assert (es + [e])[|es|] == e;
        SumNothing(es, Below(d));
      }
    }
  }

  lemma MeasuredTracked(es: seq<Entry>, total: int, directoryBytes: map<Path, int>)
    requires Measured(es, total, directoryBytes) && ProperEntries(es)
    ensures Tracked(es, {}, total, directoryBytes)
  {
    SumSame(es, Everything(), Live({}));
    forall d | d in directoryBytes ensures directoryBytes[d] == Charge(es, d, {}) {
      FolderHasNoEntry(es, d);
      SumSame(es, Below(d), LiveBelow(d, {}));
    }
  }

  /** No folder left in is over budget. */
  ghost predicate FoldersFit(es: seq<Entry>, skipped: set<Path>, budget: nat) {
    forall d | IsFolder(es, d) :: Charge(es, d, skipped) <= budget
  }

  lemma SkippedIsEmpty(es: seq<Entry>, skipped: set<Path>, r: Path)
    requires r != []
    ensures Charge(es, r, skipped + {r}) == 0
  {
    assert r[..|r|] == r;
    SkipAbove(es, skipped, r, r);
  }

  lemma NotYetCovered(dirs: seq<Path>, i: nat, skipped: set<Path>)
    requires i < |dirs| && Sorted(DirectoryBefore, dirs)
    requires forall r | r in skipped :: r in dirs[..i]
    ensures !Covered(dirs[i], skipped)
  {
    forall n | 0 < n <= |dirs[i]| ensures dirs[i][..n] !in skipped {
      var r := dirs[i][..n];
      if r in skipped {
        var j :| 0 <= j < i && dirs[..i][j] == r;
        assert DirectoryBefore(dirs[j], dirs[i]);
        assert |dirs[j]| == n == |dirs[i]| && dirs[j] == dirs[i];
        StringLessIrreflexive(Join(dirs[i]));
        assert false;
      }
    }
  }

  // ---- The second phase ---------------------------------------------------------------------------

  ghost predicate GroupExact(es: seq<Entry>, skipped: set<Path>, g: Group) {
    |g.path| == 1 && g.path !in skipped && g.size == Charge(es, g.path, skipped)
      && Skippable(es, Skip(g.path, g.size, g.directory))
  }

  /** What the second phase drops whole: a root folder still in, or a root regular file. */
  ghost predicate IsRootGroup(es: seq<Entry>, skipped: set<Path>, r: Path) {
    && |r| == 1
    && r !in skipped
    && (IsFolder(es, r) || exists i | 0 <= i < |es| :: es[i].path == r && es[i].node.Regular?)
  }

  /** Exactly the root groups, each with exactly its bytes. */
  ghost predicate RootGroups(es: seq<Entry>, skipped: set<Path>, groups: set<Group>) {
    && (forall g | g in groups :: GroupExact(es, skipped, g))
    && (forall g, h | g in groups && h in groups && g.path == h.path :: g == h)
    && (forall r | IsRootGroup(es, skipped, r) :: exists g | g in groups :: g.path == r)
  }

  lemma RootCovered(p: Path, skipped: set<Path>)
    requires |p| == 1
    ensures Covered(p, skipped) <==> p in skipped
  {
    assert p[..1] == p;
  }

  function GroupsOf(es: seq<Entry>, skipped: set<Path>, directoryBytes: map<Path, int>): set<Group> {
    (set d | d in directoryBytes && |d| == 1 && d !in skipped :: Group(d, directoryBytes[d], true))
    + (set i | 0 <= i < |es| && |es[i].path| == 1 && es[i].node.Regular? :: Group(es[i].path, Size(es[i]), false))
  }

  lemma FoundGroups(es: seq<Entry>, skipped: set<Path>, total: int, directoryBytes: map<Path, int>, groups: set<Group>)
    requires ProperEntries(es) && Tracked(es, skipped, total, directoryBytes)
    requires forall d :: d in directoryBytes <==> IsFolder(es, d)
    requires skipped <= directoryBytes.Keys
    requires groups == GroupsOf(es, skipped, directoryBytes)
    ensures RootGroups(es, skipped, groups)
  {
    forall g | g in groups ensures GroupExact(es, skipped, g) {
      RootCovered(g.path, skipped);
      if !g.directory {
        var i :| 0 <= i < |es| && |es[i].path| == 1 && es[i].node.Regular?
          && g == Group(es[i].path, Size(es[i]), false);
        RootFileCharge(es, skipped, i);
      }
    }
    forall r | IsRootGroup(es, skipped, r) ensures exists g | g in groups :: g.path == r {
      if IsFolder(es, r) {
        assert Group(r, directoryBytes[r], true) in groups;
      } else {
        var i :| 0 <= i < |es| && es[i].path == r && es[i].node.Regular?;
        assert Group(es[i].path, Size(es[i]), false) in groups;
      }
    }
    forall g, h | g in groups && h in groups && g.path == h.path ensures g == h {}
  }

  lemma RootFileCharge(es: seq<Entry>, skipped: set<Path>, i: nat)
    requires ProperEntries(es) && i < |es| && |es[i].path| == 1
    requires forall r | r in skipped :: IsFolder(es, r)
    ensures es[i].path !in skipped && Charge(es, es[i].path, skipped) == Size(es[i])
  {
    RootCovered(es[i].path, skipped);
    forall j | 0 <= j < |es| ensures LiveBelow(es[i].path, skipped)(es[j].path) <==> j == i {
      CoversCases(es[i].path, es[j].path);
    }
    SumSingle(es, LiveBelow(es[i].path, skipped), i);
  }

  lemma {:induction false} SumSingle(es: seq<Entry>, keep: Path -> bool, i: nat)
    requires i < |es| && forall j | 0 <= j < |es| :: keep(es[j].path) <==> j == i
    ensures Sum(es, keep) == Size(es[i])
  {
    var init := es[..|es| - 1];
    assert forall j | 0 <= j < |init| :: init[j] == es[j];
    if i == |init| {
      SumNothing(init, keep);
    } else {
      SumSingle(init, keep, i);
    }
  }

  /** The running state: the variables that the source's `skip` closure captures. */
  class Selection {
    var total: int
    var directoryBytes: map<Path, int>
    var skipped: set<Path>
    var log: seq<Skip>

    constructor ()
      ensures total == 0 && directoryBytes == map[] && skipped == {} && log == []
    {
      total, directoryBytes, skipped, log := 0, map[], {}, [];
    }

    method AdjustParents(rel: Path, delta: int)
      modifies this`directoryBytes
      ensures Adjusted(old(directoryBytes), directoryBytes, rel, delta, 0)
    {
      hide Adjusted;
      var n := |rel| - 1;
      NothingAdjusted(directoryBytes, rel, delta);
      while n > 0
        invariant n < |rel|
        invariant n >= 0 || rel == []
        invariant Adjusted(old(directoryBytes), directoryBytes, rel, delta, if n > 0 then n else 0)
      {
        AdjustedNext(old(directoryBytes), directoryBytes, rel, delta, n);
        var parent := rel[..n];
        var was := if parent in directoryBytes then directoryBytes[parent] else 0;
        directoryBytes := directoryBytes[parent := was + delta];
        n := n - 1;
      }
    }

    /** The source's `skip` closure. */
    method SkipPath(ghost es: seq<Entry>, rel: Path, size: int, directory: bool)
      requires Tracked(es, skipped, total, directoryBytes) && size == Charge(es, rel, skipped)
      requires rel != [] && forall d | IsUnder(rel, d) :: d in directoryBytes
      requires skipped == SkipPaths(log)
      modifies this
      ensures Tracked(es, skipped, total, directoryBytes) && directoryBytes.Keys == old(directoryBytes.Keys)
      ensures skipped == old(skipped) + {rel} && total == old(total) - size
      ensures log == old(log) + [Skip(rel, size, directory)]
      ensures skipped == SkipPaths(log)
    {
      skipped := skipped + {rel};
      total := total - size;
      AdjustParents(rel, -size);
      assert directoryBytes.Keys == old(directoryBytes.Keys);
      SkipTracked(es, old(skipped), old(total), old(directoryBytes), directoryBytes, rel, size);
      log := log + [Skip(rel, size, directory)];
      SkipPathsAppend(old(log), Skip(rel, size, directory));
    }

    /** The first loop: reads every path and adds it up. It succeeds exactly if every path is clean
        and leads to a file or a link, and otherwise stops at the first that does not. */
    method Measure(tree: Tree, paths: seq<Path>) returns (r: Result<seq<Entry>>)
      requires total == 0 && directoryBytes == map[]
      modifies this`total, this`directoryBytes
      ensures r.Ok? <==> forall i | 0 <= i < |paths| ::
                ValidPath(paths[i]) && paths[i] in tree && (tree[paths[i]].Regular? || tree[paths[i]].Symlink?)
      ensures r.Ok? ==> |r.value| == |paths| && Measured(r.value, total, directoryBytes)
                        && forall i | 0 <= i < |paths| :: r.value[i] == Entry(paths[i], tree[paths[i]])
      ensures r.Err? ==> exists i | 0 <= i < |paths| ::
                (forall j | 0 <= j < i :: ValidPath(paths[j]) && paths[j] in tree
                                          && (tree[paths[j]].Regular? || tree[paths[j]].Symlink?))
                && (r.refusal.UnsafePath? <==> !ValidPath(paths[i]))
                && (r.refusal.Unreadable? <==> ValidPath(paths[i]) && paths[i] !in tree)
                && r.refusal.path == paths[i]
    {
      hide Measured, ValidPath, Total, Adjusted;
      var entries: seq<Entry> := [];
      NothingMeasured();
      for i := 0 to |paths|
        invariant Measured(entries, total, directoryBytes)
        invariant |entries| == i && forall j | 0 <= j < i ::
                    ValidPath(paths[j]) && paths[j] in tree && (tree[paths[j]].Regular? || tree[paths[j]].Symlink?)
                    && entries[j] == Entry(paths[j], tree[paths[j]])
      {
        var rel := paths[i];
        if !ValidPath(rel) {
          return Err(UnsafePath(rel));
        }
        if rel !in tree {
          return Err(Unreadable(rel));
        }
        var entry := Entry(rel, tree[rel]);
        var size := 0;
        match tree[rel] {
          case Regular(content, _) => size := |content|;
          case Symlink(_) =>
          case _ => return Err(Unsupported(rel));
        }
        ghost var was := directoryBytes;
        AdjustParents(rel, size);
        MeasuredAdd(entries, total, was, entry, directoryBytes);
        entries := entries + [entry];
        total := total + size;
      }
      r := Ok(entries);
    }

    /** The first phase: prunes oversized folders, deepest first. */
    method PruneFolders(ghost es: seq<Entry>, budget: nat)
      requires ProperEntries(es) && Tracked(es, skipped, total, directoryBytes) && total == Total(es)
      requires forall d :: d in directoryBytes <==> IsFolder(es, d)
      requires skipped == {} && log == []
      modifies this
      ensures Tracked(es, skipped, total, directoryBytes) && directoryBytes.Keys == old(directoryBytes.Keys)
      ensures skipped == SkipPaths(log) <= directoryBytes.Keys
      ensures LogSound(es, budget, log) && total + SkippedBytes(log) == Total(es)
      ensures forall k | 0 <= k < |log| :: log[k].directory && log[k].bytes > budget
      ensures FoldersFit(es, skipped, budget)
    {
      hide Pruned, ProperEntries, LogSound, SkipPaths, SkippedBytes, Total, Sorted, FoldersFit, IsFolder, Charge;
      FoldersSlashFree(es);
      DirectoriesOrdered(directoryBytes.Keys);
      var directories := SortSet(DirectoryBefore, directoryBytes.Keys);
      NothingPruned(es, budget, directories);
      for i := 0 to |directories|
        invariant Tracked(es, skipped, total, directoryBytes) && directoryBytes.Keys == old(directoryBytes.Keys)
        invariant skipped == SkipPaths(log) && total + SkippedBytes(log) == Total(es)
        invariant Pruned(es, budget, directories, i, skipped, log)
      {
        var rel := directories[i];
        PrunedNotCovered(es, budget, directories, i, skipped, log);
        FolderParents(es, rel);
        PruneNext(es, budget, directories, i, skipped, log);
        if directoryBytes[rel] > budget {
          SkipPathsAppend(log, Skip(rel, directoryBytes[rel], true));
          SkipPath(es, rel, directoryBytes[rel], true);
        }
      }
      PrunedAll(es, budget, directories, skipped, log);
    }

    /** The second phase: drops root groups, largest first, until the total fits. */
    method DropGroups(entries: seq<Entry>, budget: nat) returns (ghost groups: seq<Group>, ghost n: nat)
      requires ProperEntries(entries) && Tracked(entries, skipped, total, directoryBytes)
      requires forall d :: d in directoryBytes <==> IsFolder(entries, d)
      requires skipped == SkipPaths(log) <= directoryBytes.Keys
      requires LogSound(entries, budget, log) && FoldersFit(entries, skipped, budget)
      requires total + SkippedBytes(log) == Total(entries)
      modifies this
      ensures skipped == SkipPaths(log) && total == Sum(entries, Live(skipped)) <= budget
      ensures LogSound(entries, budget, log) && total + SkippedBytes(log) == Total(entries)
      ensures RootGroups(entries, old(skipped), Elements(groups)) && Sorted(GroupBefore, groups)
      ensures n <= |groups| && log == old(log) + Warnings(groups[..n])
      ensures forall k | 0 <= k < n :: total + groups[k].size > budget
    {
      hide Dropping, ProperEntries, LogSound, RootGroups, FoldersFit, Sorted, Tracked, Charge, SkipPaths,
           SkippedBytes, Warnings, Elements, Total, Sum, IsFolder;
      TrackedTotal(entries, skipped, total, directoryBytes);
      var sorted := FindGroups(entries);
      ghost var base, baseLog := skipped, log;
      var i := 0;
      DroppingStarts(entries, budget, base, baseLog, sorted);
      while i < |sorted| && total > budget
        invariant i <= |sorted|
        invariant Tracked(entries, skipped, total, directoryBytes) && directoryBytes.Keys == old(directoryBytes.Keys)
        invariant skipped == SkipPaths(log) && total + SkippedBytes(log) == Total(entries)
        invariant Dropping(entries, budget, baseLog, sorted, i, skipped, log)
        invariant total == Sum(entries, Live(skipped))
        invariant forall k | 0 <= k < i :: total + sorted[k].size > budget
      {
        var g := sorted[i];
        DropNext(entries, budget, base, baseLog, sorted, i, skipped, log);
        SkipPathsAppend(log, AsSkip(g));
        SkipPath(entries, g.path, g.size, g.directory);
        TrackedTotal(entries, skipped, total, directoryBytes);
        i := i + 1;
      }
      if i == |sorted| {
        DroppedAll(entries, budget, base, baseLog, sorted, skipped, log);
      }
      DroppedSoFar(entries, budget, baseLog, sorted, i, skipped, log);
      groups, n := sorted, i;
    }

    lemma LogStarts(es: seq<Entry>, budget: nat)
      requires log == [] && skipped == {}
      ensures LogSound(es, budget, log) && skipped == SkipPaths(log) && SkippedBytes(log) == 0
    {}

    method FindGroups(entries: seq<Entry>) returns (sorted: seq<Group>)
      requires ProperEntries(entries) && Tracked(entries, skipped, total, directoryBytes)
      requires forall d :: d in directoryBytes <==> IsFolder(entries, d)
      requires skipped <= directoryBytes.Keys
      ensures RootGroups(entries, skipped, Elements(sorted)) && Sorted(GroupBefore, sorted)
    {
      hide ProperEntries, RootGroups, Tracked, Sorted;
      var found := GroupsOf(entries, skipped, directoryBytes);
      FoundGroups(entries, skipped, total, directoryBytes, found);
      GroupsSlashFree(entries, skipped, found);
      GroupsOrdered(found);
      sorted := SortSet(GroupBefore, found);
      assert Elements(sorted) == found;
    }
  }

  lemma FoldersSlashFree(es: seq<Entry>)
    requires ProperEntries(es)
    ensures forall d | IsFolder(es, d) :: SlashFree(d)
  {
    forall d | IsFolder(es, d) ensures SlashFree(d) {
      var i :| 0 <= i < |es| && IsUnder(es[i].path, d);
      assert forall k | 0 <= k < |d| :: d[k] == es[i].path[k];
    }
  }

  lemma FolderParents(es: seq<Entry>, d: Path)
    requires IsFolder(es, d)
    ensures forall e | IsUnder(d, e) :: IsFolder(es, e)
  {
    var i :| 0 <= i < |es| && IsUnder(es[i].path, d);
    forall e | IsUnder(d, e) ensures IsFolder(es, e) {
      assert es[i].path[..|e|] == es[i].path[..|d|][..|e|];
      assert IsUnder(es[i].path, e);
    }
  }

  /** The first phase after `i` directories. */
  ghost predicate Pruned(es: seq<Entry>, budget: nat, dirs: seq<Path>, i: nat, skipped: set<Path>, log: seq<Skip>) {
    && i <= |dirs|
    && skipped == SkipPaths(log)
    && (forall r | r in skipped :: r in dirs[..i])
    && LogSound(es, budget, log)
    && (forall k | 0 <= k < |log| :: log[k].directory && log[k].bytes > budget)
    && (forall j | 0 <= j < i :: Charge(es, dirs[j], skipped) <= budget)
  }

  lemma NothingPruned(es: seq<Entry>, budget: nat, dirs: seq<Path>)
    ensures Pruned(es, budget, dirs, 0, {}, []) && SkipPaths([]) == {} && SkippedBytes([]) == 0
  {
  }

  lemma PrunedNotCovered(es: seq<Entry>, budget: nat, dirs: seq<Path>, i: nat, skipped: set<Path>, log: seq<Skip>)
    requires Pruned(es, budget, dirs, i, skipped, log) && i < |dirs| && Sorted(DirectoryBefore, dirs)
    ensures !Covered(dirs[i], skipped)
  {
    NotYetCovered(dirs, i, skipped);
  }

  /** Folders inside the next directory are deeper, so they came before it. */
  lemma InnerFoldersDone(es: seq<Entry>, dirs: seq<Path>, i: nat, skipped: set<Path>, budget: nat)
    requires i < |dirs| && Sorted(DirectoryBefore, dirs)
    requires forall d | IsFolder(es, d) :: d in dirs
    requires forall j | 0 <= j < i :: Charge(es, dirs[j], skipped) <= budget
    ensures forall d | IsFolder(es, d) && IsUnder(d, dirs[i]) :: Charge(es, d, skipped) <= budget
  {
    forall d | IsFolder(es, d) && IsUnder(d, dirs[i]) ensures Charge(es, d, skipped) <= budget {
      var j :| 0 <= j < |dirs| && dirs[j] == d;
      assert !DirectoryBefore(dirs[i], dirs[j]);
    }
  }

  lemma PruneNext(es: seq<Entry>, budget: nat, dirs: seq<Path>, i: nat, skipped: set<Path>, log: seq<Skip>)
    requires Pruned(es, budget, dirs, i, skipped, log) && i < |dirs| && Sorted(DirectoryBefore, dirs)
    requires forall d | IsFolder(es, d) :: d in dirs
    requires IsFolder(es, dirs[i])
    ensures var rel, bytes := dirs[i], Charge(es, dirs[i], skipped);
            if bytes > budget then Pruned(es, budget, dirs, i + 1, skipped + {rel}, log + [Skip(rel, bytes, true)])
            else Pruned(es, budget, dirs, i + 1, skipped, log)
  {
    hide Charge, Sorted, IsFolder, Pruned;
    if Charge(es, dirs[i], skipped) > budget {
      PruneFolder(es, budget, dirs, i, skipped, log);
    } else {
      PruneNothing(es, budget, dirs, i, skipped, log);
    }
  }

  lemma PruneNothing(es: seq<Entry>, budget: nat, dirs: seq<Path>, i: nat, skipped: set<Path>, log: seq<Skip>)
    requires Pruned(es, budget, dirs, i, skipped, log) && i < |dirs| && Charge(es, dirs[i], skipped) <= budget
    ensures Pruned(es, budget, dirs, i + 1, skipped, log)
  {
    hide LogSound, Charge, SkipPaths;
    assert dirs[..i + 1] == dirs[..i] + [dirs[i]];
  }

  lemma PruneFolder(es: seq<Entry>, budget: nat, dirs: seq<Path>, i: nat, skipped: set<Path>, log: seq<Skip>)
    requires Pruned(es, budget, dirs, i, skipped, log) && i < |dirs| && Sorted(DirectoryBefore, dirs)
    requires forall d | IsFolder(es, d) :: d in dirs
    requires IsFolder(es, dirs[i]) && Charge(es, dirs[i], skipped) > budget
    ensures Pruned(es, budget, dirs, i + 1, skipped + {dirs[i]},
                   log + [Skip(dirs[i], Charge(es, dirs[i], skipped), true)])
  {
    hide LogSound, Charge, Sorted, SkipPaths, SkippedBytes;
    var rel, bytes := dirs[i], Charge(es, dirs[i], skipped);
    PrunedLog(es, budget, dirs, i, skipped, log);
    hide IsFolder;
    SkipPathsAppend(log, Skip(rel, bytes, true));
    forall j | 0 <= j < i ensures Charge(es, dirs[j], skipped + {rel}) <= budget {
      ChargeShrinks(es, skipped, rel, dirs[j]);
    }
    SkippedIsEmpty(es, skipped, rel);
    assert dirs[..i + 1] == dirs[..i] + [rel];
  }

  lemma PrunedLog(es: seq<Entry>, budget: nat, dirs: seq<Path>, i: nat, skipped: set<Path>, log: seq<Skip>)
    requires Pruned(es, budget, dirs, i, skipped, log) && i < |dirs| && Sorted(DirectoryBefore, dirs)
    requires forall d | IsFolder(es, d) :: d in dirs
    requires IsFolder(es, dirs[i]) && Charge(es, dirs[i], skipped) > budget
    ensures LogSound(es, budget, log + [Skip(dirs[i], Charge(es, dirs[i], skipped), true)])
  {
    InnerFoldersDone(es, dirs, i, skipped, budget);
    LogAppend(es, budget, log, Skip(dirs[i], Charge(es, dirs[i], skipped), true));
  }

  lemma PrunedAll(es: seq<Entry>, budget: nat, dirs: seq<Path>, skipped: set<Path>, log: seq<Skip>)
    requires Pruned(es, budget, dirs, |dirs|, skipped, log)
    requires forall d | IsFolder(es, d) :: d in dirs
    requires forall d | d in dirs :: IsFolder(es, d)
    ensures FoldersFit(es, skipped, budget)
    ensures LogSound(es, budget, log) && skipped == SkipPaths(log)
    ensures forall r | r in skipped :: IsFolder(es, r)
    ensures forall k | 0 <= k < |log| :: log[k].directory && log[k].bytes > budget
  {
    assert dirs[..|dirs|] == dirs;
    forall d | IsFolder(es, d) ensures Charge(es, d, skipped) <= budget {
      var j :| 0 <= j < |dirs| && dirs[j] == d;
    }
  }

  // ---- Dropping, step by step ---------------------------------------------------------------------

  function Elements(groups: seq<Group>): set<Group> {
    set g | g in groups
  }

  function AsSkip(g: Group): Skip {
    Skip(g.path, g.size, g.directory)
  }

  function Warnings(groups: seq<Group>): seq<Skip> {
    seq(|groups|, k requires 0 <= k < |groups| => AsSkip(groups[k]))
  }

  lemma GroupsSlashFree(es: seq<Entry>, skipped: set<Path>, groups: set<Group>)
    requires ProperEntries(es) && RootGroups(es, skipped, groups)
    ensures forall g | g in groups :: SlashFree(g.path)
  {
    FoldersSlashFree(es);
    forall g | g in groups ensures SlashFree(g.path) {
      assert GroupExact(es, skipped, g);
    }
  }

  /** The second phase after `i` groups. */
  ghost predicate Dropping(es: seq<Entry>, budget: nat, baseLog: seq<Skip>, groups: seq<Group>, i: nat,
                           skipped: set<Path>, log: seq<Skip>)
  {
    && i <= |groups|
    && skipped == SkipPaths(log)
    && log == baseLog + Warnings(groups[..i])
    && LogSound(es, budget, log)
    && FoldersFit(es, skipped, budget)
    && (forall j | i <= j < |groups| :: GroupExact(es, skipped, groups[j]))
  }

  lemma DroppingStarts(es: seq<Entry>, budget: nat, base: set<Path>, baseLog: seq<Skip>, groups: seq<Group>)
    requires RootGroups(es, base, Elements(groups)) && base == SkipPaths(baseLog)
    requires LogSound(es, budget, baseLog) && FoldersFit(es, base, budget)
    ensures Dropping(es, budget, baseLog, groups, 0, base, baseLog)
  {
    assert groups[..0] == [] && baseLog + [] == baseLog;
    forall j | 0 <= j < |groups| ensures GroupExact(es, base, groups[j]) {
      assert groups[j] in Elements(groups);
    }
  }

  lemma GroupPathsDiffer(es: seq<Entry>, base: set<Path>, groups: seq<Group>, i: nat, j: nat)
    requires RootGroups(es, base, Elements(groups)) && Sorted(GroupBefore, groups) && i < j < |groups|
    ensures groups[i].path != groups[j].path
    ensures groups[i].size >= groups[j].size
  {
    assert groups[i] in Elements(groups) && groups[j] in Elements(groups);
    assert GroupBefore(groups[i], groups[j]);
    StringLessIrreflexive(Join(groups[i].path));
  }

  lemma DropKeepsExact(es: seq<Entry>, base: set<Path>, groups: seq<Group>, i: nat, skipped: set<Path>)
    requires RootGroups(es, base, Elements(groups)) && Sorted(GroupBefore, groups) && i < |groups|
    requires forall j | i <= j < |groups| :: GroupExact(es, skipped, groups[j])
    ensures forall j | i < j < |groups| :: GroupExact(es, skipped + {groups[i].path}, groups[j])
  {
    var g := groups[i];
    forall j | i < j < |groups| ensures GroupExact(es, skipped + {g.path}, groups[j]) {
      GroupPathsDiffer(es, base, groups, i, j);
      assert groups[j].path[..1] == groups[j].path && g.path[..1] == g.path;
      SkipApart(es, skipped, g.path, groups[j].path);
    }
  }

  lemma FitShrinks(es: seq<Entry>, skipped: set<Path>, r: Path, budget: nat)
    requires FoldersFit(es, skipped, budget) && r != []
    ensures FoldersFit(es, skipped + {r}, budget)
  {
    forall d | IsFolder(es, d) ensures Charge(es, d, skipped + {r}) <= budget {
      ChargeShrinks(es, skipped, r, d);
    }
  }

  lemma DropNext(es: seq<Entry>, budget: nat, base: set<Path>, baseLog: seq<Skip>, groups: seq<Group>, i: nat,
                 skipped: set<Path>, log: seq<Skip>)
    requires RootGroups(es, base, Elements(groups)) && Sorted(GroupBefore, groups)
    requires Dropping(es, budget, baseLog, groups, i, skipped, log) && i < |groups|
    ensures |groups[i].path| == 1 && groups[i].size == Charge(es, groups[i].path, skipped)
    ensures Dropping(es, budget, baseLog, groups, i + 1, skipped + {groups[i].path}, log + [AsSkip(groups[i])])
    ensures forall k | 0 <= k < i :: groups[k].size >= groups[i].size
  {
    hide LogSound, RootGroups, Sorted;
    var g := groups[i];
    assert GroupExact(es, skipped, g);
    LogAppend(es, budget, log, AsSkip(g));
    SkipPathsAppend(log, AsSkip(g));
    assert Warnings(groups[..i + 1]) == Warnings(groups[..i]) + [AsSkip(g)];
    FitShrinks(es, skipped, g.path, budget);
    DropKeepsExact(es, base, groups, i, skipped);
    forall k | 0 <= k < i ensures groups[k].size >= groups[i].size {
      GroupPathsDiffer(es, base, groups, k, i);
    }
  }

  lemma DroppedSoFar(es: seq<Entry>, budget: nat, baseLog: seq<Skip>, groups: seq<Group>, i: nat, skipped: set<Path>,
                     log: seq<Skip>)
    requires Dropping(es, budget, baseLog, groups, i, skipped, log)
    ensures log == baseLog + Warnings(groups[..i]) && LogSound(es, budget, log)
  {}

  /** With every root group gone no byte is left. */
  lemma DroppedAll(es: seq<Entry>, budget: nat, base: set<Path>, baseLog: seq<Skip>, groups: seq<Group>,
                   skipped: set<Path>, log: seq<Skip>)
    requires ProperEntries(es) && RootGroups(es, base, Elements(groups)) && base == SkipPaths(baseLog)
    requires Dropping(es, budget, baseLog, groups, |groups|, skipped, log)
    ensures Sum(es, Live(skipped)) == 0
  {
    assert groups[..|groups|] == groups;
    forall k | 0 <= k < |groups| ensures groups[k].path in skipped {
      assert log[|baseLog| + k] == AsSkip(groups[k]);
    }
    forall k | 0 <= k < |baseLog| ensures baseLog[k].path in skipped {
      assert log[k] == baseLog[k];
    }
    forall i | 0 <= i < |es| && Size(es[i]) > 0 ensures Covered(es[i].path, skipped) {
      var r := es[i].path[..1];
      if r !in base {
        assert |es[i].path| > 1 ==> IsUnder(es[i].path, r);
        assert |es[i].path| == 1 ==> r == es[i].path;
        assert IsRootGroup(es, base, r);
        var g :| g in Elements(groups) && g.path == r;
        var k :| 0 <= k < |groups| && groups[k] == g;
      }
      assert es[i].path[..1] in skipped;
    }
    SumNothing(es, Live(skipped));
  }

  // ---- The whole selection ------------------------------------------------------------------------

  /** What a selection within `budget` promises. The first `pruned` warnings are pruned folders;
      the others are the first of `groups`, the root groups left after pruning in drop order. */
  ghost predicate Chosen(es: seq<Entry>, budget: nat, selected: seq<Entry>, log: seq<Skip>, pruned: nat,
                         groups: seq<Group>)
  {
    // selected is everything no warning covers, it fits, and no byte is unaccounted for
    && selected == Keep(es, SkipPaths(log))
    && Total(selected) <= budget
    && Total(selected) + SkippedBytes(log) == Total(es)
    // each warning is exact, and putting its bytes back would exceed the budget
    && LogSound(es, budget, log)
    && (forall k | 0 <= k < |log| :: Total(selected) + log[k].bytes > budget)
    // the first phase prunes exactly until every folder left in fits
    && pruned <= |log|
    && (forall k | 0 <= k < pruned :: log[k].directory && log[k].bytes > budget)
    && FoldersFit(es, SkipPaths(log[..pruned]), budget)
    // the second phase takes the largest groups
    && RootGroups(es, SkipPaths(log[..pruned]), Elements(groups)) && Sorted(GroupBefore, groups)
    && |log| - pruned <= |groups| && log[pruned..] == Warnings(groups[..|log| - pruned])
  }

  method KeepUncovered(entries: seq<Entry>, skipped: set<Path>) returns (selected: seq<Entry>)
    requires forall i | 0 <= i < |entries| :: entries[i].path != []
    ensures selected == Keep(entries, skipped)
  {
    selected := [];
    for i := 0 to |entries|
      invariant selected == Keep(entries[..i], skipped)
    {
      var path := entries[i].path;
      var omit := path in skipped;
      assert path[..|path|] == path;
      var n := |path| - 1;
      while n > 0
        invariant 0 <= n < |path|
        invariant omit <==> exists m | n < m <= |path| :: path[..m] in skipped
      {
        omit := omit || path[..n] in skipped;
        n := n - 1;
      }
      assert entries[..i + 1][..i] == entries[..i];
      if !omit {
        selected := selected + [entries[i]];
      }
    }
    assert entries[..|entries|] == entries;
  }

  lemma ChosenFrom(es: seq<Entry>, budget: nat, prunedLog: seq<Skip>, groups: seq<Group>, n: nat, log: seq<Skip>)
    requires n <= |groups| && log == prunedLog + Warnings(groups[..n])
    requires LogSound(es, budget, log)
    requires forall k | 0 <= k < |prunedLog| :: prunedLog[k].directory && prunedLog[k].bytes > budget
    requires FoldersFit(es, SkipPaths(prunedLog), budget)
    requires RootGroups(es, SkipPaths(prunedLog), Elements(groups)) && Sorted(GroupBefore, groups)
    requires var total := Total(Keep(es, SkipPaths(log)));
             && total <= budget && total + SkippedBytes(log) == Total(es)
             && forall k | 0 <= k < n :: total + groups[k].size > budget
    ensures Chosen(es, budget, Keep(es, SkipPaths(log)), log, |prunedLog|, groups)
  {
    hide LogSound, FoldersFit, RootGroups, Sorted, SkipPaths, Keep, Total, SkippedBytes, Elements;
    assert log[..|prunedLog|] == prunedLog && log[|prunedLog|..] == Warnings(groups[..n]);
    forall k | 0 <= k < |log| ensures Total(Keep(es, SkipPaths(log))) + log[k].bytes > budget {
      if k >= |prunedLog| {
        assert log[k] == AsSkip(groups[..n][k - |prunedLog|]);
      }
    }
  }

  /** The whole selection, from `es`, what the paths lead to. */
  method SelectEntries(tree: Tree, paths: seq<Path>, budget: nat)
    returns (r: Result<seq<Entry>>, log: seq<Skip>, ghost es: seq<Entry>, ghost pruned: nat, ghost groups: seq<Group>)
    requires Rooted(tree)
    requires forall i, j | 0 <= i < j < |paths| :: paths[i] != paths[j]
    ensures r.Ok? <==> forall i | 0 <= i < |paths| ::
              ValidPath(paths[i]) && paths[i] in tree && (tree[paths[i]].Regular? || tree[paths[i]].Symlink?)
    ensures r.Ok? ==> |es| == |paths| && (forall i | 0 <= i < |paths| :: es[i] == Entry(paths[i], tree[paths[i]]))
                      && Chosen(es, budget, r.value, log, pruned, groups)
    ensures r.Err? ==> exists i | 0 <= i < |paths| ::
              (forall j | 0 <= j < i :: ValidPath(paths[j]) && paths[j] in tree
                                        && (tree[paths[j]].Regular? || tree[paths[j]].Symlink?))
              && (r.refusal.UnsafePath? <==> !ValidPath(paths[i]))
              && (r.refusal.Unreadable? <==> ValidPath(paths[i]) && paths[i] !in tree)
              && r.refusal.path == paths[i]
  {
    hide Chosen, Tracked, LogSound, FoldersFit, ProperEntries, RootGroups, Sorted, Total, Sum, Keep, SkippedBytes,
         Warnings, ValidComponent;
    var selection := new Selection();
    r := selection.Measure(tree, paths);
    log, es, pruned, groups := [], [], 0, [];
    if r.Ok? {
      var entries := r.value;
      es := entries;
      EntriesProper(tree, paths, entries);
      MeasuredTracked(entries, selection.total, selection.directoryBytes);
      assert forall d :: d in selection.directoryBytes <==> IsFolder(entries, d);
      selection.LogStarts(entries, budget);
      selection.PruneFolders(entries, budget);
      ghost var prunedLog := selection.log;
      ghost var n;
      groups, n := selection.DropGroups(entries, budget);
      log := selection.log;
      pruned := |prunedLog|;
      assert forall i | 0 <= i < |entries| :: entries[i].path == paths[i] != [];
      var selected := KeepUncovered(entries, selection.skipped);
      KeepTotal(entries, selection.skipped);
      ChosenFrom(entries, budget, prunedLog, groups, n, log);
      r := Ok(selected);
    }
  }

  lemma {:induction false} SkippedAtLeast(log: seq<Skip>, k: nat)
    requires k < |log| && forall j | 0 <= j < |log| :: log[j].bytes >= 0
    ensures SkippedBytes(log) >= log[k].bytes
  {
    var init := log[..|log| - 1];
    assert forall j | 0 <= j < |init| :: init[j] == log[j];
    if k < |init| {
      SkippedAtLeast(init, k);
    } else {
      SkippedNonNegative(init);
    }
  }

  lemma {:induction false} SkippedNonNegative(log: seq<Skip>)
    requires forall j | 0 <= j < |log| :: log[j].bytes >= 0
    ensures SkippedBytes(log) >= 0
  {
    if log != [] {
      var init := log[..|log| - 1];
      assert forall j | 0 <= j < |init| :: init[j] == log[j];
      SkippedNonNegative(init);
    }
  }

  /** When everything fits, nothing is skipped. */
  lemma NothingSkippedWhenAllFits(es: seq<Entry>, budget: nat, selected: seq<Entry>, log: seq<Skip>, pruned: nat,
                                  groups: seq<Group>)
    requires Chosen(es, budget, selected, log, pruned, groups) && Total(es) <= budget
    ensures selected == es && log == []
  {
    hide RootGroups, FoldersFit, Sorted;
    if log != [] {
      assert forall j | 0 <= j < |log| :: log[j].bytes >= 0;
      SkippedAtLeast(log, 0);
    }
    assert SkipPaths([]) == {};
    KeepAll(es);
  }
}
