/** The selection of cmd/agent/workspace_untracked_snapshot.go depends on the entries and the budget
    alone: not on the order in which Go walks its maps, nor on how sorting breaks ties. */
module ArchiveDeterminism {
  import opened WorkspaceTree
  import opened Sorting
  import opened ArchiveSelection

  // ---- What a charge depends on -------------------------------------------------------------------

  /** Skipping more never charges more. */
  lemma ChargeMonotone(es: seq<Entry>, d: Path, less: set<Path>, more: set<Path>)
    requires d != []
    requires forall p | p in less :: p in more || !(Covers(d, p) || Covers(p, d))
    ensures Charge(es, d, more) <= Charge(es, d, less)
  {
    forall i | 0 <= i < |es| && LiveBelow(d, more)(es[i].path) ensures LiveBelow(d, less)(es[i].path) {
      LiveShrinks(es[i].path, d, less, more);
    }
    SumMonotone(es, LiveBelow(d, more), LiveBelow(d, less));
  }

  lemma LiveShrinks(p: Path, d: Path, less: set<Path>, more: set<Path>)
    requires Covers(d, p) && !Covered(p, more)
    requires forall q | q in less :: q in more || !(Covers(d, q) || Covers(q, d))
    ensures !Covered(p, less)
  {
    if Covered(p, less) {
      var n :| 0 < n <= |p| && p[..n] in less;
      CoversComparable(d, p[..n], p);
    }
  }

  lemma {:induction false} SumMonotone(es: seq<Entry>, a: Path -> bool, b: Path -> bool)
    requires forall i | 0 <= i < |es| && a(es[i].path) :: b(es[i].path)
    ensures Sum(es, a) <= Sum(es, b)
  {
    if es != [] {
      var init := es[..|es| - 1];
      assert forall i | 0 <= i < |init| :: init[i] == es[i];
      SumMonotone(init, a, b);
    }
  }

  lemma CoveredChargesNothing(es: seq<Entry>, d: Path, skipped: set<Path>, r: Path)
    requires r in skipped && Covers(r, d)
    ensures Charge(es, d, skipped) == 0
  {
    forall i | 0 <= i < |es| && Size(es[i]) > 0 ensures !LiveBelow(d, skipped)(es[i].path) {
      if Covers(d, es[i].path) {
        CoversTransitive(r, d, es[i].path);
        assert es[i].path[..|r|] in skipped;
      }
    }
    SumNothing(es, LiveBelow(d, skipped));
  }

  // ---- The first phase ----------------------------------------------------------------------------

  /** What the pruned part of a warning log satisfies. */
  ghost predicate Prunes(es: seq<Entry>, budget: nat, log: seq<Skip>) {
    && LogSound(es, budget, log)
    && (forall k | 0 <= k < |log| :: log[k].directory && log[k].bytes > budget)
    && FoldersFit(es, SkipPaths(log), budget)
  }

  lemma SkippedEarlier(log: seq<Skip>, k: nat, j: nat)
    requires j < k <= |log|
    ensures log[j].path in SkipPaths(log[..k])
  {
    assert log[..k][j] == log[j];
  }

  /** When a folder is pruned, nothing above it was before, and nothing inside it is afterwards. */
  lemma PrunedInside(es: seq<Entry>, budget: nat, log: seq<Skip>, k: nat)
    requires Prunes(es, budget, log) && k < |log|
    ensures var d, before := log[k].path, SkipPaths(log[..k]);
            && d != [] && Charge(es, d, before) > budget
            && (forall r | r in before :: !Covers(r, d))
            && (forall q | q in SkipPaths(log) && Covers(d, q) && q != d :: q in before)
  {
    var d, before := log[k].path, SkipPaths(log[..k]);
    assert Skippable(es, log[k]);
    forall r | r in before ensures !Covers(r, d) {
      if Covers(r, d) {
        CoveredChargesNothing(es, d, before, r);
      }
    }
    forall q | q in SkipPaths(log) && Covers(d, q) && q != d ensures q in before {
      var j :| 0 <= j < |log| && log[j].path == q;
      if j > k {
        SkippedEarlier(log, j, k);
        CoveredChargesNothing(es, q, SkipPaths(log[..j]), d);
      } else {
        SkippedEarlier(log, k, j);
      }
    }
  }

  /** A folder that is not pruned fits at a moment when nothing above it is skipped yet. */
  lemma KeptFits(es: seq<Entry>, budget: nat, log: seq<Skip>, d: Path) returns (at: set<Path>)
    requires Prunes(es, budget, log) && IsFolder(es, d) && d !in SkipPaths(log)
    ensures at <= SkipPaths(log) && (forall r | r in at :: !Covers(r, d))
    ensures Charge(es, d, at) <= budget
  {
    assert log[..|log|] == log;
    at := FitsBefore(es, budget, log, d, |log|);
  }

  lemma {:induction false} FitsBefore(es: seq<Entry>, budget: nat, log: seq<Skip>, d: Path, n: nat)
    returns (at: set<Path>)
    requires Prunes(es, budget, log) && IsFolder(es, d) && d !in SkipPaths(log) && n <= |log|
    requires Charge(es, d, SkipPaths(log[..n])) <= budget
    ensures at <= SkipPaths(log) && (forall r | r in at :: !Covers(r, d))
    ensures Charge(es, d, at) <= budget
  {
    at := SkipPaths(log[..n]);
    if r :| r in at && Covers(r, d) {
      var j :| 0 <= j < n && log[..n][j].path == r;
      assert log[j].path == r && r != d;
      assert IsUnder(d, r);
      at := FitsBefore(es, budget, log, d, j);
    }
  }

  lemma PrunedAreFolders(es: seq<Entry>, budget: nat, log: seq<Skip>, d: Path)
    requires Prunes(es, budget, log) && d in SkipPaths(log)
    ensures IsFolder(es, d)
  {
    var k :| 0 <= k < |log| && log[k].path == d;
    assert Skippable(es, log[k]);
  }

  lemma PrunedByBoth(es: seq<Entry>, budget: nat, log: seq<Skip>, other: seq<Skip>, d: Path)
    requires Prunes(es, budget, log) && Prunes(es, budget, other) && d in SkipPaths(log)
    requires forall q | Covers(d, q) && q != d :: q in SkipPaths(log) <==> q in SkipPaths(other)
    ensures d in SkipPaths(other)
  {
    var k :| 0 <= k < |log| && log[k].path == d;
    PrunedInside(es, budget, log, k);
    PrunedAreFolders(es, budget, log, d);
    if d !in SkipPaths(other) {
      var at := KeptFits(es, budget, other, d);
      ChargeMonotone(es, d, at, SkipPaths(log[..k]));
    }
  }

  function Depth(es: seq<Entry>): nat {
    if es == [] then 0
    else
      var rest, last := Depth(es[..|es| - 1]), |es[|es| - 1].path|;
      if last > rest then last else rest
  }

  lemma {:induction false} FoldersBelowDepth(es: seq<Entry>, d: Path)
    requires IsFolder(es, d)
    ensures |d| < Depth(es)
  {
    var i :| 0 <= i < |es| && IsUnder(es[i].path, d);
    if i < |es| - 1 {
      assert es[..|es| - 1][i] == es[i];
      FoldersBelowDepth(es[..|es| - 1], d);
    }
  }

  /** Both runs prune the same folders, by induction from the deepest folder upwards. */
  lemma {:induction false} SamePruned(es: seq<Entry>, budget: nat, log: seq<Skip>, other: seq<Skip>, d: Path)
    requires Prunes(es, budget, log) && Prunes(es, budget, other) && IsFolder(es, d)
    ensures d in SkipPaths(log) <==> d in SkipPaths(other)
    decreases Depth(es) - |d|
  {
    hide Prunes, SkipPaths, IsFolder;
    FoldersBelowDepth(es, d);
    forall q | Covers(d, q) && q != d ensures q in SkipPaths(log) <==> q in SkipPaths(other) {
      if q in SkipPaths(log) {
        PrunedAreFolders(es, budget, log, q);
      }
      if q in SkipPaths(other) {
        PrunedAreFolders(es, budget, other, q);
      }
      if IsFolder(es, q) {
        SamePruned(es, budget, log, other, q);
      }
    }
    if d in SkipPaths(log) {
      PrunedByBoth(es, budget, log, other, d);
    }
    if d in SkipPaths(other) {
      PrunedByBoth(es, budget, other, log, d);
    }
  }

  lemma SamePrunedSet(es: seq<Entry>, budget: nat, log: seq<Skip>, other: seq<Skip>)
    requires Prunes(es, budget, log) && Prunes(es, budget, other)
    ensures SkipPaths(log) == SkipPaths(other)
  {
    hide Prunes, SkipPaths, IsFolder;
    forall d ensures d in SkipPaths(log) <==> d in SkipPaths(other) {
      if d in SkipPaths(log) {
        PrunedAreFolders(es, budget, log, d);
        SamePruned(es, budget, log, other, d);
      }
      if d in SkipPaths(other) {
        PrunedAreFolders(es, budget, other, d);
        SamePruned(es, budget, log, other, d);
      }
    }
  }

  // ---- The second phase ---------------------------------------------------------------------------

  lemma SameGroup(es: seq<Entry>, skipped: set<Path>, g: Group, groups: set<Group>)
    requires ProperEntries(es) && GroupExact(es, skipped, g) && RootGroups(es, skipped, groups)
    ensures g in groups
  {
    assert IsRootGroup(es, skipped, g.path);
    var h :| h in groups && h.path == g.path;
    assert GroupExact(es, skipped, h);
    if IsFolder(es, g.path) {
      FolderHasNoEntry(es, g.path);
    }
  }

  lemma SameGroups(es: seq<Entry>, skipped: set<Path>, a: set<Group>, b: set<Group>)
    requires ProperEntries(es) && RootGroups(es, skipped, a) && RootGroups(es, skipped, b)
    ensures a == b
  {
    forall g ensures g in a <==> g in b {
      if g in a {
        SameGroup(es, skipped, g, b);
      }
      if g in b {
        SameGroup(es, skipped, g, a);
      }
    }
  }

  lemma SameOrder(es: seq<Entry>, skipped: set<Path>, a: seq<Group>, b: seq<Group>)
    requires ProperEntries(es) && RootGroups(es, skipped, Elements(a)) && RootGroups(es, skipped, Elements(b))
    requires Sorted(GroupBefore, a) && Sorted(GroupBefore, b)
    ensures a == b
  {
    hide Sorted, GroupBefore, ProperEntries;
    SameGroups(es, skipped, Elements(a), Elements(b));
    GroupsSlashFree(es, skipped, Elements(a));
    GroupsOrdered(Elements(a));
    forall x ensures x in a <==> x in b {
      assert x in a <==> x in Elements(a);
      assert x in b <==> x in Elements(b);
    }
    SortedUnique(GroupBefore, Elements(a), a, b);
  }

  // ---- The selection ------------------------------------------------------------------------------

  /** All that is skipped while the second phase has dropped the same groups. */
  lemma FewerGroupsSkipLess(log: seq<Skip>, pruned: nat, other: seq<Skip>, otherPruned: nat, groups: seq<Group>)
    requires pruned <= |log| && otherPruned <= |other| && |log| - pruned < |other| - otherPruned <= |groups|
    requires SkipPaths(log[..pruned]) == SkipPaths(other[..otherPruned])
    requires log[pruned..] == Warnings(groups[..|log| - pruned])
             && other[otherPruned..] == Warnings(groups[..|other| - otherPruned])
    ensures SkipPaths(log) <= SkipPaths(other[..|other| - 1])
  {
    var earlier := other[..|other| - 1];
    forall r | r in SkipPaths(log) ensures r in SkipPaths(earlier) {
      var k :| 0 <= k < |log| && log[k].path == r;
      if k < pruned {
        assert log[..pruned][k].path == r;
        assert r in SkipPaths(other[..otherPruned]);
        var j :| 0 <= j < otherPruned && other[..otherPruned][j].path == r;
        assert earlier[j].path == r;
      } else {
        assert log[pruned..][k - pruned] == AsSkip(groups[k - pruned]);
        assert other[otherPruned..][k - pruned] == AsSkip(groups[k - pruned]);
        assert earlier[otherPruned + k - pruned].path == r;
      }
    }
  }

  lemma SameCount(es: seq<Entry>, budget: nat, selected: seq<Entry>, log: seq<Skip>, pruned: nat,
                  other: seq<Entry>, otherLog: seq<Skip>, otherPruned: nat, groups: seq<Group>)
    requires Chosen(es, budget, selected, log, pruned, groups)
             && Chosen(es, budget, other, otherLog, otherPruned, groups)
    requires SkipPaths(log[..pruned]) == SkipPaths(otherLog[..otherPruned])
    ensures |log| - pruned >= |otherLog| - otherPruned
  {
    hide RootGroups, FoldersFit, Sorted, Warnings, SkipPaths, InnermostFirst, Skippable;
    if |log| - pruned < |otherLog| - otherPruned {
      FewerGroupsSkipLess(log, pruned, otherLog, otherPruned, groups);
      var n := |otherLog| - 1;
      var last := otherLog[n];
      assert otherLog == otherLog[..n] + [last];
      SkipPathsAppend(otherLog[..n], last);
      KeepTotal(es, SkipPaths(log));
      KeepTotal(es, SkipPaths(otherLog));
      LastSkippable(es, otherLog);
      SkipTotal(es, SkipPaths(otherLog[..n]), last.path);
      LiveMonotone(es, SkipPaths(log), SkipPaths(otherLog[..n]));
    }
  }

  lemma LastSkippable(es: seq<Entry>, log: seq<Skip>)
    requires log != [] && forall k | 0 <= k < |log| :: Skippable(es, log[k])
    ensures log[|log| - 1].path != []
  {
    assert Skippable(es, log[|log| - 1]);
  }

  lemma LiveMonotone(es: seq<Entry>, less: set<Path>, more: set<Path>)
    requires less <= more
    ensures Sum(es, Live(more)) <= Sum(es, Live(less))
  {
    forall i | 0 <= i < |es| && Live(more)(es[i].path) ensures Live(less)(es[i].path) {
      CoveredByMore(es[i].path, less, more);
    }
    SumMonotone(es, Live(more), Live(less));
  }

  lemma CoveredByMore(p: Path, less: set<Path>, more: set<Path>)
    requires less <= more
    ensures Covered(p, less) ==> Covered(p, more)
  {
    if Covered(p, less) {
      var n :| 0 < n <= |p| && p[..n] in less;
      assert p[..n] in more;
    }
  }

  lemma SamePaths(log: seq<Skip>, pruned: nat, other: seq<Skip>, otherPruned: nat)
    requires pruned <= |log| && otherPruned <= |other|
    requires SkipPaths(log[..pruned]) == SkipPaths(other[..otherPruned]) && log[pruned..] == other[otherPruned..]
    ensures SkipPaths(log) == SkipPaths(other)
  {
    SkipPathsSplit(other, otherPruned);
    SkipPathsSplit(log, pruned);
  }

  lemma SkipPathsSplit(log: seq<Skip>, n: nat)
    requires n <= |log|
    ensures SkipPaths(log) == SkipPaths(log[..n]) + SkipPaths(log[n..])
  {
    forall p | p in SkipPaths(log) ensures p in SkipPaths(log[..n]) + SkipPaths(log[n..]) {
      var k :| 0 <= k < |log| && log[k].path == p;
      if k < n {
        assert log[..n][k].path == p;
      } else {
        assert log[n..][k - n].path == p;
      }
    }
  }

  /** For the same entries and budget every run selects the same entries in the same order, drops the
      same root groups in the same order, and prunes the same folders. */
  lemma SelectionIsDetermined(es: seq<Entry>, budget: nat, selected: seq<Entry>, log: seq<Skip>, pruned: nat,
                              groups: seq<Group>, selected': seq<Entry>, log': seq<Skip>, pruned': nat,
                              groups': seq<Group>)
    requires ProperEntries(es)
    requires Chosen(es, budget, selected, log, pruned, groups) && Chosen(es, budget, selected', log', pruned', groups')
    ensures selected == selected' && groups == groups' && log[pruned..] == log'[pruned'..]
    ensures SkipPaths(log[..pruned]) == SkipPaths(log'[..pruned'])
  {
    hide RootGroups, FoldersFit, Sorted, Warnings, SkipPaths, LogSound, ProperEntries, Keep, Prunes;
    PhaseOne(es, budget, selected, log, pruned, groups);
    PhaseOne(es, budget, selected', log', pruned', groups');
    SamePrunedSet(es, budget, log[..pruned], log'[..pruned']);
    SameOrder(es, SkipPaths(log[..pruned]), groups, groups');
    SameCount(es, budget, selected, log, pruned, selected', log', pruned', groups);
    SameCount(es, budget, selected', log', pruned', selected, log, pruned, groups);
    SamePaths(log, pruned, log', pruned');
  }

  lemma PhaseOne(es: seq<Entry>, budget: nat, selected: seq<Entry>, log: seq<Skip>, pruned: nat, groups: seq<Group>)
    requires Chosen(es, budget, selected, log, pruned, groups)
    ensures Prunes(es, budget, log[..pruned])
  {
    hide RootGroups, FoldersFit, Sorted;
    var first := log[..pruned];
    forall k | 0 <= k < |first| ensures first[k] == log[k] && first[..k] == log[..k] {}
  }
}
