/** Paths and file trees as cmd/agent/workspace_untracked_snapshot.go sees them. A slash-separated
    relative path is the sequence of its components; a tree maps paths to what Lstat reports. */
module WorkspaceTree {

  import opened RawBytes
  import opened Wrappers

  type Path = seq<string>

  /** What is at a path: `Other` is any file type that is neither regular, link nor directory. */
  datatype Node =
    | Regular(content: seq<byte>, mode: nat)
    | Symlink(target: string)
    | Directory
    | Other

  type Tree = map<Path, Node>

  /** `d` is a directory above `p`: one of the parents the source walks up to ".". */
  predicate IsUnder(p: Path, d: Path) {
    0 < |d| < |p| && p[..|d|] == d
  }

  /** Every path of a file tree hangs below directories. */
  ghost predicate Rooted(tree: Tree) {
    forall p, n | p in tree && 0 < n < |p| :: p[..n] in tree && tree[p[..n]].Directory?
  }

  function LowerAscii(s: string): string {
    seq(|s|, i requires 0 <= i < |s| => if 'A' <= s[i] <= 'Z' then s[i] - 'A' + 'a' else s[i])
  }

  predicate ValidComponent(c: string) {
    && c != "" && c != "." && c != ".."
    && '/' !in c && '\\' !in c && '\0' !in c
    && LowerAscii(c) != ".git"
  }

  /** What validateWorkspaceArchivePath accepts, by components: ValidNameIff. */
  predicate ValidPath(p: Path) {
    p != [] && forall i | 0 <= i < |p| :: ValidComponent(p[i])
  }

  /** The components joined with slashes. */
  function Join(p: Path): string {
    if p == [] then "" else if |p| == 1 then p[0] else p[0] + "/" + Join(p[1..])
  }

  lemma {:induction false} SplitUnique(a: string, b: string, a': string, b': string)
    requires '/' !in a && '/' !in a' && a + "/" + b == a' + "/" + b'
    ensures a == a' && b == b'
  {
    var s := a + "/" + b;
    assert s[|a|] == '/' && forall i | 0 <= i < |a| :: s[i] == a[i];
    assert s[|a'|] == '/' && forall i | 0 <= i < |a'| :: s[i] == a'[i];
    assert a == s[..|a|] == s[..|a'|] == a';
    assert b == s[|a| + 1..] == s[|a'| + 1..] == b';
  }

  lemma SlashIffNested(p: Path)
    requires p != [] && forall i | 0 <= i < |p| :: '/' !in p[i]
    ensures '/' in Join(p) <==> |p| > 1
  {
    if |p| > 1 {
      assert Join(p)[|p[0]|] == '/';
    }
  }

  /** Different valid paths are different strings, so nothing is lost by working on components. */
  lemma {:induction false} JoinInjective(p: Path, q: Path)
    requires p != [] && q != []
    requires forall i | 0 <= i < |p| :: '/' !in p[i]
    requires forall i | 0 <= i < |q| :: '/' !in q[i]
    requires Join(p) == Join(q)
    ensures p == q
    decreases |p|
  {
    SlashIffNested(p);
    SlashIffNested(q);
    if |p| > 1 {
      SplitUnique(p[0], Join(p[1..]), q[0], Join(q[1..]));
      JoinInjective(p[1..], q[1..]);
      assert p == [p[0]] + p[1..] && q == [q[0]] + q[1..];
    }
  }

  lemma {:induction false} JoinAppend(d: Path, rest: Path)
    requires d != [] && rest != []
    ensures Join(d + rest) == Join(d) + "/" + Join(rest)
    decreases |d|
  {
    assert (d + rest)[1..] == d[1..] + rest;
    if |d| > 1 {
      JoinAppend(d[1..], rest);
    }
  }

  /** A directory is above a path exactly if its name and a slash start the path's name. */
  lemma UnderIff(p: Path, d: Path)
    requires p != [] && d != []
    requires forall i | 0 <= i < |p| :: '/' !in p[i]
    requires forall i | 0 <= i < |d| :: '/' !in d[i]
    ensures IsUnder(p, d) <==> Join(d) + "/" <= Join(p)
  {
    if IsUnder(p, d) {
      assert p == d + p[|d|..];
      JoinAppend(d, p[|d|..]);
    }
    if Join(d) + "/" <= Join(p) {
      var below := Split(Join(p)[|Join(d)| + 1..]);
      JoinAppend(d, below);
      assert Join(p) == Join(d) + "/" + Join(below);
      assert forall i | 0 <= i < |d + below| :: '/' !in (d + below)[i];
      JoinInjective(p, d + below);
      assert p[..|d|] == d;
    }
  }

  // ---- Names as strings ---------------------------------------------------------------------------

  /** What lies between the slashes of a name, as strings.Split has it. */
  function Split(s: string): (r: Path)
    ensures r != [] && forall i | 0 <= i < |r| :: '/' !in r[i]
    ensures Join(r) == s
  {
    if s == "" then [""]
    else
      var rest := Split(s[1..]);
      if s[0] == '/' then JoinCons("", rest); [""] + rest
      else JoinGrows(s[0], rest); [[s[0]] + rest[0]] + rest[1..]
  }

  lemma JoinCons(c: string, rest: Path)
    requires rest != []
    ensures Join([c] + rest) == c + "/" + Join(rest)
  {
    assert ([c] + rest)[1..] == rest;
  }

  lemma JoinGrows(c: char, rest: Path)
    requires rest != []
    ensures Join([[c] + rest[0]] + rest[1..]) == [c] + Join(rest)
  {
    assert ([[c] + rest[0]] + rest[1..])[1..] == rest[1..];
  }

  /** path.Clean on components: empty ones and dots go, and a double dot takes the name before it
      along, or stays at the front of a relative path, or goes at the front of a rooted one. */
  function CleanOnto(kept: Path, names: Path, rooted: bool): Path
    decreases |names|
  {
    if names == [] then kept
    else
      var next :=
        if names[0] == "" || names[0] == "." then kept
        else if names[0] != ".." then kept + [names[0]]
        else if kept != [] && kept[|kept| - 1] != ".." then kept[..|kept| - 1]
        else if rooted then kept
        else kept + [".."];
      CleanOnto(next, names[1..], rooted)
  }

  function CleanName(s: string): string {
    var rooted := s != "" && s[0] == '/';
    var kept := CleanOnto([], Split(s), rooted);
    if rooted then "/" + Join(kept) else if kept == [] then "." else Join(kept)
  }

  /** The checks of validateWorkspaceArchivePath, in order. */
  predicate ValidName(rel: string) {
    && rel != "" && '\0' !in rel && '\\' !in rel
    && var clean := CleanName(rel);
       clean == rel && clean != "." && clean != "" && clean[0] != '/' && clean != ".." && !("../" <= clean)
       && forall i | 0 <= i < |Split(clean)| :: LowerAscii(Split(clean)[i]) != ".git"
  }

  /** What cleaning keeps: no empty names or dots, and double dots only at the front. */
  predicate Cleaned(kept: Path) {
    && (forall i | 0 <= i < |kept| :: kept[i] != "" && kept[i] != "." && '/' !in kept[i])
    && (forall i | 0 <= i < |kept| && kept[i] == ".." :: kept[0] == "..")
  }

  lemma {:induction false} CleanOntoCleaned(kept: Path, names: Path)
    requires Cleaned(kept) && (forall i | 0 < i < |kept| && kept[i] == ".." :: kept[i - 1] == "..")
    requires forall i | 0 <= i < |names| :: '/' !in names[i]
    ensures Cleaned(CleanOnto(kept, names, false))
    decreases |names|
  {
    if names != [] {
      if names[0] == "" || names[0] == "." {
        CleanOntoCleaned(kept, names[1..]);
      } else if names[0] != ".." {
        CleanOntoCleaned(kept + [names[0]], names[1..]);
      } else if kept != [] && kept[|kept| - 1] != ".." {
        CleanOntoCleaned(kept[..|kept| - 1], names[1..]);
      } else {
        CleanOntoCleaned(kept + [".."], names[1..]);
      }
    }
  }

  lemma {:induction false} CleanOntoPlain(kept: Path, names: Path, rooted: bool)
    requires forall i | 0 <= i < |names| :: names[i] != "" && names[i] != "." && names[i] != ".."
    ensures CleanOnto(kept, names, rooted) == kept + names
    decreases |names|
  {
    if names == [] {
      assert kept + names == kept;
    } else {
      CleanOntoPlain(kept + [names[0]], names[1..], rooted);
      assert kept + [names[0]] + names[1..] == kept + names;
    }
  }

  lemma JoinedChars(p: Path, i: nat, c: char)
    requires i < |p| && c in p[i]
    ensures c in Join(p)
    decreases |p|
  {
    if i > 0 {
      JoinedChars(p[1..], i - 1, c);
    }
  }

  lemma DoubleDotAhead(p: Path)
    requires p != [] && forall i | 0 <= i < |p| :: '/' !in p[i]
    ensures Join(p) == ".." || "../" <= Join(p) <==> p[0] == ".."
  {
    SlashIffNested(p);
    assert "../" <= Join(p) ==> Join(p)[2] == '/' && Join(p) == ".." + "/" + Join(p)[3..];
    if |p| > 1 {
      assert Join(p) == p[0] + "/" + Join(p[1..]);
      if "../" <= Join(p) {
        SplitUnique("..", Join(p)[3..], p[0], Join(p[1..]));
      }
    }
  }

  lemma ValidNameIsPlain(rel: string)
    requires ValidName(rel)
    ensures ValidPath(Split(rel))
  {
    var names := Split(rel);
    var kept := CleanOnto([], names, false);
    CleanOntoCleaned([], names);
    JoinInjective(kept, names);
    DoubleDotAhead(names);
    forall i | 0 <= i < |names| ensures '\\' !in names[i] && '\0' !in names[i] {
      if '\\' in names[i] {
        JoinedChars(names, i, '\\');
      }
      if '\0' in names[i] {
        JoinedChars(names, i, '\0');
      }
    }
  }

  lemma {:induction false} PlainChars(p: Path, c: char)
    requires c != '/' && forall i | 0 <= i < |p| :: c !in p[i]
    ensures c !in Join(p)
    decreases |p|
  {
    if |p| > 1 {
      PlainChars(p[1..], c);
      assert forall i | 0 <= i < |Join(p)| ::
          Join(p)[i] == if i < |p[0]| then p[0][i] else if i == |p[0]| then '/' else Join(p[1..])[i - |p[0]| - 1];
    }
  }

  lemma PlainIsValidName(p: Path)
    requires ValidPath(p)
    ensures ValidName(Join(p)) && Split(Join(p)) == p
  {
    var rel := Join(p);
    JoinInjective(Split(rel), p);
    CleanOntoPlain([], p, false);
    assert [] + p == p;
    PlainChars(p, '\0');
    PlainChars(p, '\\');
    assert rel[0] == p[0][0];
    SlashIffNested(p);
    DoubleDotAhead(p);
  }

  /** validateWorkspaceArchivePath accepts exactly the names whose components are all plain. */
  lemma ValidNameIff(rel: string)
    ensures ValidName(rel) <==> ValidPath(Split(rel))
  {
    if ValidName(rel) {
      ValidNameIsPlain(rel);
    }
    if ValidPath(Split(rel)) {
      PlainIsValidName(Split(rel));
    }
  }

  // ---- Where names lead ---------------------------------------------------------------------------

  /** Following names one by one from a directory given by its path below the root: an empty name or
      a dot stays, a double dot goes up, which leaves the root from the root itself. */
  function Follow(at: Path, names: Path): Option<Path>
    decreases |names|
  {
    if names == [] then Some(at)
    else if names[0] == "" || names[0] == "." then Follow(at, names[1..])
    else if names[0] != ".." then Follow(at + [names[0]], names[1..])
    else if at == [] then None
    else Follow(at[..|at| - 1], names[1..])
  }

  lemma {:induction false} FollowLast(at: Path, names: Path, name: string)
    ensures var p := Follow(at, names); Follow(at, names + [name]) == if p.None? then None else Follow(p.value, [name])
    decreases |names|
  {
    if names == [] {
      assert names + [name] == [name];
    } else {
      var next := if names[0] == "" || names[0] == "." then at
                  else if names[0] != ".." then at + [names[0]]
                  else if at == [] then [] else at[..|at| - 1];
      assert (names + [name])[1..] == names[1..] + [name];
      FollowLast(next, names[1..], name);
    }
  }

  /** Git's own directory, in any case. */
  predicate IsGit(c: string) {
    && |c| == 4 && c[0] == '.' && (c[1] == 'g' || c[1] == 'G')
    && (c[2] == 'i' || c[2] == 'I') && (c[3] == 't' || c[3] == 'T')
  }

  /** Every step leads one level further below the root, by the name given. */
  ghost predicate StaysBelow(p: Path) {
    forall n | 0 <= n <= |p| :: Follow([], p[..n]) == Some(p[..n])
  }

  lemma GitInAnyCase(c: string)
    ensures LowerAscii(c) == ".git" <==> IsGit(c)
  {
    if LowerAscii(c) == ".git" {
      assert LowerAscii(c)[0] == '.' && LowerAscii(c)[1] == 'g' && LowerAscii(c)[2] == 'i' && LowerAscii(c)[3] == 't';
    }
  }

  lemma {:induction false} PlainStaysBelow(p: Path, n: nat)
    requires n <= |p| && forall i | 0 <= i < |p| :: p[i] != "" && p[i] != "." && p[i] != ".."
    ensures Follow([], p[..n]) == Some(p[..n])
  {
    if n > 0 {
      PlainStaysBelow(p, n - 1);
      assert p[..n] == p[..n - 1] + [p[n - 1]];
      FollowLast([], p[..n - 1], p[n - 1]);
    }
  }

  lemma OthersDoNot(p: Path, i: nat)
    requires i < |p| && (p[i] == "" || p[i] == "." || p[i] == "..")
    ensures Follow([], p[..i]) == Some(p[..i]) ==> Follow([], p[..i + 1]) != Some(p[..i + 1])
  {
    assert p[..i + 1] == p[..i] + [p[i]];
    FollowLast([], p[..i], p[i]);
  }

  /** Which paths are valid: exactly those that lead strictly further below the root at every step,
      never through Git's own directory, and whose names hold no separator and no NUL. */
  lemma ValidPathIff(p: Path)
    ensures ValidPath(p) <==>
              && p != [] && StaysBelow(p)
              && forall i | 0 <= i < |p| :: !IsGit(p[i]) && '/' !in p[i] && '\\' !in p[i] && '\0' !in p[i]
  {
    forall i | 0 <= i < |p| ensures LowerAscii(p[i]) == ".git" <==> IsGit(p[i]) {
      GitInAnyCase(p[i]);
    }
    if forall i | 0 <= i < |p| :: p[i] != "" && p[i] != "." && p[i] != ".." {
      forall n | 0 <= n <= |p| ensures Follow([], p[..n]) == Some(p[..n]) {
        PlainStaysBelow(p, n);
      }
    } else if StaysBelow(p) {
      var i :| 0 <= i < |p| && (p[i] == "" || p[i] == "." || p[i] == "..");
      OthersDoNot(p, i);
    }
  }
}
