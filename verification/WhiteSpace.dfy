/** White space around texts, as strings.TrimSpace removes it. */
module WhiteSpace {

  /** unicode.IsSpace. */
  predicate IsSpace(c: char) {
    || '\t' <= c <= '\r' || c == ' ' || c == '\U{85}' || c == '\U{A0}' || c == '\U{1680}'
    || '\U{2000}' <= c <= '\U{200A}' || c == '\U{2028}' || c == '\U{2029}' || c == '\U{202F}'
    || c == '\U{205F}' || c == '\U{3000}'
  }

  /** The code points that Unicode counts as white space. */
  const SPACES := {
    0x9, 0xA, 0xB, 0xC, 0xD, 0x20, 0x85, 0xA0, 0x1680, 0x2000, 0x2001, 0x2002, 0x2003, 0x2004, 0x2005, 0x2006,
    0x2007, 0x2008, 0x2009, 0x200A, 0x2028, 0x2029, 0x202F, 0x205F, 0x3000
  }

  lemma SpacesAre(c: char)
    ensures IsSpace(c) <==> c as int in SPACES
  {
  }

  /** strings.TrimSpace. */
  function TrimLeft(s: string): string {
    if s == "" || !IsSpace(s[0]) then s else TrimLeft(s[1..])
  }

  function TrimRight(s: string): string {
    if s == "" || !IsSpace(s[|s| - 1]) then s else TrimRight(s[..|s| - 1])
  }

  function Trim(s: string): string {
    TrimRight(TrimLeft(s))
  }

  predicate Blank(s: string) {
    forall i | 0 <= i < |s| :: IsSpace(s[i])
  }

  /** `t` is what stays of `s` without the white space around it. */
  ghost predicate TrimmedTo(s: string, t: string) {
    && t != "" && !IsSpace(t[0]) && !IsSpace(t[|t| - 1])
    && exists i :: TrimmedAt(s, t, i)
  }

  ghost predicate TrimmedAt(s: string, t: string, i: int) {
    && 0 <= i <= |s| - |t| && s[i..i + |t|] == t
    && (forall k | 0 <= k < i :: IsSpace(s[k])) && (forall k | i + |t| <= k < |s| :: IsSpace(s[k]))
  }

  lemma {:induction false} TrimLeftIs(s: string) returns (i: nat)
    ensures i <= |s| && TrimLeft(s) == s[i..]
    ensures (forall k | 0 <= k < i :: IsSpace(s[k])) && (i < |s| ==> !IsSpace(s[i]))
  {
    hide IsSpace;
    if s == "" || !IsSpace(s[0]) {
      i := 0;
    } else {
      i := TrimLeftIs(s[1..]);
      assert forall k | 0 <= k < i :: IsSpace(s[1..][k]);
      assert forall k | 0 < k < i + 1 :: s[k] == s[1..][k - 1];
      assert s[1..][i..] == s[i + 1..];
      i := i + 1;
    }
  }

  lemma {:induction false} TrimRightIs(s: string) returns (j: nat)
    ensures j <= |s| && TrimRight(s) == s[..j]
    ensures (forall k | j <= k < |s| :: IsSpace(s[k])) && (j > 0 ==> !IsSpace(s[j - 1]))
  {
    hide IsSpace;
    if s == "" || !IsSpace(s[|s| - 1]) {
      j := |s|;
    } else {
      j := TrimRightIs(s[..|s| - 1]);
      assert s[..|s| - 1][..j] == s[..j];
    }
  }

  /** Trimming takes away exactly the white space around a text. */
  lemma TrimIs(s: string)
    ensures if Blank(s) then Trim(s) == "" else TrimmedTo(s, Trim(s))
  {
    hide IsSpace, TrimLeft, TrimRight;
    var i := TrimLeftIs(s);
    var l := s[i..];
    var j := TrimRightIs(l);
    if i < |s| {
      assert l[0] == s[i];
      assert j > 0;
      assert forall k | j <= k < |l| :: s[i + k] == l[k];
      forall k | i + j <= k < |s| ensures IsSpace(s[k]) {
        assert s[k] == l[k - i];
      }
      assert s[i..i + j] == l[..j];
      assert TrimmedAt(s, l[..j], i);
    }
  }
}
