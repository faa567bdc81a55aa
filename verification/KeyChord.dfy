/** Key chords such as cmd+c, as parsed by internal/computeruse/protocol.go. Characters stand for
    ASCII bytes. */
module KeyChord {
  import opened Wrappers

  datatype Modifier = Cmd | Ctrl | Alt | Shift | Fn

  datatype Chord = Chord(held: set<Modifier>, key: string)

  datatype Fault =
    | BadLength
    | UnknownModifier(token: string)
    | DuplicateModifier(token: string)
    | UnknownKey(token: string)
    | Reserved

  datatype Result<T> = Ok(value: T) | Err(fault: Fault)

  const MAX_CHORD := 64

  function Lower(s: string): string {
    seq(|s|, i requires 0 <= i < |s| => if 'A' <= s[i] <= 'Z' then s[i] - 'A' + 'a' else s[i])
  }

  function ModifierNamed(lower: string): Option<Modifier> {
    if lower in {"cmd", "command", "super", "meta", "win"} then Some(Cmd)
    else if lower in {"ctrl", "control"} then Some(Ctrl)
    else if lower in {"alt", "option", "opt"} then Some(Alt)
    else if lower == "shift" then Some(Shift)
    else if lower == "fn" then Some(Fn)
    else None
  }

  function ModifierName(m: Modifier): string {
    match m
    case Cmd => "cmd"
    case Ctrl => "ctrl"
    case Alt => "alt"
    case Shift => "shift"
    case Fn => "fn"
  }

  const NAMED_KEYS: set<string> := {
    "return", "tab", "space", "backspace", "delete", "escape", "up", "down", "left", "right",
    "home", "end", "pageup", "pagedown", "capslock"}

  const FUNCTION_KEYS: set<string> := {
    "f1", "f2", "f3", "f4", "f5", "f6", "f7", "f8", "f9", "f10",
    "f11", "f12", "f13", "f14", "f15", "f16", "f17", "f18", "f19", "f20"}

  const SINGLE_KEYS := "abcdefghijklmnopqrstuvwxyz0123456789-=[];',./\\`!@#$%^&*()_+{}|:\"<>?~"

  /** The other names of named and punctuation keys. */
  const OTHER_NAMES: map<string, string> := map[
    "enter" := "return", "esc" := "escape",
    "arrowup" := "up", "arrowdown" := "down", "arrowleft" := "left", "arrowright" := "right",
    "page_up" := "pageup", "prior" := "pageup", "page_down" := "pagedown", "next" := "pagedown",
    "minus" := "-", "equal" := "=", "bracketleft" := "[", "bracketright" := "]", "semicolon" := ";",
    "apostrophe" := "'", "comma" := ",", "period" := ".", "slash" := "/", "backslash" := "\\", "grave" := "`"]

  predicate IsKeyName(lower: string) {
    lower in NAMED_KEYS || lower in FUNCTION_KEYS || (|lower| == 1 && lower[0] in SINGLE_KEYS)
  }

  function KeyNamed(lower: string): Option<string> {
    if IsKeyName(lower) then Some(lower)
    else if lower in OTHER_NAMES then Some(OTHER_NAMES[lower])
    else None
  }

  // ---- Splitting ----------------------------------------------------------------------------------

  /** strings.Split(s, "+"). */
  function Split(s: string): (tokens: seq<string>)
    ensures tokens != []
  {
    if s == "" then [""]
    else
      var rest := Split(s[1..]);
      if s[0] == '+' then [""] + rest else [[s[0]] + rest[0]] + rest[1..]
  }

  function Joined(tokens: seq<string>): string
    requires tokens != []
  {
    if |tokens| == 1 then tokens[0] else tokens[0] + "+" + Joined(tokens[1..])
  }

  predicate PlusFree(tokens: seq<string>) {
    forall i | 0 <= i < |tokens| :: '+' !in tokens[i]
  }

  lemma {:induction false} SplitToken(t: string)
    requires '+' !in t
    ensures Split(t) == [t]
  {
    if t != "" {
      SplitToken(t[1..]);
      assert t == [t[0]] + t[1..];
    }
  }

  lemma {:induction false} SplitAfter(t: string, rest: string)
    requires '+' !in t
    ensures Split(t + "+" + rest) == [t] + Split(rest)
  {
    var s := t + "+" + rest;
    if t == "" {
      assert s[1..] == rest;
    } else {
      SplitAfter(t[1..], rest);
      assert s[1..] == t[1..] + "+" + rest && t == [t[0]] + t[1..];
    }
  }

  lemma {:induction false} SplitJoined(tokens: seq<string>)
    requires tokens != [] && PlusFree(tokens)
    ensures Split(Joined(tokens)) == tokens
  {
    if |tokens| == 1 {
      SplitToken(tokens[0]);
      assert tokens == [tokens[0]];
    } else {
      SplitAfter(tokens[0], Joined(tokens[1..]));
      SplitJoined(tokens[1..]);
      assert tokens == [tokens[0]] + tokens[1..];
    }
  }

  /** Where the key starts: after the last plus, or at a plus that is itself the key. */
  function LastPlus(s: string): int {
    if s == "" then -1 else if s[|s| - 1] == '+' then |s| - 1 else LastPlus(s[..|s| - 1])
  }

  function Parts(s: string): (string, string) {
    if s == "+" then ("", s)
    else if |s| >= 2 && s[|s| - 2..] == "++" then (s[..|s| - 2], "+")
    else if LastPlus(s) >= 0 then PartsAt(s, LastPlus(s))
    else ("", s)
  }

  function PartsAt(s: string, i: int): (string, string) {
    if 0 <= i < |s| then (s[..i], s[i + 1..]) else ("", s)
  }

  lemma {:induction false} LastPlusIs(s: string)
    ensures var i := LastPlus(s); -1 <= i < |s| && (i >= 0 ==> s[i] == '+') && forall j | i < j < |s| :: s[j] != '+'
  {
    if s != "" && s[|s| - 1] != '+' {
      LastPlusIs(s[..|s| - 1]);
    }
  }

  // ---- Parsing ------------------------------------------------------------------------------------

  function Held(tokens: seq<string>): Result<set<Modifier>> {
    if tokens == [] then Ok({})
    else
      match Held(tokens[..|tokens| - 1])
      case Err(f) => Err(f)
      case Ok(held) =>
        var token := tokens[|tokens| - 1];
        match ModifierNamed(Lower(token))
        case None => Err(UnknownModifier(token))
        case Some(m) => if m in held then Err(DuplicateModifier(token)) else Ok(held + {m})
  }

  function Finish(held: set<Modifier>, last: string): Result<Chord> {
    match ModifierNamed(Lower(last))
    case Some(m) => Ok(Chord(held, ModifierName(m)))
    case None =>
      match KeyNamed(Lower(last))
      case None => Err(UnknownKey(last))
      case Some(key) => if Cmd in held && Alt in held && key == "escape" then Err(Reserved) else Ok(Chord(held, key))
  }

  function Parse(s: string): Result<Chord> {
    if s == "" || |s| > MAX_CHORD then Err(BadLength)
    else
      var (prefix, last) := Parts(s);
      match (if prefix == "" then Ok({}) else Held(Split(prefix)))
      case Err(f) => Err(f)
      case Ok(held) => Finish(held, last)
  }

  class ChordBuilder {
    var cmd: bool
    var ctrl: bool
    var alt: bool
    var shift: bool
    var fn: bool

    constructor ()
      ensures Flags() == {}
    {
      cmd, ctrl, alt, shift, fn := false, false, false, false, false;
    }

    function Flags(): set<Modifier>
      reads this
    {
      (if cmd then {Cmd} else {}) + (if ctrl then {Ctrl} else {}) + (if alt then {Alt} else {})
      + (if shift then {Shift} else {}) + if fn then {Fn} else {}
    }

    method SetModifier(token: string) returns (fault: Option<Fault>)
      modifies this
      ensures var m := ModifierNamed(Lower(token));
              if m.None? then fault == Some(UnknownModifier(token)) && Flags() == old(Flags())
              else if m.value in old(Flags()) then fault == Some(DuplicateModifier(token)) && Flags() == old(Flags())
              else fault == None && Flags() == old(Flags()) + {m.value}
    {
      var m := ModifierNamed(Lower(token));
      if m.None? {
        return Some(UnknownModifier(token));
      }
      var flag := match m.value case Cmd => cmd case Ctrl => ctrl case Alt => alt case Shift => shift case Fn => fn;
      if flag {
        return Some(DuplicateModifier(token));
      }
      match m.value {
        case Cmd => cmd := true;
        case Ctrl => ctrl := true;
        case Alt => alt := true;
        case Shift => shift := true;
        case Fn => fn := true;
      }
      fault := None;
    }

    method SetModifiers(tokens: seq<string>) returns (fault: Option<Fault>)
      requires Flags() == {}
      modifies this
      ensures fault.None? ==> Held(tokens) == Ok(Flags())
      ensures fault.Some? ==> Held(tokens) == Err(fault.value)
    {
      for i := 0 to |tokens|
        invariant Held(tokens[..i]) == Ok(Flags())
      {
        HeldNext(tokens, i);
        fault := SetModifier(tokens[i]);
        if fault.Some? {
          HeldStops(tokens, i + 1);
          return;
        }
      }
      assert tokens[..|tokens|] == tokens;
      fault := None;
    }
  }

  lemma HeldNext(tokens: seq<string>, i: nat)
    requires i < |tokens| && Held(tokens[..i]).Ok?
    ensures var held, m := Held(tokens[..i]).value, ModifierNamed(Lower(tokens[i]));
            Held(tokens[..i + 1]) == if m.None? then Err(UnknownModifier(tokens[i]))
                                     else if m.value in held then Err(DuplicateModifier(tokens[i]))
                                     else Ok(held + {m.value})
  {
    assert tokens[..i + 1][..i] == tokens[..i];
  }

  lemma {:induction false} HeldStops(tokens: seq<string>, i: nat)
    requires i <= |tokens| && Held(tokens[..i]).Err?
    ensures Held(tokens) == Held(tokens[..i])
    decreases |tokens|
  {
    if i < |tokens| {
      var init := tokens[..|tokens| - 1];
      assert init[..i] == tokens[..i];
      HeldStops(init, i);
    } else {
      assert tokens[..i] == tokens;
    }
  }

  method ParseKeyChord(s: string) returns (r: Result<Chord>)
    ensures r == Parse(s)
  {
    hide KeyNamed, ModifierNamed, ModifierName, Held, Split, Lower;
    if s == "" || |s| > MAX_CHORD {
      return Err(BadLength);
    }
    var builder := new ChordBuilder();
    var prefix, last := "", s;
    if s == "+" {
    } else if |s| >= 2 && s[|s| - 2..] == "++" {
      prefix, last := s[..|s| - 2], "+";
    } else {
      var i := |s| - 1;
      LastPlusIs(s);
      while i >= 0 && s[i] != '+'
        invariant LastPlus(s) <= i < |s|
      {
        i := i - 1;
      }
      if i >= 0 {
        prefix, last := s[..i], s[i + 1..];
      }
    }
    if prefix != "" {
      var fault := builder.SetModifiers(Split(prefix));
      if fault.Some? {
        return Err(fault.value);
      }
    }
    var lone := ModifierNamed(Lower(last));
    if lone.Some? {
      return Ok(Chord(builder.Flags(), ModifierName(lone.value)));
    }
    var key := KeyNamed(Lower(last));
    if key.None? {
      return Err(UnknownKey(last));
    }
    if builder.cmd && builder.alt && key.value == "escape" {
      return Err(Reserved);
    }
    r := Ok(Chord(builder.Flags(), key.value));
  }

  // ---- What a chord means -------------------------------------------------------------------------

  /** Modifier tokens and a key token, joined by plus signs. */
  function Write(mods: seq<string>, key: string): string {
    if mods == [] then key else Joined(mods) + "+" + key
  }

  predicate IsToken(key: string) {
    key == "+" || (key != "" && '+' !in key)
  }

  lemma {:induction false} LastPlusAt(prefix: string, key: string)
    requires '+' !in key
    ensures LastPlus(prefix + "+" + key) == |prefix|
  {
    var s := prefix + "+" + key;
    LastPlusIs(s);
    assert s[|prefix|] == '+';
    assert forall j | |prefix| < j < |s| :: s[j] == key[j - |prefix| - 1];
  }

  lemma JoinedEmpty(tokens: seq<string>)
    requires tokens != [] && tokens != [""]
    ensures Joined(tokens) != ""
  {
    if |tokens| == 1 {
      assert tokens == [tokens[0]];
    }
  }

  lemma PartsOfWritten(mods: seq<string>, key: string)
    requires PlusFree(mods) && mods != [""] && IsToken(key)
    ensures Parts(Write(mods, key)) == (if mods == [] then "" else Joined(mods), key)
    ensures mods != [] ==> Joined(mods) != ""
  {
    var s := Write(mods, key);
    LastPlusIs(s);
    if mods != [] {
      var prefix := Joined(mods);
      JoinedEmpty(mods);
      if key == "+" {
        assert s[|s| - 2..] == "++" && s[..|s| - 2] == prefix;
      } else {
        LastPlusAt(prefix, key);
        assert s[|s| - 1] == key[|key| - 1] != '+';
        assert s[..|prefix|] == prefix && s[|prefix| + 1..] == key;
      }
    }
  }

  /** Parsing a written chord looks up each token on its own. */
  lemma ParsesTokens(mods: seq<string>, key: string)
    requires PlusFree(mods) && mods != [""] && IsToken(key) && |Write(mods, key)| <= MAX_CHORD
    ensures Parse(Write(mods, key)) == match Held(mods) case Err(f) => Err(f) case Ok(held) => Finish(held, key)
  {
    hide Held, Finish, Parts, Split;
    PartsOfWritten(mods, key);
    if mods != [] {
      SplitJoined(mods);
    } else {
      NoneHeld();
    }
  }

  lemma NoneHeld()
    ensures Held([]) == Ok({})
  {
  }

  function Names(tokens: seq<string>): seq<Option<Modifier>> {
    seq(|tokens|, i requires 0 <= i < |tokens| => ModifierNamed(Lower(tokens[i])))
  }

  /** Only modifiers are named, each at most once. */
  ghost predicate OnceEach(names: multiset<Option<Modifier>>) {
    forall n | n in names :: n.Some? && names[n] == 1
  }

  lemma OnceMore(names: multiset<Option<Modifier>>, n: Option<Modifier>)
    ensures OnceEach(names + multiset{n}) <==> OnceEach(names) && n.Some? && n !in names
  {
    var more := names + multiset{n};
    assert more[n] == names[n] + 1;
    if OnceEach(more) {
      forall k | k in names ensures k.Some? && names[k] == 1 {
        assert k in more;
      }
    }
  }

  lemma {:induction false} HeldByCount(tokens: seq<string>)
    ensures Held(tokens).Ok? <==> OnceEach(multiset(Names(tokens)))
    ensures Held(tokens).Ok? ==> forall m: Modifier :: m in Held(tokens).value <==> Some(m) in multiset(Names(tokens))
  {
    hide OnceEach, ModifierNamed;
    if tokens != [] {
      var init, last := tokens[..|tokens| - 1], tokens[|tokens| - 1];
      HeldByCount(init);
      assert Names(tokens) == Names(init) + [ModifierNamed(Lower(last))];
      OnceMore(multiset(Names(init)), ModifierNamed(Lower(last)));
    } else {
      assert Names(tokens) == [] && OnceEach(multiset([])) by {
        OnceNothing();
      }
    }
  }

  lemma OnceNothing()
    ensures OnceEach(multiset([]))
  {
  }

  /** Neither the order of the modifiers nor the choice among the names of modifiers and keys
      matters: only how often each modifier is named, and what the last token names. */
  lemma SameTokensSameChord(mods: seq<string>, key: string, mods': seq<string>, key': string)
    requires PlusFree(mods) && mods != [""] && IsToken(key) && |Write(mods, key)| <= MAX_CHORD
    requires PlusFree(mods') && mods' != [""] && IsToken(key') && |Write(mods', key')| <= MAX_CHORD
    requires multiset(Names(mods)) == multiset(Names(mods'))
    requires ModifierNamed(Lower(key)) == ModifierNamed(Lower(key')) && KeyNamed(Lower(key)) == KeyNamed(Lower(key'))
    ensures var r, r' := Parse(Write(mods, key)), Parse(Write(mods', key'));
            (r.Ok? <==> r'.Ok?) && (r.Ok? ==> r == r')
  {
    hide Held, Parse, Write, KeyNamed, ModifierNamed;
    ParsesTokens(mods, key);
    ParsesTokens(mods', key');
    HeldByCount(mods);
    HeldByCount(mods');
    if Held(mods).Ok? {
      assert Held(mods).value == Held(mods').value;
    }
  }

  // ---- Case ---------------------------------------------------------------------------------------

  lemma LowerTwice(s: string)
    ensures Lower(Lower(s)) == Lower(s)
  {
  }

  lemma LowerPlus(s: string)
    ensures '+' in Lower(s) <==> '+' in s
  {
    forall i | 0 <= i < |s| ensures Lower(s)[i] == '+' <==> s[i] == '+' {}
    if '+' in s {
      var i :| 0 <= i < |s| && s[i] == '+';
      assert Lower(s)[i] == '+';
    }
  }

  function LowerAll(tokens: seq<string>): seq<string> {
    seq(|tokens|, i requires 0 <= i < |tokens| => Lower(tokens[i]))
  }

  lemma LowerSlices(s: string)
    ensures |Lower(s)| == |s| && forall i | 0 <= i < |s| :: Lower(s)[i] == '+' <==> s[i] == '+'
    ensures forall i, j | 0 <= i <= j <= |s| :: Lower(s)[i..j] == Lower(s[i..j])
  {
  }

  lemma LowerTokens(c: char, rest: seq<string>)
    requires rest != []
    ensures LowerAll([""] + rest) == [""] + LowerAll(rest)
    ensures LowerAll([[c] + rest[0]] + rest[1..]) == [[Lower([c])[0]] + LowerAll(rest)[0]] + LowerAll(rest)[1..]
  {
    assert Lower("") == "";
    var t := [c] + rest[0];
    assert Lower(t) == [Lower([c])[0]] + Lower(rest[0]);
  }

  lemma {:induction false} LowerSplit(s: string)
    ensures Split(Lower(s)) == LowerAll(Split(s))
  {
    hide Lower, LowerAll;
    LowerSlices(s);
    if s == "" {
      LowerNothing();
    } else {
      LowerSplit(s[1..]);
      assert Lower(s)[1..] == Lower(s)[1..|s|] && s[1..] == s[1..|s|];
      LowerTokens(s[0], Split(s[1..]));
      assert Lower(s)[0..1] == Lower(s[0..1]) && s[0..1] == [s[0]];
      assert Lower(s)[0] == Lower([s[0]])[0];
    }
  }

  lemma LowerNothing()
    ensures LowerAll([""]) == [""]
  {
    assert Lower("") == "";
  }

  lemma LowerOfPlus()
    ensures Lower("+") == "+" && Lower("") == ""
  {
    var lower := Lower("+");
    assert |lower| == 1 && lower[0] == '+';
  }

  lemma PlusAlone(s: string)
    ensures s == "+" <==> |s| == 1 && s[0] == '+'
    ensures |s| >= 2 ==> (s[|s| - 2..] == "++" <==> s[|s| - 2] == '+' && s[|s| - 1] == '+')
  {
  }

  lemma LowerParts(s: string)
    ensures Parts(Lower(s)) == (Lower(Parts(s).0), Lower(Parts(s).1))
  {
    hide Lower, LastPlus;
    var low := Lower(s);
    LowerSlices(s);
    LowerOfPlus();
    PlusAlone(s);
    PlusAlone(low);
    LastPlusIs(s);
    LastPlusIs(low);
    var i := LastPlus(s);
    assert LastPlus(low) == i;
    if |s| >= 2 {
      assert low[..|s| - 2] == low[0..|s| - 2] && s[..|s| - 2] == s[0..|s| - 2];
    }
    if i >= 0 {
      assert low[..i] == low[0..i] && s[..i] == s[0..i];
      assert low[i + 1..] == low[i + 1..|s|] && s[i + 1..] == s[i + 1..|s|];
    }
  }

  /** Parsing ignores case. */
  lemma CaseInsensitive(s: string)
    ensures (Parse(s).Ok? <==> Parse(Lower(s)).Ok?) && (Parse(s).Ok? ==> Parse(s) == Parse(Lower(s)))
  {
    hide Held, Parts, Split, KeyNamed, ModifierNamed, Lower;
    LowerLength(s);
    LowerParts(s);
    var (prefix, last) := Parts(s);
    LowerLength(prefix);
    LowerTwice(last);
    LowerSplit(prefix);
    var tokens := Split(prefix);
    SameNames(tokens);
    HeldByCount(tokens);
    HeldByCount(LowerAll(tokens));
    if Held(tokens).Ok? {
      assert Held(tokens).value == Held(LowerAll(tokens)).value;
    }
  }

  lemma LowerLength(s: string)
    ensures |Lower(s)| == |s|
  {
  }

  lemma SameNames(tokens: seq<string>)
    ensures Names(LowerAll(tokens)) == Names(tokens)
  {
    forall i | 0 <= i < |tokens| ensures Lower(LowerAll(tokens)[i]) == Lower(tokens[i]) {
      LowerTwice(tokens[i]);
    }
  }

  // ---- Round trip ---------------------------------------------------------------------------------

  const MODIFIERS := [Cmd, Ctrl, Alt, Shift, Fn]

  /** The held modifiers in a fixed order. */
  function Ordered(order: seq<Modifier>, held: set<Modifier>): seq<Modifier> {
    if order == [] then []
    else (if order[0] in held then [order[0]] else []) + Ordered(order[1..], held)
  }

  function Elements(mods: seq<Modifier>): set<Modifier> {
    set m | m in mods
  }

  predicate Distinct(mods: seq<Modifier>) {
    forall i, j | 0 <= i < j < |mods| :: mods[i] != mods[j]
  }

  function NamesOf(mods: seq<Modifier>): seq<string> {
    seq(|mods|, i requires 0 <= i < |mods| => ModifierName(mods[i]))
  }

  /** The canonical form of a chord. */
  function Print(c: Chord): string {
    Write(NamesOf(Ordered(MODIFIERS, c.held)), c.key)
  }

  lemma ModifierNames(m: Modifier)
    ensures ModifierNamed(ModifierName(m)) == Some(m) && Lower(ModifierName(m)) == ModifierName(m)
    ensures IsToken(ModifierName(m)) && ModifierName(m) != "+" && |ModifierName(m)| <= 5
  {
    match m
    case Cmd => assert Lower("cmd") == "cmd";
    case Ctrl => assert Lower("ctrl") == "ctrl";
    case Alt => assert Lower("alt") == "alt";
    case Shift => assert Lower("shift") == "shift";
    case Fn => assert Lower("fn") == "fn";
  }

  lemma {:induction false} HeldOf(mods: seq<Modifier>)
    requires Distinct(mods)
    ensures Held(NamesOf(mods)) == Ok(Elements(mods))
  {
    hide Held, ModifierNamed, ModifierName;
    if mods == [] {
      NoneHeld();
      assert NamesOf(mods) == [] && Elements(mods) == {};
    } else {
      var n := |mods| - 1;
      HeldOf(mods[..n]);
      ModifierNames(mods[n]);
      var names := NamesOf(mods);
      assert names[..n] == NamesOf(mods[..n]) && names[..n + 1] == names;
      HeldNext(names, n);
      assert mods == mods[..n] + [mods[n]];
      assert Elements(mods) == Elements(mods[..n]) + {mods[n]};
    }
  }

  lemma {:induction false} JoinedLength(tokens: seq<string>)
    requires tokens != [] && forall i | 0 <= i < |tokens| :: |tokens[i]| <= 5
    ensures |Joined(tokens)| <= 6 * |tokens| - 1
  {
    if |tokens| > 1 {
      JoinedLength(tokens[1..]);
    }
  }

  lemma {:induction false} OrderedHeld(order: seq<Modifier>, held: set<Modifier>)
    requires Distinct(order)
    ensures var mods := Ordered(order, held);
            |mods| <= |order| && Distinct(mods) && Elements(mods) == Elements(order) * held
  {
    if order == [] {
      assert Elements(order) == {};
    } else {
      OrderedHeld(order[1..], held);
      var rest := Ordered(order[1..], held);
      assert order == [order[0]] + order[1..];
      assert Elements(order) == {order[0]} + Elements(order[1..]);
      forall j | 0 <= j < |rest| ensures rest[j] != order[0] {
        assert rest[j] in Elements(rest);
      }
      if order[0] in held {
        assert Elements([order[0]] + rest) == {order[0]} + Elements(rest);
      } else {
        assert [] + rest == rest;
      }
    }
  }

  lemma AllModifiers()
    ensures Distinct(MODIFIERS) && forall m: Modifier :: m in Elements(MODIFIERS)
  {
    forall m: Modifier ensures m in MODIFIERS {
      match m
      case Cmd => assert MODIFIERS[0] == Cmd;
      case Ctrl => assert MODIFIERS[1] == Ctrl;
      case Alt => assert MODIFIERS[2] == Alt;
      case Shift => assert MODIFIERS[3] == Shift;
      case Fn => assert MODIFIERS[4] == Fn;
    }
  }

  lemma HeldNamesParse(held: set<Modifier>)
    ensures var names := NamesOf(Ordered(MODIFIERS, held));
            && PlusFree(names) && names != [""] && Held(names) == Ok(held)
            && (names != [] ==> |Joined(names)| <= 29)
  {
    hide Ordered, Held, Joined, ModifierName;
    AllModifiers();
    OrderedHeld(MODIFIERS, held);
    var mods := Ordered(MODIFIERS, held);
    assert Elements(mods) == held;
    HeldOf(mods);
    var names := NamesOf(mods);
    forall i | 0 <= i < |mods| ensures IsToken(names[i]) && names[i] != "+" && |names[i]| <= 5 {
      ModifierNames(mods[i]);
    }
    if mods != [] {
      JoinedLength(names);
      assert names[0] != "";
    }
  }

  lemma ShortKey(lower: string)
    requires IsKeyName(lower)
    ensures 0 < |lower| <= 9
  {
  }

  lemma OtherNamesAreKeys(lower: string)
    requires lower in OTHER_NAMES
    ensures IsKeyName(OTHER_NAMES[lower])
  {
  }

  lemma OtherNamesAreLower(lower: string)
    requires lower in OTHER_NAMES
    ensures Lower(OTHER_NAMES[lower]) == OTHER_NAMES[lower]
  {
  }

  lemma OtherNamesAreTokens(lower: string)
    requires lower in OTHER_NAMES
    ensures ModifierNamed(OTHER_NAMES[lower]) == None && IsToken(OTHER_NAMES[lower])
  {
  }

  lemma LastIsToken(s: string)
    requires Parts(s).1 != ""
    ensures IsToken(Parts(s).1)
  {
    LastPlusIs(s);
  }

  lemma LowerToken(t: string)
    requires IsToken(t)
    ensures IsToken(Lower(t))
  {
    LowerPlus(t);
    LowerLength(t);
    LowerOfPlus();
  }

  /** A parsed key is its own name. */
  lemma KeyStable(s: string)
    requires Parse(s).Ok?
    ensures var c := Parse(s).value;
            && Finish(c.held, c.key) == Ok(c) && IsToken(c.key) && |c.key| <= 9
            && !(Cmd in c.held && Alt in c.held && c.key == "escape")
  {
    hide Held, Parts, Split, IsKeyName, Lower, IsToken, ModifierName, ModifierNamed, KeyNamed;
    var c, last := Parse(s).value, Parts(s).1;
    if ModifierNamed(Lower(last)).Some? {
      ModifierNames(ModifierNamed(Lower(last)).value);
      ModifierIsNotEscape(ModifierNamed(Lower(last)).value);
    } else {
      KeyNamedStable(last);
      EmptyIsNoKey();
      LastIsToken(s);
      KeyNamedToken(last);
    }
  }

  lemma ModifierIsNotEscape(m: Modifier)
    ensures ModifierName(m) != "escape"
  {
  }

  lemma EmptyIsNoKey()
    ensures KeyNamed(Lower("")) == None
  {
    assert Lower("") == "";
  }

  lemma KeyNamedStable(last: string)
    requires KeyNamed(Lower(last)).Some? && ModifierNamed(Lower(last)).None?
    ensures var key := KeyNamed(Lower(last)).value;
            Lower(key) == key && KeyNamed(key) == Some(key) && ModifierNamed(key).None? && |key| <= 9
  {
    hide IsKeyName, Lower;
    var lower := Lower(last);
    LowerTwice(last);
    if !IsKeyName(lower) {
      OtherNamesAreKeys(lower);
      OtherNamesAreLower(lower);
      OtherNamesAreTokens(lower);
      ShortKey(OTHER_NAMES[lower]);
    } else {
      ShortKey(lower);
    }
  }

  lemma KeyNamedToken(last: string)
    requires KeyNamed(Lower(last)).Some? && IsToken(last)
    ensures IsToken(KeyNamed(Lower(last)).value)
  {
    hide IsKeyName, Lower;
    LowerToken(last);
    if !IsKeyName(Lower(last)) {
      OtherNamesAreTokens(Lower(last));
    }
  }

  /** Every chord that parsing returns has a canonical form of at most 64 bytes that parses back to
      it, and is not the emergency-stop chord. */
  lemma RoundTrip(s: string)
    requires Parse(s).Ok?
    ensures Parse(Print(Parse(s).value)) == Parse(s)
    ensures |Print(Parse(s).value)| <= MAX_CHORD
    ensures var c := Parse(s).value; !(Cmd in c.held && Alt in c.held && c.key == "escape")
  {
    hide Parse, Held, Finish, Ordered, Joined, IsToken;
    KeyStable(s);
    var c := Parse(s).value;
    HeldNamesParse(c.held);
    ParsesTokens(NamesOf(Ordered(MODIFIERS, c.held)), c.key);
  }
}
