/** The anchor payload format of cmd/agent/workspace_snapshot.go: a magic string, the length of the
    anchor commit as four bytes, most significant first, the commit, and a pack of its tree. */
module AnchorFraming {
  import opened RawBytes

  const MAGIC: seq<byte> := [0x47, 0x41, 0x41, 0x4E, 0x43, 0x48, 0x01]

  const MAX_ENCRYPTED_BYTES := 512 * 1024 * 1024

  const MAX_PAYLOAD_BYTES := MAX_ENCRYPTED_BYTES - 1024 * 1024

  datatype FrameError = CommitTooLarge | PayloadTooLarge | BadFormat | Truncated | EmptyPack

  datatype Result<T> = Ok(value: T) | Err(error: FrameError)

  function BigEndian(n: nat): seq<byte>
    requires n < 0x1_0000_0000
  {
    [(n / 0x100_0000) as byte, (n / 0x1_0000 % 0x100) as byte, (n / 0x100 % 0x100) as byte, (n % 0x100) as byte]
  }

  function FromBigEndian(b: seq<byte>): nat
    requires |b| == 4
  {
    b[0] as int * 0x100_0000 + b[1] as int * 0x1_0000 + b[2] as int * 0x100 + b[3] as int
  }

  /** The payload of a commit and a pack. */
  function Frame(commit: seq<byte>, pack: seq<byte>): seq<byte>
    requires |commit| < 0x1_0000_0000
  {
    MAGIC + BigEndian(|commit|) + commit + pack
  }

  method CreatePayload(commit: seq<byte>, pack: seq<byte>) returns (r: Result<seq<byte>>)
    ensures r.Ok? <==> |commit| < 0x1_0000_0000 && |MAGIC| + 4 + |commit| + |pack| <= MAX_PAYLOAD_BYTES
    ensures r.Ok? ==> r.value == Frame(commit, pack)
    ensures r.Err? ==> r.error == if |commit| >= 0x1_0000_0000 then CommitTooLarge else PayloadTooLarge
  {
    if |commit| > 0xFFFF_FFFF {
      return Err(CommitTooLarge);
    }
    var payload: seq<byte> := [];
    payload := payload + MAGIC;
    payload := payload + BigEndian(|commit|);
    payload := payload + commit;
    payload := payload + pack;
    if |payload| > MAX_PAYLOAD_BYTES {
      return Err(PayloadTooLarge);
    }
    r := Ok(payload);
  }

  /** The framing checks of restoreWorkspaceAnchorPayload. */
  method SplitPayload(payload: seq<byte>) returns (r: Result<(seq<byte>, seq<byte>)>)
    ensures r.Ok? ==> var (commit, pack) := r.value;
                      commit != [] && pack != [] && |commit| < 0x1_0000_0000 && payload == Frame(commit, pack)
    ensures r.Err? ==> !Framed(payload)
  {
    if |payload| < |MAGIC| + 4 || payload[..|MAGIC|] != MAGIC {
      NotFramed(payload);
      return Err(BadFormat);
    }
    var size := FromBigEndian(payload[|MAGIC|..|MAGIC| + 4]);
    var start := |MAGIC| + 4;
    var end := start + size;
    NotFramed(payload);
    if size == 0 || end > |payload| {
      return Err(Truncated);
    }
    var commit, pack := payload[start..end], payload[end..];
    if |pack| == 0 {
      return Err(EmptyPack);
    }
    FromThenTo(payload[|MAGIC|..start]);
    assert payload == MAGIC + payload[|MAGIC|..start] + commit + pack;
    r := Ok((commit, pack));
  }

  /** Some non-empty commit and pack have this payload. */
  ghost predicate Framed(payload: seq<byte>) {
    exists commit, pack :: commit != [] && pack != [] && |commit| < 0x1_0000_0000 && payload == Frame(commit, pack)
  }

  lemma ToThenFrom(n: nat)
    requires n < 0x1_0000_0000
    ensures FromBigEndian(BigEndian(n)) == n
  {
    var high := n / 0x100;
    var higher := high / 0x100;
    assert n / 0x1_0000 == higher && n / 0x100_0000 == higher / 0x100;
    assert n == high * 0x100 + n % 0x100 && high == higher * 0x100 + high % 0x100;
  }

  lemma FromThenTo(b: seq<byte>)
    requires |b| == 4
    ensures FromBigEndian(b) < 0x1_0000_0000
    ensures BigEndian(FromBigEndian(b)) == b
  {
    var n := FromBigEndian(b);
    assert n / 0x100 == b[0] as int * 0x1_0000 + b[1] as int * 0x100 + b[2] as int;
    assert n / 0x1_0000 == b[0] as int * 0x100 + b[1] as int;
    assert n / 0x100_0000 == b[0] as int;
  }

  /** The parts of a payload are where the decoder looks for them. */
  lemma FrameParts(commit: seq<byte>, pack: seq<byte>)
    requires |commit| < 0x1_0000_0000
    ensures var p := Frame(commit, pack);
            && |p| == |MAGIC| + 4 + |commit| + |pack| && p[..|MAGIC|] == MAGIC
            && FromBigEndian(p[|MAGIC|..|MAGIC| + 4]) == |commit|
            && p[|MAGIC| + 4..|MAGIC| + 4 + |commit|] == commit && p[|MAGIC| + 4 + |commit|..] == pack
  {
    var p := Frame(commit, pack);
    ToThenFrom(|commit|);
    assert p[|MAGIC|..|MAGIC| + 4] == BigEndian(|commit|);
  }

  lemma NotFramed(payload: seq<byte>)
    ensures Framed(payload) ==>
              && |payload| >= |MAGIC| + 4 && payload[..|MAGIC|] == MAGIC
              && var size := FromBigEndian(payload[|MAGIC|..|MAGIC| + 4]);
                 0 < size && |MAGIC| + 4 + size < |payload|
  {
    if Framed(payload) {
      var commit, pack :| commit != [] && pack != [] && |commit| < 0x1_0000_0000 && payload == Frame(commit, pack);
      FrameParts(commit, pack);
    }
  }

  /** No two pairs share a payload, so what SplitPayload returns is what CreatePayload was given. */
  lemma FrameInjective(commit: seq<byte>, pack: seq<byte>, commit': seq<byte>, pack': seq<byte>)
    requires |commit| < 0x1_0000_0000 && |commit'| < 0x1_0000_0000
    requires Frame(commit, pack) == Frame(commit', pack')
    ensures commit == commit' && pack == pack'
  {
    FrameParts(commit, pack);
    FrameParts(commit', pack');
  }

  /** A created payload is accepted exactly when both parts are non-empty. */
  lemma RoundTripsIff(commit: seq<byte>, pack: seq<byte>)
    requires |commit| < 0x1_0000_0000
    ensures Framed(Frame(commit, pack)) <==> commit != [] && pack != []
  {
    if Framed(Frame(commit, pack)) {
      var c, p :| c != [] && p != [] && |c| < 0x1_0000_0000 && Frame(commit, pack) == Frame(c, p);
      FrameInjective(commit, pack, c, p);
    }
  }
}
