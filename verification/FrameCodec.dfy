/** The framed protocol between the voice client and its helper process: the client's encoder
    (crates/workshop-voice/src/protocol.rs), the helper's reader (voice/engine/src/protocol.rs) and
    the helper's thread that turns standard input into frames (voice/engine/src/main.rs). */
module FrameCodec {
  import opened Text
  import opened ByteStreams
  import opened Seqs

  const AUDIO: byte := 1
  const START: byte := 2
  const STOP: byte := 3
  const QUIT: byte := 4
  const MAX_FRAME_LEN := 16 * 1024 * 1024
  const HEADER := 5

  datatype Frame = Audio(bytes: seq<byte>) | Start(language: Option<string>) | Stop | Quit

  datatype FrameError = Truncated | Io | TooLarge(len: nat) | BadStart | UnknownKind(kind: byte)

  datatype Reading = Got(frame: Frame) | CleanEnd | Bad(error: FrameError)

  /** How the helper reads the JSON of a start frame; `None` when it does not parse. */
  type StartParser = seq<byte> -> Option<Option<string>>

  // ------------------------------------------------------------ u32, little endian

  function LeBytes(n: nat): (r: seq<byte>)
    ensures |r| == 4
  {
    [n % 256, n / 256 % 256, n / 65536 % 256, n / 16777216 % 256]
  }

  function FromLeBytes(b: seq<byte>): nat
    requires |b| == 4
  {
    var b0: int, b1: int, b2: int, b3: int := b[0], b[1], b[2], b[3];
    b0 + 256 * b1 + 65536 * b2 + 16777216 * b3
  }

  lemma LeRoundTrip(n: nat)
    ensures FromLeBytes(LeBytes(n)) == n % 0x1_0000_0000
  {
    var q0, q1, q2, q3 := n / 256, n / 65536, n / 16777216, n / 0x1_0000_0000;
    assert q1 == q0 / 256 && q2 == q1 / 256 && q3 == q2 / 256;
    assert n == 256 * q0 + n % 256 && q0 == 256 * q1 + q0 % 256;
    assert q1 == 256 * q2 + q1 % 256 && q2 == 256 * q3 + q2 % 256;
  }

  lemma LowByte(b: int, q: int)
    requires 0 <= b < 256
    ensures (b + 256 * q) % 256 == b && (b + 256 * q) / 256 == q
  {
  }

  lemma LeOnto(b: seq<byte>)
    requires |b| == 4
    ensures LeBytes(FromLeBytes(b)) == b
  {
    var b0: int, b1: int, b2: int, b3: int := b[0], b[1], b[2], b[3];
    var n1, n2 := b1 + 256 * (b2 + 256 * b3), b2 + 256 * b3;
    var n := FromLeBytes(b);
    assert n == b0 + 256 * n1 by { assert 256 * n1 == 256 * b1 + 65536 * b2 + 16777216 * b3; }
    LowByte(b0, n1);
    LowByte(b1, n2);
    LowByte(b2, b3);
    assert n / 65536 == n1 / 256 && n / 16777216 == n2 / 256;
  }

  // ---------------------------------------------------------------- encoding

  /** The client's encoder; the length is cast to 32 bits. */
  function Encoded(kind: byte, payload: seq<byte>): seq<byte> {
    [kind] + LeBytes(|payload| % 0x1_0000_0000) + payload
  }

  method EncodeFrame(kind: byte, payload: seq<byte>) returns (out: seq<byte>)
    ensures out == Encoded(kind, payload)
  {
    out := [kind];
    out := out + LeBytes(|payload| % 0x1_0000_0000);
    out := out + payload;
  }

  // ---------------------------------------------------------------- one frame

  /** What a complete frame means to the helper. */
  function Meaning(kind: byte, payload: seq<byte>, parse: StartParser): Reading {
    if kind == AUDIO then Got(Audio(payload))
    else if kind == START then
      if payload == [] then Got(Start(None))
      else match parse(payload) case Some(l) => Got(Start(l)) case None => Bad(BadStart)
    else if kind == STOP then Got(Stop)
    else if kind == QUIT then Got(Quit)
    else Bad(UnknownKind(kind))
  }

  /** One frame off the front of `s`, and what is left.  `broken` streams end in an I/O error. */
  function FrameAt(s: seq<byte>, broken: bool, parse: StartParser): (r: (Reading, seq<byte>))
    ensures r.0.Got? ==> |r.1| < |s|
  {
    if |s| < HEADER then (if broken then Bad(Io) else CleanEnd, [])
    else
      var len := FromLeBytes(s[1..HEADER]);
      if len > MAX_FRAME_LEN then (Bad(TooLarge(len)), s[HEADER..])
      else if |s| < HEADER + len then (Bad(if broken then Io else Truncated), [])
      else (Meaning(s[0], s[HEADER..HEADER + len], parse), s[HEADER + len..])
  }

  datatype Filled = Full(bytes: seq<byte>) | Short | Failed

  method ReadExact(input: Pipe, n: nat) returns (r: Filled)
    modifies input
    ensures |old(input.rest)| >= n ==>
      r == Full(old(input.rest)[..n]) && input.rest == old(input.rest)[n..]
    ensures |old(input.rest)| < n ==> r == (if input.broken then Failed else Short) && input.rest == []
  {
    var got: seq<byte> := [];
    FromNothing(input.rest);
    while |got| < n
      invariant |got| <= n && old(input.rest) == got + input.rest
      decreases |input.rest|
    {
      var failed, buf := input.FillBuf();
      if failed { return Failed; }
      if buf == [] { return Short; }
      var used := if |buf| <= n - |got| then |buf| else n - |got|;
      assert buf[..used] == input.rest[..used];
      Recut(got, input.rest, used);
      input.Consume(used);
      got := got + buf[..used];
    }
    r := Full(got);
  }

  method ReadFrame(input: Pipe, parse: StartParser) returns (r: Reading)
    modifies input
    ensures (r, input.rest) == FrameAt(old(input.rest), input.broken, parse)
  {
    var header := ReadExact(input, HEADER);
    match header {
      case Short => return CleanEnd;
      case Failed => return Bad(Io);
      case Full(_) =>
    }
    var kind := header.bytes[0];
    assert header.bytes[1..] == old(input.rest)[1..HEADER];
    var len := FromLeBytes(header.bytes[1..]);
    if len > MAX_FRAME_LEN { return Bad(TooLarge(len)); }
    var payload := ReadExact(input, len);
    match payload {
      case Short => return Bad(Truncated);
      case Failed => return Bad(Io);
      case Full(p) =>
        assert p == old(input.rest)[HEADER..HEADER + len];
        r := Meaning(kind, p, parse);
    }
  }

  /** `FrameAt` yields a frame exactly when the stream starts with the encoding of a payload within
      the limit that means this frame, and then it consumes exactly that encoding. */
  lemma FrameAtIff(s: seq<byte>, broken: bool, parse: StartParser, f: Frame, rest: seq<byte>)
    ensures FrameAt(s, broken, parse) == (Got(f), rest) <==>
      exists kind: byte, payload: seq<byte> ::
        |payload| <= MAX_FRAME_LEN && Meaning(kind, payload, parse) == Got(f)
        && s == Encoded(kind, payload) + rest
  {
    if FrameAt(s, broken, parse) == (Got(f), rest) {
      var len := FromLeBytes(s[1..HEADER]);
      var payload := s[HEADER..HEADER + len];
      LeOnto(s[1..HEADER]);
      assert s[1..HEADER] + payload == s[1..HEADER + len];
      assert s == Encoded(s[0], payload) + rest;
    }
    if kind: byte, payload: seq<byte> :|
      |payload| <= MAX_FRAME_LEN && Meaning(kind, payload, parse) == Got(f)
      && s == Encoded(kind, payload) + rest
    {
      EncodedReads(kind, payload, rest, broken, parse);
    }
  }

  lemma EncodedReads(kind: byte, payload: seq<byte>, rest: seq<byte>, broken: bool, parse: StartParser)
    requires |payload| <= MAX_FRAME_LEN
    ensures FrameAt(Encoded(kind, payload) + rest, broken, parse) == (Meaning(kind, payload, parse), rest)
  {
    var n := |payload|;
    var le := LeBytes(n);
    var s := [kind] + le + payload + rest;
    assert n % 0x1_0000_0000 == n;
    assert FromLeBytes(le) == n by { LeRoundTrip(n); }
    assert s[0] == kind && s[1..HEADER] == le && s[HEADER..HEADER + n] == payload && s[HEADER + n..] == rest;
  }

  /** An audio payload survives the trip exactly when it is within the limit: beyond it the frame
      is refused, or, once the 32-bit length has wrapped, read as something shorter. */
  lemma AudioSurvivesIff(payload: seq<byte>, broken: bool, parse: StartParser)
    ensures FrameAt(Encoded(AUDIO, payload), broken, parse).0 == Got(Audio(payload))
        <==> |payload| <= MAX_FRAME_LEN
  {
    var s := Encoded(AUDIO, payload);
    assert s + [] == s;
    if |payload| <= MAX_FRAME_LEN {
      EncodedReads(AUDIO, payload, [], broken, parse);
    } else {
      var len := |payload| % 0x1_0000_0000;
      LeRoundTrip(len);
      assert s[1..HEADER] == LeBytes(len);
    }
  }

  // ---------------------------------------------------------- a whole stream

  datatype Packet = Packet(kind: byte, payload: seq<byte>)

  predicate Sendable(p: Packet, parse: StartParser) {
    |p.payload| <= MAX_FRAME_LEN && Meaning(p.kind, p.payload, parse).Got?
  }

  predicate AllSendable(ps: seq<Packet>, parse: StartParser) {
    forall i :: 0 <= i < |ps| ==> Sendable(ps[i], parse)
  }

  function Wire(ps: seq<Packet>): seq<byte> {
    if ps == [] then [] else Encoded(ps[0].kind, ps[0].payload) + Wire(ps[1..])
  }

  function Frames(ps: seq<Packet>, parse: StartParser): (r: seq<Frame>)
    requires AllSendable(ps, parse)
    ensures |r| == |ps|
  {
    if ps == [] then []
    else [Meaning(ps[0].kind, ps[0].payload, parse).frame] + Frames(ps[1..], parse)
  }

  /** Everything a stream decodes to: its frames, and how it ends. */
  function Decoded(s: seq<byte>, broken: bool, parse: StartParser): (r: (seq<Frame>, Reading))
    ensures !r.1.Got?
    decreases |s|
  {
    var (reading, rest) := FrameAt(s, broken, parse);
    if reading.Got? then
      var (fs, end) := Decoded(rest, broken, parse);
      ([reading.frame] + fs, end)
    else ([], reading)
  }

  /** How many whole frames the first `k` bytes of the wire hold, and how many bytes are left over. */
  function Whole(ps: seq<Packet>, k: nat): (r: (nat, nat))
    ensures r.0 <= |ps|
  {
    if ps == [] then (0, k)
    else
      var n := HEADER + |ps[0].payload|;
      if k < n then (0, k) else var (j, r) := Whole(ps[1..], k - n); (j + 1, r)
  }

  /** `Whole` cuts where it says: the first `j` encodings are complete, the next one is not. */
  lemma {:induction false} WholeCuts(ps: seq<Packet>, k: nat)
    requires k <= |Wire(ps)|
    ensures var (j, r) := Whole(ps, k);
      |Wire(ps[..j])| + r == k && (j < |ps| ==> r < HEADER + |ps[j].payload|) && (j == |ps| ==> r == 0)
  {
    if ps != [] {
      var n := HEADER + |ps[0].payload|;
      if k >= n {
        WholeCuts(ps[1..], k - n);
        var j := Whole(ps[1..], k - n).0;
        assert ps[..j + 1][1..] == ps[1..][..j];
      }
    }
  }

  lemma DecodedCons(p: Packet, rest: seq<byte>, broken: bool, parse: StartParser)
    requires Sendable(p, parse)
    ensures var (fs, end) := Decoded(rest, broken, parse);
      Decoded(Encoded(p.kind, p.payload) + rest, broken, parse)
        == ([Meaning(p.kind, p.payload, parse).frame] + fs, end)
  {
    EncodedReads(p.kind, p.payload, rest, broken, parse);
  }

  lemma CutInside(p: Packet, k: nat, broken: bool, parse: StartParser)
    requires |p.payload| <= MAX_FRAME_LEN && k < HEADER + |p.payload|
    ensures FrameAt(Encoded(p.kind, p.payload)[..k], broken, parse) ==
      (if broken then Bad(Io) else if k < HEADER then CleanEnd else Bad(Truncated), [])
  {
    if k >= HEADER {
      var n, le := |p.payload|, LeBytes(|p.payload|);
      assert n % 0x1_0000_0000 == n;
      assert FromLeBytes(le) == n by { LeRoundTrip(n); }
      var enc := [p.kind] + le + p.payload;
      assert enc[1..HEADER] == le;
      assert enc[..k][1..HEADER] == enc[1..HEADER];
    }
  }

  /** What arrives of the frames `fs` when the wire is cut `r` bytes after the `j`th. */
  function CutOff(fs: seq<Frame>, at: (nat, nat), broken: bool): (seq<Frame>, Reading)
    requires at.0 <= |fs|
  {
    (fs[..at.0], if broken then Bad(Io) else if at.1 < HEADER then CleanEnd else Bad(Truncated))
  }

  lemma Glue(d: (seq<Frame>, Reading), f: Frame, fs: seq<Frame>, at: (nat, nat), broken: bool)
    requires at.0 <= |fs| && d == CutOff(fs, at, broken)
    ensures ([f] + d.0, d.1) == CutOff([f] + fs, (at.0 + 1, at.1), broken)
  {
    assert ([f] + fs)[..at.0 + 1] == [f] + fs[..at.0];
  }

  lemma CutLater(ps: seq<Packet>, k: nat, d: (seq<Frame>, Reading), broken: bool, parse: StartParser)
    requires AllSendable(ps, parse) && ps != [] && HEADER + |ps[0].payload| <= k <= |Wire(ps)|
    requires d == Decoded(Wire(ps[1..])[..k - (HEADER + |ps[0].payload|)], broken, parse)
    ensures Decoded(Wire(ps)[..k], broken, parse) == ([Frames(ps, parse)[0]] + d.0, d.1)
  {
    WireCut(ps, k);
    DecodedCons(ps[0], Wire(ps[1..])[..k - (HEADER + |ps[0].payload|)], broken, parse);
  }

  lemma WireCut(ps: seq<Packet>, k: nat)
    requires ps != [] && HEADER + |ps[0].payload| <= k <= |Wire(ps)|
    ensures Wire(ps)[..k]
         == Encoded(ps[0].kind, ps[0].payload) + Wire(ps[1..])[..k - (HEADER + |ps[0].payload|)]
  {
  }

  lemma CutNow(ps: seq<Packet>, k: nat, broken: bool, parse: StartParser)
    requires AllSendable(ps, parse) && ps != [] && k < HEADER + |ps[0].payload|
    ensures Decoded(Wire(ps)[..k], broken, parse) == CutOff(Frames(ps, parse), Whole(ps, k), broken)
  {
    var enc := Encoded(ps[0].kind, ps[0].payload);
    assert Wire(ps)[..k] == enc[..k];
    CutInside(ps[0], k, broken, parse);
    assert Frames(ps, parse)[..0] == [];
  }

  /** Cut the wire anywhere: what arrives is a prefix of the frames sent, then a clean end if the
      cut fell on a boundary or inside a header, and an error if it fell inside a payload. */
  lemma {:induction false} AnyCut(ps: seq<Packet>, k: nat, broken: bool, parse: StartParser)
    requires AllSendable(ps, parse) && k <= |Wire(ps)|
    ensures Decoded(Wire(ps)[..k], broken, parse) == CutOff(Frames(ps, parse), Whole(ps, k), broken)
  {
    if ps != [] {
      var n := HEADER + |ps[0].payload|;
      if k < n {
        CutNow(ps, k, broken, parse);
      } else {
        AnyCut(ps[1..], k - n, broken, parse);
        var d := Decoded(Wire(ps[1..])[..k - n], broken, parse);
        CutLater(ps, k, d, broken, parse);
        Glue(d, Frames(ps, parse)[0], Frames(ps[1..], parse), Whole(ps[1..], k - n), broken);
      }
    }
  }

  /** Uncut, the whole sequence comes back, then a clean end of input. */
  lemma RoundTrip(ps: seq<Packet>, parse: StartParser)
    requires AllSendable(ps, parse)
    ensures Decoded(Wire(ps), false, parse) == (Frames(ps, parse), CleanEnd)
  {
    var k := |Wire(ps)|;
    AnyCut(ps, k, false, parse);
    WholeCuts(ps, k);
    var j := Whole(ps, k).0;
    assert Wire(ps)[..k] == Wire(ps) && Frames(ps, parse)[..|ps|] == Frames(ps, parse);
    if j < |ps| { WirePrefix(ps, j); }
  }

  lemma {:induction false} WirePrefix(ps: seq<Packet>, j: nat)
    requires j < |ps|
    ensures |Wire(ps)| >= |Wire(ps[..j])| + HEADER + |ps[j].payload|
  {
    if j > 0 {
      WirePrefix(ps[1..], j - 1);
      assert ps[..j][1..] == ps[1..][..j - 1];
    }
  }

  // ------------------------------------------------------- the reader thread

  datatype Inbound = Framed(frame: Frame) | Eof | Broken(error: FrameError)

  function Inbounds(fs: seq<Frame>): (r: seq<Inbound>)
    ensures |r| == |fs|
    ensures forall i :: 0 <= i < |fs| ==> r[i] == Framed(fs[i])
  {
    seq(|fs|, i requires 0 <= i < |fs| => Framed(fs[i]))
  }

  function Arrivals(s: seq<byte>, broken: bool, parse: StartParser): seq<Inbound> {
    var (fs, end) := Decoded(s, broken, parse);
    Inbounds(fs) + [if end.CleanEnd? then Eof else Broken(end.error)]
  }

  lemma ArrivalsCons(s: seq<byte>, broken: bool, parse: StartParser)
    requires FrameAt(s, broken, parse).0.Got?
    ensures var (r, rest) := FrameAt(s, broken, parse);
      Arrivals(s, broken, parse) == [Framed(r.frame)] + Arrivals(rest, broken, parse)
  {
    var (r, rest) := FrameAt(s, broken, parse);
    var (fs, end) := Decoded(rest, broken, parse);
    assert Inbounds([r.frame] + fs) == [Framed(r.frame)] + Inbounds(fs);
  }

  /** The thread forwards exactly what its input decodes to, then how the input ended. */
  method StdinFrames(stdin: Pipe, parse: StartParser, tx: Sender<Inbound>)
    requires tx.sent == []
    modifies stdin, tx
    ensures tx.sent == Seen(tx.room, Arrivals(old(stdin.rest), stdin.broken, parse))
  {
    ghost var pending := Arrivals(stdin.rest, stdin.broken, parse);
    ghost var all := pending;
    while true
      invariant pending == Arrivals(stdin.rest, stdin.broken, parse)
      invariant tx.sent + pending == all
      invariant tx.room.None? || |tx.sent| <= tx.room.value
      decreases |stdin.rest|
    {
      ghost var s := stdin.rest;
      var r := ReadFrame(stdin, parse);
      match r {
        case Got(frame) =>
          ghost var later := Arrivals(stdin.rest, stdin.broken, parse);
          ArrivalsCons(s, stdin.broken, parse);
          Regroup(tx.sent, [Framed(frame)], later);
          var ok := tx.Send(Framed(frame));
          if !ok { return; }
          pending := later;
        case CleanEnd =>
          var _ := tx.Send(Eof);
          return;
        case Bad(e) =>
          var _ := tx.Send(Broken(e));
          return;
      }
    }
  }

  // ------------------------------------------------------------ start frames

  /** The client names a language unless it is empty or the literal `auto`. */
  function NamedLanguage(language: Option<string>): Option<string> {
    if language.Some? && language.value != "" && language.value != "auto" then language else None
  }

  /** The helper trims what it is given and drops the same two values. */
  function ConcreteLanguage(raw: Option<string>): Option<string> {
    match raw
    case None => None
    case Some(l) => if Trim(l) == "" || Trim(l) == "auto" then None else Some(Trim(l))
  }

  function StartFrame(language: Option<string>, render: Option<string> -> seq<byte>): seq<byte> {
    Encoded(START, render(NamedLanguage(language)))
  }

  lemma NamedIsConcrete(language: Option<string>)
    ensures ConcreteLanguage(NamedLanguage(language)) == ConcreteLanguage(language)
  {
    if language == Some("auto") {
      TrimmedAlready("auto");
    }
  }

  /** Whatever language the client is asked for, the helper ends up with its concrete form, given
      that the helper's JSON reader undoes the client's writer. */
  lemma StartFrameLanguage(
      language: Option<string>, rest: seq<byte>, render: Option<string> -> seq<byte>, parse: StartParser)
    requires forall l :: 0 < |render(l)| <= MAX_FRAME_LEN && parse(render(l)) == Some(l)
    ensures var (r, left) := FrameAt(StartFrame(language, render) + rest, false, parse);
      left == rest && r.Got? && r.frame.Start?
      && ConcreteLanguage(r.frame.language) == ConcreteLanguage(language)
  {
    EncodedReads(START, render(NamedLanguage(language)), rest, false, parse);
    NamedIsConcrete(language);
  }
}
