/** The two ends of a line reader: a pipe that hands out its bytes in arbitrary pieces, and a
    channel whose receiver may go away; and the plain newline split both readers are measured
    against. */
module ByteStreams {
  import opened Text

  type byte = x: int | 0 <= x < 256

  const NL: byte := 10
  const CR: byte := 13

  /** What is left to read.  `broken` pipes end in an I/O error, the others in end of file. */
  class Pipe {
    var rest: seq<byte>
    const broken: bool

    constructor (bytes: seq<byte>, broken: bool)
      ensures rest == bytes && this.broken == broken
    {
      rest := bytes;
      this.broken := broken;
    }

    /** Some of the bytes to come: any non-empty amount, nothing only at the end. */
    method FillBuf() returns (failed: bool, buf: seq<byte>)
      ensures failed <==> rest == [] && broken
      ensures buf <= rest && (buf == [] <==> rest == [])
    {
      if rest == [] {
        return broken, [];
      }
      var n :| 1 <= n <= |rest|;
      return false, rest[..n];
    }

    method Consume(n: nat)
      requires n <= |rest|
      modifies this
      ensures rest == old(rest)[n..]
    {
      rest := rest[n..];
    }
  }

  /** The sending half of a channel whose receiver takes `room` messages and is then gone
      (`None`: it stays). */
  class Sender<T> {
    var sent: seq<T>
    const room: Option<nat>

    constructor (room: Option<nat>)
      ensures sent == [] && this.room == room
    {
      sent := [];
      this.room := room;
    }

    method Send(x: T) returns (ok: bool)
      modifies this
      ensures ok == (room.None? || |old(sent)| < room.value)
      ensures sent == if ok then old(sent) + [x] else old(sent)
    {
      ok := room.None? || |sent| < room.value;
      if ok { sent := sent + [x]; }
    }
  }

  /** What a receiver with `room` sees of the messages `all`. */
  function Seen<T>(room: Option<nat>, all: seq<T>): seq<T> {
    if room.None? || |all| <= room.value then all else all[..room.value]
  }

  // ------------------------------------------------------ the newline split

  /** Index of the first newline of `s`, or its length. */
  function LineLength(s: seq<byte>): (n: nat)
    ensures n <= |s| && NL !in s[..n]
    ensures n < |s| ==> s[n] == NL
  {
    if s == [] || s[0] == NL then 0 else
      assert s[..1 + LineLength(s[1..])] == [s[0]] + s[1..][..LineLength(s[1..])];
      1 + LineLength(s[1..])
  }

  /** The segments between newlines; the last one is what follows the last newline. */
  function Segments(s: seq<byte>): (r: seq<seq<byte>>)
    ensures |r| >= 1
    decreases |s|
  {
    var n := LineLength(s);
    if n == |s| then [s] else [s[..n]] + Segments(s[n + 1..])
  }

  function Joined(segs: seq<seq<byte>>): seq<byte> {
    if segs == [] then [] else if |segs| == 1 then segs[0] else segs[0] + [NL] + Joined(segs[1..])
  }

  predicate NoNewlines(segs: seq<seq<byte>>) {
    forall i :: 0 <= i < |segs| ==> NL !in segs[i]
  }

  lemma {:induction false} LineLengthOf(a: seq<byte>, b: seq<byte>)
    requires NL !in a && (b == [] || b[0] == NL)
    ensures LineLength(a + b) == |a|
  {
    if a != [] {
      LineLengthOf(a[1..], b);
      assert (a + b)[1..] == a[1..] + b;
    } else {
      assert a + b == b;
    }
  }

  lemma SegmentsCons(a: seq<byte>, b: seq<byte>)
    requires NL !in a
    ensures Segments(a) == [a]
    ensures Segments(a + [NL] + b) == [a] + Segments(b)
  {
    LineLengthOf(a, []);
    assert a + [] == a;
    LineLengthOf(a, [NL] + b);
    assert a + [NL] + b == a + ([NL] + b);
    assert (a + [NL] + b)[|a| + 1..] == b && (a + [NL] + b)[..|a|] == a;
  }

  /** `Segments` is the one newline split: it loses nothing, no segment holds a newline, and no
      other list of segments joins to the same bytes. */
  lemma {:induction false} SegmentsJoin(s: seq<byte>)
    ensures Joined(Segments(s)) == s && NoNewlines(Segments(s))
    decreases |s|
  {
    var n := LineLength(s);
    if n < |s| {
      SegmentsJoin(s[n + 1..]);
      assert s == s[..n] + [NL] + s[n + 1..];
      assert Segments(s)[1..] == Segments(s[n + 1..]);
    } else {
      assert s[..n] == s;
    }
  }

  lemma {:induction false} SegmentsUnique(segs: seq<seq<byte>>)
    requires |segs| >= 1 && NoNewlines(segs)
    ensures Segments(Joined(segs)) == segs
  {
    if |segs| == 1 {
      SegmentsCons(segs[0], []);
    } else {
      SegmentsUnique(segs[1..]);
      SegmentsCons(segs[0], Joined(segs[1..]));
    }
  }

  // -------------------------------------------------- concatenation, by hand
}
