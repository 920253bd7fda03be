/** The reader of a supervised run's output: newline-delimited lines under a hard length bound, and
    the bounded tail of its error stream (crates/workshop-adapters/src/supervisor.rs). */
module SupervisorReader {
  import opened Text
  import opened ByteStreams
  import opened Seqs

  datatype Item = Line(text: string) | TooLong(max: nat) | Broken

  function DropCr(seg: seq<byte>): seq<byte> {
    if seg != [] && seg[|seg| - 1] == CR then seg[..|seg| - 1] else seg
  }

  /** What one terminated line delivers. */
  function Terminated(seg: seq<byte>, lossy: seq<byte> -> string): seq<Item> {
    var text := lossy(DropCr(seg));
    if Blank(text) then [] else [Line(text)]
  }

  /** What the bytes after the last newline deliver. */
  function Tail(seg: seq<byte>, broken: bool, lossy: seq<byte> -> string): seq<Item> {
    if broken then [Broken] else if seg == [] then [] else [Line(lossy(seg))]
  }

  /** What a whole stream delivers, from its newline split. */
  function Deliveries(segs: seq<seq<byte>>, max: nat, broken: bool, lossy: seq<byte> -> string): seq<Item>
    requires |segs| >= 1
  {
    if |segs[0]| > max then [TooLong(max)]
    else if |segs| == 1 then Tail(segs[0], broken, lossy)
    else Terminated(segs[0], lossy) + Deliveries(segs[1..], max, broken, lossy)
  }

  function AllTerminated(segs: seq<seq<byte>>, lossy: seq<byte> -> string): seq<Item> {
    if segs == [] then [] else Terminated(segs[0], lossy) + AllTerminated(segs[1..], lossy)
  }

  /** The same in one sentence: the lines before the first segment over the cap, then that error
      and nothing after it; without such a segment, every terminated line, then the tail. */
  lemma {:induction false} DeliveriesAre(
      segs: seq<seq<byte>>, long: nat, max: nat, broken: bool, lossy: seq<byte> -> string)
    requires |segs| >= 1 && long <= |segs|
    requires forall i :: 0 <= i < long ==> |segs[i]| <= max
    requires long < |segs| ==> |segs[long]| > max
    ensures Deliveries(segs, max, broken, lossy) ==
      if long < |segs| then AllTerminated(segs[..long], lossy) + [TooLong(max)]
      else AllTerminated(segs[..|segs| - 1], lossy) + Tail(segs[|segs| - 1], broken, lossy)
  {
    if long == 0 {
      assert segs[..0] == [];
    } else if |segs| == 1 {
      assert segs[..0] == [];
    } else {
      DeliveriesAre(segs[1..], long - 1, max, broken, lossy);
      if long < |segs| { FirstApart(segs, long, lossy); } else { FirstApart(segs, |segs| - 1, lossy); }
    }
  }

  lemma FirstApart(segs: seq<seq<byte>>, n: nat, lossy: seq<byte> -> string)
    requires 0 < n < |segs|
    ensures AllTerminated(segs[..n], lossy) == Terminated(segs[0], lossy) + AllTerminated(segs[1..][..n - 1], lossy)
  {
    assert segs[1..][..n - 1] == segs[..n][1..];
  }

  /** A head over the cap decides the outcome, whatever follows it. */
  lemma LongHead(head: seq<byte>, tail: seq<byte>, max: nat, broken: bool, lossy: seq<byte> -> string)
    requires NL !in head && |head| > max
    ensures Deliveries(Segments(head + tail), max, broken, lossy) == [TooLong(max)]
  {
    var s := head + tail;
    assert s[..|head|] == head;
    assert LineLength(s) >= |head| by {
      if LineLength(s) < |head| { assert false; }
    }
  }

  /** A line within the cap delivers its own items, then those of the rest. */
  lemma LineDone(line: seq<byte>, rest: seq<byte>, max: nat, broken: bool, lossy: seq<byte> -> string)
    requires NL !in line && |line| <= max
    ensures Deliveries(Segments(line + ([NL] + rest)), max, broken, lossy)
         == Terminated(line, lossy) + Deliveries(Segments(rest), max, broken, lossy)
  {
    assert line + ([NL] + rest) == line + [NL] + rest;
    SegmentsCons(line, rest);
    assert ([line] + Segments(rest))[1..] == Segments(rest);
  }

  /** A stream without a newline delivers its tail. */
  lemma LastLine(line: seq<byte>, max: nat, broken: bool, lossy: seq<byte> -> string)
    requires NL !in line && |line| <= max
    ensures Deliveries(Segments(line), max, broken, lossy) == Tail(line, broken, lossy)
  {
    SegmentsCons(line, []);
  }

  /** A terminated line, sent unless it is blank. */
  method SendLine(line: seq<byte>, lossy: seq<byte> -> string, tx: Sender<Item>, ghost later: seq<Item>)
    returns (ok: bool)
    requires tx.room.None? || |tx.sent| <= tx.room.value
    modifies tx
    ensures tx.room.None? || |tx.sent| <= tx.room.value
    ensures ok ==> tx.sent == old(tx.sent) + Terminated(line, lossy)
    ensures !ok ==> tx.sent == Seen(tx.room, old(tx.sent) + (Terminated(line, lossy) + later))
  {
    var text := lossy(DropCr(line));
    FromNothing(tx.sent);
    ok := true;
    if !Blank(text) {
      ok := tx.Send(Line(text));
    }
  }

  /** The end of the stream: an error, or a tail if there is one. */
  method SendTail(line: seq<byte>, broken: bool, lossy: seq<byte> -> string, tx: Sender<Item>)
    requires tx.room.None? || |tx.sent| <= tx.room.value
    modifies tx
    ensures tx.sent == Seen(tx.room, old(tx.sent) + Tail(line, broken, lossy))
  {
    FromNothing(tx.sent);
    if broken {
      var _ := tx.Send(Broken);
    } else if line != [] {
      var _ := tx.Send(Line(lossy(line)));
    }
  }

  /** The next piece of a line: too long now, or ended by a newline, or to be continued. */
  lemma ChunkRead(line: seq<byte>, rest: seq<byte>, idx: nat, max: nat, broken: bool, lossy: seq<byte> -> string)
    requires NL !in line && idx <= |rest| && NL !in rest[..idx]
    ensures var full, pending := line + rest[..idx], Deliveries(Segments(line + rest), max, broken, lossy);
      && (|full| > max ==> pending == [TooLong(max)])
      && (|full| <= max && idx < |rest| && rest[idx] == NL ==>
            pending == Terminated(full, lossy) + Deliveries(Segments(rest[idx + 1..]), max, broken, lossy))
      && pending == Deliveries(Segments(full + rest[idx..]), max, broken, lossy)
  {
    var full := line + rest[..idx];
    Recut(line, rest, idx);
    if |full| > max {
      LongHead(full, rest[idx..], max, broken, lossy);
    } else if idx < |rest| && rest[idx] == NL {
      HeadAt(rest, idx);
      LineDone(full, rest[idx + 1..], max, broken, lossy);
    }
  }

  /** What is still to be delivered, with `line` read so far. */
  function Pending(line: seq<byte>, rest: seq<byte>, max: nat, broken: bool, lossy: seq<byte> -> string): seq<Item> {
    Deliveries(Segments(line + rest), max, broken, lossy)
  }

  /** The chunk that was just seen in the pipe: the line grows, ends, or is too long. */
  method TakeChunk(line: seq<byte>, available: seq<byte>, stdout: Pipe, maxLine: nat, lossy: seq<byte> -> string,
                   tx: Sender<Item>)
    returns (more: bool, line': seq<byte>)
    requires NL !in line && |line| <= maxLine && available != [] && available <= stdout.rest
    requires tx.room.None? || |tx.sent| <= tx.room.value
    modifies stdout, tx
    ensures tx.room.None? || |tx.sent| <= tx.room.value
    ensures NL !in line' && |line'| <= maxLine && (more ==> |stdout.rest| < |old(stdout.rest)|)
    ensures var before := old(tx.sent) + Pending(line, old(stdout.rest), maxLine, stdout.broken, lossy);
      if more then tx.sent + Pending(line', stdout.rest, maxLine, stdout.broken, lossy) == before
      else tx.sent == Seen(tx.room, before)
  {
    var idx := LineLength(available);
    var chunk, foundNewline := available[..idx], idx < |available|;
    ghost var rest := stdout.rest;
    assert chunk == rest[..idx];
    ghost var pending := Pending(line, rest, maxLine, stdout.broken, lossy);
    more, line' := false, [];
    if |line| + |chunk| > maxLine {
      assert pending == [TooLong(maxLine)] by { ChunkRead(line, rest, idx, maxLine, stdout.broken, lossy); }
      var _ := tx.Send(TooLong(maxLine));
    } else if !foundNewline {
      assert pending == Pending(line + chunk, rest[idx..], maxLine, stdout.broken, lossy) by {
        ChunkRead(line, rest, idx, maxLine, stdout.broken, lossy);
      }
      stdout.Consume(|chunk|);
      more, line' := true, line + chunk;
    } else {
      ghost var later := Pending([], rest[idx + 1..], maxLine, stdout.broken, lossy);
      assert pending == Terminated(line + chunk, lossy) + later by {
        ChunkRead(line, rest, idx, maxLine, stdout.broken, lossy);
        FromNothing(rest[idx + 1..]);
      }
      stdout.Consume(|chunk| + 1);
      Regroup(tx.sent, Terminated(line + chunk, lossy), later);
      more := SendLine(line + chunk, lossy, tx, later);
    }
  }

  /** However the bytes are cut into pieces, and whenever the receiver goes away, exactly the
      deliveries of the newline split arrive, in order, as far as the receiver listens. */
  method ReadLines(stdout: Pipe, maxLine: nat, lossy: seq<byte> -> string, tx: Sender<Item>)
    requires tx.sent == []
    modifies stdout, tx
    ensures tx.sent ==
      Seen(tx.room, Deliveries(Segments(old(stdout.rest)), maxLine, stdout.broken, lossy))
  {
    var line: seq<byte> := [];
    ghost var all := Pending(line, stdout.rest, maxLine, stdout.broken, lossy);
    FromNothing(stdout.rest);
    while true
      invariant NL !in line && |line| <= maxLine
      invariant tx.sent + Pending(line, stdout.rest, maxLine, stdout.broken, lossy) == all
      invariant tx.room.None? || |tx.sent| <= tx.room.value
      decreases |stdout.rest|
    {
      var failed, available := stdout.FillBuf();
      if failed || available == [] {
        FromNothing(line);
        LastLine(line, maxLine, stdout.broken, lossy);
        SendTail(line, failed, lossy, tx);
        return;
      }
      var more;
      more, line := TakeChunk(line, available, stdout, maxLine, lossy, tx);
      if !more { return; }
    }
  }

  /** Only the last `limit` bytes of the error stream are kept, however it is cut. */
  method CollectTail(stderr: Pipe, limit: nat) returns (tail: seq<byte>)
    modifies stderr
    ensures tail == (var s := old(stderr.rest); if |s| > limit then s[|s| - limit..] else s)
  {
    tail := [];
    ghost var read: seq<byte> := [];
    while true
      invariant read + stderr.rest == old(stderr.rest)
      invariant tail == if |read| > limit then read[|read| - limit..] else read
      decreases |stderr.rest|
    {
      var failed, buf := stderr.FillBuf();
      if failed || buf == [] { break; }
      stderr.Consume(|buf|);
      read := read + buf;
      tail := tail + buf;
      if |tail| > limit {
        var cut := |tail| - limit;
        tail := tail[cut..];
      }
    }
  }
}
