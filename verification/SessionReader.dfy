/** The reader behind a vendor session: newline-delimited lines of bounded length, over-long lines
    dropped whole (crates/workshop-detect/src/process.rs, `read_lines`). */
module SessionReader {
  import opened Text
  import opened ByteStreams
  import opened Seqs

  /** The line a segment gives, if it is short enough to keep. */
  function Kept(seg: seq<byte>, ending: seq<byte>, cap: nat, lossy: seq<byte> -> string): seq<string> {
    if |seg| > cap || seg + ending == [] then [] else [TrimEnd(lossy(seg + ending))]
  }

  /** The lines of a whole stream, from its newline split: every segment within the cap, in order;
      what follows the last newline only if there is something. */
  function Lines(segs: seq<seq<byte>>, cap: nat, lossy: seq<byte> -> string): seq<string>
    requires |segs| >= 1
  {
    if |segs| == 1 then Kept(segs[0], [], cap, lossy)
    else Kept(segs[0], [NL], cap, lossy) + Lines(segs[1..], cap, lossy)
  }

  /** Where text decoding leaves a final newline alone, a kept line reads as its segment alone. */
  lemma NewlineTrimmed(seg: seq<byte>, cap: nat, lossy: seq<byte> -> string)
    requires |seg| <= cap && lossy(seg + [NL]) == lossy(seg) + ['\n']
    ensures Kept(seg, [NL], cap, lossy) == [TrimEnd(lossy(seg))]
  {
    var t := lossy(seg);
    assert (t + ['\n'])[..|t|] == t;
  }

  /** An over-long segment vanishes without a trace on its neighbours. */
  lemma {:induction false} LongDropped(segs: seq<seq<byte>>, k: nat, cap: nat, lossy: seq<byte> -> string)
    requires k < |segs| - 1 && |segs[k]| > cap
    ensures Lines(segs, cap, lossy) == Lines(segs[..k] + segs[k + 1..], cap, lossy)
  {
    var shorter := segs[..k] + segs[k + 1..];
    if k == 0 {
      assert shorter == segs[1..];
    } else {
      LongDropped(segs[1..], k - 1, cap, lossy);
      assert segs[1..][..k - 1] + segs[1..][k..] == shorter[1..];
    }
  }

  /** `take(limit).read_until('\n')`: bytes up to and including the next newline, at most `limit`
      of them; fewer only at the end of the stream. */
  method ReadUntil(stdout: Pipe, limit: nat) returns (got: seq<byte>)
    modifies stdout
    ensures old(stdout.rest) == got + stdout.rest && |got| <= limit
    ensures NL !in got || (got[|got| - 1] == NL && NL !in got[..|got| - 1])
    ensures NL !in got ==> |got| == limit || stdout.rest == []
  {
    got := [];
    FromNothing(stdout.rest);
    while |got| < limit
      invariant old(stdout.rest) == got + stdout.rest && |got| <= limit && NL !in got
      decreases |stdout.rest|
    {
      var failed, buf := stdout.FillBuf();
      if failed || buf == [] { return; }
      var room := limit - |got|;
      var window := if |buf| <= room then buf else buf[..room];
      var idx := LineLength(window);
      var used := if idx < |window| then idx + 1 else idx;
      assert window[..used] == stdout.rest[..used];
      Recut(got, stdout.rest, used);
      stdout.Consume(used);
      ghost var before := got;
      got := got + window[..used];
      if idx < |window| {
        assert got[..|got| - 1] == before + window[..idx];
        return;
      }
      assert window[..used] == window;
    }
  }

  /** One line, kept while it fits: the inner loop of the reader.  `eaten` is the whole line, and at
      most `cap + 1` bytes of it are ever held. */
  method ReadLine(stdout: Pipe, cap: nat)
    returns (buf: seq<byte>, oversized: bool, eof: bool, ghost eaten: seq<byte>, ghost peak: nat)
    modifies stdout
    ensures NL !in eaten && peak <= cap + 1
    ensures oversized <==> |eaten| > cap
    ensures eof ==> old(stdout.rest) == eaten && stdout.rest == []
    ensures !eof ==> old(stdout.rest) == eaten + ([NL] + stdout.rest)
    ensures !oversized ==> buf == eaten + if eof then [] else [NL]
  {
    buf, oversized, eof, eaten, peak := [], false, false, [], 0;
    FromNothing(stdout.rest);
    while true
      invariant NL !in eaten && |buf| <= cap && peak <= cap + 1
      invariant old(stdout.rest) == eaten + stdout.rest
      invariant !oversized ==> buf == eaten
      invariant oversized ==> |eaten| > cap
      decreases |stdout.rest|
    {
      var limit := cap + 1 - |buf|;
      ghost var rest := stdout.rest;
      var got := ReadUntil(stdout, limit);
      buf := buf + got;
      peak := if |buf| > peak then |buf| else peak;
      Regroup(eaten, got, stdout.rest);
      if got == [] {
        eof := true;
        FromNothing(eaten);
        FromNothing(buf);
        break;
      }
      if buf[|buf| - 1] == NL {
        ghost var line := got[..|got| - 1];
        assert got == line + [NL];
        Regroup(line, [NL], stdout.rest);
        Regroup(eaten, line, [NL] + stdout.rest);
        Regroup(eaten, line, [NL]);
        eaten := eaten + line;
        break;
      }
      eaten := eaten + got;
      if |buf| > cap {
        oversized := true;
        buf := [];
      }
    }
  }

  /** However the bytes are cut, and whenever the receiver goes away: exactly the lines within the
      cap, in order, each trimmed at its end.  The reader terminates on every finite stream and
      never holds more than `cap + 1` bytes.  A read error ends the stream like end of file. */
  method ReadLines(stdout: Pipe, cap: nat, lossy: seq<byte> -> string, tx: Sender<string>)
    returns (ghost peak: nat)
    requires tx.sent == []
    modifies stdout, tx
    ensures tx.sent == Seen(tx.room, Lines(Segments(old(stdout.rest)), cap, lossy))
    ensures peak <= cap + 1
  {
    ghost var pending := Lines(Segments(stdout.rest), cap, lossy);
    ghost var all := pending;
    peak := 0;
    while true
      invariant pending == Lines(Segments(stdout.rest), cap, lossy)
      invariant tx.sent + pending == all && peak <= cap + 1
      invariant tx.room.None? || |tx.sent| <= tx.room.value
      decreases |stdout.rest|
    {
      ghost var held, eaten;
      var buf, oversized, eof;
      buf, oversized, eof, eaten, held := ReadLine(stdout, cap);
      peak := if held > peak then held else peak;
      ghost var ending: seq<byte> := if eof then [] else [NL];
      ghost var later := if eof then [] else Lines(Segments(stdout.rest), cap, lossy);
      assert pending == Kept(eaten, ending, cap, lossy) + later by {
        SegmentsCons(eaten, stdout.rest);
        Regroup(eaten, [NL], stdout.rest);
        assert ([eaten] + Segments(stdout.rest))[1..] == Segments(stdout.rest);
        FromNothing(Kept(eaten, ending, cap, lossy));
      }
      FromNothing(tx.sent);
      FromNothing(later);
      if !oversized && buf != [] {
        var line := TrimEnd(lossy(buf));
        Regroup(tx.sent, [line], later);
        var ok := tx.Send(line);
        if !ok { return; }
      }
      if eof { return; }
      pending := later;
    }
  }
}
