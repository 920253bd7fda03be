/** What the two line readers deliver of each line, told of its bytes. */
module ReaderLaws {
  import opened Text
  import opened ByteStreams
  import SupervisorReader
  import SessionReader
  import TextLaws

  /** A line without the carriage return a Windows line ends in. */
  function Content(line: seq<byte>): seq<byte> {
    if |line| > 0 && line[|line| - 1] == 13 then line[..|line| - 1] else line
  }

  /** A line of a run's output is delivered, without its carriage return, unless it is blank; then the reader
      goes on behind its newline. */
  lemma SupervisedLine(line: seq<byte>, rest: seq<byte>, max: nat, broken: bool, lossy: seq<byte> -> string)
    requires NL !in line && |line| <= max
    ensures var text := lossy(Content(line));
      SupervisorReader.Deliveries(Segments(line + [NL] + rest), max, broken, lossy) ==
        (if Trim(text) == "" then [] else [SupervisorReader.Line(text)])
        + SupervisorReader.Deliveries(Segments(rest), max, broken, lossy)
  {
    SegmentsCons(line, rest);
    assert ([line] + Segments(rest))[1..] == Segments(rest);
    TextLaws.BlankIff(lossy(Content(line)));
  }

  /** A line that is too long ends everything with an error. */
  lemma SupervisedLong(line: seq<byte>, rest: seq<byte>, max: nat, broken: bool, lossy: seq<byte> -> string)
    requires NL !in line && |line| > max && (rest == [] || rest[0] == NL)
    ensures SupervisorReader.Deliveries(Segments(line + rest), max, broken, lossy) == [SupervisorReader.TooLong(max)]
  {
    if rest == [] {
      assert line + rest == line;
      SegmentsCons(line, []);
    } else {
      assert line + rest == line + [NL] + rest[1..];
      SegmentsCons(line, rest[1..]);
    }
  }

  /** What follows the last newline is delivered as it is, if the stream ends well and there is anything. */
  lemma SupervisedTail(line: seq<byte>, max: nat, broken: bool, lossy: seq<byte> -> string)
    requires NL !in line && |line| <= max
    ensures SupervisorReader.Deliveries(Segments(line), max, broken, lossy) ==
      if broken then [SupervisorReader.Broken]
      else if line == [] then [] else [SupervisorReader.Line(lossy(line))]
  {
    SegmentsCons(line, []);
  }

  /** A session's line is kept, trimmed at its end, unless it is too long. */
  lemma SessionLine(line: seq<byte>, rest: seq<byte>, cap: nat, lossy: seq<byte> -> string)
    requires NL !in line
    ensures SessionReader.Lines(Segments(line + [NL] + rest), cap, lossy) ==
      (if |line| > cap then [] else [TrimEnd(lossy(line + [NL]))]) + SessionReader.Lines(Segments(rest), cap, lossy)
  {
    SegmentsCons(line, rest);
    assert ([line] + Segments(rest))[1..] == Segments(rest);
  }

  /** So is what follows the last newline, if there is anything. */
  lemma SessionTail(line: seq<byte>, cap: nat, lossy: seq<byte> -> string)
    requires NL !in line
    ensures SessionReader.Lines(Segments(line), cap, lossy) ==
      if |line| > cap || line == [] then [] else [TrimEnd(lossy(line))]
  {
    SegmentsCons(line, []);
    assert line + [] == line;
  }
}
