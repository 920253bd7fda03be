/** The voice helper's main loop (voice/engine/src/main.rs) and the sample conversion it feeds on
    (voice/engine/src/decode.rs).  Decoding is an outcome the environment chooses; time enters as
    the answers to the two questions the loop asks of its clocks. */
module HelperLoop {
  import opened Text
  import opened ByteStreams
  import opened Seqs
  import opened FrameCodec

  const SAMPLE_RATE := 16000
  const MIN_FINAL := SAMPLE_RATE * 3 / 10
  const DETECT_PIN := SAMPLE_RATE * 3

  // ---------------------------------------------------------------- samples

  /** A 16-bit little-endian sample as a fraction of full scale. */
  function Sample(lo: byte, hi: byte): real {
    var u := lo + 256 * (hi as int);
    (if u < 32768 then u else u - 65536) as real / 32768.0
  }

  function Samples(bytes: seq<byte>): (r: seq<real>)
    ensures |r| == |bytes| / 2
  {
    seq(|bytes| / 2, i requires 0 <= i < |bytes| / 2 => Sample(bytes[2 * i], bytes[2 * i + 1]))
  }

  method Pcm16leToF32(bytes: seq<byte>, before: seq<real>) returns (out: seq<real>)
    ensures out == before + Samples(bytes)
  {
    out := before;
    var i := 0;
    while i + 1 < |bytes|
      invariant i % 2 == 0 && 0 <= i <= |bytes|
      invariant out == before + Samples(bytes)[..i / 2]
    {
      out := out + [Sample(bytes[i], bytes[i + 1])];
      i := i + 2;
    }
    assert Samples(bytes)[..i / 2] == Samples(bytes);
  }

  /** Every 16-bit value survives the conversion exactly, and lands in [-1, 1). */
  lemma SampleExact(v: int)
    requires -32768 <= v < 32768
    ensures var u := v % 65536;
      Sample(u % 256, u / 256) * 32768.0 == v as real && -1.0 <= Sample(u % 256, u / 256) < 1.0
  {
    var u := v % 65536;
    assert u % 256 + 256 * (u / 256) == u;
  }

  /** Frames may cut the audio anywhere between samples. */
  lemma SamplesConcat(a: seq<byte>, b: seq<byte>)
    requires |a| % 2 == 0
    ensures Samples(a + b) == Samples(a) + Samples(b)
  {
    var s := a + b;
    forall i | 0 <= i < |s| / 2
      ensures Samples(s)[i] == (Samples(a) + Samples(b))[i]
    {
      if i >= |a| / 2 {
        assert s[2 * i] == b[2 * (i - |a| / 2)] && s[2 * i + 1] == b[2 * (i - |a| / 2) + 1];
      }
    }
  }

  // ------------------------------------------------------- what was received

  datatype Received = Message(inbound: Inbound) | Timeout | Disconnected

  predicate IsStart(r: Received) { r.Message? && r.inbound.Framed? && r.inbound.frame.Start? }
  predicate IsAudio(r: Received) { r.Message? && r.inbound.Framed? && r.inbound.frame.Audio? }
  predicate IsStop(r: Received) { r.Message? && r.inbound.Framed? && r.inbound.frame.Stop? }

  /** The helper goes on after this. */
  predicate Continues(r: Received) { r.Timeout? || IsStart(r) || IsAudio(r) || IsStop(r) }

  /** The open utterance, as a listener would reconstruct it from what was received. */
  datatype Heard = Heard(language: Option<string>, samples: seq<real>)

  function HeardAfter(h: Option<Heard>, r: Received, default: Option<string>): Option<Heard> {
    if IsStart(r) then
      var l := ConcreteLanguage(r.inbound.frame.language);
      Some(Heard(if l.Some? then l else default, []))
    else if IsAudio(r) && h.Some? then
      Some(h.value.(samples := h.value.samples + Samples(r.inbound.frame.bytes)))
    else if r.Timeout? then h
    else None
  }

  function HeardIn(rs: seq<Received>, default: Option<string>): Option<Heard> {
    if rs == [] then None
    else HeardAfter(HeardIn(rs[..|rs| - 1], default), rs[|rs| - 1], default)
  }

  function AudioIn(rs: seq<Received>): seq<real> {
    if rs == [] then []
    else
      var last := rs[|rs| - 1];
      AudioIn(rs[..|rs| - 1]) + (if IsAudio(last) then Samples(last.inbound.frame.bytes) else [])
  }

  /** An utterance is the audio since its start frame: nothing before it, nothing left out. */
  lemma {:induction false} HeardIsAudioSinceStart(
      pre: seq<Received>, start: Received, mid: seq<Received>, default: Option<string>)
    requires IsStart(start)
    requires forall i :: 0 <= i < |mid| ==> mid[i].Timeout? || IsAudio(mid[i])
    ensures var h := HeardIn(pre + [start] + mid, default);
      h.Some? && h.value.samples == AudioIn(mid)
      && h.value.language == (var l := ConcreteLanguage(start.inbound.frame.language);
                              if l.Some? then l else default)
  {
    var rs := pre + [start] + mid;
    if mid == [] {
      assert rs == pre + [start];
    } else {
      HeardIsAudioSinceStart(pre, start, mid[..|mid| - 1], default);
      assert rs[..|rs| - 1] == pre + [start] + mid[..|mid| - 1];
    }
  }

  // ---------------------------------------------------------------- rounds

  datatype Said = Partial(text: string) | Final(text: string) | Error(text: string)

  datatype Decoded = Text(text: string, language: Option<string>) | Failure(message: string)

  /** What the environment does during one turn of the loop. */
  datatype Turn = Turn(
    received: Received,
    intervalOver: bool,   // the interim interval has passed since the last decode
    interim: Decoded,     // what an interim decode would give
    final: Decoded,       // what a final decode would give
    idle: bool,           // the idle timeout has passed since the last activity
    stdoutOpen: bool)

  /** One turn, as observed from outside: what was said, and what was given to the decoder. */
  datatype Round = Round(
    turn: Turn,
    said: seq<Said>,
    finalOver: Option<Heard>,
    interimOver: Option<Heard>)

  function Inputs(rounds: seq<Round>): (r: seq<Received>)
    ensures |r| == |rounds|
  {
    if rounds == [] then [] else Inputs(rounds[..|rounds| - 1]) + [rounds[|rounds| - 1].turn.received]
  }

  /** The last partial said since the last start frame; empty if there is none. */
  function LastPartial(rounds: seq<Round>): string {
    if rounds == [] then ""
    else
      var r := rounds[|rounds| - 1];
      if r.said != [] && r.said[0].Partial? then r.said[0].text
      else if IsStart(r.turn.received) then ""
      else LastPartial(rounds[..|rounds| - 1])
  }

  /** How many samples of the open utterance the last interim decode has covered. */
  function Covered(rounds: seq<Round>, default: Option<string>): nat {
    if rounds == [] then 0
    else
      var r, h := rounds[|rounds| - 1], HeardIn(Inputs(rounds), default);
      if r.interimOver.Some? && h.Some? then |h.value.samples|
      else if IsStart(r.turn.received) then 0
      else Covered(rounds[..|rounds| - 1], default)
  }

  /** What an interim decode pins: the first language it finds in enough audio of an utterance whose
      language was left open. */
  function Pinned(h: Option<Heard>, before: Option<string>, r: Round): Option<string> {
    if r.interimOver.Some? && h.Some? && h.value.language.None? && before.None?
       && |h.value.samples| >= DETECT_PIN && r.turn.interim.Text?
    then r.turn.interim.language
    else before
  }

  function Detected(rounds: seq<Round>, default: Option<string>): Option<string> {
    if rounds == [] then None
    else
      var r := rounds[|rounds| - 1];
      var before := if IsStart(r.turn.received) then None else Detected(rounds[..|rounds| - 1], default);
      Pinned(HeardIn(Inputs(rounds), default), before, r)
  }

  predicate Answer(s: Said) { s.Final? || s.Error? }

  /** What ends an utterance: the decoder sees everything heard, unless that is too short to hold a
      word, and exactly one answer goes out. */
  predicate Answered(h: Option<Heard>, t: Turn, said: seq<Said>, over: Option<Heard>) {
    var long := h.Some? && |h.value.samples| >= MIN_FINAL;
    && over == (if long then h else None)
    && said ==
       if !t.stdoutOpen then []
       else if !long then [Final("")]
       else if t.final.Text? then [Final(t.final.text)]
       else [Error(t.final.message)]
  }

  /** The reply to a message, apart from interims. */
  predicate Replied(h: Option<Heard>, t: Turn, said: seq<Said>, over: Option<Heard>) {
    var input := t.received;
    if IsStop(input) then Answered(h, t, said, over)
    else if input.Message? && (input.inbound.Eof? || input.inbound == Framed(Quit)) then
      if h.Some? then Answered(h, t, said, over) else said == [] && over.None?
    else
      var protest := input.Message? && input.inbound.Broken? && t.stdoutOpen;
      over.None? && said == (if protest then [Error("protocol")] else [])
  }

  /** What has been made of the open utterance so far. */
  datatype Progress = Progress(last: string, covered: nat, detected: Option<string>)

  function ProgressIn(before: seq<Round>, input: Received, default: Option<string>): Progress {
    if IsStart(input) then Progress("", 0, None)
    else Progress(LastPartial(before), Covered(before, default), Detected(before, default))
  }

  /** An interim decode is due: enough open audio, some of it new, and the interval over. */
  predicate IsDue(h: Option<Heard>, p: Progress, t: Turn) {
    h.Some? && |h.value.samples| >= SAMPLE_RATE && |h.value.samples| > p.covered && t.intervalOver
  }

  /** It says something, and something new. */
  predicate HasNews(h: Option<Heard>, p: Progress, t: Turn) {
    IsDue(h, p, t) && t.interim.Text? && t.interim.text != "" && t.interim.text != p.last
  }

  /** The interim part of a turn: a decode exactly when one is due, of the last `window` samples in the
      language asked for or found; a partial exactly when that brings news and stdout is open. */
  predicate Previewed(h: Option<Heard>, p: Progress, t: Turn, said: seq<Said>, over: Option<Heard>, window: nat) {
    && over == (if IsDue(h, p, t) then
                  Some(Heard(if h.value.language.Some? then h.value.language else p.detected,
                             Tail(h.value.samples, window)))
                else None)
    && said == if HasNews(h, p, t) && t.stdoutOpen then [Partial(t.interim.text)] else []
  }

  /** What the helper promises of one turn, given everything before it. */
  predicate RoundOk(before: seq<Round>, r: Round, window: nat, default: Option<string>) {
    var input := r.turn.received;
    var h := HeardIn(Inputs(before), default);
    if Continues(input) && !IsStop(input) then
      r.finalOver.None?
      && Previewed(HeardAfter(h, input, default), ProgressIn(before, input, default), r.turn, r.said, r.interimOver,
                   window)
    else Replied(h, r.turn, r.said, r.finalOver) && r.interimOver.None?
  }

  /** The turn ends the process: the input does, stdout is gone when there is something to say, or nothing
      has happened for too long. */
  predicate Exits(before: seq<Round>, t: Turn, default: Option<string>) {
    var h := HeardAfter(HeardIn(Inputs(before), default), t.received, default);
    || !Continues(t.received)
    || (!t.stdoutOpen && (IsStop(t.received) || HasNews(h, ProgressIn(before, t.received, default), t)))
    || t.idle
  }

  function ExitCode(t: Turn): int {
    if t.received.Message? && t.received.inbound.Broken? then 2 else 0
  }

  function Tail(s: seq<real>, n: nat): seq<real> {
    if |s| > n then s[|s| - n..] else s
  }

  predicate AllOk(rounds: seq<Round>, window: nat, default: Option<string>) {
    rounds == [] ||
    (AllOk(rounds[..|rounds| - 1], window, default)
     && RoundOk(rounds[..|rounds| - 1], rounds[|rounds| - 1], window, default))
  }

  function SaidIn(rounds: seq<Round>): seq<Said> {
    if rounds == [] then [] else SaidIn(rounds[..|rounds| - 1]) + rounds[|rounds| - 1].said
  }

  /** The rounds of a run over `script`: one a turn, until a turn that ends the process. */
  predicate Follows(rounds: seq<Round>, script: seq<Turn>, default: Option<string>) {
    && |rounds| <= |script|
    && forall i :: 0 <= i < |rounds| ==>
         rounds[i].turn == script[i] && (i < |rounds| - 1 ==> !Exits(rounds[..i], script[i], default))
  }

  lemma FollowsNext(before: seq<Round>, r: Round, script: seq<Turn>, default: Option<string>)
    requires Follows(before, script, default) && |before| < |script| && r.turn == script[|before|]
    requires before != [] ==> !Exits(before[..|before| - 1], script[|before| - 1], default)
    ensures Follows(before + [r], script, default)
  {
    var all := before + [r];
    assert forall i :: 0 <= i <= |before| ==> all[..i] == before[..i];
  }

  /** What one more round changes. */
  lemma {:induction false} Extend(before: seq<Round>, r: Round, window: nat, default: Option<string>)
    ensures var rounds := before + [r];
      && (AllOk(rounds, window, default) <==> AllOk(before, window, default) && RoundOk(before, r, window, default))
      && HeardIn(Inputs(rounds), default)
         == HeardAfter(HeardIn(Inputs(before), default), r.turn.received, default)
      && SaidIn(rounds) == SaidIn(before) + r.said
      && LastPartial(rounds) == (if r.said != [] && r.said[0].Partial? then r.said[0].text
                                 else if IsStart(r.turn.received) then "" else LastPartial(before))
  {
    assert (before + [r])[..|before|] == before;
    assert (Inputs(before) + [r.turn.received])[..|before|] == Inputs(before);
  }

  lemma {:induction false} ProgressExtends(before: seq<Round>, r: Round, default: Option<string>)
    ensures var rounds, p := before + [r], ProgressIn(before, r.turn.received, default);
      var h := HeardAfter(HeardIn(Inputs(before), default), r.turn.received, default);
      && Covered(rounds, default) == (if r.interimOver.Some? && h.Some? then |h.value.samples| else p.covered)
      && Detected(rounds, default) == Pinned(h, p.detected, r)
  {
    Extend(before, r, 0, default);
    assert (before + [r])[..|before|] == before;
  }

  // ---------------------------------------------------------------- the loop

  datatype Utterance = Utterance(
    language: Option<string>,
    detected: Option<string>,
    samples: seq<real>,
    decodedUpto: nat,
    lastPartial: string)

  function AsHeard(u: Option<Utterance>): Option<Heard> {
    if u.Some? then Some(Heard(u.value.language, u.value.samples)) else None
  }

  function AsProgress(u: Option<Utterance>): Progress {
    if u.Some? then Progress(u.value.lastPartial, u.value.decodedUpto, u.value.detected) else Progress("", 0, None)
  }

  /** A reply and an interim make up a round. */
  lemma RoundFrom(before: seq<Round>, r: Round, said: seq<Said>, words: seq<Said>,
                  window: nat, default: Option<string>)
    requires r.said == said + words
    requires var h, input := HeardIn(Inputs(before), default), r.turn.received;
      && Replied(h, r.turn, said, r.finalOver)
      && (Continues(input) && !IsStop(input) ==>
            Previewed(HeardAfter(h, input, default), ProgressIn(before, input, default), r.turn, words, r.interimOver,
                      window))
      && (!Continues(input) || IsStop(input) ==> words == [] && r.interimOver.None?)
    ensures RoundOk(before, r, window, default)
  {
    assert said + [] == said && [] + words == words;
  }

  /** The progress once a decode that was due is done. */
  function ProgressAfter(h: Option<Heard>, p: Progress, t: Turn): Progress {
    if !IsDue(h, p, t) then p
    else
      var pins := h.value.language.None? && p.detected.None? && |h.value.samples| >= DETECT_PIN && t.interim.Text?;
      Progress(if HasNews(h, p, t) then t.interim.text else p.last, |h.value.samples|,
               if pins then t.interim.language else p.detected)
  }

  /** The fields say what a listener to the rounds so far would say. */
  predicate Agrees(u: Option<Utterance>, rounds: seq<Round>, default: Option<string>) {
    && AsHeard(u) == HeardIn(Inputs(rounds), default)
    && (u.Some? ==>
          AsProgress(u) == Progress(LastPartial(rounds), Covered(rounds, default), Detected(rounds, default)))
  }

  /** They still do after a turn. */
  lemma SessionAgrees(before: seq<Round>, r: Round, words: seq<Said>, u: Option<Utterance>, window: nat,
                      default: Option<string>)
    requires var h, p := HeardAfter(HeardIn(Inputs(before), default), r.turn.received, default),
                         ProgressIn(before, r.turn.received, default);
      && AsHeard(u) == h && Previewed(h, p, r.turn, words, r.interimOver, window)
      && (u.Some? ==> r.said == words && (r.turn.stdoutOpen || !HasNews(h, p, r.turn)))
      && (u.Some? ==> AsProgress(u) == ProgressAfter(h, p, r.turn))
    ensures Agrees(u, before + [r], default)
  {
    Extend(before, r, window, default);
    ProgressExtends(before, r, default);
  }

  class Helper {
    var session: Option<Utterance>
    var stdout: seq<Said>
    const window: nat
    const default: Option<string>
    ghost var rounds: seq<Round>

    /** The loop's fields say what a listener would say, and every turn so far kept its promise. */
    ghost predicate Valid()
      reads this
    {
      AllOk(rounds, window, default) && Agrees(session, rounds, default)
    }

    constructor (windowSamples: nat, defaultLanguage: Option<string>)
      ensures Valid() && rounds == [] && stdout == []
      ensures window == windowSamples && default == defaultLanguage
    {
      session, stdout, rounds := None, [], [];
      window, default := windowSamples, defaultLanguage;
    }

    method Emit(s: Said, open: bool) returns (ok: bool)
      modifies this`stdout
      ensures ok == open && stdout == old(stdout) + if open then [s] else []
    {
      if open { stdout := stdout + [s]; }
      ok := open;
    }

    /** The full decode of an utterance and its one answer. */
    method Finalize(u: Utterance, t: Turn) returns (ok: bool, ghost said: seq<Said>, ghost over: Option<Heard>)
      modifies this`stdout
      ensures ok == t.stdoutOpen && stdout == old(stdout) + said
      ensures Answered(AsHeard(Some(u)), t, said, over)
    {
      over := None;
      if |u.samples| < SAMPLE_RATE * 3 / 10 {
        said := if t.stdoutOpen then [Final("")] else [];
        ok := Emit(Final(""), t.stdoutOpen);
        return;
      }
      over := Some(Heard(u.language, u.samples));
      match t.final {
        case Text(text, _) =>
          said := if t.stdoutOpen then [Final(text)] else [];
          ok := Emit(Final(text), t.stdoutOpen);
        case Failure(message) =>
          said := if t.stdoutOpen then [Error(message)] else [];
          ok := Emit(Error(message), t.stdoutOpen);
      }
    }

    /** What the loop does with what it received. */
    method Receive(t: Turn) returns (exit: Option<int>, ghost said: seq<Said>, ghost over: Option<Heard>)
      modifies this`session, this`stdout
      ensures AsHeard(session) == HeardAfter(AsHeard(old(session)), t.received, default)
      ensures session.Some? ==>
        AsProgress(session) == if IsStart(t.received) then Progress("", 0, None) else AsProgress(old(session))
      ensures stdout == old(stdout) + said
      ensures Replied(AsHeard(old(session)), t, said, over)
      ensures exit.Some? <==> !Continues(t.received) || (IsStop(t.received) && !t.stdoutOpen)
      ensures exit.Some? ==> exit.value == ExitCode(t)
    {
      exit, said, over := None, [], None;
      match t.received {
        case Message(Framed(Audio(bytes))) =>
          if session.Some? {
            var samples := Pcm16leToF32(bytes, session.value.samples);
            session := Some(session.value.(samples := samples));
          }
        case Message(Framed(Start(language))) =>
          var l := ConcreteLanguage(language);
          session := Some(Utterance(if l.Some? then l else default, None, [], 0, ""));
        case Message(Framed(Stop)) =>
          var ok;
          if session.Some? {
            var u := session.value;
            session := None;
            ok, said, over := Finalize(u, t);
          } else {
            said := if t.stdoutOpen then [Final("")] else [];
            ok := Emit(Final(""), t.stdoutOpen);
          }
          if !ok { exit := Some(0); }
        case Message(Framed(Quit)) =>
          exit, said, over := Close(t);
        case Message(Eof) =>
          exit, said, over := Close(t);
        case Message(Broken(_)) =>
          said := if t.stdoutOpen then [Error("protocol")] else [];
          var _ := Emit(Error("protocol"), t.stdoutOpen);
          session, exit := None, Some(2);
        case Timeout =>
        case Disconnected =>
          session, exit := None, Some(0);
      }
    }

    /** Quit or end of input: an open utterance is still answered. */
    method Close(t: Turn) returns (exit: Option<int>, ghost said: seq<Said>, ghost over: Option<Heard>)
      modifies this`session, this`stdout
      ensures session.None? && exit == Some(0) && stdout == old(stdout) + said
      ensures if old(session).Some? then Answered(AsHeard(old(session)), t, said, over)
              else said == [] && over.None?
    {
      exit, said, over := Some(0), [], None;
      if session.Some? {
        var u, ok := session.value, false;
        session := None;
        ok, said, over := Finalize(u, t);
      }
    }

    /** The interim decode of the open utterance, when one is due. */
    method Interim(t: Turn) returns (ok: bool, ghost said: seq<Said>, ghost over: Option<Heard>)
      modifies this`session, this`stdout
      ensures AsHeard(session) == AsHeard(old(session)) && stdout == old(stdout) + said
      ensures Previewed(AsHeard(session), AsProgress(old(session)), t, said, over, window)
      ensures ok <==> t.stdoutOpen || !HasNews(AsHeard(session), AsProgress(old(session)), t)
      ensures ok && session.Some? ==>
        AsProgress(session) == ProgressAfter(AsHeard(session), AsProgress(old(session)), t)
    {
      ok, said, over := true, [], None;
      if session.None? { return; }
      var u := session.value;
      var n := |u.samples|;
      if n >= SAMPLE_RATE && n > u.decodedUpto && t.intervalOver {
        var start := if n > window then n - window else 0;
        var lang := if u.language.Some? then u.language else u.detected;
        over := Some(Heard(lang, u.samples[start..]));
        match t.interim {
          case Text(text, language) =>
            if u.language.None? && u.detected.None? && n >= DETECT_PIN {
              u := u.(detected := language);
            }
            if text != "" && text != u.lastPartial {
              ok := Emit(Partial(text), t.stdoutOpen);
              if !ok { return; }
              said := [Partial(text)];
              u := u.(lastPartial := text);
            }
          case Failure(_) =>
        }
        session := Some(u.(decodedUpto := n));
      }
    }

    /** The part of a turn before its idle check: what was received, then an interim decode. */
    method Attend(t: Turn) returns (exit: Option<int>, ghost round: Round)
      requires Valid()
      modifies this`session, this`stdout
      ensures round.turn == t && RoundOk(rounds, round, window, default)
      ensures stdout == old(stdout) + round.said
      ensures exit == if Exits(rounds, t.(idle := false), default) then Some(ExitCode(t)) else None
      ensures exit.None? ==> Agrees(session, rounds + [round], default)
    {
      ghost var out, said, over := stdout, [], None;
      exit, said, over := Receive(t);
      if exit.Some? {
        round := Round(t, said, over, None);
        return;
      }
      var ok;
      ghost var words, preview := [], None;
      ok, words, preview := Interim(t);
      round := Round(t, said + words, over, preview);
      assert RoundOk(rounds, round, window, default) by {
        RoundFrom(rounds, round, said, words, window, default);
      }
      assert stdout == out + round.said by { Regroup(out, said, words); }
      if ok {
        SessionAgrees(rounds, round, words, session, window, default);
      } else {
        exit := Some(0);
      }
    }

    /** One turn of the loop; `exit` is the process's exit code once it is over. */
    method Step(t: Turn) returns (exit: Option<int>, ghost round: Round)
      requires Valid()
      modifies this
      ensures rounds == old(rounds) + [round] && round.turn == t && AllOk(rounds, window, default)
      ensures stdout == old(stdout) + round.said
      ensures exit == if Exits(old(rounds), t, default) then Some(ExitCode(t)) else None
      ensures exit.None? ==> Valid()
    {
      exit, round := Attend(t);
      if exit.None? && t.idle { exit := Some(0); }
      assert AllOk(rounds + [round], window, default) by { Extend(rounds, round, window, default); }
      rounds := rounds + [round];
    }

    /** Any run: the loop over whatever the environment does, until it exits or `script` runs out. */
    method Run(script: seq<Turn>) returns (exit: Option<int>)
      requires Valid() && rounds == [] && stdout == []
      modifies this
      ensures AllOk(rounds, window, default) && Follows(rounds, script, default)
      ensures exit.None? ==> |rounds| == |script|
      ensures exit.Some? ==> rounds != []
      ensures exit.Some? ==> exit.value == ExitCode(rounds[|rounds| - 1].turn)
      ensures exit.Some? ==> Exits(rounds[..|rounds| - 1], rounds[|rounds| - 1].turn, default)
      ensures stdout == SaidIn(rounds)
    {
      exit := None;
      var i := 0;
      while i < |script| && exit.None?
        invariant i == |rounds| <= |script|
        invariant AllOk(rounds, window, default) && Follows(rounds, script, default)
        invariant exit.None? ==> Valid()
        invariant rounds != [] ==>
          exit == if Exits(rounds[..|rounds| - 1], rounds[|rounds| - 1].turn, default)
                  then Some(ExitCode(rounds[|rounds| - 1].turn)) else None
        invariant rounds == [] ==> exit.None?
        invariant stdout == SaidIn(rounds)
      {
        ghost var before := rounds;
        ghost var round;
        exit, round := Step(script[i]);
        i := i + 1;
        FollowsNext(before, round, script, default);
        assert rounds[..|rounds| - 1] == before;
        assert SaidIn(rounds) == SaidIn(before) + round.said by {
          Extend(before, round, window, default);
        }
      }
    }
  }

  // ------------------------------------------------------------- whole runs

  lemma {:induction false} OkAt(rounds: seq<Round>, i: nat, window: nat, default: Option<string>)
    requires AllOk(rounds, window, default) && i < |rounds|
    ensures RoundOk(rounds[..i], rounds[i], window, default)
  {
    var n := |rounds| - 1;
    if i < n {
      OkAt(rounds[..n], i, window, default);
      assert rounds[..n][..i] == rounds[..i];
    }
  }

  lemma {:induction false} InputAt(rounds: seq<Round>, i: nat)
    requires i < |rounds|
    ensures Inputs(rounds)[i] == rounds[i].turn.received && Inputs(rounds)[..i] == Inputs(rounds[..i])
  {
    var n := |rounds| - 1;
    if i < n {
      InputAt(rounds[..n], i);
      assert rounds[..n][..i] == rounds[..i];
    }
  }

  function Stops(rounds: seq<Round>): nat {
    if rounds == [] then 0
    else
      Stops(rounds[..|rounds| - 1]) + (if IsStop(rounds[|rounds| - 1].turn.received) then 1 else 0)
  }

  function Answers(said: seq<Said>): nat {
    if said == [] then 0
    else Answers(said[..|said| - 1]) + (if Answer(said[|said| - 1]) then 1 else 0)
  }

  lemma AnswersConcat(a: seq<Said>, b: seq<Said>)
    requires |b| <= 1
    ensures Answers(a + b) == Answers(a) + Answers(b)
  {
    if b == [] {
      assert a + b == a;
    } else {
      assert (a + b)[..|a|] == a && b[..0] == [];
    }
  }

  /** While stdout is open and the process goes on, there is one answer for each stop. */
  lemma {:induction false} OneAnswerPerStop(rounds: seq<Round>, window: nat, default: Option<string>)
    requires AllOk(rounds, window, default)
    requires forall i :: 0 <= i < |rounds| ==>
      rounds[i].turn.stdoutOpen && Continues(rounds[i].turn.received)
    ensures Answers(SaidIn(rounds)) == Stops(rounds)
  {
    if rounds != [] {
      var n := |rounds| - 1;
      OneAnswerPerStop(rounds[..n], window, default);
      assert |rounds[n].said| <= 1 && Answers(rounds[n].said) == if IsStop(rounds[n].turn.received) then 1 else 0 by {
        OneAnswerNow(rounds[..n], rounds[n], window, default);
      }
      AnswersConcat(SaidIn(rounds[..n]), rounds[n].said);
    }
  }

  lemma OneAnswerNow(before: seq<Round>, r: Round, window: nat, default: Option<string>)
    requires RoundOk(before, r, window, default) && r.turn.stdoutOpen && Continues(r.turn.received)
    ensures |r.said| <= 1 && Answers(r.said) == if IsStop(r.turn.received) then 1 else 0
  {
    assert r.said != [] ==> r.said[..0] == [];
  }

  /** And it is the only thing said in the turn that processes the stop. */
  lemma AnsweredAtOnce(rounds: seq<Round>, i: nat, window: nat, default: Option<string>)
    requires AllOk(rounds, window, default) && i < |rounds|
    requires IsStop(rounds[i].turn.received) && rounds[i].turn.stdoutOpen
    ensures |rounds[i].said| == 1 && Answer(rounds[i].said[0])
  {
    OkAt(rounds, i, window, default);
  }

  /** A partial is said exactly when the turn's interim decode was due and brought news, and stdout is open. */
  lemma PartialIff(rounds: seq<Round>, j: nat, window: nat, default: Option<string>)
    requires AllOk(rounds, window, default) && j < |rounds|
    ensures var t, before := rounds[j].turn, rounds[..j];
      var h := HeardAfter(HeardIn(Inputs(before), default), t.received, default);
      rounds[j].said != [] && rounds[j].said[0].Partial? <==>
        Continues(t.received) && t.stdoutOpen && HasNews(h, ProgressIn(before, t.received, default), t)
  {
    OkAt(rounds, j, window, default);
    PartialSaidIff(rounds[..j], rounds[j], window, default);
  }

  lemma PartialSaidIff(before: seq<Round>, r: Round, window: nat, default: Option<string>)
    requires RoundOk(before, r, window, default)
    ensures var t := r.turn;
      var h := HeardAfter(HeardIn(Inputs(before), default), t.received, default);
      r.said != [] && r.said[0].Partial? <==>
        Continues(t.received) && t.stdoutOpen && HasNews(h, ProgressIn(before, t.received, default), t)
  {
  }

  lemma {:induction false} HeardSinceStart(rs: seq<Received>, default: Option<string>) returns (i: nat)
    requires HeardIn(rs, default).Some?
    ensures i < |rs| && IsStart(rs[i])
    ensures forall k :: i < k < |rs| ==> rs[k].Timeout? || IsAudio(rs[k])
  {
    var n := |rs| - 1;
    if IsStart(rs[n]) {
      i := n;
    } else {
      i := HeardSinceStart(rs[..n], default);
    }
  }

  /** A partial is said only after a start frame, with nothing but audio and silence since. */
  lemma PartialWhileOpen(rounds: seq<Round>, j: nat, window: nat, default: Option<string>) returns (i: nat)
    requires AllOk(rounds, window, default) && j < |rounds|
    requires rounds[j].said != [] && rounds[j].said[0].Partial?
    ensures i <= j && IsStart(rounds[i].turn.received) && rounds[j].said[0].text != ""
    ensures forall k :: i < k <= j ==> rounds[k].turn.received.Timeout? || IsAudio(rounds[k].turn.received)
  {
    OkAt(rounds, j, window, default);
    var rs := Inputs(rounds[..j]) + [rounds[j].turn.received];
    assert rs[..j] == Inputs(rounds[..j]);
    i := HeardSinceStart(rs, default);
    forall k | 0 <= k < j ensures rs[k] == rounds[k].turn.received {
      InputAt(rounds[..j], k);
    }
  }

  lemma {:induction false} LastPartialIs(rounds: seq<Round>, i: nat)
    requires i < |rounds| && rounds[i].said != [] && rounds[i].said[0].Partial?
    requires forall k :: i < k < |rounds| ==>
      !IsStart(rounds[k].turn.received) && (rounds[k].said == [] || !rounds[k].said[0].Partial?)
    ensures LastPartial(rounds) == rounds[i].said[0].text
  {
    var n := |rounds| - 1;
    if i < n { LastPartialIs(rounds[..n], i); }
  }

  /** Two consecutive partials of one utterance differ. */
  lemma PartialsDiffer(rounds: seq<Round>, i: nat, j: nat, window: nat, default: Option<string>)
    requires AllOk(rounds, window, default) && i < j < |rounds|
    requires rounds[i].said != [] && rounds[i].said[0].Partial?
    requires rounds[j].said != [] && rounds[j].said[0].Partial?
    requires forall k :: i < k <= j ==> !IsStart(rounds[k].turn.received)
    requires forall k :: i < k < j ==> rounds[k].said == [] || !rounds[k].said[0].Partial?
    ensures rounds[i].said[0].text != rounds[j].said[0].text
  {
    OkAt(rounds, j, window, default);
    LastPartialIs(rounds[..j], i);
  }

  lemma {:induction false} InputsSlice(rounds: seq<Round>, i: nat, j: nat)
    requires i < j < |rounds|
    ensures Inputs(rounds[..j]) == Inputs(rounds)[..i] + [rounds[i].turn.received] + Inputs(rounds)[i + 1..j]
  {
    InputAt(rounds, j);
    InputAt(rounds, i);
    assert Inputs(rounds)[..j] == Inputs(rounds)[..i] + [Inputs(rounds)[i]] + Inputs(rounds)[i + 1..j];
  }

  /** The final decode sees exactly the samples of the audio frames since the last start, in the
      language that start asked for, unless there are too few of them to hold a word. */
  lemma FinalSeesTheUtterance(rounds: seq<Round>, i: nat, j: nat, window: nat, default: Option<string>)
    requires AllOk(rounds, window, default) && i < j < |rounds|
    requires IsStart(rounds[i].turn.received) && IsStop(rounds[j].turn.received)
    requires forall k :: i < k < j ==> rounds[k].turn.received.Timeout? || IsAudio(rounds[k].turn.received)
    ensures var samples := AudioIn(Inputs(rounds)[i + 1..j]);
      var asked := ConcreteLanguage(rounds[i].turn.received.inbound.frame.language);
      rounds[j].finalOver ==
        if |samples| < MIN_FINAL then None
        else Some(Heard(if asked.Some? then asked else default, samples))
  {
    OkAt(rounds, j, window, default);
    InputsSlice(rounds, i, j);
    var mid := Inputs(rounds)[i + 1..j];
    forall k | 0 <= k < |mid| ensures mid[k].Timeout? || IsAudio(mid[k]) {
      InputAt(rounds, i + 1 + k);
    }
    HeardIsAudioSinceStart(Inputs(rounds)[..i], rounds[i].turn.received, mid, default);
  }
}
