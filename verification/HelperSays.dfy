/** What the voice helper says, told of the audio it was sent: the text of every answer and of every
    partial, when an interim decode comes, and what ends the process. */
module HelperSays {
  import opened Text
  import opened ByteStreams
  import opened FrameCodec
  import opened HelperLoop

  /** From `i` an utterance is open, up to and including `j`: a start, and then audio or silence. */
  predicate OpenFrom(rounds: seq<Round>, i: nat, j: nat)
    requires i <= j < |rounds|
  {
    && IsStart(rounds[i].turn.received)
    && forall k :: i < k <= j ==> rounds[k].turn.received.Timeout? || IsAudio(rounds[k].turn.received)
  }

  /** The samples sent after turn `i`, up to and including turn `k`. */
  function Fed(rounds: seq<Round>, i: nat, k: nat): seq<real>
    requires i <= k < |rounds|
  {
    AudioIn(Inputs(rounds)[i + 1..k + 1])
  }

  function Language(r: Round, default: Option<string>): Option<string>
    requires IsStart(r.turn.received)
  {
    var asked := ConcreteLanguage(r.turn.received.inbound.frame.language);
    if asked.Some? then asked else default
  }

  lemma {:induction false} InputsFront(rounds: seq<Round>, n: nat)
    requires n <= |rounds|
    ensures Inputs(rounds[..n]) == Inputs(rounds)[..n]
  {
    if n == |rounds| {
      assert rounds[..n] == rounds;
    } else {
      InputsFront(rounds[..|rounds| - 1], n);
      assert rounds[..|rounds| - 1][..n] == rounds[..n];
    }
  }

  lemma HeardSlice(rs: seq<Received>, i: nat, k: nat, default: Option<string>)
    requires i <= k < |rs| && IsStart(rs[i]) && forall m :: i < m <= k ==> rs[m].Timeout? || IsAudio(rs[m])
    ensures var asked := ConcreteLanguage(rs[i].inbound.frame.language);
      HeardIn(rs[..k + 1], default) == Some(Heard(if asked.Some? then asked else default, AudioIn(rs[i + 1..k + 1])))
  {
    var mid := rs[i + 1..k + 1];
    assert rs[..k + 1] == rs[..i] + [rs[i]] + mid;
    HeardIsAudioSinceStart(rs[..i], rs[i], mid, default);
  }

  /** What the helper has heard while the utterance is open. */
  lemma HeardOpen(rounds: seq<Round>, i: nat, k: nat, default: Option<string>)
    requires i <= k < |rounds| && OpenFrom(rounds, i, k)
    ensures HeardIn(Inputs(rounds[..k + 1]), default) == Some(Heard(Language(rounds[i], default), Fed(rounds, i, k)))
  {
    var rs := Inputs(rounds);
    forall m | i <= m <= k ensures rs[m] == rounds[m].turn.received { InputAt(rounds, m); }
    InputsFront(rounds, k + 1);
    HeardSlice(rs, i, k, default);
  }

  /** What ends an utterance with an answer: a stop, a quit frame, the end of the input. */
  predicate EndsUtterance(r: Received) {
    IsStop(r) || r == Message(Framed(Quit)) || r == Message(Eof)
  }

  /** The answer to that, while stdout is open: nothing for less than three tenths of a second of audio;
      otherwise what the decoder makes of it, or the decoder's complaint. */
  lemma FinalText(rounds: seq<Round>, i: nat, j: nat, window: nat, default: Option<string>)
    requires AllOk(rounds, window, default) && i < j < |rounds| && OpenFrom(rounds, i, j - 1)
    requires EndsUtterance(rounds[j].turn.received) && rounds[j].turn.stdoutOpen
    ensures rounds[j].said ==
      if |Fed(rounds, i, j - 1)| < 4800 then [Final("")]
      else match rounds[j].turn.final
        case Text(text, _) => [Final(text)]
        case Failure(message) => [Error(message)]
  {
    OkAt(rounds, j, window, default);
    HeardOpen(rounds, i, j - 1, default);
    AnswerNow(rounds[..j], rounds[j], window, default);
  }

  lemma AnswerNow(before: seq<Round>, r: Round, window: nat, default: Option<string>)
    requires RoundOk(before, r, window, default) && EndsUtterance(r.turn.received) && r.turn.stdoutOpen
    ensures var h := HeardIn(Inputs(before), default);
      h.Some? ==>
        r.said == (if |h.value.samples| < 4800 then [Final("")]
                   else match r.turn.final
                     case Text(text, _) => [Final(text)]
                     case Failure(message) => [Error(message)])
  {
  }

  lemma {:induction false} NothingHeard(rs: seq<Received>, stop: Received, mid: seq<Received>, default: Option<string>)
    requires IsStop(stop) && forall k :: 0 <= k < |mid| ==> mid[k].Timeout? || IsAudio(mid[k])
    ensures HeardIn(rs + [stop] + mid, default).None?
  {
    var all := rs + [stop] + mid;
    if mid == [] {
      assert all[..|all| - 1] == rs && all[|all| - 1] == stop;
    } else {
      NothingHeard(rs, stop, mid[..|mid| - 1], default);
      assert all[..|all| - 1] == rs + [stop] + mid[..|mid| - 1];
    }
  }

  /** A stop after a stop, with nothing but audio and silence between them, is answered with nothing, and
      nothing is decoded: that audio belongs to no utterance. */
  lemma SecondStopIsEmpty(rounds: seq<Round>, i: nat, j: nat, window: nat, default: Option<string>)
    requires AllOk(rounds, window, default) && i < j < |rounds| && rounds[j].turn.stdoutOpen
    requires IsStop(rounds[i].turn.received) && IsStop(rounds[j].turn.received)
    requires forall k :: i < k < j ==> rounds[k].turn.received.Timeout? || IsAudio(rounds[k].turn.received)
    ensures rounds[j].said == [Final("")] && rounds[j].finalOver.None?
  {
    OkAt(rounds, j, window, default);
    InputsSlice(rounds, i, j);
    var mid := Inputs(rounds)[i + 1..j];
    forall k | 0 <= k < |mid| ensures mid[k].Timeout? || IsAudio(mid[k]) { InputAt(rounds, i + 1 + k); }
    NothingHeard(Inputs(rounds)[..i], rounds[i].turn.received, mid, default);
  }

  // -------------------------------------------------------------------- interims

  lemma {:induction false} FedGrows(rounds: seq<Round>, i: nat, k: nat, n: nat)
    requires i <= k <= n < |rounds|
    ensures |Fed(rounds, i, k)| <= |Fed(rounds, i, n)|
  {
    if k < n {
      FedGrows(rounds, i, k, n - 1);
      var rs := Inputs(rounds)[i + 1..n + 1];
      assert rs[..|rs| - 1] == Inputs(rounds)[i + 1..n];
    }
  }

  /** Nothing that an interim decode of the utterance has heard is more than `n` samples. */
  predicate CoversAtMost(rounds: seq<Round>, i: nat, j: nat, n: nat)
    requires i <= j < |rounds|
  {
    forall k :: i < k <= j && rounds[k].interimOver.Some? ==> |Fed(rounds, i, k)| <= n
  }

  lemma CoveredNext(rounds: seq<Round>, j: nat, default: Option<string>)
    requires j < |rounds|
    ensures var h := HeardIn(Inputs(rounds[..j + 1]), default);
      Covered(rounds[..j + 1], default) ==
        if rounds[j].interimOver.Some? && h.Some? then |h.value.samples|
        else if IsStart(rounds[j].turn.received) then 0
        else Covered(rounds[..j], default)
  {
    assert rounds[..j + 1][..j] == rounds[..j];
  }

  /** It is the most that one of them has heard, or nothing. */
  predicate CoversExactly(rounds: seq<Round>, i: nat, j: nat, n: nat)
    requires i <= j < |rounds|
  {
    && CoversAtMost(rounds, i, j, n)
    && (n == 0 || exists k :: i < k <= j && rounds[k].interimOver.Some? && |Fed(rounds, i, k)| == n)
  }

  lemma CoveredStep(rounds: seq<Round>, i: nat, j: nat, default: Option<string>)
    requires i <= j < |rounds| && OpenFrom(rounds, i, j)
    ensures Covered(rounds[..j + 1], default) ==
      if rounds[j].interimOver.Some? then |Fed(rounds, i, j)|
      else if j == i then 0
      else Covered(rounds[..j], default)
  {
    CoveredNext(rounds, j, default);
    HeardOpen(rounds, i, j, default);
  }

  predicate CoverAt(rounds: seq<Round>, i: nat, k: nat, covered: seq<nat>)
    requires i <= k < |rounds| && k < |covered|
  {
    covered[k] == if rounds[k].interimOver.Some? then |Fed(rounds, i, k)| else if k == i then 0 else covered[k - 1]
  }

  lemma CoverNext(rounds: seq<Round>, i: nat, j: nat, n: nat)
    requires i < j < |rounds| && CoversExactly(rounds, i, j - 1, n)
    ensures CoversExactly(rounds, i, j, if rounds[j].interimOver.Some? then |Fed(rounds, i, j)| else n)
  {
    forall k | i < k <= j ensures |Fed(rounds, i, k)| <= |Fed(rounds, i, j)| { FedGrows(rounds, i, k, j); }
  }

  lemma {:induction false} CoversFrom(rounds: seq<Round>, i: nat, j: nat, covered: seq<nat>)
    requires i <= j < |rounds| && j < |covered|
    requires forall k: nat :: i <= k <= j ==> CoverAt(rounds, i, k, covered)
    ensures CoversExactly(rounds, i, j, covered[j])
  {
    assert CoverAt(rounds, i, j, covered);
    if j == i {
      assert Fed(rounds, i, i) == [];
    } else {
      CoversFrom(rounds, i, j - 1, covered);
      CoverNext(rounds, i, j, covered[j - 1]);
    }
  }

  /** A measure of the rounds so far, after each of them. */
  function Measured(rounds: seq<Round>, measure: seq<Round> -> nat): (r: seq<nat>)
    ensures |r| == |rounds|
  {
    if rounds == [] then [] else Measured(rounds[..|rounds| - 1], measure) + [measure(rounds)]
  }

  lemma {:induction false} MeasuredAt(rounds: seq<Round>, measure: seq<Round> -> nat, k: nat)
    requires k < |rounds|
    ensures Measured(rounds, measure)[k] == measure(rounds[..k + 1])
  {
    var n := |rounds| - 1;
    if k < n {
      MeasuredAt(rounds[..n], measure, k);
      assert rounds[..n][..k + 1] == rounds[..k + 1];
    } else {
      assert rounds[..k + 1] == rounds;
    }
  }

  /** What has been covered after each turn. */
  function CoveredAll(rounds: seq<Round>, default: Option<string>): (r: seq<nat>)
    ensures |r| == |rounds|
  {
    Measured(rounds, rs => Covered(rs, default))
  }

  lemma CoveredAllAt(rounds: seq<Round>, default: Option<string>, k: nat)
    requires k < |rounds|
    ensures CoveredAll(rounds, default)[k] == Covered(rounds[..k + 1], default)
  {
    MeasuredAt(rounds, rs => Covered(rs, default), k);
  }

  lemma CoverAtWith(rounds: seq<Round>, i: nat, k: nat, covered: seq<nat>, now: nat, before: nat)
    requires i <= k < |rounds| && k < |covered| && covered[k] == now && (k > i ==> covered[k - 1] == before)
    requires now == if rounds[k].interimOver.Some? then |Fed(rounds, i, k)| else if k == i then 0 else before
    ensures CoverAt(rounds, i, k, covered)
  {
  }

  lemma CoverAtEach(rounds: seq<Round>, i: nat, k: nat, default: Option<string>)
    requires i <= k < |rounds| && OpenFrom(rounds, i, k)
    ensures CoverAt(rounds, i, k, CoveredAll(rounds, default))
  {
    var covered, now, before :=
      CoveredAll(rounds, default), Covered(rounds[..k + 1], default), Covered(rounds[..k], default);
    assert covered[k] == now by { CoveredAllAt(rounds, default, k); }
    assert k > i ==> covered[k - 1] == before by {
      if k > i { CoveredAllAt(rounds, default, k - 1); }
    }
    assert now == if rounds[k].interimOver.Some? then |Fed(rounds, i, k)| else if k == i then 0 else before by {
      CoveredStep(rounds, i, k, default);
    }
    CoverAtWith(rounds, i, k, covered, now, before);
  }

  lemma CoveredIs(rounds: seq<Round>, i: nat, j: nat, default: Option<string>)
    requires i <= j < |rounds| && OpenFrom(rounds, i, j)
    ensures CoversExactly(rounds, i, j, Covered(rounds[..j + 1], default))
  {
    var covered := CoveredAll(rounds, default);
    assert forall k: nat :: i <= k <= j ==> CoverAt(rounds, i, k, covered) by {
      forall k: nat | i <= k <= j ensures CoverAt(rounds, i, k, covered) { CoverAtEach(rounds, i, k, default); }
    }
    CoveredAllAt(rounds, default, j);
    CoversFrom(rounds, i, j, covered);
  }

  lemma InterimNow(before: seq<Round>, r: Round, h: Option<Heard>, window: nat, default: Option<string>)
    requires RoundOk(before, r, window, default) && (r.turn.received.Timeout? || IsAudio(r.turn.received))
    requires h == HeardAfter(HeardIn(Inputs(before), default), r.turn.received, default)
    ensures r.interimOver.Some? <==>
      && h.Some? && |h.value.samples| >= 16000 && r.turn.intervalOver
      && |h.value.samples| > Covered(before, default)
    ensures var heard := if h.Some? then h.value.samples else [];
      r.interimOver.Some? ==>
        r.interimOver.value.samples == if |heard| > window then heard[|heard| - window..] else heard
  {
  }

  lemma HeardNext(rounds: seq<Round>, j: nat, default: Option<string>)
    requires j < |rounds|
    ensures HeardIn(Inputs(rounds[..j + 1]), default)
      == HeardAfter(HeardIn(Inputs(rounds[..j]), default), rounds[j].turn.received, default)
  {
    assert rounds[..j + 1][..j] == rounds[..j];
    assert (Inputs(rounds[..j]) + [rounds[j].turn.received])[..j] == Inputs(rounds[..j]);
  }

  /** While an utterance is open, an interim decode comes exactly when there is a second of audio, the interval
      is over, and no earlier interim decode of the utterance has heard as much; it hears the last `window`
      samples. */
  lemma InterimIff(rounds: seq<Round>, i: nat, j: nat, window: nat, default: Option<string>)
    requires AllOk(rounds, window, default) && i < j < |rounds| && OpenFrom(rounds, i, j)
    ensures var heard, over := Fed(rounds, i, j), rounds[j].interimOver;
      && (over.Some? <==>
            |heard| >= 16000 && rounds[j].turn.intervalOver
            && forall k :: i < k < j && rounds[k].interimOver.Some? ==> |Fed(rounds, i, k)| < |heard|)
      && (over.Some? ==> over.value.samples == if |heard| > window then heard[|heard| - window..] else heard)
  {
    OkAt(rounds, j, window, default);
    HeardOpen(rounds, i, j, default);
    HeardNext(rounds, j, default);
    InterimNow(rounds[..j], rounds[j], HeardIn(Inputs(rounds[..j + 1]), default), window, default);
    CoveredIs(rounds, i, j - 1, default);
  }

  // ------------------------------------------------------------------ languages

  /** The interim decode of turn `k` can settle the language: it has three seconds of the utterance and finds
      one. */
  predicate Settles(rounds: seq<Round>, i: nat, k: nat)
    requires i <= k < |rounds|
  {
    && rounds[k].interimOver.Some? && |Fed(rounds, i, k)| >= 48000
    && rounds[k].turn.interim.Text? && rounds[k].turn.interim.language.Some?
  }

  /** The language that the first such decode has found. */
  predicate FirstFound(rounds: seq<Round>, i: nat, j: nat, found: Option<string>)
    requires i <= j < |rounds|
  {
    && (found.None? ==> forall k :: i <= k <= j ==> !Settles(rounds, i, k))
    && (found.Some? ==> exists k :: i <= k <= j && Settles(rounds, i, k) && found == rounds[k].turn.interim.language
                                    && forall m :: i <= m < k ==> !Settles(rounds, i, m))
  }

  lemma FoundNext(rounds: seq<Round>, i: nat, j: nat, found: Option<string>)
    requires i < j < |rounds| && FirstFound(rounds, i, j - 1, found)
    ensures FirstFound(rounds, i, j,
                       if found.None? && Settles(rounds, i, j) then rounds[j].turn.interim.language else found)
  {
  }

  lemma DetectedNext(rounds: seq<Round>, i: nat, j: nat, default: Option<string>)
    requires i <= j < |rounds| && OpenFrom(rounds, i, j) && Language(rounds[i], default).None?
    ensures var before := if j == i then None else Detected(rounds[..j], default);
      Detected(rounds[..j + 1], default) ==
        if before.None? && Settles(rounds, i, j) then rounds[j].turn.interim.language else before
  {
    assert rounds[..j + 1][..j] == rounds[..j];
    HeardOpen(rounds, i, j, default);
  }

  lemma {:induction false} DetectedIs(rounds: seq<Round>, i: nat, j: nat, default: Option<string>)
    requires i <= j < |rounds| && OpenFrom(rounds, i, j) && Language(rounds[i], default).None?
    ensures FirstFound(rounds, i, j, Detected(rounds[..j + 1], default))
  {
    DetectedNext(rounds, i, j, default);
    if j == i {
      assert Fed(rounds, i, i) == [];
    } else {
      var before := Detected(rounds[..j], default);
      assert FirstFound(rounds, i, j - 1, before) by { DetectedIs(rounds, i, j - 1, default); }
      FoundNext(rounds, i, j, before);
    }
  }

  lemma LanguageNow(before: seq<Round>, r: Round, h: Option<Heard>, window: nat, default: Option<string>)
    requires RoundOk(before, r, window, default) && (r.turn.received.Timeout? || IsAudio(r.turn.received))
    requires h == HeardAfter(HeardIn(Inputs(before), default), r.turn.received, default)
    ensures r.interimOver.Some? ==>
      h.Some? && r.interimOver.value.language ==
        if h.value.language.Some? then h.value.language else Detected(before, default)
  {
  }

  /** An interim decode is given the language the start asked for, or the helper's own; with neither, the one
      that the first interim decode with three seconds of the utterance has found. */
  lemma InterimLanguage(rounds: seq<Round>, i: nat, j: nat, window: nat, default: Option<string>)
    requires AllOk(rounds, window, default) && i < j < |rounds| && OpenFrom(rounds, i, j)
    requires rounds[j].interimOver.Some?
    ensures var language := rounds[j].interimOver.value.language;
      if Language(rounds[i], default).Some? then language == Language(rounds[i], default)
      else FirstFound(rounds, i, j - 1, language)
  {
    OkAt(rounds, j, window, default);
    HeardOpen(rounds, i, j, default);
    HeardNext(rounds, j, default);
    LanguageNow(rounds[..j], rounds[j], HeardIn(Inputs(rounds[..j + 1]), default), window, default);
    if Language(rounds[i], default).None? { DetectedIs(rounds, i, j - 1, default); }
  }

  /** A partial is the text of the interim decode of its turn, and all that is said then. */
  lemma PartialText(rounds: seq<Round>, j: nat, window: nat, default: Option<string>)
    requires AllOk(rounds, window, default) && j < |rounds|
    requires rounds[j].said != [] && rounds[j].said[0].Partial?
    ensures rounds[j].interimOver.Some? && rounds[j].turn.interim.Text?
    ensures rounds[j].said == [Partial(rounds[j].turn.interim.text)]
  {
    OkAt(rounds, j, window, default);
    PartialNow(rounds[..j], rounds[j], window, default);
  }

  lemma PartialNow(before: seq<Round>, r: Round, window: nat, default: Option<string>)
    requires RoundOk(before, r, window, default) && r.said != [] && r.said[0].Partial?
    ensures r.interimOver.Some? && r.turn.interim.Text? && r.said == [Partial(r.turn.interim.text)]
  {
  }

  /** A language that is named arrives as it is; none, an empty one and `auto` leave it open. */
  lemma LanguageSurvives(l: string)
    requires l != "" && !IsSpace(l[0]) && !IsSpace(l[|l| - 1])
    ensures ConcreteLanguage(NamedLanguage(Some(l))) == if l == "auto" then None else Some(l)
    ensures ConcreteLanguage(NamedLanguage(None)) == None && ConcreteLanguage(NamedLanguage(Some(""))) == None
  {
    TrimmedAlready(l);
  }

  // -------------------------------------------------------------------- the end

  /** The helper goes on after a start, audio, a stop or silence, if stdout takes what there is to say and
      it has not been idle for too long. */
  lemma GoesOn(before: seq<Round>, t: Turn, default: Option<string>)
    requires t.received.Timeout? || IsStart(t.received) || IsAudio(t.received) || IsStop(t.received)
    requires t.stdoutOpen && !t.idle
    ensures !Exits(before, t, default)
  {
  }

  /** It ends with a quit frame, the end of the input or a lost reader, with code 0, and with an error in the
      input, with code 2; with stdout gone at the latest at the next stop. */
  lemma Ends(before: seq<Round>, t: Turn, default: Option<string>)
    ensures t.received.Disconnected? || t.received == Message(Framed(Quit)) || t.received == Message(Eof) ==>
      Exits(before, t, default) && ExitCode(t) == 0
    ensures t.received.Message? && t.received.inbound.Broken? ==> Exits(before, t, default) && ExitCode(t) == 2
    ensures IsStop(t.received) && !t.stdoutOpen ==> Exits(before, t, default) && ExitCode(t) == 0
    ensures t.idle ==> Exits(before, t, default)
  {
  }
}
