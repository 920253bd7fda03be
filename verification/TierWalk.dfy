/** Opening a dictation session: which model tier to start from (crates/workshop-voice/src/tier.rs)
    and the walk down the tiers while this machine is too slow (crates/workshop-voice/src/session.rs).
    What a tier's download, helper start and file writes come to is the environment's choice. */
module TierWalk {
  import opened Text

  /** The part of the lock file the walk depends on. */
  datatype Lock = Lock(tiers: seq<string>, pinned: set<string>, budgetMs: nat, minRam: nat) {
    /** Tier ids are distinct. */
    predicate Valid() {
      forall i, j :: 0 <= i < j < |tiers| ==> tiers[i] != tiers[j]
    }

    /** Each tier has a pinned model and an id without blanks at its ends. */
    predicate Usable() {
      forall t :: t in tiers ==> t in pinned && t != "" && !IsSpace(t[0]) && !IsSpace(t[|t| - 1])
    }

    /** Position of a tier in the list, largest model first; the length of the list for no tier. */
    function Rank(t: string): (r: nat)
      ensures r <= |tiers| && (r < |tiers| <==> t in tiers) && (r < |tiers| ==> tiers[r] == t)
    {
      IndexOf(tiers, t)
    }

    function NextLower(t: string): Option<string> {
      if Rank(t) + 1 < |tiers| then Some(tiers[Rank(t) + 1]) else None
    }

    function Smallest(): string {
      if tiers == [] then "base" else tiers[|tiers| - 1]
    }

    predicate WithinBudget(probeMs: nat) { probeMs <= budgetMs }
  }

  /** What a selection file holds. */
  function FileText(tier: string): string {
    tier + "\n"
  }

  /** Trimming white space, as the program does it, leaves any id without blanks at its ends alone. */
  lemma TrimLeavesIds(t: string)
    requires t != "" && !IsSpace(t[0]) && !IsSpace(t[|t| - 1])
    ensures Trim(t) == t && Trim(FileText(t)) == t
  {
    TrimmedAlready(t);
    assert TrimStart(FileText(t)) == FileText(t);
    assert FileText(t)[..|t|] == t;
  }

  function IndexOf(ts: seq<string>, t: string): (r: nat)
    ensures r <= |ts| && (r < |ts| <==> t in ts) && (r < |ts| ==> ts[r] == t)
  {
    if ts == [] then 0 else if ts[0] == t then 0 else 1 + IndexOf(ts[1..], t)
  }

  lemma RankIs(l: Lock, i: nat)
    requires l.Valid() && i < |l.tiers|
    ensures l.Rank(l.tiers[i]) == i
  {
  }

  datatype Machine = Machine(appleSilicon: bool, cores: nat, ram: Option<nat>)

  function StaticDefault(l: Lock, m: Machine): string {
    if m.appleSilicon then "turbo"
    else if m.ram.Some? && m.ram.value < l.minRam then l.Smallest()
    else if m.cores >= 8 then "small" else "base"
  }

  /** The tier a selection file names, if it names one. */
  function Selected(l: Lock, file: Option<string>): Option<string> {
    if file.Some? && Trim(file.value) in l.tiers then Some(Trim(file.value)) else None
  }

  /** A tier written to the selection file is read back. */
  lemma SelectedText(l: Lock, t: string)
    requires l.Usable() && t in l.tiers
    ensures Selected(l, Some(FileText(t))) == Some(t)
  {
    TrimLeavesIds(t);
  }

  /** The largest tier whose file is on disk. */
  function LargestOnDisk(ts: seq<string>, onDisk: set<string>): Option<string> {
    if ts == [] then None else if ts[0] in onDisk then Some(ts[0]) else LargestOnDisk(ts[1..], onDisk)
  }

  function Resolved(l: Lock, over: Option<string>, file: Option<string>, onDisk: set<string>, m: Machine): string {
    if over.Some? && Trim(over.value) in l.tiers then Trim(over.value)
    else if Selected(l, file).Some? then Selected(l, file).value
    else if LargestOnDisk(l.tiers, onDisk).Some? then LargestOnDisk(l.tiers, onDisk).value
    else StaticDefault(l, m)
  }

  /** An exact tier id in the configuration forces that tier.  Unlike `Resolved`, this does not
      trim. */
  predicate Forced(l: Lock, over: Option<string>) {
    over.Some? && over.value in l.tiers
  }

  // ---------------------------------------------------------------- the walk

  datatype Start = Ready(cold: bool, probeMs: nat) | BadModel | OtherError

  /** What happens when a tier is tried. */
  datatype Visit = Visit(
    ensureOk: bool,     // its model file could be made present and verified
    readyBefore: bool,  // it was there already
    start: Start,       // how the helper started
    stepWritten: bool,  // writing the selection after a step down succeeds
    pickWritten: bool,  // writing the selection of the tier opened succeeds
    openOk: bool)       // the utterance could be opened

  /** A tier is tried at most once before and once after the walk's single model retry. */
  type Environment = (string, bool) -> Visit

  datatype Outcome = Opened(tier: string, cold: bool, probeMs: nat) | Failed

  datatype Walked = Walked(outcome: Outcome, steppedDownFrom: seq<string>, downloaded: bool, selection: Option<string>)

  /** A walk that had already stepped down from `steps` before it went on as `w`. */
  function Carry(steps: seq<string>, downloaded: bool, w: Walked): Walked {
    w.(steppedDownFrom := steps + w.steppedDownFrom, downloaded := downloaded || w.downloaded)
  }

  lemma CarryCarry(s1: seq<string>, d1: bool, s2: seq<string>, d2: bool, w: Walked)
    ensures Carry(s1, d1, Carry(s2, d2, w)) == Carry(s1 + s2, d1 || d2, w)
    ensures Carry([], false, w) == w && s1 + [] == s1
  {
    assert s1 + (s2 + w.steppedDownFrom) == s1 + s2 + w.steppedDownFrom;
  }

  predicate StepsDown(l: Lock, t: string, forced: bool, start: Start) {
    start.Ready? && start.cold && !forced && !l.WithinBudget(start.probeMs) && l.NextLower(t).Some?
  }

  function Walk(l: Lock, t: string, retried: bool, forced: bool, file: Option<string>, env: Environment): Walked
    requires l.Valid()
    decreases |l.tiers| - l.Rank(t), if retried then 0 else 1
  {
    var v := env(t, retried);
    if t !in l.pinned || !v.ensureOk then Walked(Failed, [], false, file)
    else
      var got := !v.readyBefore;
      if v.start.BadModel? && !retried then
        var w := Walk(l, t, true, forced, file, env);
        Carry([], got, w)
      else if !v.start.Ready? then Walked(Failed, [], got, file)
      else if StepsDown(l, t, forced, v.start) then
        var lower := l.NextLower(t).value;
        RankIs(l, l.Rank(t) + 1);
        var w := Walk(l, lower, retried, forced, if v.stepWritten then Some(FileText(lower)) else file, env);
        Carry([t], got, w)
      else
        var pick := !forced && Selected(l, file).None? && v.pickWritten;
        Walked(if v.openOk then Opened(t, v.start.cold, v.start.probeMs) else Failed, [], got,
               if pick then Some(FileText(t)) else file)
  }

  /** The voice directory, as far as opening a session reads and writes it. */
  class VoiceDir {
    var selection: Option<string>   // contents of the selection file; `None`: not readable
    var onDisk: set<string>         // tiers whose model file has the pinned size
    const lock: Lock

    constructor (lock: Lock, selection: Option<string>, onDisk: set<string>)
      ensures this.lock == lock && this.selection == selection && this.onDisk == onDisk
    {
      this.lock, this.selection, this.onDisk := lock, selection, onDisk;
    }

    method WriteSelection(tier: string, succeeds: bool)
      modifies this`selection
      ensures selection == if succeeds then Some(FileText(tier)) else old(selection)
    {
      if succeeds { selection := Some(FileText(tier)); }
    }

    method Resolve(over: Option<string>, machine: Machine) returns (t: string)
      ensures t == Resolved(lock, over, selection, onDisk, machine)
    {
      if over.Some? && Trim(over.value) in lock.tiers { return Trim(over.value); }
      if Selected(lock, selection).Some? { return Selected(lock, selection).value; }
      var i := 0;
      assert lock.tiers[0..] == lock.tiers;
      while i < |lock.tiers|
        invariant 0 <= i <= |lock.tiers|
        invariant LargestOnDisk(lock.tiers, onDisk) == LargestOnDisk(lock.tiers[i..], onDisk)
      {
        if lock.tiers[i] in onDisk { return lock.tiers[i]; }
        assert lock.tiers[i..][1..] == lock.tiers[i + 1..];
        i := i + 1;
      }
      t := StaticDefault(lock, machine);
    }

    method Open(over: Option<string>, machine: Machine, env: Environment)
      returns (outcome: Outcome, steppedDownFrom: seq<string>, downloaded: bool)
      requires lock.Valid()
      modifies this`selection
      ensures Walked(outcome, steppedDownFrom, downloaded, selection)
        == Walk(lock, Resolved(lock, over, old(selection), onDisk, machine), false,
                Forced(lock, over), old(selection), env)
    {
      steppedDownFrom, downloaded := [], false;
      var tierName := Resolve(over, machine);
      var modelRetry := false;
      ghost var whole := Walk(lock, tierName, false, Forced(lock, over), selection, env);
      CarryCarry([], false, [], false, whole);
      while true
        invariant whole ==
          Carry(steppedDownFrom, downloaded, Walk(lock, tierName, modelRetry, Forced(lock, over), selection, env))
        decreases |lock.tiers| - lock.Rank(tierName), if modelRetry then 0 else 1
      {
        var v := env(tierName, modelRetry);
        ghost var steps, got := steppedDownFrom, downloaded;
        CarryCarry(steps, got, [], false, whole);
        if tierName !in lock.pinned { return Failed, steppedDownFrom, downloaded; }
        if !v.ensureOk { return Failed, steppedDownFrom, downloaded; }
        if !v.readyBefore { downloaded := true; }
        if v.start.BadModel? && !modelRetry {
          modelRetry := true;
          CarryCarry(steps, got, [], !v.readyBefore,
            Walk(lock, tierName, true, Forced(lock, over), selection, env));
          continue;
        }
        if !v.start.Ready? { return Failed, steppedDownFrom, downloaded; }
        var forced := over.Some? && over.value in lock.tiers;
        if v.start.cold && !forced && !lock.WithinBudget(v.start.probeMs) {
          var next := lock.NextLower(tierName);
          if next.Some? {
            RankIs(lock, lock.Rank(tierName) + 1);
            steppedDownFrom := steppedDownFrom + [tierName];
            ghost var above := tierName;
            tierName := next.value;
            WriteSelection(next.value, v.stepWritten);
            CarryCarry(steps, got, [above], !v.readyBefore,
              Walk(lock, tierName, modelRetry, Forced(lock, over), selection, env));
            continue;
          }
        }
        if !forced && Selected(lock, selection).None? {
          WriteSelection(tierName, v.pickWritten);
        }
        if !v.openOk { return Failed, steppedDownFrom, downloaded; }
        return Opened(tierName, v.start.cold, v.start.probeMs), steppedDownFrom, downloaded;
      }
    }
  }

  // ---------------------------------------------------------------- one open

  ghost predicate WritesSucceed(env: Environment) {
    forall t: string, b: bool :: env(t, b).stepWritten && env(t, b).pickWritten
  }

  /** The tier reached after `n` steps down from `t`. */
  function Below(l: Lock, t: string, n: nat): string {
    if n == 0 || l.Rank(t) + n >= |l.tiers| then t else l.tiers[l.Rank(t) + n]
  }

  /** Tried, this tier proved too slow on a cold start. */
  predicate TooSlow(l: Lock, t: string, forced: bool, env: Environment) {
    StepsDown(l, t, forced, env(t, false).start) || StepsDown(l, t, forced, env(t, true).start)
  }

  /** `steps` are the tiers from `t` down, each too slow. */
  predicate Consecutive(l: Lock, t: string, steps: seq<string>, forced: bool, env: Environment)
    decreases |steps|
  {
    steps == [] ||
    (t == steps[0] && TooSlow(l, t, forced, env)
     && Consecutive(l, l.NextLower(t).value, steps[1..], forced, env))
  }

  lemma {:induction false} ConsecutiveAt(
      l: Lock, t: string, steps: seq<string>, forced: bool, env: Environment, i: nat)
    requires l.Valid() && i < |steps| && Consecutive(l, t, steps, forced, env)
    ensures !forced && l.Rank(t) + i + 1 < |l.tiers| && steps[i] == l.tiers[l.Rank(t) + i]
    ensures TooSlow(l, steps[i], forced, env)
    decreases i
  {
    RankIs(l, l.Rank(t) + 1);
    if i > 0 { ConsecutiveAt(l, l.NextLower(t).value, steps[1..], forced, env, i - 1); }
  }

  /** That is a slice of the list of tiers. */
  lemma ConsecutiveIsSlice(l: Lock, t: string, steps: seq<string>, forced: bool, env: Environment)
    requires l.Valid() && steps != [] && Consecutive(l, t, steps, forced, env)
    ensures var r, n := l.Rank(t), |steps|;
      !forced && r + n < |l.tiers| && steps == l.tiers[r..r + n]
      && forall i :: 0 <= i < n ==> TooSlow(l, steps[i], forced, env)
  {
    ConsecutiveAt(l, t, steps, forced, env, |steps| - 1);
    forall i | 0 <= i < |steps| ensures steps[i] == l.tiers[l.Rank(t) + i] && TooSlow(l, steps[i], forced, env) {
      ConsecutiveAt(l, t, steps, forced, env, i);
    }
  }

  predicate WalkOk(l: Lock, t: string, forced: bool, env: Environment, w: Walked) {
    && Consecutive(l, t, w.steppedDownFrom, forced, env)
    && (w.outcome.Opened? ==>
          w.outcome.tier == Below(l, t, |w.steppedDownFrom|)
          && !StepsDown(l, w.outcome.tier, forced, Ready(w.outcome.cold, w.outcome.probeMs)))
  }

  lemma WalkOkStep(l: Lock, t: string, forced: bool, env: Environment, w: Walked, got: bool)
    requires l.Valid() && TooSlow(l, t, forced, env) && WalkOk(l, l.NextLower(t).value, forced, env, w)
    ensures WalkOk(l, t, forced, env, Carry([t], got, w))
    ensures Below(l, t, |w.steppedDownFrom| + 1) == Below(l, l.NextLower(t).value, |w.steppedDownFrom|)
  {
    var lower, n := l.NextLower(t).value, |w.steppedDownFrom|;
    assert ([t] + w.steppedDownFrom)[1..] == w.steppedDownFrom;
    RankIs(l, l.Rank(t) + 1);
    if n > 0 { ConsecutiveIsSlice(l, lower, w.steppedDownFrom, forced, env); }
    assert Below(l, t, n + 1) == Below(l, lower, n);
  }

  /** The list of tiers stepped down from is exactly the run of tiers from the first one tried to
      just above the last one; each of them proved too slow on a cold start; and the walk stops on a
      tier that need not be stepped down from. */
  lemma {:induction false} StepsAreConsecutive(
      l: Lock, t: string, retried: bool, forced: bool, file: Option<string>, env: Environment)
    requires l.Valid()
    ensures WalkOk(l, t, forced, env, Walk(l, t, retried, forced, file, env))
    decreases |l.tiers| - l.Rank(t), if retried then 0 else 1
  {
    var v := env(t, retried);
    if t in l.pinned && v.ensureOk {
      if v.start.BadModel? && !retried {
        StepsAreConsecutive(l, t, true, forced, file, env);
        var w := Walk(l, t, true, forced, file, env);
        assert [] + w.steppedDownFrom == w.steppedDownFrom;
      } else if v.start.Ready? && StepsDown(l, t, forced, v.start) {
        var lower := l.NextLower(t).value;
        RankIs(l, l.Rank(t) + 1);
        var file' := if v.stepWritten then Some(FileText(lower)) else file;
        StepsAreConsecutive(l, lower, retried, forced, file', env);
        WalkOkStep(l, t, forced, env, Walk(l, lower, retried, forced, file', env), !v.readyBefore);
      }
    }
  }

  /** An unforced cold open ends within the budget, unless on the smallest tier. */
  lemma EndsWithinBudget(
      l: Lock, over: Option<string>, file: Option<string>, onDisk: set<string>, m: Machine, env: Environment)
    requires l.Valid() && !Forced(l, over)
    ensures var w := Walk(l, Resolved(l, over, file, onDisk, m), false, false, file, env);
      w.outcome.Opened? && w.outcome.cold ==>
        l.WithinBudget(w.outcome.probeMs) || l.NextLower(w.outcome.tier).None?
  {
    StepsAreConsecutive(l, Resolved(l, over, file, onDisk, m), false, false, file, env);
  }

  /** What a walk leaves in the selection file when writes succeed. */
  predicate Leaves(l: Lock, t: string, forced: bool, file: Option<string>, w: Walked) {
    var n := |w.steppedDownFrom|;
    && (forced ==> w.selection == file)
    && (n > 0 ==> Selected(l, w.selection) == Some(Below(l, t, n)))
    && (n == 0 && Selected(l, file).Some? ==> w.selection == file)
    && (n == 0 && w.outcome.Opened? && !forced && Selected(l, file).None? && t in l.tiers ==>
          Selected(l, w.selection) == Some(t))
  }

  lemma LeavesStep(l: Lock, t: string, file: Option<string>, env: Environment, w: Walked, got: bool)
    requires l.Valid() && l.Usable() && TooSlow(l, t, false, env)
    requires var lower := l.NextLower(t).value;
      WalkOk(l, lower, false, env, w) && Leaves(l, lower, false, Some(FileText(lower)), w)
    ensures Leaves(l, t, false, file, Carry([t], got, w))
  {
    var lower, n := l.NextLower(t).value, |w.steppedDownFrom|;
    SelectedText(l, lower);
    WalkOkStep(l, t, false, env, w, got);
    RankIs(l, l.Rank(t) + 1);
    if n == 0 { assert Below(l, t, 1) == lower; }
  }

  lemma LeavesHere(l: Lock, t: string, forced: bool, file: Option<string>, w: Walked)
    requires l.Usable() && w.steppedDownFrom == []
    requires w.selection == file
             || (w.selection == Some(FileText(t)) && !forced && Selected(l, file).None?)
    requires w.outcome.Opened? && !forced && Selected(l, file).None? ==> w.selection == Some(FileText(t))
    ensures Leaves(l, t, forced, file, w)
  {
    if t in l.tiers { SelectedText(l, t); }
  }

  lemma {:induction false} SelectionAfter(
      l: Lock, t: string, retried: bool, forced: bool, file: Option<string>, env: Environment)
    requires l.Valid() && l.Usable() && WritesSucceed(env)
    ensures Leaves(l, t, forced, file, Walk(l, t, retried, forced, file, env))
    decreases |l.tiers| - l.Rank(t), if retried then 0 else 1
  {
    var v, whole := env(t, retried), Walk(l, t, retried, forced, file, env);
    if t in l.pinned && v.ensureOk && v.start.BadModel? && !retried {
      SelectionAfter(l, t, true, forced, file, env);
      CarryCarry([], !v.readyBefore, [], false, Walk(l, t, true, forced, file, env));
    } else if t in l.pinned && v.ensureOk && StepsDown(l, t, forced, v.start) {
      var lower := l.NextLower(t).value;
      RankIs(l, l.Rank(t) + 1);
      SelectionAfter(l, lower, retried, forced, Some(FileText(lower)), env);
      StepsAreConsecutive(l, lower, retried, forced, Some(FileText(lower)), env);
      LeavesStep(l, t, file, env, Walk(l, lower, retried, forced, Some(FileText(lower)), env), !v.readyBefore);
    } else {
      LeavesHere(l, t, forced, file, whole);
    }
  }

  /** The configured value names a tier only after trimming: it picks where a walk starts but does
      not force it. */
  predicate Padded(l: Lock, over: Option<string>) {
    over.Some? && Trim(over.value) in l.tiers && over.value !in l.tiers
  }

  predicate DefaultsAreTiers(l: Lock) {
    "turbo" in l.tiers && "small" in l.tiers && "base" in l.tiers
  }

  function Visit1(start: Start): Visit {
    Visit(true, true, start, true, true, true)
  }

  /** Every successful unforced open leaves its tier persisted, whatever the environment, exactly
      when the configured value is not a padded tier id, or no different tier is persisted yet. */
  ghost predicate OpenedIsPersisted(
    l: Lock, over: Option<string>, file: Option<string>, onDisk: set<string>, m: Machine)
    requires l.Valid()
  {
    forall env: Environment ::
      WritesSucceed(env) ==>
        var w := Walk(l, Resolved(l, over, file, onDisk, m), false, Forced(l, over), file, env);
        w.outcome.Opened? ==> Selected(l, w.selection) == Some(w.outcome.tier)
  }

  lemma OpenedIsPersistedIff(
      l: Lock, over: Option<string>, file: Option<string>, onDisk: set<string>, m: Machine)
    requires l.Valid() && l.Usable() && DefaultsAreTiers(l) && !Forced(l, over)
    ensures OpenedIsPersisted(l, over, file, onDisk, m) <==>
      (Padded(l, over) ==> Selected(l, file).None? || Selected(l, file).value == Trim(over.value))
  {
    var t := Resolved(l, over, file, onDisk, m);
    ResolvedIsTier(l, over, file, onDisk, m);
    if Padded(l, over) && Selected(l, file).Some? && Selected(l, file).value != Trim(over.value) {
      var env: Environment := (t, b) => Visit1(Ready(false, 0));
      assert WritesSucceed(env);
      assert Walk(l, t, false, false, file, env) == Walked(Opened(t, false, 0), [], false, file);
    } else {
      forall env: Environment | WritesSucceed(env)
        ensures var w := Walk(l, t, false, false, file, env);
          w.outcome.Opened? ==> Selected(l, w.selection) == Some(w.outcome.tier)
      {
        StepsAreConsecutive(l, t, false, false, file, env);
        SelectionAfter(l, t, false, false, file, env);
      }
    }
  }

  lemma {:induction false} OnDiskIsTier(ts: seq<string>, onDisk: set<string>)
    ensures LargestOnDisk(ts, onDisk).Some? ==> LargestOnDisk(ts, onDisk).value in ts
  {
    if ts != [] { OnDiskIsTier(ts[1..], onDisk); }
  }

  lemma ResolvedIsTier(l: Lock, over: Option<string>, file: Option<string>, onDisk: set<string>, m: Machine)
    requires DefaultsAreTiers(l)
    ensures Resolved(l, over, file, onDisk, m) in l.tiers
  {
    OnDiskIsTier(l.tiers, onDisk);
  }

  // ---------------------------------------------------------- many opens

  datatype Request = Request(over: Option<string>, onDisk: set<string>, machine: Machine, env: Environment)

  function OpenOnce(l: Lock, file: Option<string>, r: Request): Walked
    requires l.Valid()
  {
    Walk(l, Resolved(l, r.over, file, r.onDisk, r.machine), false, Forced(l, r.over), file, r.env)
  }

  /** The selection file before each of a sequence of opens, and after the last. */
  function Files(l: Lock, file: Option<string>, rs: seq<Request>): (r: seq<Option<string>>)
    requires l.Valid()
    ensures |r| == |rs| + 1 && r[0] == file
    decreases |rs|
  {
    if rs == [] then [file] else [file] + Files(l, OpenOnce(l, file, rs[0]).selection, rs[1..])
  }

  function StepCount(l: Lock, file: Option<string>, rs: seq<Request>): nat
    requires l.Valid()
    decreases |rs|
  {
    if rs == [] then 0
    else
      var w := OpenOnce(l, file, rs[0]);
      |w.steppedDownFrom| + StepCount(l, w.selection, rs[1..])
  }

  /** One open against a persisted selection, when writes succeed: forced, it changes nothing; else it
      leaves the selection alone or puts it as many tiers below where it started as it stepped down. */
  lemma OneOpen(l: Lock, file: Option<string>, r: Request)
    requires l.Valid() && l.Usable() && Selected(l, file).Some? && WritesSucceed(r.env)
    ensures var w := OpenOnce(l, file, r);
      var t, n := Resolved(l, r.over, file, r.onDisk, r.machine), |w.steppedDownFrom|;
      && Selected(l, w.selection).Some?
      && (Forced(l, r.over) ==> n == 0)
      && (n == 0 ==> w.selection == file)
      && (n > 0 ==> l.Rank(Selected(l, w.selection).value) == l.Rank(t) + n)
  {
    var t, forced := Resolved(l, r.over, file, r.onDisk, r.machine), Forced(l, r.over);
    var w := OpenOnce(l, file, r);
    StepsAreConsecutive(l, t, false, forced, file, r.env);
    SelectionAfter(l, t, false, forced, file, r.env);
    var n := |w.steppedDownFrom|;
    if n > 0 {
      ConsecutiveIsSlice(l, t, w.steppedDownFrom, forced, r.env);
      RankIs(l, l.Rank(t) + n);
    }
  }

  /** With another tier persisted, a padded override starts no higher than just above it. */
  predicate StartsNear(l: Lock, over: Option<string>, file: Option<string>) {
    Padded(l, over) && Selected(l, file).Some? ==>
      l.Rank(Trim(over.value)) + 1 >= l.Rank(Selected(l, file).value)
  }

  /** A padded override starts at the persisted tier, or where there is none below. */
  predicate StartsThere(l: Lock, over: Option<string>, file: Option<string>) {
    Padded(l, over) && Selected(l, file).Some? ==>
      Trim(over.value) == Selected(l, file).value || l.NextLower(Trim(over.value)).None?
  }

  /** Whatever the environment, as long as writes succeed, an open does not move the persisted tier up. */
  ghost predicate NeverUp(l: Lock, file: Option<string>, over: Option<string>, onDisk: set<string>, m: Machine)
    requires l.Valid() && Selected(l, file).Some?
  {
    forall env: Environment :: WritesSucceed(env) ==>
      var w := OpenOnce(l, file, Request(over, onDisk, m, env));
      Selected(l, w.selection).Some?
      && l.Rank(Selected(l, w.selection).value) >= l.Rank(Selected(l, file).value)
  }

  /** Likewise: it moves it down by exactly the step-downs. */
  ghost predicate MovesByItsSteps(
      l: Lock, file: Option<string>, over: Option<string>, onDisk: set<string>, m: Machine)
    requires l.Valid() && Selected(l, file).Some?
  {
    forall env: Environment :: WritesSucceed(env) ==>
      var w := OpenOnce(l, file, Request(over, onDisk, m, env));
      Selected(l, w.selection).Some?
      && l.Rank(Selected(l, w.selection).value) == l.Rank(Selected(l, file).value) + |w.steppedDownFrom|
  }

  /** Too slow on `t` alone, every other tier fast. */
  function SlowOn(l: Lock, t: string): Environment {
    (u, b) => Visit1(Ready(true, if u == t then l.budgetMs + 1 else 0))
  }

  /** The walk that steps down once. */
  lemma OneStep(l: Lock, t: string, file: Option<string>)
    requires l.Valid() && l.Usable() && t in l.tiers && l.NextLower(t).Some?
    ensures WritesSucceed(SlowOn(l, t))
    ensures var w := Walk(l, t, false, false, file, SlowOn(l, t));
      w.selection == Some(FileText(l.NextLower(t).value)) && w.steppedDownFrom == [t]
  {
    var lower, env := l.NextLower(t).value, SlowOn(l, t);
    RankIs(l, l.Rank(t) + 1);
    SelectedText(l, lower);
    assert Walk(l, lower, false, false, Some(FileText(lower)), env)
        == Walked(Opened(lower, true, 0), [], false, Some(FileText(lower)));
  }

  lemma PaddedStep(l: Lock, file: Option<string>, over: Option<string>, onDisk: set<string>, m: Machine)
    requires l.Valid() && l.Usable() && Padded(l, over) && l.NextLower(Trim(over.value)).Some?
    ensures var t := Trim(over.value);
      var w := OpenOnce(l, file, Request(over, onDisk, m, SlowOn(l, t)));
      && WritesSucceed(SlowOn(l, t)) && |w.steppedDownFrom| == 1
      && Selected(l, w.selection).Some? && l.Rank(Selected(l, w.selection).value) == l.Rank(t) + 1
  {
    var t := Trim(over.value);
    OneStep(l, t, file);
    SelectedText(l, l.NextLower(t).value);
    RankIs(l, l.Rank(t) + 1);
  }

  /** An open can never move the persisted tier up if and only if a padded override, where there is one,
      starts no higher than just above it. */
  lemma NeverUpIff(l: Lock, file: Option<string>, over: Option<string>, onDisk: set<string>, m: Machine)
    requires l.Valid() && l.Usable() && Selected(l, file).Some?
    ensures NeverUp(l, file, over, onDisk, m) <==> StartsNear(l, over, file)
  {
    if StartsNear(l, over, file) {
      forall env: Environment | WritesSucceed(env)
        ensures var w := OpenOnce(l, file, Request(over, onDisk, m, env));
          Selected(l, w.selection).Some?
          && l.Rank(Selected(l, w.selection).value) >= l.Rank(Selected(l, file).value)
      {
        OneOpen(l, file, Request(over, onDisk, m, env));
      }
    } else {
      PaddedStep(l, file, over, onDisk, m);
      assert WritesSucceed(SlowOn(l, Trim(over.value)));
    }
  }

  /** It always moves it down by exactly its step-downs if and only if a padded override starts at the
      persisted tier, or at the smallest one. */
  lemma MovesByItsStepsIff(l: Lock, file: Option<string>, over: Option<string>, onDisk: set<string>, m: Machine)
    requires l.Valid() && l.Usable() && Selected(l, file).Some?
    ensures MovesByItsSteps(l, file, over, onDisk, m) <==> StartsThere(l, over, file)
  {
    if StartsThere(l, over, file) {
      forall env: Environment | WritesSucceed(env)
        ensures var w := OpenOnce(l, file, Request(over, onDisk, m, env));
          Selected(l, w.selection).Some?
          && l.Rank(Selected(l, w.selection).value) == l.Rank(Selected(l, file).value) + |w.steppedDownFrom|
      {
        EvenStep(l, file, Request(over, onDisk, m, env));
      }
    } else {
      PaddedStep(l, file, over, onDisk, m);
      assert WritesSucceed(SlowOn(l, Trim(over.value)));
    }
  }

  lemma EvenStep(l: Lock, file: Option<string>, r: Request)
    requires l.Valid() && l.Usable() && Selected(l, file).Some? && WritesSucceed(r.env)
    requires StartsThere(l, r.over, file)
    ensures var w := OpenOnce(l, file, r);
      Selected(l, w.selection).Some?
      && l.Rank(Selected(l, w.selection).value) == l.Rank(Selected(l, file).value) + |w.steppedDownFrom|
  {
    OneOpen(l, file, r);
    if Padded(l, r.over) && OpenOnce(l, file, r).steppedDownFrom != [] {
      var t := Trim(r.over.value);
      StepsAreConsecutive(l, t, false, false, file, r.env);
      ConsecutiveIsSlice(l, t, OpenOnce(l, file, r).steppedDownFrom, false, r.env);
    }
  }

  /** An unforced open without a padded override starts at the selection, and what it opens is what it
      persists; forced, it changes nothing. */
  lemma OneOpenMovesDown(l: Lock, file: Option<string>, r: Request)
    requires l.Valid() && l.Usable() && Selected(l, file).Some? && WritesSucceed(r.env) && !Padded(l, r.over)
    ensures var w := OpenOnce(l, file, r);
      && Selected(l, w.selection).Some?
      && (Forced(l, r.over) ==> w.selection == file && w.steppedDownFrom == [])
      && l.Rank(Selected(l, w.selection).value) == l.Rank(Selected(l, file).value) + |w.steppedDownFrom|
      && (!Forced(l, r.over) && w.outcome.Opened? ==> Selected(l, w.selection) == Some(w.outcome.tier))
  {
    OneOpen(l, file, r);
    var t := Resolved(l, r.over, file, r.onDisk, r.machine);
    StepsAreConsecutive(l, t, false, Forced(l, r.over), file, r.env);
    SelectionAfter(l, t, false, Forced(l, r.over), file, r.env);
  }

  /** In every open of a sequence, writes succeed and a padded override starts near the selection. */
  ghost predicate AllNear(l: Lock, file: Option<string>, rs: seq<Request>)
    requires l.Valid()
    decreases |rs|
  {
    rs == [] ||
    (WritesSucceed(rs[0].env) && StartsNear(l, rs[0].over, file)
     && AllNear(l, OpenOnce(l, file, rs[0]).selection, rs[1..]))
  }

  ghost predicate AllThere(l: Lock, file: Option<string>, rs: seq<Request>)
    requires l.Valid()
    decreases |rs|
  {
    rs == [] ||
    (WritesSucceed(rs[0].env) && StartsThere(l, rs[0].over, file)
     && AllThere(l, OpenOnce(l, file, rs[0]).selection, rs[1..]))
  }

  predicate Descends(l: Lock, fs: seq<Option<string>>) {
    && (forall i :: 0 <= i < |fs| ==> Selected(l, fs[i]).Some?)
    && (forall i, j :: 0 <= i < j < |fs| ==>
          l.Rank(Selected(l, fs[i]).value) <= l.Rank(Selected(l, fs[j]).value))
  }

  lemma DescendsCons(l: Lock, file: Option<string>, fs: seq<Option<string>>)
    requires Descends(l, fs) && fs != [] && Selected(l, file).Some?
    requires l.Rank(Selected(l, file).value) <= l.Rank(Selected(l, fs[0]).value)
    ensures Descends(l, [file] + fs)
  {
  }

  /** Over any sequence of opens, successful or not, the persisted tier only ever moves down. */
  lemma {:induction false} OpensOnlyMoveDown(l: Lock, file: Option<string>, rs: seq<Request>)
    requires l.Valid() && l.Usable() && Selected(l, file).Some? && AllNear(l, file, rs)
    ensures Descends(l, Files(l, file, rs))
    decreases |rs|
  {
    if rs != [] {
      var w := OpenOnce(l, file, rs[0]);
      NeverUpIff(l, file, rs[0].over, rs[0].onDisk, rs[0].machine);
      assert rs[0] == Request(rs[0].over, rs[0].onDisk, rs[0].machine, rs[0].env);
      OpensOnlyMoveDown(l, w.selection, rs[1..]);
      DescendsCons(l, file, Files(l, w.selection, rs[1..]));
    }
  }

  /** It moves by exactly the step-downs made, so there are at most one fewer of those than tiers. */
  lemma {:induction false} StepDownsBounded(l: Lock, file: Option<string>, rs: seq<Request>)
    requires l.Valid() && l.Usable() && Selected(l, file).Some? && AllThere(l, file, rs)
    ensures var last := Files(l, file, rs)[|rs|];
      Selected(l, last).Some?
      && l.Rank(Selected(l, last).value) == l.Rank(Selected(l, file).value) + StepCount(l, file, rs)
    ensures StepCount(l, file, rs) <= |l.tiers| - 1
    decreases |rs|
  {
    if rs != [] {
      EvenStep(l, file, rs[0]);
      StepDownsBounded(l, OpenOnce(l, file, rs[0]).selection, rs[1..]);
    }
  }

  /** A padded tier id too far above does move it up: with `base` persisted, opening with " turbo " while
      `turbo` is too slow leaves `small` persisted, a larger tier than before. */
  lemma PaddedMovesUp(l: Lock) returns (r: Request)
    requires l.Valid() && l.Usable() && l.tiers == ["turbo", "small", "base"]
    ensures WritesSucceed(r.env) && !Forced(l, r.over)
    ensures var file := Some(FileText("base"));
      Selected(l, file) == Some("base") && Selected(l, OpenOnce(l, file, r).selection) == Some("small")
  {
    assert l.tiers[0] == "turbo" && l.tiers[1] == "small" && l.tiers[2] == "base";
    SelectedText(l, "base");
    RankIs(l, 0);
    TrimTurbo();
    assert " turbo " !in l.tiers by {
      assert |"turbo"| == 5 && |"small"| == 5 && |"base"| == 4 && |" turbo "| == 7;
    }
    r := Request(Some(" turbo "), {}, Machine(false, 4, None), SlowOn(l, "turbo"));
    OneStep(l, "turbo", Some(FileText("base")));
    SelectedText(l, "small");
  }

  lemma TrimTurbo()
    ensures Trim(" turbo ") == "turbo"
  {
    assert " turbo "[1..] == "turbo ";
    assert "turbo "[..5] == "turbo";
  }
}
