/** Which tier a session starts from, when the walk over the tiers ends in a session and when it fails, and
    whether anything was downloaded on the way. */
module TierChoice {
  import opened Text
  import opened TierWalk

  // ------------------------------------------------------------------ the start

  lemma {:induction false} LargestIs(ts: seq<string>, onDisk: set<string>)
    ensures LargestOnDisk(ts, onDisk).None? <==> forall t :: t in ts ==> t !in onDisk
    ensures LargestOnDisk(ts, onDisk).Some? ==>
      exists i :: 0 <= i < |ts| && ts[i] in onDisk && LargestOnDisk(ts, onDisk).value == ts[i]
                  && forall j :: 0 <= j < i ==> ts[j] !in onDisk
  {
    if ts != [] {
      LargestIs(ts[1..], onDisk);
      assert ts == [ts[0]] + ts[1..];
      if ts[0] !in onDisk && LargestOnDisk(ts[1..], onDisk).Some? {
        var i :| 0 <= i < |ts[1..]| && ts[1..][i] in onDisk && LargestOnDisk(ts[1..], onDisk).value == ts[1..][i]
                 && forall j :: 0 <= j < i ==> ts[1..][j] !in onDisk;
        assert ts[i + 1] == ts[1..][i];
        assert forall j :: 1 <= j < i + 1 ==> ts[j] == ts[1..][j - 1];
      }
    }
  }

  /** The text, without its blanks, is a tier id. */
  predicate NamesTier(l: Lock, text: Option<string>) {
    text.Some? && Trim(text.value) in l.tiers
  }

  /** The configured tier; else the persisted one; else the largest one on disk; else the machine's default. */
  lemma StartsFrom(l: Lock, over: Option<string>, file: Option<string>, onDisk: set<string>, m: Machine)
    requires l.Valid()
    ensures var t := Resolved(l, over, file, onDisk, m);
      && (NamesTier(l, over) ==> t == Trim(over.value))
      && (!NamesTier(l, over) && NamesTier(l, file) ==> t == Trim(file.value))
      && (!NamesTier(l, over) && !NamesTier(l, file) && (exists u :: u in l.tiers && u in onDisk) ==>
            t in l.tiers && t in onDisk && forall u :: u in l.tiers && u in onDisk ==> l.Rank(t) <= l.Rank(u))
      && (!NamesTier(l, over) && !NamesTier(l, file) && (forall u :: u in l.tiers ==> u !in onDisk) ==>
            t == StaticDefault(l, m))
  {
    LargestIs(l.tiers, onDisk);
    if LargestOnDisk(l.tiers, onDisk).Some? {
      var i :| 0 <= i < |l.tiers| && l.tiers[i] in onDisk && LargestOnDisk(l.tiers, onDisk).value == l.tiers[i]
               && forall j :: 0 <= j < i ==> l.tiers[j] !in onDisk;
      RankIs(l, i);
      forall u | u in l.tiers && u in onDisk ensures i <= l.Rank(u) { assert l.tiers[l.Rank(u)] == u; }
    }
  }

  /** The tiers of the shipped lock file. */
  predicate Shipped(l: Lock) { l.tiers == ["turbo", "small", "base"] }

  predicate ShortOfRam(l: Lock, m: Machine) { m.ram.Some? && m.ram.value < l.minRam }

  /** Turbo exactly on Apple silicon, small exactly on eight other cores with enough memory, else base. */
  lemma DefaultIs(l: Lock, m: Machine)
    requires Shipped(l)
    ensures StaticDefault(l, m) == "turbo" <==> m.appleSilicon
    ensures StaticDefault(l, m) == "small" <==> !m.appleSilicon && !ShortOfRam(l, m) && m.cores >= 8
    ensures StaticDefault(l, m) in l.tiers
  {
    assert "turbo"[0] != "small"[0] && "turbo"[0] != "base"[0] && "small"[0] != "base"[0];
    assert l.tiers[0] == "turbo" && l.tiers[1] == "small" && l.tiers[2] == "base";
  }

  /** At least as good: memory that cannot be told counts as enough. */
  predicate AsGood(m: Machine, n: Machine) {
    && (n.appleSilicon ==> m.appleSilicon) && m.cores >= n.cores
    && (m.ram.Some? ==> n.ram.Some? && m.ram.value >= n.ram.value)
  }

  /** A better machine never starts from a smaller model. */
  lemma BetterStartsLarger(l: Lock, m: Machine, n: Machine)
    requires Shipped(l) && AsGood(m, n)
    ensures l.Rank(StaticDefault(l, m)) <= l.Rank(StaticDefault(l, n))
  {
    DefaultIs(l, m);
    DefaultIs(l, n);
    assert l.Valid() by {
      assert l.tiers[0][0] == 't' && l.tiers[1][0] == 's' && l.tiers[2][0] == 'b';
    }
    RankIs(l, 0);
    RankIs(l, 1);
    RankIs(l, 2);
  }

  // ------------------------------------------------------------- success and failure

  /** The visit neither fails nor ends in a refusal that is not the first. */
  predicate GoesWell(l: Lock, env: Environment, t: string, retried: bool) {
    var v := env(t, retried);
    t in l.pinned && v.ensureOk && v.openOk && (v.start.Ready? || (v.start.BadModel? && !retried))
  }

  /** A walk on which every visit goes well ends in a session; one refused model file is survived. */
  lemma {:induction false} WalkOpens(
      l: Lock, t: string, retried: bool, forced: bool, file: Option<string>, env: Environment)
    requires l.Valid() && GoesWell(l, env, t, true) && (!retried ==> GoesWell(l, env, t, false))
    requires forall u: string :: u in l.tiers ==> GoesWell(l, env, u, true) && GoesWell(l, env, u, false)
    ensures Walk(l, t, retried, forced, file, env).outcome.Opened?
    decreases |l.tiers| - l.Rank(t), if retried then 0 else 1
  {
    var v := env(t, retried);
    if v.start.BadModel? {
      WalkOpens(l, t, true, forced, file, env);
    } else if StepsDown(l, t, forced, v.start) {
      var lower := l.NextLower(t).value;
      RankIs(l, l.Rank(t) + 1);
      WalkOpens(l, lower, retried, forced, if v.stepWritten then Some(FileText(lower)) else file, env);
    }
  }

  /** A visit that does not go well ends the walk, unless it steps down before the session is opened. */
  lemma BadVisitFails(l: Lock, t: string, retried: bool, forced: bool, file: Option<string>, env: Environment)
    requires l.Valid() && !GoesWell(l, env, t, retried) && !StepsDown(l, t, forced, env(t, retried).start)
    requires !(env(t, retried).start.BadModel? && !retried)
    ensures Walk(l, t, retried, forced, file, env).outcome.Failed?
  {
  }

  /** A cold start over the budget, the only reason to step down. */
  predicate IsSlow(l: Lock, start: Start) {
    start.Ready? && start.cold && start.probeMs > l.budgetMs
  }

  /** Without a slow cold start, or with a forced tier, nothing is stepped down from. */
  lemma {:induction false} NoReasonNoStep(
      l: Lock, t: string, retried: bool, forced: bool, file: Option<string>, env: Environment)
    requires l.Valid() && (forced || (!IsSlow(l, env(t, true).start) && !IsSlow(l, env(t, false).start)))
    ensures Walk(l, t, retried, forced, file, env).steppedDownFrom == []
    decreases if retried then 0 else 1
  {
    if env(t, retried).start.BadModel? && !retried { NoReasonNoStep(l, t, true, forced, file, env); }
  }

  /** An unforced tier whose start is slow is stepped down from, unless it is the smallest. */
  lemma SlowStepsDown(l: Lock, t: string, retried: bool, file: Option<string>, env: Environment)
    requires l.Valid() && t in l.pinned && env(t, retried).ensureOk && IsSlow(l, env(t, retried).start)
    ensures var steps := Walk(l, t, retried, false, file, env).steppedDownFrom;
      if l.Rank(t) + 1 < |l.tiers| then steps != [] && steps[0] == t else steps == []
  {
  }

  /** The session that is opened is that of the last visit: its tier, and what its helper reported. */
  predicate OpenedBy(w: Walked, env: Environment, retried: bool) {
    w.outcome.Opened? ==>
      var v := env(w.outcome.tier, retried);
      v.ensureOk && v.openOk && v.start == Ready(w.outcome.cold, w.outcome.probeMs)
  }

  lemma {:induction false} OpensTheLast(
      l: Lock, t: string, retried: bool, forced: bool, file: Option<string>, env: Environment)
    requires l.Valid()
    ensures var w := Walk(l, t, retried, forced, file, env); OpenedBy(w, env, true) || OpenedBy(w, env, false)
    decreases |l.tiers| - l.Rank(t), if retried then 0 else 1
  {
    var v := env(t, retried);
    if t in l.pinned && v.ensureOk {
      if v.start.BadModel? && !retried {
        OpensTheLast(l, t, true, forced, file, env);
      } else if StepsDown(l, t, forced, v.start) {
        var lower := l.NextLower(t).value;
        RankIs(l, l.Rank(t) + 1);
        OpensTheLast(l, lower, retried, forced, if v.stepWritten then Some(FileText(lower)) else file, env);
      } else {
        assert retried || !v.start.BadModel?;
      }
    }
  }

  // ---------------------------------------------------------------- downloads

  /** The visits of a walk, in order. */
  function Visits(l: Lock, t: string, retried: bool, forced: bool, env: Environment): seq<(string, bool)>
    requires l.Valid()
    decreases |l.tiers| - l.Rank(t), if retried then 0 else 1
  {
    var v := env(t, retried);
    [(t, retried)] +
    if t !in l.pinned || !v.ensureOk then []
    else if v.start.BadModel? && !retried then Visits(l, t, true, forced, env)
    else if StepsDown(l, t, forced, v.start) then
      RankIs(l, l.Rank(t) + 1);
      Visits(l, l.NextLower(t).value, retried, forced, env)
    else []
  }

  /** The visit made a model file present that was not. */
  predicate Fetches(l: Lock, env: Environment, visit: (string, bool)) {
    visit.0 in l.pinned && env(visit.0, visit.1).ensureOk && !env(visit.0, visit.1).readyBefore
  }

  predicate AnyFetches(l: Lock, env: Environment, visits: seq<(string, bool)>) {
    exists i :: 0 <= i < |visits| && Fetches(l, env, visits[i])
  }

  /** Something was downloaded exactly if one of the visits made a file present that was not. */
  lemma {:induction false} DownloadedIff(
      l: Lock, t: string, retried: bool, forced: bool, file: Option<string>, env: Environment)
    requires l.Valid()
    ensures Walk(l, t, retried, forced, file, env).downloaded <==>
      AnyFetches(l, env, Visits(l, t, retried, forced, env))
    decreases |l.tiers| - l.Rank(t), if retried then 0 else 1
  {
    var v, all := env(t, retried), Visits(l, t, retried, forced, env);
    assert all[0] == (t, retried);
    SomeLater(l, env, all);
    if t !in l.pinned || !v.ensureOk {
      assert all[1..] == [];
    } else if v.start.BadModel? && !retried {
      DownloadedIff(l, t, true, forced, file, env);
      var w := Walk(l, t, true, forced, file, env);
      assert Walk(l, t, retried, forced, file, env) == Carry([], !v.readyBefore, w);
      assert all[1..] == Visits(l, t, true, forced, env);
    } else if StepsDown(l, t, forced, v.start) {
      var lower := l.NextLower(t).value;
      RankIs(l, l.Rank(t) + 1);
      DownloadedIff(l, lower, retried, forced, if v.stepWritten then Some(FileText(lower)) else file, env);
      assert all[1..] == Visits(l, lower, retried, forced, env);
    } else {
      assert all[1..] == [];
    }
  }

  lemma SomeLater(l: Lock, env: Environment, all: seq<(string, bool)>)
    requires all != []
    ensures AnyFetches(l, env, all) <==> Fetches(l, env, all[0]) || AnyFetches(l, env, all[1..])
  {
    assert forall i :: 1 <= i < |all| ==> all[i] == all[1..][i - 1];
  }
}
