/** What the fields of the vendor slot's threads and children record, told by the steps of the run alone:
    when a caller came, when its child was spawned, given up on, killed and abandoned. */
module VendorHistory {
  import opened Text
  import opened VendorSlot

  /** Still in `acquire`, or refused by it. */
  predicate Acquiring(pc: Pc) {
    pc.Locking? || pc.Checking? || pc.Asleep? || pc.Refused?
  }

  /** Step `k` is the one in which the thread came, with its job and its deadline. */
  predicate CameAt(states: seq<State>, actions: seq<Action>, k: nat, t: nat, thread: Thread)
    requires k < |actions| && k < |states|
  {
    actions[k] == Begin(t, thread.job) && thread.deadline == states[k].now + thread.job.wait
  }

  lemma StillAcquiring(s: State, a: Action, t: nat)
    requires Enabled(s, a) && t in Step(s, a).threads && Acquiring(Step(s, a).threads[t].pc)
    ensures (a.Begin? && a.t == t && Step(s, a).threads[t] == Thread(Locking, a.job, s.now + a.job.wait))
            || (t in s.threads && Acquiring(s.threads[t].pc) && s.threads[t].job == Step(s, a).threads[t].job
                && s.threads[t].deadline == Step(s, a).threads[t].deadline)
  {
  }

  lemma {:induction false} Came(states: seq<State>, actions: seq<Action>, n: nat, t: nat) returns (k: nat)
    requires IsRun(states, actions) && n <= |actions|
    requires t in states[n].threads && Acquiring(states[n].threads[t].pc)
    ensures k < n && CameAt(states, actions, k, t, states[n].threads[t])
  {
    StillAcquiring(states[n - 1], actions[n - 1], t);
    if actions[n - 1].Begin? && actions[n - 1].t == t {
      k := n - 1;
    } else {
      k := Came(states, actions, n - 1, t);
    }
  }

  /** `acquire` gives up only when all of the caller's own wait is over, with the gate busy. */
  lemma RefusedAfterItsWait(states: seq<State>, actions: seq<Action>, n: nat, t: nat) returns (k: nat, job: Job)
    requires IsRun(states, actions) && n < |actions|
    requires !IsAt(states[n], t, Refused) && IsAt(states[n + 1], t, Refused)
    ensures k < n && actions[k] == Begin(t, job) && states[n].now >= states[k].now + job.wait
    ensures states[n].busy && states[n].mutex == Some(t) && exists u: nat :: Owner(states[n], u)
  {
    RefusedOnlyWhenBusy(states, actions, n, t);
    AlwaysSafe(states, actions, n);
    assert IsAt(states[n], t, Checking);
    k := Came(states, actions, n, t);
    job := states[n].threads[t].job;
  }

  /** The steps a thread that holds the mutex can take. */
  predicate Decides(a: Action, t: nat) {
    a == Sleep(t) || a == GiveUp(t) || a == Take(t)
  }

  /** A thread at the top of the loop has exactly one thing to do: take a free slot; sleep while it is busy
      and the wait not over; give up once it is. */
  lemma CheckerDecides(states: seq<State>, actions: seq<Action>, n: nat, t: nat, a: Action)
    returns (k: nat, job: Job)
    requires IsRun(states, actions) && n <= |actions| && IsAt(states[n], t, Checking) && Decides(a, t)
    ensures k < n && actions[k] == Begin(t, job)
    ensures Enabled(states[n], a) <==>
      a == if !states[n].busy then Take(t)
           else if states[n].now < states[k].now + job.wait then Sleep(t) else GiveUp(t)
  {
    k := Came(states, actions, n, t);
    job := states[n].threads[t].job;
  }

  /** And a caller that sleeps needs nobody to give up in time: woken by its own timeout while the gate is
      busy, it is refused at the end of its wait, or now if that is over. */
  lemma SleeperGivesUp(states: seq<State>, actions: seq<Action>, t: nat)
    returns (states': seq<State>, actions': seq<Action>, k: nat, job: Job)
    requires IsRun(states, actions) && IsAt(states[|actions|], t, Asleep)
    requires states[|actions|].busy && states[|actions|].mutex.None?
    ensures IsRun(states', actions') && IsAt(states'[|actions'|], t, Refused)
    ensures exists ms :: actions' == actions + [Tick(ms), Wake(t), Lock(t), GiveUp(t)]
    ensures k < |actions| && actions[k] == Begin(t, job)
    ensures states'[|actions'|].now == Later(states[|actions|].now, states[k].now + job.wait)
  {
    var s := states[|actions|];
    k := Came(states, actions, |actions|, t);
    job := s.threads[t].job;
    var ms := Later(s.now, s.threads[t].deadline) - s.now;
    states', actions' := Extend(states, actions, Tick(ms));
    states', actions' := Extend(states', actions', Wake(t));
    states', actions' := Extend(states', actions', Lock(t));
    states', actions' := Extend(states', actions', GiveUp(t));
    assert actions' == actions + [Tick(ms), Wake(t), Lock(t), GiveUp(t)];
  }

  function Later(a: nat, b: nat): nat { if a < b then b else a }

  lemma AttemptStep(s: State, a: Action, t: nat)
    requires Enabled(s, a) && t in Step(s, a).threads && Step(s, a).threads[t].pc.Starting?
    ensures Step(s, a).threads[t].pc.attempt < 8 || (t in s.threads && s.threads[t].pc == Step(s, a).threads[t].pc)
  {
  }

  /** A spawn is tried at most eight times, and again only after the program was busy being written. */
  lemma {:induction false} EightAttempts(states: seq<State>, actions: seq<Action>, n: nat, t: nat)
    requires IsRun(states, actions) && n <= |actions|
    requires t in states[n].threads && states[n].threads[t].pc.Starting?
    ensures states[n].threads[t].pc.attempt < 8
    ensures Enabled(states[n], SpawnBusy(t)) <==> states[n].threads[t].pc.attempt < 7
    ensures Enabled(states[n], Spawn(t)) && Enabled(states[n], SpawnFails(t))
  {
    AttemptStep(states[n - 1], actions[n - 1], t);
    if states[n].threads[t].pc.attempt >= 8 { EightAttempts(states, actions, n - 1, t); }
  }

  // --------------------------------------------------------------- the children

  /** Step `k` spawned child `c` for a thread with this job. */
  predicate SpawnedAt(states: seq<State>, actions: seq<Action>, k: nat, c: nat, job: Job)
    requires k < |actions| && k < |states|
  {
    && actions[k].Spawn? && |states[k].children| == c
    && actions[k].t in states[k].threads && states[k].threads[actions[k].t].job == job
  }

  /** What never changes once a child is there. */
  predicate SameOrigin(a: Child, b: Child) { a.startedAt == b.startedAt && a.job == b.job }

  lemma OldChild(s: State, a: Action, c: nat)
    requires Enabled(s, a) && c < |s.children|
    ensures c < |Step(s, a).children| && SameOrigin(Step(s, a).children[c], s.children[c])
  {
  }

  lemma NewChild(s: State, a: Action, c: nat)
    requires Enabled(s, a) && |s.children| <= c < |Step(s, a).children|
    ensures a.Spawn? && c == |s.children|
    ensures var child := Step(s, a).children[c];
      && child.job == s.threads[a.t].job && child.startedAt == s.now && child.life == Alive
      && child.givenUpAt.None? && child.killedAt.None? && !child.graceErred && !child.abandoned
  {
  }

  lemma {:induction false} Spawned(states: seq<State>, actions: seq<Action>, n: nat, c: nat) returns (k: nat)
    requires IsRun(states, actions) && n <= |actions| && c < |states[n].children|
    ensures k < n && SpawnedAt(states, actions, k, c, states[n].children[c].job)
    ensures states[n].children[c].startedAt == states[k].now
  {
    if c < |states[n - 1].children| {
      OldChild(states[n - 1], actions[n - 1], c);
      k := Spawned(states, actions, n - 1, c);
    } else {
      NewChild(states[n - 1], actions[n - 1], c);
      k := n - 1;
    }
  }

  lemma {:induction false} ChildrenStay(states: seq<State>, actions: seq<Action>, k: nat, n: nat)
    requires IsRun(states, actions) && k <= n <= |actions|
    ensures |states[k].children| <= |states[n].children|
  {
    if k < n { ChildrenStay(states, actions, k, n - 1); }
  }

  /** Step `k` is the one in which a thread stopped waiting for the child. */
  predicate GivenUpAt(states: seq<State>, actions: seq<Action>, k: nat, c: nat, erred: bool)
    requires k < |actions| && k < |states|
  {
    actions[k].StopWaiting? && actions[k].erred == erred && Tends(states[k], actions[k].t, c)
  }

  /** Step `k` is the one in which it was killed. */
  predicate KilledAt(states: seq<State>, actions: seq<Action>, k: nat, c: nat)
    requires k < |actions| && k < |states|
  {
    actions[k].Kill? && Tends(states[k], actions[k].t, c)
  }

  /** In step `k` the wait for it during its grace failed. */
  predicate GraceErredAt(states: seq<State>, actions: seq<Action>, k: nat, c: nat)
    requires k < |actions| && k < |states|
  {
    actions[k].GraceOver? && actions[k].erred && Tends(states[k], actions[k].t, c)
  }

  /** In step `k` the last wait for it failed. */
  predicate AbandonedAt(states: seq<State>, actions: seq<Action>, k: nat, c: nat)
    requires k < |actions| && k < |states|
  {
    actions[k].LastWaitFails? && Tends(states[k], actions[k].t, c)
  }

  /** A step that is aimed at another child, or at none, changes nothing in this one. */
  lemma OnlyItsSteps(s: State, a: Action, c: nat)
    requires Enabled(s, a) && c < |s.children|
    ensures var old', new' := s.children[c], Step(s, a).children[c];
      && ((new'.givenUpAt == old'.givenUpAt && new'.waitErred == old'.waitErred)
          || (a.StopWaiting? && Tends(s, a.t, c) && new'.givenUpAt == Some(s.now) && new'.waitErred == a.erred))
      && (new'.killedAt == old'.killedAt || (a.Kill? && Tends(s, a.t, c) && new'.killedAt == Some(s.now)))
      && (new'.graceErred ==> old'.graceErred || (a.GraceOver? && Tends(s, a.t, c) && a.erred))
  {
  }

  lemma {:induction false} GivenUp(states: seq<State>, actions: seq<Action>, n: nat, c: nat) returns (k: nat)
    requires IsRun(states, actions) && n <= |actions| && c < |states[n].children|
    requires states[n].children[c].givenUpAt.Some?
    ensures k < n && GivenUpAt(states, actions, k, c, states[n].children[c].waitErred)
    ensures states[n].children[c].givenUpAt == Some(states[k].now)
  {
    var s, a := states[n - 1], actions[n - 1];
    if c >= |s.children| {
      NewChild(s, a, c);
      assert false;
    } else {
      OnlyItsSteps(s, a, c);
      if a.StopWaiting? && Tends(s, a.t, c) && states[n].children[c].givenUpAt == Some(s.now)
         && states[n].children[c].waitErred == a.erred {
        k := n - 1;
      } else {
        k := GivenUp(states, actions, n - 1, c);
      }
    }
  }

  lemma {:induction false} GraceErred(states: seq<State>, actions: seq<Action>, n: nat, c: nat) returns (k: nat)
    requires IsRun(states, actions) && n <= |actions| && c < |states[n].children|
    requires states[n].children[c].graceErred
    ensures k < n && GraceErredAt(states, actions, k, c)
  {
    var s, a := states[n - 1], actions[n - 1];
    if c >= |s.children| {
      NewChild(s, a, c);
      assert false;
    } else {
      OnlyItsSteps(s, a, c);
      if a.GraceOver? && Tends(s, a.t, c) && a.erred {
        k := n - 1;
      } else {
        k := GraceErred(states, actions, n - 1, c);
      }
    }
  }

  /** A mark that a thing has from the first hit on, once it is there, and that nothing hits before. */
  predicate MarkAt(there: seq<bool>, mark: seq<bool>, hit: seq<bool>, k: nat)
    requires k < |hit| && |there| == |mark| == |hit| + 1
  {
    && (hit[k] ==> there[k])
    && (there[k] ==> there[k + 1] && (mark[k + 1] <==> mark[k] || hit[k]))
    && (!there[k] && there[k + 1] ==> !mark[k + 1])
  }

  lemma {:induction false} Marked(there: seq<bool>, mark: seq<bool>, hit: seq<bool>, n: nat)
    requires |there| == |mark| == |hit| + 1 && n <= |hit| && !there[0]
    requires forall k: nat :: k < |hit| ==> MarkAt(there, mark, hit, k)
    ensures there[n] ==> (mark[n] <==> exists k :: 0 <= k < n && hit[k])
    ensures !there[n] ==> forall k :: 0 <= k < n ==> !hit[k]
  {
    if n > 0 {
      assert MarkAt(there, mark, hit, n - 1);
      Marked(there, mark, hit, n - 1);
    }
  }

  /** One step, told of one child: whether it is gone, and whether it is abandoned. */
  lemma GoneOn(s: State, a: Action, c: nat)
    requires Enabled(s, a) && TendedAreThere(s)
    ensures (a == Exit(c) || (a.LastWaitFails? && Tends(s, a.t, c))) ==> c < |s.children|
    ensures c < |s.children| ==>
      c < |Step(s, a).children|
      && (Step(s, a).children[c].abandoned <==> s.children[c].abandoned || (a.LastWaitFails? && Tends(s, a.t, c)))
      && (Step(s, a).children[c].life == Alive <==> s.children[c].life == Alive && a != Exit(c))
    ensures |s.children| <= c < |Step(s, a).children| ==>
      Step(s, a).children[c].life == Alive && !Step(s, a).children[c].abandoned
  {
    if |s.children| <= c < |Step(s, a).children| { NewChild(s, a, c); }
  }

  /** A child is alive from its spawn until it exits... */
  lemma AliveIff(states: seq<State>, actions: seq<Action>, n: nat, c: nat)
    requires IsRun(states, actions) && n <= |actions| && c < |states[n].children|
    ensures Living(states[n], c) <==> forall k :: 0 <= k < n ==> actions[k] != Exit(c)
  {
    var there := seq(|states|, k requires 0 <= k < |states| => c < |states[k].children|);
    var gone := seq(|states|, k requires 0 <= k < |states| => !Living(states[k], c));
    var hit := seq(|actions|, k requires 0 <= k < |actions| => actions[k] == Exit(c));
    forall k: nat | k < |hit| ensures MarkAt(there, gone, hit, k) {
      AlwaysSafe(states, actions, k);
      GoneOn(states[k], actions[k], c);
    }
    Marked(there, gone, hit, n);
    assert forall k :: 0 <= k < n ==> (hit[k] <==> actions[k] == Exit(c));
  }

  /** ... and abandoned once the last wait for it has failed. */
  lemma AbandonedIff(states: seq<State>, actions: seq<Action>, n: nat, c: nat)
    requires IsRun(states, actions) && n <= |actions| && c < |states[n].children|
    ensures states[n].children[c].abandoned <==> exists k :: 0 <= k < n && AbandonedAt(states, actions, k, c)
  {
    var there := seq(|states|, k requires 0 <= k < |states| => c < |states[k].children|);
    var left := seq(|states|, k requires 0 <= k < |states| =>
      c < |states[k].children| && states[k].children[c].abandoned);
    var hit := seq(|actions|, k requires 0 <= k < |actions| => AbandonedAt(states, actions, k, c));
    forall k: nat | k < |hit| ensures MarkAt(there, left, hit, k) {
      AlwaysSafe(states, actions, k);
      GoneOn(states[k], actions[k], c);
    }
    Marked(there, left, hit, n);
    assert forall k :: 0 <= k < n ==> (hit[k] <==> AbandonedAt(states, actions, k, c));
  }

  /** Two children that were spawned and have not exited: the last wait for one of them has failed. */
  lemma TwoThenAbandoned(states: seq<State>, actions: seq<Action>, n: nat, c: nat, d: nat)
    requires IsRun(states, actions) && n <= |actions| && c < |states[n].children| && d < |states[n].children| && c != d
    requires forall k :: 0 <= k < n ==> actions[k] != Exit(c) && actions[k] != Exit(d)
    ensures exists k :: 0 <= k < n && (AbandonedAt(states, actions, k, c) || AbandonedAt(states, actions, k, d))
  {
    AliveIff(states, actions, n, c);
    AliveIff(states, actions, n, d);
    OneChildAlive(states, actions, n, c, d);
    AbandonedIff(states, actions, n, c);
    AbandonedIff(states, actions, n, d);
  }

  // ------------------------------------------------------------------ the kill

  /** The steps before a kill: the spawn at `i`, the giving up at `j`. */
  lemma BeforeKill(states: seq<State>, actions: seq<Action>, n: nat, c: nat) returns (i: nat, j: nat)
    requires IsRun(states, actions) && n < |actions| && KilledAt(states, actions, n, c)
    ensures i < j < n && SpawnedAt(states, actions, i, c, states[n].children[c].job)
    ensures c < |states[n].children| && states[n].children[c].startedAt == states[i].now
    ensures GivenUpAt(states, actions, j, c, states[n].children[c].waitErred)
    ensures states[n].children[c].givenUpAt == Some(states[j].now)
  {
    AlwaysSafe(states, actions, n);
    AlwaysInTime(states, actions, n);
    i := Spawned(states, actions, n, c);
    j := GivenUp(states, actions, n, c);
    AlwaysSafe(states, actions, j);
    if j <= i {
      ChildrenStay(states, actions, j, i);
      assert false;
    }
  }

  /** A kill comes, told by the run alone, at least the caller's timeout after the spawn (unless the caller
      is a session, or its wait failed) and the whole grace after that (unless the wait for that failed);
      a session's grace is no less than two seconds. */
  lemma KilledOnlyInTime(states: seq<State>, actions: seq<Action>, n: nat, c: nat)
    returns (i: nat, j: nat, job: Job, erred: bool)
    requires IsRun(states, actions) && n < |actions| && KilledAt(states, actions, n, c)
    ensures i < j < n && SpawnedAt(states, actions, i, c, job) && GivenUpAt(states, actions, j, c, erred)
    ensures job.session || erred || states[j].now >= states[i].now + job.timeout
    ensures (exists k :: 0 <= k < n && GraceErredAt(states, actions, k, c))
            || (states[n].now >= states[j].now + job.killGrace
                && (job.session ==> states[n].now >= states[j].now + 2000))
  {
    i, j := BeforeKill(states, actions, n, c);
    AlwaysInTime(states, actions, n);
    job, erred := states[n].children[c].job, states[n].children[c].waitErred;
    assert Tends(states[n], actions[n].t, c);
    if states[n].children[c].graceErred {
      var k := GraceErred(states, actions, n, c);
    }
  }

  lemma KillNow(states: seq<State>, actions: seq<Action>, t: nat, c: nat)
    returns (states': seq<State>, actions': seq<Action>)
    requires IsRun(states, actions) && IsAt(states[|actions|], t, Killing(c)) && c < |states[|actions|].children|
    ensures IsRun(states', actions') && actions' == actions + [Kill(t)] && KilledAt(states', actions', |actions|, c)
    ensures states'[|actions'|].now == states[|actions|].now
  {
    states', actions' := states + [Step(states[|actions|], Kill(t))], actions + [Kill(t)];
  }

  /** And it can come no later than that: whatever the run so far, a child somebody waits for is killed, if
      it does not exit, at the caller's timeout plus the grace, or the grace from now if that is over. */
  lemma WedgedIsKilled(states: seq<State>, actions: seq<Action>, t: nat, c: nat)
    returns (states': seq<State>, actions': seq<Action>)
    requires IsRun(states, actions) && IsAt(states[|actions|], t, Waiting(c)) && c < |states[|actions|].children|
    ensures IsRun(states', actions') && actions < actions' && KilledAt(states', actions', |actions'| - 1, c)
    ensures forall k :: |actions| <= k < |actions'| ==> !actions'[k].Exit?
    ensures var s := states[|actions|];
      var job := s.threads[t].job;
      states'[|actions'|].now ==
        (if job.session then s.now else Later(s.now, s.children[c].startedAt + job.timeout)) + Grace(job)
  {
    var s := states[|actions|];
    var job, due := s.threads[t].job, s.children[c].startedAt + s.threads[t].job.timeout;
    states', actions' := states, actions;
    if !job.session {
      states', actions' := Extend(states', actions', Tick(Later(s.now, due) - s.now));
    }
    states', actions' := KilledAfterWait(states', actions', t, c);
  }

  lemma KilledAfterWait(states: seq<State>, actions: seq<Action>, t: nat, c: nat)
    returns (states': seq<State>, actions': seq<Action>)
    requires IsRun(states, actions) && IsAt(states[|actions|], t, Waiting(c)) && c < |states[|actions|].children|
    requires var s := states[|actions|];
      s.threads[t].job.session || s.now >= s.children[c].startedAt + s.threads[t].job.timeout
    ensures IsRun(states', actions') && actions < actions' && KilledAt(states', actions', |actions'| - 1, c)
    ensures forall k :: |actions| <= k < |actions'| ==> !actions'[k].Exit?
    ensures states'[|actions'|].now == states[|actions|].now + Grace(states[|actions|].threads[t].job)
  {
    var s := states[|actions|];
    var helper := FreeId(s.threads.Keys);
    states', actions' := Extend(states, actions, StopWaiting(t, false, helper));
    if Grace(s.threads[t].job) == 0 {
      states', actions' := KillNow(states', actions', t, c);
    } else {
      states', actions' := KilledAfterGrace(states', actions', helper, c);
    }
  }

  lemma KilledAfterGrace(states: seq<State>, actions: seq<Action>, t: nat, c: nat)
    returns (states': seq<State>, actions': seq<Action>)
    requires IsRun(states, actions) && IsAt(states[|actions|], t, Handed(c)) && c < |states[|actions|].children|
    ensures IsRun(states', actions') && actions < actions' && KilledAt(states', actions', |actions'| - 1, c)
    ensures forall k :: |actions| <= k < |actions'| ==> !actions'[k].Exit?
    ensures states'[|actions'|].now == states[|actions|].now + Grace(states[|actions|].threads[t].job)
  {
    var s := states[|actions|];
    states', actions' := Extend(states, actions, StartGrace(t));
    states', actions' := Extend(states', actions', Tick(Grace(s.threads[t].job)));
    states', actions' := Extend(states', actions', GraceOver(t, false));
    states', actions' := KillNow(states', actions', t, c);
  }
}
