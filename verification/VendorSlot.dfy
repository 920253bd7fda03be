/** One vendor's gate and the children it admits (crates/workshop-detect/src/process.rs): threads take
    the slot, spawn a child, wait, and hand it to a teardown thread.  Every lock, unlock, notify, wait
    and kill is a step of its own, so the steps of all threads interleave freely. */
module VendorSlot {
  import opened Text

  const SPAWN_ATTEMPTS := 8
  const SESSION_EXIT_GRACE := 2000

  /** A call of `run_vendor`, or a session. Times are in milliseconds. */
  datatype Job = Job(session: bool, wait: nat, timeout: nat, killGrace: nat)

  function Grace(job: Job): nat {
    if job.session && job.killGrace < SESSION_EXIT_GRACE then SESSION_EXIT_GRACE else job.killGrace
  }

  datatype Pc =
    | Locking                             // wants the gate's mutex
    | Checking                            // holds it, at the top of the loop
    | Asleep                              // waits on the condition variable
    | Refused                             // `acquire` returned None
    | Starting(attempt: nat)              // has the slot, no child yet
    | Waiting(child: nat)                 // waits for the child, or is a session using it
    | Handed(child: nat)                  // teardown thread that has not begun to wait
    | InGrace(child: nat, until: nat)     // teardown thread waiting for the child to exit
    | Killing(child: nat)                 // about to kill the process group
    | Reaping(child: nat)                 // the last, unbounded wait
    | Dropping                            // about to release the slot
    | Notifying                           // has set busy to false and unlocked, not yet notified
    | Done

  datatype Thread = Thread(pc: Pc, job: Job, deadline: nat)

  datatype Life = Alive | Exited | Reaped

  /** A child and what was done to it when; abandoned once the last wait for it has failed. */
  datatype Child = Child(
    life: Life, job: Job, startedAt: nat, givenUpAt: Option<nat>, killedAt: Option<nat>,
    waitErred: bool, graceErred: bool, abandoned: bool)

  datatype State = State(
    now: nat, busy: bool, mutex: Option<nat>, threads: map<nat, Thread>, children: seq<Child>)

  const Initial := State(0, false, None, map[], [])

  datatype Action =
    | Tick(ms: nat)
    | Begin(t: nat, job: Job)
    | Lock(t: nat)
    | Sleep(t: nat)
    | Wake(t: nat)
    | GiveUp(t: nat)
    | Take(t: nat)
    | Spawn(t: nat)
    | SpawnBusy(t: nat)
    | SpawnFails(t: nat)
    | Exit(c: nat)
    | Reap(t: nat)
    | StopWaiting(t: nat, erred: bool, helper: nat)
    | StartGrace(t: nat)
    | GraceOver(t: nat, erred: bool)
    | Kill(t: nat)
    | LastWaitFails(t: nat)
    | Release(t: nat)
    | Notify(t: nat)

  predicate IsAt(s: State, t: nat, pc: Pc) { t in s.threads && s.threads[t].pc == pc }

  predicate HasChild(pc: Pc) {
    pc.Waiting? || pc.Handed? || pc.InGrace? || pc.Killing? || pc.Reaping?
  }

  /** A thread that waits for a child in order to reap it. */
  predicate CanReap(thread: Thread) {
    (thread.pc.Waiting? && !thread.job.session) || thread.pc.InGrace? || thread.pc.Reaping?
  }

  predicate Enabled(s: State, a: Action) {
    match a
    case Tick(_) => true
    case Begin(t, _) => t !in s.threads
    case Lock(t) => IsAt(s, t, Locking) && s.mutex.None?
    case Sleep(t) => IsAt(s, t, Checking) && s.busy && s.now < s.threads[t].deadline
    case Wake(t) => IsAt(s, t, Asleep)
    case GiveUp(t) => IsAt(s, t, Checking) && s.busy && s.now >= s.threads[t].deadline
    case Take(t) => IsAt(s, t, Checking) && !s.busy
    case Spawn(t) => t in s.threads && s.threads[t].pc.Starting?
    case SpawnBusy(t) => t in s.threads && s.threads[t].pc.Starting? && s.threads[t].pc.attempt + 1 < SPAWN_ATTEMPTS
    case SpawnFails(t) => t in s.threads && s.threads[t].pc.Starting?
    case Exit(c) => c < |s.children| && s.children[c].life == Alive
    case Reap(t) =>
      && t in s.threads && CanReap(s.threads[t]) && s.threads[t].pc.child < |s.children|
      && s.children[s.threads[t].pc.child].life == Exited
    case StopWaiting(t, erred, helper) =>
      && t in s.threads && s.threads[t].pc.Waiting? && s.threads[t].pc.child < |s.children| && helper !in s.threads
      && (s.threads[t].job.session || erred
          || s.now >= s.children[s.threads[t].pc.child].startedAt + s.threads[t].job.timeout)
    case StartGrace(t) => t in s.threads && s.threads[t].pc.Handed?
    case GraceOver(t, erred) =>
      && t in s.threads && s.threads[t].pc.InGrace? && s.threads[t].pc.child < |s.children|
      && (erred || s.now >= s.threads[t].pc.until)
    case Kill(t) => t in s.threads && s.threads[t].pc.Killing? && s.threads[t].pc.child < |s.children|
    case LastWaitFails(t) => t in s.threads && s.threads[t].pc.Reaping? && s.threads[t].pc.child < |s.children|
    case Release(t) => IsAt(s, t, Dropping) && s.mutex.None?
    case Notify(t) => IsAt(s, t, Notifying)
  }

  function Go(s: State, t: nat, pc: Pc): State
    requires t in s.threads
  {
    s.(threads := s.threads[t := s.threads[t].(pc := pc)])
  }

  function Mark(s: State, c: nat, child: Child): State
    requires c < |s.children|
  {
    s.(children := s.children[c := child])
  }

  /** The teardown of a child: killed at once with no grace, else handed to a thread of its own. */
  function Torn(s: State, t: nat, c: nat, helper: nat): State
    requires t in s.threads && helper !in s.threads
  {
    if Grace(s.threads[t].job) == 0 then Go(s, t, Killing(c))
    else
      var u := Go(s, t, Done);
      u.(threads := u.threads[helper := Thread(Handed(c), s.threads[t].job, 0)])
  }

  function Woken(threads: map<nat, Thread>): map<nat, Thread> {
    map t | t in threads :: if threads[t].pc == Asleep then threads[t].(pc := Locking) else threads[t]
  }

  function Step(s: State, a: Action): State
    requires Enabled(s, a)
  {
    match a
    case Tick(ms) => s.(now := s.now + ms)
    case Begin(t, job) => s.(threads := s.threads[t := Thread(Locking, job, s.now + job.wait)])
    case Lock(t) => Go(s.(mutex := Some(t)), t, Checking)
    case Sleep(t) => Go(s.(mutex := None), t, Asleep)
    case Wake(t) => Go(s, t, Locking)
    case GiveUp(t) => Go(s.(mutex := None), t, Refused)
    case Take(t) => Go(s.(mutex := None, busy := true), t, Starting(0))
    case Spawn(t) =>
      var child := Child(Alive, s.threads[t].job, s.now, None, None, false, false, false);
      Go(s.(children := s.children + [child]), t, Waiting(|s.children|))
    case SpawnBusy(t) => Go(s, t, Starting(s.threads[t].pc.attempt + 1))
    case SpawnFails(t) => Go(s, t, Dropping)
    case Exit(c) => Mark(s, c, s.children[c].(life := Exited))
    case Reap(t) =>
      var c := s.threads[t].pc.child;
      Go(Mark(s, c, s.children[c].(life := Reaped)), t, Dropping)
    case StopWaiting(t, erred, helper) =>
      var c := s.threads[t].pc.child;
      Torn(Mark(s, c, s.children[c].(givenUpAt := Some(s.now), waitErred := erred)), t, c, helper)
    case StartGrace(t) => Go(s, t, InGrace(s.threads[t].pc.child, s.now + Grace(s.threads[t].job)))
    case GraceOver(t, erred) =>
      var c := s.threads[t].pc.child;
      Go(Mark(s, c, s.children[c].(graceErred := erred)), t, Killing(c))
    case Kill(t) =>
      var c := s.threads[t].pc.child;
      Go(Mark(s, c, s.children[c].(killedAt := Some(s.now))), t, Reaping(c))
    case LastWaitFails(t) =>
      var c := s.threads[t].pc.child;
      Go(Mark(s, c, s.children[c].(abandoned := true)), t, Dropping)
    case Release(t) => Go(s.(busy := false), t, Notifying)
    case Notify(t) => var u := Go(s, t, Done); u.(threads := Woken(u.threads))
  }

  /** A run from the state in which nobody has called yet. */
  predicate IsRun(states: seq<State>, actions: seq<Action>) {
    && |states| == |actions| + 1 && states[0] == Initial
    && forall i :: 0 <= i < |actions| ==> Enabled(states[i], actions[i]) && states[i + 1] == Step(states[i], actions[i])
  }

  // --------------------------------------------------------------- the invariants

  /** The thread owns the slot. */
  predicate Holds(pc: Pc) { pc.Starting? || HasChild(pc) || pc.Dropping? }

  predicate Owner(s: State, t: nat) { t in s.threads && Holds(s.threads[t].pc) }

  ghost predicate OneOwner(s: State) {
    forall t: nat, u: nat :: Owner(s, t) && Owner(s, u) ==> t == u
  }

  ghost predicate BusyIffOwned(s: State) {
    s.busy <==> exists t: nat :: Owner(s, t)
  }

  ghost predicate MutexIsChecker(s: State) {
    forall t: nat :: IsAt(s, t, Checking) <==> s.mutex == Some(t)
  }

  /** Whoever sleeps will be woken. */
  ghost predicate NobodyStranded(s: State) {
    (exists t: nat :: IsAt(s, t, Asleep)) ==> s.busy || exists u: nat :: IsAt(s, u, Notifying)
  }

  predicate Tends(s: State, t: nat, c: nat) {
    t in s.threads && HasChild(s.threads[t].pc) && s.threads[t].pc.child == c
  }

  /** Neither reaped nor given up on. */
  predicate Due(s: State, c: nat) {
    c < |s.children| && s.children[c].life != Reaped && !s.children[c].abandoned
  }

  /** A thread only ever waits for, kills or reaps a child that is there and still due. */
  ghost predicate TendedAreThere(s: State) {
    forall t: nat, c: nat :: Tends(s, t, c) ==> Due(s, c)
  }

  /** Every child still due has a thread that holds the slot for it. */
  ghost predicate ChildrenAreTended(s: State) {
    forall c: nat :: Due(s, c) ==> exists t: nat :: Tends(s, t, c)
  }

  ghost predicate Safe(s: State) {
    && OneOwner(s) && BusyIffOwned(s) && MutexIsChecker(s) && NobodyStranded(s) && TendedAreThere(s)
    && ChildrenAreTended(s)
  }

  lemma InitialSafe()
    ensures Safe(Initial)
  {
  }

  lemma SameOwners(s: State, u: State)
    requires OneOwner(s) && BusyIffOwned(s) && s.busy == u.busy
    requires forall t: nat :: Owner(s, t) <==> Owner(u, t)
    ensures OneOwner(u) && BusyIffOwned(u)
  {
  }

  /** The slot passes from `t` to `h`, which may be the same thread. */
  lemma OwnerPasses(s: State, u: State, t: nat, h: nat)
    requires OneOwner(s) && BusyIffOwned(s) && s.busy == u.busy && Owner(s, t)
    requires forall x: nat :: Owner(u, x) <==> x == h
    ensures OneOwner(u) && BusyIffOwned(u)
  {
    assert Owner(u, h);
  }

  lemma OwnersAfter(s: State, a: Action)
    requires OneOwner(s) && BusyIffOwned(s) && Enabled(s, a)
    ensures OneOwner(Step(s, a)) && BusyIffOwned(Step(s, a))
  {
    var u := Step(s, a);
    match a
    case Take(t) => assert Owner(u, t) && forall x: nat :: x != t ==> !Owner(u, x) by {
      forall x: nat ensures x != t ==> !Owner(u, x) { assert !Owner(s, x); }
    }
    case Release(t) => assert Owner(s, t); forall x: nat ensures !Owner(u, x) { assert Owner(s, x) ==> x == t; }
    case StopWaiting(t, _, helper) =>
      assert Owner(s, t);
      var h := if Grace(s.threads[t].job) == 0 then t else helper;
      forall x: nat ensures Owner(u, x) <==> x == h { assert Owner(s, x) ==> x == t; }
      OwnerPasses(s, u, t, h);
    case _ =>
      forall x: nat ensures Owner(s, x) <==> Owner(u, x) { }
      SameOwners(s, u);
  }

  lemma MutexAfter(s: State, a: Action)
    requires MutexIsChecker(s) && Enabled(s, a)
    ensures MutexIsChecker(Step(s, a))
  {
  }

  lemma NobodyStrandedAfter(s: State, a: Action)
    requires NobodyStranded(s) && BusyIffOwned(s) && Enabled(s, a)
    ensures NobodyStranded(Step(s, a))
  {
    var u := Step(s, a);
    match a
    case Release(t) => assert IsAt(u, t, Notifying);
    case Notify(_) => assert forall t: nat :: !IsAt(u, t, Asleep);
    case Sleep(_) =>
    case _ =>
      assert forall t: nat :: IsAt(u, t, Asleep) ==> IsAt(s, t, Asleep);
      assert forall t: nat :: IsAt(s, t, Notifying) ==> IsAt(u, t, Notifying);
  }

  lemma TendedAfter(s: State, a: Action)
    requires TendedAreThere(s) && OneOwner(s) && Enabled(s, a)
    ensures TendedAreThere(Step(s, a))
  {
    var u := Step(s, a);
    match a
    case Reap(t) => TendsNothing(s, a, t);
    case LastWaitFails(t) => TendsNothing(s, a, t);
    case Spawn(t) =>
      assert Owner(s, t);
      forall x: nat, c: nat | Tends(u, x, c) ensures x == t { assert Owner(s, x) ==> x == t; }
    case StopWaiting(t, _, helper) =>
      var c := s.threads[t].pc.child;
      assert Tends(s, t, c);
      forall x: nat, d: nat | Tends(u, x, d) ensures Due(u, d) {
        assert x == t || x == helper || Tends(s, x, d);
      }
    case _ =>
      forall x: nat, c: nat | Tends(u, x, c) ensures Due(u, c) { assert Tends(s, x, c); }
  }

  /** The owner that lets go of its child was the only one tending any. */
  lemma TendsNothing(s: State, a: Action, t: nat)
    requires OneOwner(s) && Enabled(s, a) && (a == Reap(t) || a == LastWaitFails(t))
    ensures forall x: nat, c: nat :: !Tends(Step(s, a), x, c)
  {
    assert Owner(s, t);
    forall x: nat, c: nat ensures !Tends(Step(s, a), x, c) { assert Owner(s, x) ==> x == t; }
  }

  lemma ChildrenAfter(s: State, a: Action)
    requires ChildrenAreTended(s) && Enabled(s, a)
    ensures ChildrenAreTended(Step(s, a))
  {
    forall c: nat | Due(Step(s, a), c) ensures exists t: nat :: Tends(Step(s, a), t, c) {
      var t := StillTended(s, a, c);
    }
  }

  lemma StillTended(s: State, a: Action, c: nat) returns (t: nat)
    requires ChildrenAreTended(s) && Enabled(s, a) && Due(Step(s, a), c)
    ensures Tends(Step(s, a), t, c)
  {
    if c == |s.children| {
      t := a.t;
    } else {
      assert Due(s, c);
      t :| Tends(s, t, c);
      if a.StopWaiting? && a.t == t && Grace(s.threads[t].job) != 0 { t := a.helper; }
    }
  }

  lemma StepSafe(s: State, a: Action)
    requires Safe(s) && Enabled(s, a)
    ensures Safe(Step(s, a))
  {
    OwnersAfter(s, a);
    MutexAfter(s, a);
    NobodyStrandedAfter(s, a);
    TendedAfter(s, a);
    ChildrenAfter(s, a);
  }

  lemma {:induction false} AlwaysSafe(states: seq<State>, actions: seq<Action>, n: nat)
    requires IsRun(states, actions) && n <= |actions|
    ensures Safe(states[n])
  {
    if n == 0 {
      InitialSafe();
    } else {
      AlwaysSafe(states, actions, n - 1);
      StepSafe(states[n - 1], actions[n - 1]);
    }
  }

  // ------------------------------------------------------------------- theorems

  predicate Living(s: State, c: nat) { c < |s.children| && s.children[c].life == Alive }

  /** In every run, at most one child that was not abandoned is unreaped; while there is one, the gate is
      busy and the only thread that owns the slot is the one that will reap it. */
  lemma OneChildDue(states: seq<State>, actions: seq<Action>, n: nat, c: nat, d: nat)
    requires IsRun(states, actions) && n <= |actions| && Due(states[n], c) && Due(states[n], d)
    ensures c == d && states[n].busy
    ensures exists t: nat :: Tends(states[n], t, c) && forall u: nat :: Owner(states[n], u) ==> u == t
  {
    AlwaysSafe(states, actions, n);
    var t := Unreaped(states[n], c);
    var u := Unreaped(states[n], d);
    assert Owner(states[n], u);
  }

  /** In every interleaving two children are alive only if the last wait for one of them failed. */
  lemma OneChildAlive(states: seq<State>, actions: seq<Action>, n: nat, c: nat, d: nat)
    requires IsRun(states, actions) && n <= |actions|
    requires Living(states[n], c) && Living(states[n], d) && c != d
    ensures states[n].children[c].abandoned || states[n].children[d].abandoned
  {
    if Due(states[n], c) && Due(states[n], d) { OneChildDue(states, actions, n, c, d); }
  }

  lemma Unreaped(s: State, c: nat) returns (t: nat)
    requires Safe(s) && Due(s, c)
    ensures Tends(s, t, c) && s.busy && forall u: nat :: Owner(s, u) ==> u == t
  {
    t :| Tends(s, t, c);
    assert Owner(s, t);
  }

  /** The slot is released, taken and used for a spawn only when every child so far has been reaped or
      its last wait has failed. */
  lemma FreedOnlyAfterReaping(states: seq<State>, actions: seq<Action>, n: nat, c: nat)
    requires IsRun(states, actions) && n < |actions|
    requires actions[n].Release? || actions[n].Take? || actions[n].Spawn?
    requires c < |states[n].children|
    ensures states[n].children[c].life == Reaped || states[n].children[c].abandoned
  {
    AlwaysSafe(states, actions, n);
    var s := states[n];
    if Due(s, c) {
      var t := Unreaped(s, c);
      if !actions[n].Take? { assert Owner(s, actions[n].t); }
      assert false;
    }
  }

  /** A last wait fails only for a child that was killed before. */
  lemma AbandonedAfterKill(states: seq<State>, actions: seq<Action>, n: nat)
    requires IsRun(states, actions) && n < |actions| && actions[n].LastWaitFails?
    ensures states[n].children[states[n].threads[actions[n].t].pc.child].killedAt.Some?
  {
    AlwaysInTime(states, actions, n);
    assert Tends(states[n], actions[n].t, states[n].threads[actions[n].t].pc.child);
  }

  /** `acquire` gives up only with the gate's mutex held and the gate busy, after its deadline. */
  lemma RefusedOnlyWhenBusy(states: seq<State>, actions: seq<Action>, n: nat, t: nat)
    requires IsRun(states, actions) && n < |actions|
    requires !IsAt(states[n], t, Refused) && IsAt(states[n + 1], t, Refused)
    ensures states[n].busy && states[n].mutex == Some(t) && states[n].now >= states[n].threads[t].deadline
    ensures exists u: nat :: Owner(states[n], u)
  {
    AlwaysSafe(states, actions, n);
    RefusedStep(states[n], actions[n], t);
  }

  lemma RefusedStep(s: State, a: Action, t: nat)
    requires Enabled(s, a) && MutexIsChecker(s)
    requires !IsAt(s, t, Refused) && IsAt(Step(s, a), t, Refused)
    ensures s.busy && s.mutex == Some(t) && s.now >= s.threads[t].deadline
  {
    assert a == GiveUp(t);
  }

  /** No waiter is stranded: while a thread sleeps the slot has an owner, or a notification is due that
      will wake it. */
  lemma SleepersAreWoken(states: seq<State>, actions: seq<Action>, n: nat, t: nat)
    requires IsRun(states, actions) && n <= |actions| && IsAt(states[n], t, Asleep)
    ensures (exists u: nat :: Owner(states[n], u))
            || exists u: nat :: Enabled(states[n], Notify(u)) && IsAt(Step(states[n], Notify(u)), t, Locking)
  {
    AlwaysSafe(states, actions, n);
    var s := states[n];
    if !s.busy {
      var u: nat :| IsAt(s, u, Notifying);
      assert Enabled(s, Notify(u)) && IsAt(Step(s, Notify(u)), t, Locking);
    }
  }

  // ------------------------------------------------------------ what is done when

  /** Nobody stopped waiting for the child, or killed it, before its time. */
  predicate ChildInTime(child: Child) {
    && (child.givenUpAt.Some? ==>
          child.job.session || child.waitErred || child.givenUpAt.value >= child.startedAt + child.job.timeout)
    && (child.killedAt.Some? ==>
          child.givenUpAt.Some?
          && (child.graceErred || child.killedAt.value >= child.givenUpAt.value + Grace(child.job)))
  }

  /** Where a thread is agrees with what its child has been through. */
  predicate ThreadInTime(now: nat, thread: Thread, child: Child) {
    && child.job == thread.job
    && (thread.pc.Waiting? ==> child.givenUpAt.None? && child.killedAt.None?)
    && (thread.pc.Handed? ==> child.givenUpAt.Some? && child.givenUpAt.value <= now && child.killedAt.None?)
    && (thread.pc.InGrace? ==>
          child.givenUpAt.Some? && thread.pc.until >= child.givenUpAt.value + Grace(child.job) && child.killedAt.None?)
    && (thread.pc.Killing? ==>
          child.givenUpAt.Some? && (child.graceErred || now >= child.givenUpAt.value + Grace(child.job)))
    && (thread.pc.Reaping? ==> child.killedAt.Some?)
  }

  ghost predicate InTime(s: State) {
    && (forall c :: 0 <= c < |s.children| ==> ChildInTime(s.children[c]))
    && (forall t: nat, c: nat :: Tends(s, t, c) && c < |s.children| ==>
          ThreadInTime(s.now, s.threads[t], s.children[c]))
  }

  lemma InTimeAfter(s: State, a: Action)
    requires InTime(s) && TendedAreThere(s) && OneOwner(s) && Enabled(s, a)
    ensures InTime(Step(s, a))
  {
    ChildrenInTime(s, a);
    ThreadsInTime(s, a);
  }

  lemma ChildrenInTime(s: State, a: Action)
    requires InTime(s) && TendedAreThere(s) && Enabled(s, a)
    ensures forall c :: 0 <= c < |Step(s, a).children| ==> ChildInTime(Step(s, a).children[c])
  {
    match a
    case Reap(t) => assert Tends(s, t, s.threads[t].pc.child);
    case StopWaiting(t, _, _) => assert Tends(s, t, s.threads[t].pc.child);
    case GraceOver(t, _) => assert Tends(s, t, s.threads[t].pc.child);
    case Kill(t) => assert Tends(s, t, s.threads[t].pc.child);
    case _ =>
  }

  lemma ThreadsInTime(s: State, a: Action)
    requires InTime(s) && TendedAreThere(s) && OneOwner(s) && Enabled(s, a)
    ensures var u := Step(s, a);
      forall t: nat, c: nat :: Tends(u, t, c) && c < |u.children| ==> ThreadInTime(u.now, u.threads[t], u.children[c])
  {
    var u := Step(s, a);
    forall t: nat, c: nat | Tends(u, t, c) && c < |u.children|
      ensures ThreadInTime(u.now, u.threads[t], u.children[c])
    {
      ThreadAfter(s, a, t, c);
    }
  }

  lemma ThreadAfter(s: State, a: Action, t: nat, c: nat)
    requires InTime(s) && TendedAreThere(s) && OneOwner(s) && Enabled(s, a)
    requires Tends(Step(s, a), t, c) && c < |Step(s, a).children|
    ensures ThreadInTime(Step(s, a).now, Step(s, a).threads[t], Step(s, a).children[c])
  {
    match a
    case Spawn(x) => OnlyOwner(s, a, x, t);
    case Reap(x) => OnlyOwner(s, a, x, t);
    case StopWaiting(x, _, helper) =>
      assert Owner(s, x) && Tends(s, x, s.threads[x].pc.child);
      assert t == x || t == helper || Owner(s, t);
    case StartGrace(x) => OwnersThreadAfter(s, a, x, t, c);
    case GraceOver(x, _) => OwnersThreadAfter(s, a, x, t, c);
    case Kill(x) => OwnersThreadAfter(s, a, x, t, c);
    case _ => assert Tends(s, t, c);
  }

  lemma OwnersThreadAfter(s: State, a: Action, x: nat, t: nat, c: nat)
    requires InTime(s) && OneOwner(s) && Enabled(s, a)
    requires a == StartGrace(x) || a == Kill(x) || (a.GraceOver? && a.t == x)
    requires Tends(Step(s, a), t, c) && c < |Step(s, a).children|
    ensures ThreadInTime(Step(s, a).now, Step(s, a).threads[t], Step(s, a).children[c])
  {
    OnlyOwner(s, a, x, t);
    assert Tends(s, t, c);
  }

  /** The thread that moves a child along is the only one tending any. */
  lemma OnlyOwner(s: State, a: Action, x: nat, t: nat)
    requires OneOwner(s) && Enabled(s, a) && Owner(s, x) && !a.StopWaiting?
    requires t in Step(s, a).threads && HasChild(Step(s, a).threads[t].pc)
    ensures t == x
  {
    assert t == x || Owner(s, t);
  }

  lemma {:induction false} AlwaysInTime(states: seq<State>, actions: seq<Action>, n: nat)
    requires IsRun(states, actions) && n <= |actions|
    ensures InTime(states[n])
  {
    if n > 0 {
      AlwaysInTime(states, actions, n - 1);
      AlwaysSafe(states, actions, n - 1);
      InTimeAfter(states[n - 1], actions[n - 1]);
    }
  }

  /** No child is killed before its caller's timeout and then its whole grace are over (a session's child
      has at least two seconds once the session is dropped), unless waiting for it failed. */
  lemma KilledOnlyAfterGrace(states: seq<State>, actions: seq<Action>, n: nat, c: nat)
    requires IsRun(states, actions) && n <= |actions| && c < |states[n].children|
    requires states[n].children[c].killedAt.Some? && !states[n].children[c].graceErred
    ensures var child := states[n].children[c];
      && child.givenUpAt.Some? && child.killedAt.value >= child.givenUpAt.value + Grace(child.job)
      && (child.job.session ==> child.killedAt.value >= child.givenUpAt.value + SESSION_EXIT_GRACE)
      && (!child.job.session && !child.waitErred ==>
            child.killedAt.value >= child.startedAt + child.job.timeout + child.job.killGrace)
  {
    AlwaysInTime(states, actions, n);
    assert ChildInTime(states[n].children[c]);
  }

  /** A kill is only ever aimed at a child that has not been reaped, whose process id is still its own. */
  lemma KillsAreAimed(states: seq<State>, actions: seq<Action>, n: nat)
    requires IsRun(states, actions) && n < |actions| && actions[n].Kill?
    ensures var c := states[n].threads[actions[n].t].pc.child; states[n].children[c].life != Reaped
  {
    AlwaysSafe(states, actions, n);
    assert Tends(states[n], actions[n].t, states[n].threads[actions[n].t].pc.child);
  }

  // ------------------------------------------- what a failing last wait breaks

  lemma Extend(states: seq<State>, actions: seq<Action>, a: Action) returns (states': seq<State>, actions': seq<Action>)
    requires IsRun(states, actions) && Enabled(states[|actions|], a)
    ensures IsRun(states', actions') && actions' == actions + [a]
    ensures states'[|actions'|] == Step(states[|actions|], a)
  {
    states', actions' := states + [Step(states[|actions|], a)], actions + [a];
  }

  lemma {:induction false} FreeId(taken: set<nat>) returns (t: nat)
    ensures forall x :: x in taken ==> x < t
  {
    t := 0;
    if taken != {} {
      var x :| x in taken;
      var below := FreeId(taken - {x});
      t := if x >= below then x + 1 else below;
      forall y | y in taken ensures y < t { assert y == x || y in taken - {x}; }
    }
  }

  /** A run that goes on from this one and ends with two children alive. */
  ghost predicate Overlaps(actions: seq<Action>, states': seq<State>, actions': seq<Action>) {
    && IsRun(states', actions') && actions <= actions'
    && exists c: nat, d: nat :: c != d && Living(states'[|actions'|], c) && Living(states'[|actions'|], d)
  }

  /** With the slot in hand, a spawn puts a second child beside one that is alive. */
  lemma SpawnBeside(states: seq<State>, actions: seq<Action>, c: nat, t: nat)
    returns (states': seq<State>, actions': seq<Action>)
    requires IsRun(states, actions) && Living(states[|actions|], c)
    requires t in states[|actions|].threads && states[|actions|].threads[t].pc.Starting?
    ensures Overlaps(actions, states', actions')
  {
    states', actions' := Extend(states, actions, Spawn(t));
    var d := |states[|actions|].children|;
    assert c != d && Living(states'[|actions'|], c) && Living(states'[|actions'|], d);
  }

  /** A free gate is taken by whoever is checking it, or by a new caller. */
  lemma TakeFree(states: seq<State>, actions: seq<Action>, c: nat)
    returns (states': seq<State>, actions': seq<Action>)
    requires IsRun(states, actions) && Living(states[|actions|], c) && !states[|actions|].busy
    ensures Overlaps(actions, states', actions')
  {
    var s := states[|actions|];
    AlwaysSafe(states, actions, |actions|);
    states', actions' := states, actions;
    var t;
    if s.mutex.Some? {
      t := s.mutex.value;
      assert IsAt(s, t, Checking);
    } else {
      t := FreeId(s.threads.Keys);
      states', actions' := Extend(states', actions', Begin(t, Job(false, 0, 0, 0)));
      states', actions' := Extend(states', actions', Lock(t));
    }
    states', actions' := Extend(states', actions', Take(t));
    states', actions' := SpawnBeside(states', actions', c, t);
  }

  /** The owner that is about to release does, once the mutex is free. */
  lemma ReleaseThenTake(states: seq<State>, actions: seq<Action>, c: nat, t: nat)
    returns (states': seq<State>, actions': seq<Action>)
    requires IsRun(states, actions) && Living(states[|actions|], c) && IsAt(states[|actions|], t, Dropping)
    ensures Overlaps(actions, states', actions')
  {
    var s := states[|actions|];
    AlwaysSafe(states, actions, |actions|);
    assert Owner(s, t);
    states', actions' := states, actions;
    if s.mutex.Some? {
      var u := s.mutex.value;
      assert IsAt(s, u, Checking);
      states', actions' := Extend(states', actions', if s.now < s.threads[u].deadline then Sleep(u) else GiveUp(u));
    }
    states', actions' := Extend(states', actions', Release(t));
    states', actions' := TakeFree(states', actions', c);
  }

  /** An owner in its last wait reaps its child, which has exited. */
  lemma ReapThenRelease(states: seq<State>, actions: seq<Action>, c: nat, d: nat, t: nat)
    returns (states': seq<State>, actions': seq<Action>)
    requires IsRun(states, actions) && Living(states[|actions|], c)
    requires Tends(states[|actions|], t, d) && CanReap(states[|actions|].threads[t])
    requires d < |states[|actions|].children| && states[|actions|].children[d].life == Exited
    ensures Overlaps(actions, states', actions')
  {
    states', actions' := Extend(states, actions, Reap(t));
    states', actions' := ReleaseThenTake(states', actions', c, t);
  }

  lemma KillThenReap(states: seq<State>, actions: seq<Action>, c: nat, d: nat, t: nat)
    returns (states': seq<State>, actions': seq<Action>)
    requires IsRun(states, actions) && Living(states[|actions|], c) && IsAt(states[|actions|], t, Killing(d))
    requires d < |states[|actions|].children| && states[|actions|].children[d].life == Exited
    ensures Overlaps(actions, states', actions')
  {
    states', actions' := Extend(states, actions, Kill(t));
    states', actions' := ReapThenRelease(states', actions', c, d, t);
  }

  lemma WaitThenReap(states: seq<State>, actions: seq<Action>, c: nat, d: nat, t: nat)
    returns (states': seq<State>, actions': seq<Action>)
    requires IsRun(states, actions) && Living(states[|actions|], c) && IsAt(states[|actions|], t, Handed(d))
    requires d < |states[|actions|].children| && states[|actions|].children[d].life == Exited
    ensures Overlaps(actions, states', actions')
  {
    states', actions' := Extend(states, actions, StartGrace(t));
    states', actions' := ReapThenRelease(states', actions', c, d, t);
  }

  /** A caller or a session gives up on a child that has exited; the teardown then reaps it. */
  lemma StopThenReap(states: seq<State>, actions: seq<Action>, c: nat, d: nat, t: nat)
    returns (states': seq<State>, actions': seq<Action>)
    requires IsRun(states, actions) && Living(states[|actions|], c) && IsAt(states[|actions|], t, Waiting(d))
    requires d < |states[|actions|].children| && states[|actions|].children[d].life == Exited
    ensures Overlaps(actions, states', actions')
  {
    var s := states[|actions|];
    var helper := FreeId(s.threads.Keys);
    states', actions' := Extend(states, actions, StopWaiting(t, true, helper));
    if Grace(s.threads[t].job) == 0 {
      states', actions' := KillThenReap(states', actions', c, d, t);
    } else {
      states', actions' := WaitThenReap(states', actions', c, d, helper);
    }
  }

  /** The owner lets go of a child that has exited, wherever it is. */
  lemma FinishOwner(states: seq<State>, actions: seq<Action>, c: nat, d: nat, t: nat)
    returns (states': seq<State>, actions': seq<Action>)
    requires IsRun(states, actions) && Living(states[|actions|], c) && Tends(states[|actions|], t, d)
    requires d < |states[|actions|].children| && states[|actions|].children[d].life == Exited
    ensures Overlaps(actions, states', actions')
  {
    match states[|actions|].threads[t].pc
    case Waiting(_) => states', actions' := StopThenReap(states, actions, c, d, t);
    case Handed(_) => states', actions' := WaitThenReap(states, actions, c, d, t);
    case Killing(_) => states', actions' := KillThenReap(states, actions, c, d, t);
    case _ => states', actions' := ReapThenRelease(states, actions, c, d, t);
  }

  /** While an abandoned child is alive, every run can go on to a state with two children alive: with
      `OneChildAlive`, that is exactly when the promise of one child can be broken. */
  lemma AbandonedOverlaps(states: seq<State>, actions: seq<Action>, c: nat)
    returns (states': seq<State>, actions': seq<Action>)
    requires IsRun(states, actions) && Living(states[|actions|], c) && states[|actions|].children[c].abandoned
    ensures Overlaps(actions, states', actions')
  {
    var s := states[|actions|];
    AlwaysSafe(states, actions, |actions|);
    if !s.busy {
      states', actions' := TakeFree(states, actions, c);
    } else {
      var t: nat :| Owner(s, t);
      if s.threads[t].pc.Starting? {
        states', actions' := SpawnBeside(states, actions, c, t);
      } else if s.threads[t].pc.Dropping? {
        states', actions' := ReleaseThenTake(states, actions, c, t);
      } else {
        var d := s.threads[t].pc.child;
        assert Tends(s, t, d) && Due(s, d);
        states', actions' := states, actions;
        if s.children[d].life == Alive {
          assert c != d && Living(s, c) && Living(s, d);
        } else {
          states', actions' := FinishOwner(states, actions, c, d, t);
        }
      }
    }
  }

  lemma ChildSpawned(job: Job) returns (states: seq<State>, actions: seq<Action>)
    requires job == Job(false, 0, 0, 0)
    ensures IsRun(states, actions)
    ensures var s := states[|actions|];
      && s.mutex.None? && s.threads == map[0 := Thread(Waiting(0), job, 0)] && |s.children| == 1 && Living(s, 0)
      && s.children[0].startedAt == 0
  {
    states, actions := [Initial], [];
    states, actions := Extend(states, actions, Begin(0, job));
    states, actions := Extend(states, actions, Lock(0));
    states, actions := Extend(states, actions, Take(0));
    states, actions := Extend(states, actions, Spawn(0));
  }

  /** It does happen: a caller's child is killed at its deadline, the last wait fails while it is still
      alive, and the next caller's child runs beside it. */
  lemma TwoAliveAfterFailedWait() returns (states: seq<State>, actions: seq<Action>)
    ensures Overlaps([], states, actions)
  {
    states, actions := ChildSpawned(Job(false, 0, 0, 0));
    states, actions := Extend(states, actions, StopWaiting(0, false, 1));
    states, actions := Extend(states, actions, Kill(0));
    states, actions := Extend(states, actions, LastWaitFails(0));
    states, actions := AbandonedOverlaps(states, actions, 0);
  }
}
