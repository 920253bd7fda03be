/** Nothing that can happen to the connections file keeps a later call from its commit, and what is committed
    is what the call was asked to change. */
module ConnectionsProgress {
  import opened Text
  import opened ConnectionsFile

  // --------------------------------------------------------- what is committed

  /** The change the call carries on its way to the rename. */
  function Carried(pc: Pc): Option<Mutation> {
    match pc
    case Edited(m, _) => Some(m)
    case Writing(m, _, _) => Some(m)
    case Written(m, _) => Some(m)
    case Synced(m, _) => Some(m)
    case _ => None
  }

  lemma CarriedBefore(c: Codec, s: State, a: Action, p: nat)
    requires Enabled(s, a) && p in Step(c, s, a).calls && Carried(Step(c, s, a).calls[p].pc).Some?
    ensures a == Edit(p, Carried(Step(c, s, a).calls[p].pc).value)
            || (p in s.calls && Carried(s.calls[p].pc) == Carried(Step(c, s, a).calls[p].pc))
  {
  }

  lemma {:induction false} CarriedIsEdit(c: Codec, states: seq<State>, actions: seq<Action>, n: nat, p: nat)
    returns (k: nat)
    requires IsRun(c, states, actions) && n <= |actions|
    requires p in states[n].calls && Carried(states[n].calls[p].pc).Some?
    ensures k < n && actions[k] == Edit(p, Carried(states[n].calls[p].pc).value)
  {
    CarriedBefore(c, states[n - 1], actions[n - 1], p);
    if actions[n - 1] == Edit(p, Carried(states[n].calls[p].pc).value) {
      k := n - 1;
    } else {
      k := CarriedIsEdit(c, states, actions, n - 1, p);
    }
  }

  lemma EntryBefore(c: Codec, s: State, a: Action, i: nat)
    requires Enabled(s, a) && i < |Step(c, s, a).log|
    ensures (i < |s.log| && Step(c, s, a).log[i] == s.log[i])
            || (a.Rename? && i == |s.log| && Step(c, s, a).log[i].call == a.p
                && Carried(s.calls[a.p].pc) == Some(Step(c, s, a).log[i].mutation))
  {
  }

  /** What is committed is what its call was asked to change. */
  lemma {:induction false} CommitIsTheEdit(c: Codec, states: seq<State>, actions: seq<Action>, n: nat, i: nat)
    requires IsRun(c, states, actions) && n <= |actions| && i < |states[n].log|
    ensures states[n].log[i] in states[0].log
            || exists k :: 0 <= k < n && actions[k] == Edit(states[n].log[i].call, states[n].log[i].mutation)
  {
    if n > 0 {
      var s, a := states[n - 1], actions[n - 1];
      EntryBefore(c, s, a, i);
      if i < |s.log| && states[n].log[i] == s.log[i] {
        CommitIsTheEdit(c, states, actions, n - 1, i);
      } else {
        var k := CarriedIsEdit(c, states, actions, n - 1, a.p);
      }
    }
  }

  // ------------------------------------------------------------------ progress

  predicate At(s: State, p: nat, pc: Pc) {
    p in s.calls && s.calls[p].pc == pc && s.calls[p].writer && s.lock == Some(p)
  }

  /** The run goes on until the call has returned Ok, with its change committed on top of what was there, and
      the lock free. */
  ghost predicate Commits(c: Codec, states: seq<State>, actions: seq<Action>, states': seq<State>,
                          actions': seq<Action>, p: nat, m: Mutation)
    requires |states| == |actions| + 1
  {
    && IsRun(c, states', actions') && actions <= actions'
    && var s, t := states[|actions|], states'[|actions'|];
       && p in t.calls && t.calls[p].pc == Returned(Ok) && t.lock.None?
       && |t.log| == |s.log| + 1 && t.log[..|s.log|] == s.log
       && t.log[|s.log|].call == p && t.log[|s.log|].mutation == m
  }

  lemma FromSynced(c: Codec, states: seq<State>, actions: seq<Action>, p: nat, m: Mutation, i: nat)
    returns (states': seq<State>, actions': seq<Action>)
    requires IsRun(c, states, actions) && At(states[|actions|], p, Synced(m, i))
    ensures Commits(c, states, actions, states', actions', p, m)
  {
    states', actions' := Extend(c, states, actions, Rename(p));
    states', actions' := Extend(c, states', actions', Chmod(p, true));
    states', actions' := Extend(c, states', actions', Unlock(p));
  }

  lemma FromWriting(c: Codec, states: seq<State>, actions: seq<Action>, p: nat, m: Mutation, i: nat, left: Bytes)
    returns (states': seq<State>, actions': seq<Action>)
    requires IsRun(c, states, actions) && At(states[|actions|], p, Writing(m, i, left))
    requires i < |states[|actions|].inodes|
    ensures Commits(c, states, actions, states', actions', p, m)
  {
    assert left[|left|..] == [];
    states', actions' := Extend(c, states, actions, Write(p, |left|));
    states', actions' := Extend(c, states', actions', WriteDone(p));
    states', actions' := Extend(c, states', actions', Sync(p));
    states', actions' := FromSynced(c, states', actions', p, m, i);
  }

  lemma FromLoaded(c: Codec, states: seq<State>, actions: seq<Action>, p: nat, m: Mutation, file: Connections)
    returns (states': seq<State>, actions': seq<Action>)
    requires IsRun(c, states, actions) && At(states[|actions|], p, Loaded(file)) && !m.Whole?
    ensures Commits(c, states, actions, states', actions', p, m)
  {
    states', actions' := Extend(c, states, actions, Edit(p, m));
    states', actions' := Extend(c, states', actions', Create(p));
    states', actions' := FromWriting(c, states', actions', p, m, |states[|actions|].inodes|, c.enc(Applied(file, m)));
  }

  lemma FromReading(c: Codec, states: seq<State>, actions: seq<Action>, p: nat, m: Mutation)
    returns (states': seq<State>, actions': seq<Action>)
    requires IsRun(c, states, actions) && RoundTrips(c) && !m.Whole?
    requires var s := states[|actions|]; At(s, p, Reading(|s.links|, []))
    ensures Commits(c, states, actions, states', actions', p, m)
  {
    var s := states[|actions|];
    var all := ContentAt(s, |s.links|);
    assert [] + all[..|all|] == all;
    states', actions' := Extend(c, states, actions, ReadPiece(p, |all|));
    AlwaysInv(c, states', actions', |actions'|);
    FinishOk(c, states'[|actions'|], p);
    states', actions' := Extend(c, states', actions', Finish(p));
    var t := states'[|actions'|];
    states', actions' := FromLoaded(c, states', actions', p, m, t.calls[p].pc.file);
  }

  /** With the lock free, a new call commits. */
  lemma FromFree(c: Codec, states: seq<State>, actions: seq<Action>, p: nat, m: Mutation)
    returns (states': seq<State>, actions': seq<Action>)
    requires IsRun(c, states, actions) && RoundTrips(c) && !m.Whole?
    requires states[|actions|].lock.None? && p !in states[|actions|].calls
    ensures Commits(c, states, actions, states', actions', p, m)
  {
    states', actions' := Extend(c, states, actions, Begin(p, true));
    states', actions' := Extend(c, states', actions', Lock(p));
    states', actions' := Extend(c, states', actions', Open(p));
    states', actions' := FromReading(c, states', actions', p, m);
  }

  /** Whoever has the lock can give it up, by going on or by failing, and nothing is committed by that. */
  lemma LockComesFree(c: Codec, states: seq<State>, actions: seq<Action>, q: nat)
    returns (states': seq<State>, actions': seq<Action>)
    requires IsRun(c, states, actions) && RoundTrips(c) && states[|actions|].lock == Some(q)
    ensures IsRun(c, states', actions') && actions <= actions'
    ensures forall k :: |actions| <= k < |actions'| ==>
      actions'[k] == Fail(q) || actions'[k] == Chmod(q, true) || actions'[k] == Unlock(q)
    ensures var s, t := states[|actions|], states'[|actions'|];
      t.lock.None? && t.log == s.log && t.calls.Keys == s.calls.Keys
  {
    AlwaysInv(c, states, actions, |actions|);
    var s := states[|actions|];
    assert Critical(s.calls[q]);
    states', actions' := states, actions;
    if s.calls[q].pc.Renamed? {
      states', actions' := Extend(c, states', actions', Chmod(q, true));
    } else if !s.calls[q].pc.Leaving? {
      states', actions' := Extend(c, states', actions', Fail(q));
    }
    states', actions' := Extend(c, states', actions', Unlock(q));
  }

  /** From every state that any run can reach, whatever has failed, crashed or lost power in it, and whoever
      has the lock, a new call can still make its change: on top of all that is committed. */
  lemma AnyoneGetsThrough(c: Codec, states: seq<State>, actions: seq<Action>, p: nat, m: Mutation)
    returns (states': seq<State>, actions': seq<Action>)
    requires IsRun(c, states, actions) && RoundTrips(c) && !m.Whole? && p !in states[|actions|].calls
    ensures Commits(c, states, actions, states', actions', p, m)
  {
    states', actions' := states, actions;
    var s := states[|actions|];
    if s.lock.Some? { states', actions' := LockComesFree(c, states', actions', s.lock.value); }
    states', actions' := FromFree(c, states', actions', p, m);
  }
}
