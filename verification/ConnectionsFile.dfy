/** The connections file (crates/workshop-providers/src/config.rs): any number of calls, in any number of
    processes, read, change and replace it under an advisory lock while others read it without one.
    Every system call is a step of its own; calls may fail or crash anywhere, and the power may go. */
module ConnectionsFile {
  import opened Text

  type Bytes = seq<bv8>

  datatype CredentialSource = Keyring | File | Env(variable: string) | NoCredential

  datatype Record = Record(local: bool, credential: CredentialSource, allowedHosts: seq<string>, savedAt: nat)

  type Connections = map<string, Record>

  /** What a call changes; `Whole` stands for a file that was there before. */
  datatype Mutation = Put(provider: string, record: Record) | Remove(provider: string) | Whole(file: Connections)

  function Applied(file: Connections, m: Mutation): Connections {
    match m
    case Put(provider, record) => file[provider := record]
    case Remove(provider) => file - {provider}
    case Whole(found) => found
  }

  /** One committed replacement of the file: its call, the turn the call got the lock at, and its change. */
  datatype Entry = Entry(call: nat, turn: nat, mutation: Mutation)

  /** The connections after a sequence of commits. */
  function Fold(log: seq<Entry>): Connections {
    if log == [] then map[] else Applied(Fold(log[..|log| - 1]), log[|log| - 1].mutation)
  }

  /** The file's text: what serialising writes, parsing reads back. */
  datatype Codec = Codec(enc: Connections -> Bytes, dec: Bytes -> Option<Connections>)

  ghost predicate RoundTrips(c: Codec) {
    forall file :: c.dec(c.enc(file)) == Some(file)
  }

  datatype Inode = Inode(content: Bytes, synced: bool)

  datatype Result = Ok | ErrBefore | ErrChmod

  datatype Pc =
    | Begun
    | Locked                                             // to open the file
    | Reading(at: nat, got: Bytes)                       // opened when `at` commits had been made
    | Loaded(file: Connections)
    | Edited(m: Mutation, file: Connections)             // to create the temp file
    | Writing(m: Mutation, inode: nat, left: Bytes)
    | Written(m: Mutation, inode: nat)
    | Synced(m: Mutation, inode: nat)
    | Renamed                                            // to set permissions
    | Leaving(result: Result)                            // to unlock
    | Returned(result: Result)
    | Saw(seen: Option<Connections>)                     // what a read without the lock returned
    | Crashed

  datatype Call = Call(pc: Pc, writer: bool, turn: nat, openedAt: nat)

  /** `links` are the inodes the path has named, the last of them now; `log` says what each holds. */
  datatype State = State(
    inodes: seq<Inode>, links: seq<nat>, log: seq<Entry>, lock: Option<nat>, turns: nat,
    calls: map<nat, Call>)

  /** No file, or one an earlier call has left. */
  function Initial(c: Codec, found: Option<Connections>): State {
    match found
    case None => State([], [], [], None, 0, map[])
    case Some(file) =>
      State([Inode(c.enc(file), true)], [0], [Entry(0, 0, Whole(file))], None, 1,
            map[0 := Call(Returned(Ok), true, 0, 0)])
  }

  datatype Action =
    | Begin(p: nat, writer: bool)
    | Lock(p: nat)
    | Open(p: nat)
    | ReadPiece(p: nat, n: nat)
    | Finish(p: nat)
    | Edit(p: nat, m: Mutation)
    | Create(p: nat)
    | Write(p: nat, n: nat)
    | WriteDone(p: nat)
    | Sync(p: nat)
    | Rename(p: nat)
    | Chmod(p: nat, ok: bool)
    | Fail(p: nat)
    | Unlock(p: nat)
    | Crash(p: nat)
    | PowerLoss(kept: nat, junk: seq<Bytes>)

  function ContentAt(s: State, at: nat): Bytes {
    if 0 < at <= |s.links| && s.links[at - 1] < |s.inodes| then s.inodes[s.links[at - 1]].content else []
  }

  /** Holding the lock. */
  predicate Critical(call: Call) {
    call.writer && !call.pc.Begun? && !call.pc.Returned? && !call.pc.Saw? && !call.pc.Crashed?
  }

  predicate Live(pc: Pc) { !pc.Returned? && !pc.Saw? && !pc.Crashed? }

  /** A call on its way to the rename, at a step that can fail. */
  predicate CanFail(call: Call) {
    Live(call.pc) && !call.pc.Renamed? && !call.pc.Leaving?
  }

  predicate Enabled(s: State, a: Action) {
    match a
    case Begin(p, _) => p !in s.calls
    case Lock(p) => p in s.calls && s.calls[p].pc.Begun? && s.calls[p].writer && s.lock.None?
    case Open(p) => p in s.calls && (s.calls[p].pc.Locked? || (s.calls[p].pc.Begun? && !s.calls[p].writer))
    case ReadPiece(p, n) =>
      && p in s.calls && s.calls[p].pc.Reading?
      && |s.calls[p].pc.got| + n <= |ContentAt(s, s.calls[p].pc.at)|
    case Finish(p) =>
      && p in s.calls && s.calls[p].pc.Reading?
      && |s.calls[p].pc.got| >= |ContentAt(s, s.calls[p].pc.at)|
    case Edit(p, m) => p in s.calls && s.calls[p].pc.Loaded? && !m.Whole?
    case Create(p) => p in s.calls && s.calls[p].pc.Edited?
    case Write(p, n) =>
      p in s.calls && s.calls[p].pc.Writing? && s.calls[p].pc.inode < |s.inodes| && n <= |s.calls[p].pc.left|
    case WriteDone(p) => p in s.calls && s.calls[p].pc.Writing? && s.calls[p].pc.left == []
    case Sync(p) => p in s.calls && s.calls[p].pc.Written? && s.calls[p].pc.inode < |s.inodes|
    case Rename(p) => p in s.calls && s.calls[p].pc.Synced?
    case Chmod(p, _) => p in s.calls && s.calls[p].pc.Renamed?
    case Fail(p) => p in s.calls && CanFail(s.calls[p])
    case Unlock(p) => p in s.calls && s.calls[p].pc.Leaving?
    case Crash(p) => p in s.calls && Live(s.calls[p].pc)
    case PowerLoss(kept, junk) => kept <= |s.links| && |junk| == |s.inodes|
  }

  function Go(s: State, p: nat, pc: Pc): State
    requires p in s.calls
  {
    s.(calls := s.calls[p := s.calls[p].(pc := pc)])
  }

  /** A missing file is an empty one. */
  function Parsed(c: Codec, at: nat, got: Bytes): Option<Connections> {
    if at == 0 then Some(map[]) else c.dec(got)
  }

  /** Data that was never synced may come back as anything. */
  function AfterPowerLoss(inodes: seq<Inode>, junk: seq<Bytes>): seq<Inode>
    requires |junk| == |inodes|
  {
    seq(|inodes|, i requires 0 <= i < |inodes| => if inodes[i].synced then inodes[i] else Inode(junk[i], false))
  }

  function Step(c: Codec, s: State, a: Action): State
    requires Enabled(s, a)
  {
    match a
    case Begin(p, writer) => s.(calls := s.calls[p := Call(Begun, writer, 0, 0)])
    case Lock(p) =>
      s.(lock := Some(p), turns := s.turns + 1, calls := s.calls[p := s.calls[p].(pc := Locked, turn := s.turns)])
    case Open(p) =>
      s.(calls := s.calls[p := s.calls[p].(pc := Reading(|s.links|, []), openedAt := |s.links|)])
    case ReadPiece(p, n) =>
      var (at, got) := (s.calls[p].pc.at, s.calls[p].pc.got);
      Go(s, p, Reading(at, got + ContentAt(s, at)[|got|..|got| + n]))
    case Finish(p) =>
      var file := Parsed(c, s.calls[p].pc.at, s.calls[p].pc.got);
      if !s.calls[p].writer then Go(s, p, Saw(file))
      else if file.Some? then Go(s, p, Loaded(file.value))
      else Go(s, p, Leaving(ErrBefore))
    case Edit(p, m) => Go(s, p, Edited(m, Applied(s.calls[p].pc.file, m)))
    case Create(p) =>
      Go(s.(inodes := s.inodes + [Inode([], false)]), p,
         Writing(s.calls[p].pc.m, |s.inodes|, c.enc(s.calls[p].pc.file)))
    case Write(p, n) =>
      var (m, i, left) := (s.calls[p].pc.m, s.calls[p].pc.inode, s.calls[p].pc.left);
      Go(s.(inodes := s.inodes[i := Inode(s.inodes[i].content + left[..n], false)]), p, Writing(m, i, left[n..]))
    case WriteDone(p) => Go(s, p, Written(s.calls[p].pc.m, s.calls[p].pc.inode))
    case Sync(p) =>
      var i := s.calls[p].pc.inode;
      Go(s.(inodes := s.inodes[i := s.inodes[i].(synced := true)]), p, Synced(s.calls[p].pc.m, i))
    case Rename(p) =>
      var entry := Entry(p, s.calls[p].turn, s.calls[p].pc.m);
      Go(s.(links := s.links + [s.calls[p].pc.inode], log := s.log + [entry]), p, Renamed)
    case Chmod(p, ok) => Go(s, p, Leaving(if ok then Ok else ErrChmod))
    case Fail(p) => Go(s, p, if Critical(s.calls[p]) then Leaving(ErrBefore) else Returned(ErrBefore))
    case Unlock(p) => Go(s.(lock := None), p, Returned(s.calls[p].pc.result))
    case Crash(p) => Go(if Critical(s.calls[p]) then s.(lock := None) else s, p, Crashed)
    case PowerLoss(kept, junk) =>
      s.(inodes := AfterPowerLoss(s.inodes, junk), links := s.links[..kept],
         log := if kept <= |s.log| then s.log[..kept] else s.log, lock := None,
         calls := map p | p in s.calls :: if Live(s.calls[p].pc) then s.calls[p].(pc := Crashed) else s.calls[p])
  }

  ghost predicate IsRun(c: Codec, states: seq<State>, actions: seq<Action>) {
    && |states| == |actions| + 1 && (exists found :: states[0] == Initial(c, found))
    && forall i :: 0 <= i < |actions| ==>
         Enabled(states[i], actions[i]) && states[i + 1] == Step(c, states[i], actions[i])
  }

  // ------------------------------------------------------------------- invariants

  /** What the path has named: each a whole, synced encoding of the commits up to it. */
  predicate LinksOk(c: Codec, s: State) {
    && |s.links| == |s.log|
    && forall i :: 0 <= i < |s.links| ==>
         s.links[i] < |s.inodes| && s.inodes[s.links[i]] == Inode(c.enc(Fold(s.log[..i + 1])), true)
  }

  ghost predicate LockOk(s: State) {
    forall p: nat :: p in s.calls && Critical(s.calls[p]) <==> s.lock == Some(p)
  }

  predicate Fresh(s: State, i: nat) { i < |s.inodes| && i !in s.links }

  /** How far a call that holds the lock has got. */
  predicate WriterOk(c: Codec, s: State, pc: Pc) {
    match pc
    case Reading(at, got) => at == |s.links| && got <= ContentAt(s, at)
    case Loaded(file) => file == Fold(s.log)
    case Edited(m, file) => file == Applied(Fold(s.log), m)
    case Writing(m, i, left) => Fresh(s, i) && s.inodes[i].content + left == c.enc(Applied(Fold(s.log), m))
    case Written(m, i) => Fresh(s, i) && s.inodes[i].content == c.enc(Applied(Fold(s.log), m))
    case Synced(m, i) => Fresh(s, i) && s.inodes[i] == Inode(c.enc(Applied(Fold(s.log), m)), true)
    case _ => true
  }

  predicate ReaderOk(s: State, call: Call) {
    match call.pc
    case Reading(at, got) => at == call.openedAt <= |s.links| && got <= ContentAt(s, at)
    case Loaded(_) => call.writer
    case Edited(_, _) => call.writer
    case Writing(_, _, _) => call.writer
    case Written(_, _) => call.writer
    case Synced(_, _) => call.writer
    case Renamed => call.writer
    case Leaving(_) => call.writer
    case Locked => call.writer
    case _ => true
  }

  ghost predicate CallsOk(c: Codec, s: State) {
    forall p: nat :: p in s.calls ==>
      ReaderOk(s, s.calls[p]) && (Critical(s.calls[p]) ==> WriterOk(c, s, s.calls[p].pc))
  }

  ghost predicate Inv(c: Codec, s: State) {
    LinksOk(c, s) && LockOk(s) && CallsOk(c, s)
  }

  lemma FoldMore(log: seq<Entry>, e: Entry)
    ensures Fold(log + [e]) == Applied(Fold(log), e.mutation)
  {
    assert (log + [e])[..|log|] == log;
  }

  /** Everything the path has named stays as it was. */
  predicate Sealed(s: State, u: State) {
    && |s.links| <= |u.links| && (forall i :: 0 <= i < |s.links| ==> u.links[i] == s.links[i])
    && forall i :: 0 <= i < |s.links| ==>
         s.links[i] < |s.inodes| && s.links[i] < |u.inodes| && u.inodes[s.links[i]] == s.inodes[s.links[i]]
  }

  lemma SealedContent(s: State, u: State, at: nat)
    requires Sealed(s, u) && at <= |s.links|
    ensures ContentAt(u, at) == ContentAt(s, at)
  {
  }

  /** Only a rename and a power loss change what the path names; nothing rewrites what it has named. */
  lemma StepSeals(c: Codec, s: State, a: Action)
    requires Inv(c, s) && Enabled(s, a) && !a.PowerLoss?
    ensures Sealed(s, Step(c, s, a))
  {
    match a
    case Write(p, _) => CriticalFresh(c, s, p);
    case Sync(p) => CriticalFresh(c, s, p);
    case _ =>
  }

  lemma CriticalFresh(c: Codec, s: State, p: nat)
    requires Inv(c, s) && p in s.calls && (s.calls[p].pc.Writing? || s.calls[p].pc.Written? || s.calls[p].pc.Synced?)
    ensures Critical(s.calls[p]) && Fresh(s, s.calls[p].pc.inode)
  {
  }

  lemma LinksAfter(c: Codec, s: State, a: Action)
    requires Inv(c, s) && Enabled(s, a) && !a.PowerLoss?
    ensures LinksOk(c, Step(c, s, a))
  {
    StepSeals(c, s, a);
    var u := Step(c, s, a);
    if a.Rename? {
      var e := u.log[|s.log|];
      FoldMore(s.log, e);
      CriticalFresh(c, s, a.p);
      forall i | 0 <= i < |u.links|
        ensures u.links[i] < |u.inodes| && u.inodes[u.links[i]] == Inode(c.enc(Fold(u.log[..i + 1])), true)
      {
        if i < |s.links| { assert u.log[..i + 1] == s.log[..i + 1]; } else { assert u.log[..i + 1] == s.log + [e]; }
      }
    }
  }

  lemma LinksAfterPowerLoss(c: Codec, s: State, kept: nat, junk: seq<Bytes>)
    requires LinksOk(c, s) && kept <= |s.links| && |junk| == |s.inodes|
    ensures LinksOk(c, Step(c, s, PowerLoss(kept, junk)))
  {
    var u := Step(c, s, PowerLoss(kept, junk));
    forall i | 0 <= i < |u.links|
      ensures u.links[i] < |u.inodes| && u.inodes[u.links[i]] == Inode(c.enc(Fold(u.log[..i + 1])), true)
    {
      assert u.log[..i + 1] == s.log[..i + 1];
    }
  }

  /** A step that gives the lock up, and one that takes it. */
  predicate Releases(s: State, a: Action) {
    a.Unlock? || (a.Crash? && a.p in s.calls && Critical(s.calls[a.p]))
  }

  /** In any other step the same calls are between taking and giving up the lock. */
  lemma CriticalKept(c: Codec, s: State, a: Action, p: nat)
    requires Enabled(s, a) && !a.PowerLoss? && !a.Lock? && !Releases(s, a)
    requires forall q: nat :: q in s.calls ==> ReaderOk(s, s.calls[q])
    ensures var u := Step(c, s, a);
      (p in u.calls && Critical(u.calls[p]) <==> p in s.calls && Critical(s.calls[p])) && u.lock == s.lock
  {
  }

  lemma LockReleased(c: Codec, s: State, a: Action)
    requires LockOk(s) && Enabled(s, a) && Releases(s, a)
    requires forall p: nat :: p in s.calls ==> ReaderOk(s, s.calls[p])
    ensures LockOk(Step(c, s, a))
  {
    assert Critical(s.calls[a.p]);
  }

  lemma LockTaken(c: Codec, s: State, a: Action)
    requires LockOk(s) && Enabled(s, a) && (a.Lock? || a.PowerLoss?)
    ensures LockOk(Step(c, s, a))
  {
  }

  lemma LockAfter(c: Codec, s: State, a: Action)
    requires LockOk(s) && Enabled(s, a)
    requires forall p: nat :: p in s.calls ==> ReaderOk(s, s.calls[p])
    ensures LockOk(Step(c, s, a))
  {
    if Releases(s, a) {
      LockReleased(c, s, a);
    } else if a.Lock? || a.PowerLoss? {
      LockTaken(c, s, a);
    } else {
      forall p: nat { CriticalKept(c, s, a, p); }
    }
  }

  /** Calls that do not move in this step. */
  lemma OtherReader(c: Codec, s: State, a: Action, p: nat)
    requires Inv(c, s) && Enabled(s, a) && !a.PowerLoss? && p in s.calls && a.p != p
    ensures Step(c, s, a).calls[p] == s.calls[p] && ReaderOk(Step(c, s, a), s.calls[p])
  {
    StepSeals(c, s, a);
    if s.calls[p].pc.Reading? { SealedContent(s, Step(c, s, a), s.calls[p].pc.at); }
  }

  /** A call that holds the lock has its temp file to itself. */
  lemma OtherWriter(c: Codec, s: State, a: Action, p: nat)
    requires Inv(c, s) && Enabled(s, a) && !a.PowerLoss? && p in s.calls && a.p != p && Critical(s.calls[p])
    ensures WriterOk(c, Step(c, s, a), s.calls[p].pc)
  {
    var u := Step(c, s, a);
    assert a.p in s.calls ==> !Critical(s.calls[a.p]);
    assert !a.Rename? && !a.Create? && !a.Write? && !a.Sync?;
    assert u.links == s.links && u.log == s.log && u.inodes == s.inodes;
  }

  lemma OthersAfter(c: Codec, s: State, a: Action, p: nat)
    requires Inv(c, s) && Enabled(s, a) && !a.PowerLoss? && p in s.calls && a.p != p
    ensures CallOk(c, Step(c, s, a), p)
  {
    OtherReader(c, s, a, p);
    if Critical(s.calls[p]) { OtherWriter(c, s, a, p); }
  }

  predicate CallOk(c: Codec, s: State, p: nat) {
    p in s.calls ==> ReaderOk(s, s.calls[p]) && (Critical(s.calls[p]) ==> WriterOk(c, s, s.calls[p].pc))
  }

  lemma FinishOk(c: Codec, s: State, p: nat)
    requires Inv(c, s) && RoundTrips(c) && Enabled(s, Finish(p))
    ensures CallOk(c, Step(c, s, Finish(p)), p)
    ensures Parsed(c, s.calls[p].pc.at, s.calls[p].pc.got) == Some(Fold(s.log[..s.calls[p].openedAt]))
  {
    var at := s.calls[p].pc.at;
    assert s.calls[p].pc.got == ContentAt(s, at);
    if at > 0 { assert s.log[..at - 1 + 1] == s.log[..at]; }
    if Critical(s.calls[p]) { assert s.log[..at] == s.log; }
  }

  lemma ReadPieceOk(c: Codec, s: State, p: nat, n: nat)
    requires Inv(c, s) && Enabled(s, ReadPiece(p, n))
    ensures CallOk(c, Step(c, s, ReadPiece(p, n)), p)
  {
    var (all, got) := (ContentAt(s, s.calls[p].pc.at), s.calls[p].pc.got);
    assert got + all[|got|..|got| + n] == all[..|got| + n];
    SealedContent(s, Step(c, s, ReadPiece(p, n)), s.calls[p].pc.at);
  }

  lemma WriteOk(c: Codec, s: State, p: nat, n: nat)
    requires Inv(c, s) && Enabled(s, Write(p, n))
    ensures CallOk(c, Step(c, s, Write(p, n)), p)
  {
    CriticalFresh(c, s, p);
    var i, left := s.calls[p].pc.inode, s.calls[p].pc.left;
    assert (s.inodes[i].content + left[..n]) + left[n..] == s.inodes[i].content + (left[..n] + left[n..]);
    assert left[..n] + left[n..] == left;
  }

  lemma CreateOk(c: Codec, s: State, p: nat)
    requires Inv(c, s) && Enabled(s, Create(p))
    ensures CallOk(c, Step(c, s, Create(p)), p)
  {
    assert [] + c.enc(s.calls[p].pc.file) == c.enc(s.calls[p].pc.file);
  }

  lemma WriteDoneOk(c: Codec, s: State, p: nat)
    requires Inv(c, s) && Enabled(s, WriteDone(p))
    ensures CallOk(c, Step(c, s, WriteDone(p)), p)
  {
    CriticalFresh(c, s, p);
    var i := s.calls[p].pc.inode;
    assert s.inodes[i].content + [] == s.inodes[i].content;
  }

  lemma MoverOk(c: Codec, s: State, a: Action)
    requires Inv(c, s) && RoundTrips(c) && Enabled(s, a) && !a.PowerLoss?
    ensures CallOk(c, Step(c, s, a), a.p)
  {
    match a
    case ReadPiece(p, n) => ReadPieceOk(c, s, p, n);
    case Finish(p) => FinishOk(c, s, p);
    case Write(p, n) => WriteOk(c, s, p, n);
    case WriteDone(p) => WriteDoneOk(c, s, p);
    case Create(p) => CreateOk(c, s, p);
    case Sync(p) => CriticalFresh(c, s, p);
    case _ =>
  }

  lemma StepInv(c: Codec, s: State, a: Action)
    requires Inv(c, s) && RoundTrips(c) && Enabled(s, a)
    ensures Inv(c, Step(c, s, a))
  {
    var u := Step(c, s, a);
    LockAfter(c, s, a);
    if a.PowerLoss? {
      LinksAfterPowerLoss(c, s, a.kept, a.junk);
    } else {
      LinksAfter(c, s, a);
      forall p: nat | p in u.calls ensures CallOk(c, u, p) {
        if p == a.p { MoverOk(c, s, a); } else { OthersAfter(c, s, a, p); }
      }
    }
  }

  lemma {:induction false} AlwaysInv(c: Codec, states: seq<State>, actions: seq<Action>, n: nat)
    requires IsRun(c, states, actions) && RoundTrips(c) && n <= |actions|
    ensures Inv(c, states[n])
  {
    if n > 0 {
      AlwaysInv(c, states, actions, n - 1);
      StepInv(c, states[n - 1], actions[n - 1]);
    } else {
      var found :| states[0] == Initial(c, found);
      InitialOk(c, found);
    }
  }

  lemma InitialOk(c: Codec, found: Option<Connections>)
    ensures Inv(c, Initial(c, found))
  {
    if found.Some? {
      var log := Initial(c, found).log;
      assert log[..0] == [] && log[..1] == log;
      assert Fold(log) == found.value;
    }
  }

  // -------------------------------------------------------------------- theorems

  /** What is on disk under the connections path. */
  function OnDisk(s: State): Bytes { ContentAt(s, |s.links|) }

  /** In every interleaving, with any failures, crashes and power losses, the file is missing or holds
      exactly the fold of the committed changes, whole. */
  lemma FileIsTheFold(c: Codec, states: seq<State>, actions: seq<Action>, n: nat)
    requires IsRun(c, states, actions) && RoundTrips(c) && n <= |actions|
    ensures var s := states[n];
      if s.links == [] then s.log == [] else OnDisk(s) == c.enc(Fold(s.log)) && c.dec(OnDisk(s)) == Some(Fold(s.log))
  {
    AlwaysInv(c, states, actions, n);
    var s := states[n];
    if s.links != [] { assert s.log[..|s.links| - 1 + 1] == s.log; }
  }

  /** A read without the lock returns the connections after the commits made by the time it opened the
      file, however many commits come while it reads; never a part of one, never a parse error. */
  lemma ReadersSeeACommit(c: Codec, states: seq<State>, actions: seq<Action>, n: nat, p: nat)
    requires IsRun(c, states, actions) && RoundTrips(c) && n < |actions| && actions[n] == Finish(p)
    requires !states[n].calls[p].writer
    ensures var at := states[n].calls[p].openedAt;
      at <= |states[n].log| && states[n + 1].calls[p].pc == Saw(Some(Fold(states[n].log[..at])))
  {
    AlwaysInv(c, states, actions, n);
    FinishOk(c, states[n], p);
  }

  // ---------------------------------------------- lock order, and what a result means

  /** The call has renamed its file into place. */
  predicate Past(pc: Pc) {
    || pc.Renamed?
    || ((pc.Leaving? || pc.Returned?) && pc.result != ErrBefore)
  }

  predicate Committed(s: State, p: nat) {
    exists i :: 0 <= i < |s.log| && s.log[i].call == p
  }

  predicate Ascending(log: seq<Entry>) {
    forall i, j :: 0 <= i < j < |log| ==> log[i].turn < log[j].turn && log[i].call != log[j].call
  }

  predicate EntriesOk(s: State) {
    forall i :: 0 <= i < |s.log| ==>
      s.log[i].turn < s.turns && s.log[i].call in s.calls && s.log[i].turn == s.calls[s.log[i].call].turn
  }

  ghost predicate TurnsOk(s: State) {
    forall p: nat :: p in s.calls ==> TurnOk(s, s.calls[p])
  }

  /** Commits are in the order the lock was granted, each call commits once, with its own turn. */
  ghost predicate OrderOk(s: State) {
    Ascending(s.log) && EntriesOk(s) && TurnsOk(s)
  }

  /** Whoever has committed is past the rename, or crashed. */
  ghost predicate ResultsOk(s: State) {
    forall p: nat :: Committed(s, p) ==> p in s.calls && Settled(s.calls[p].pc)
  }

  predicate Settled(pc: Pc) { Past(pc) || pc.Crashed? }

  lemma CommittedAfterRename(c: Codec, s: State, p: nat)
    requires Enabled(s, Rename(p))
    ensures forall q: nat :: Committed(Step(c, s, Rename(p)), q) <==> q == p || Committed(s, q)
  {
    var u := Step(c, s, Rename(p));
    assert u.log[|s.log|].call == p;
    forall q: nat | Committed(s, q) ensures Committed(u, q) {
      var i :| 0 <= i < |s.log| && s.log[i].call == q;
      assert u.log[i].call == q;
    }
    forall q: nat | Committed(u, q) ensures q == p || Committed(s, q) {
      var i :| 0 <= i < |u.log| && u.log[i].call == q;
      assert i < |s.log| ==> s.log[i].call == q;
    }
  }

  lemma OnlyCritical(s: State, u: State, p: nat, q: nat)
    requires LockOk(s) && p in s.calls && Critical(s.calls[p]) && q in s.calls && Critical(s.calls[q])
    ensures p == q
  {
  }

  lemma OrderAfterRename(c: Codec, s: State, p: nat)
    requires OrderOk(s) && ResultsOk(s) && LockOk(s) && Enabled(s, Rename(p)) && ReaderOk(s, s.calls[p])
    ensures OrderOk(Step(c, s, Rename(p)))
  {
    var u := Step(c, s, Rename(p));
    assert !Committed(s, p);
    assert forall i :: 0 <= i < |s.log| ==> s.log[i].call != p && u.log[i] == s.log[i];
    assert Ascending(u.log);
    assert EntriesOk(u);
    forall q: nat | q in u.calls && Critical(u.calls[q]) ensures q == p { OnlyCritical(s, u, p, q); }
  }

  lemma EntriesAfter(c: Codec, s: State, a: Action)
    requires EntriesOk(s) && ResultsOk(s) && LinksOk(c, s) && Enabled(s, a) && !a.Rename?
    ensures EntriesOk(Step(c, s, a))
  {
    if a.Lock? { assert !Committed(s, a.p); }
    var u := Step(c, s, a);
    forall i | 0 <= i < |u.log|
      ensures u.log[i].turn < u.turns && u.log[i].call in u.calls && u.log[i].turn == u.calls[u.log[i].call].turn
    {
      assert s.log[i] == u.log[i] && Committed(s, s.log[i].call);
    }
  }

  predicate TurnOk(s: State, call: Call) {
    Critical(call) ==>
      && call.turn < s.turns
      && (!Past(call.pc) ==> forall i :: 0 <= i < |s.log| ==> s.log[i].turn < call.turn)
  }

  lemma TurnAfter(c: Codec, s: State, a: Action, p: nat)
    requires Enabled(s, a) && !a.Rename? && !a.PowerLoss? && EntriesOk(s)
    requires p in s.calls ==> TurnOk(s, s.calls[p]) && ReaderOk(s, s.calls[p])
    ensures p in Step(c, s, a).calls ==> TurnOk(Step(c, s, a), Step(c, s, a).calls[p])
  {
  }

  lemma TurnsAfter(c: Codec, s: State, a: Action)
    requires TurnsOk(s) && EntriesOk(s) && Enabled(s, a) && !a.Rename?
    requires forall p: nat :: p in s.calls ==> ReaderOk(s, s.calls[p])
    ensures TurnsOk(Step(c, s, a))
  {
    if !a.PowerLoss? {
      forall p: nat | p in Step(c, s, a).calls ensures TurnOk(Step(c, s, a), Step(c, s, a).calls[p]) {
        TurnAfter(c, s, a, p);
      }
    }
  }

  lemma AscendingAfter(c: Codec, s: State, a: Action)
    requires Ascending(s.log) && Enabled(s, a) && !a.Rename?
    ensures Ascending(Step(c, s, a).log)
  {
  }

  lemma OrderAfter(c: Codec, s: State, a: Action)
    requires OrderOk(s) && ResultsOk(s) && LinksOk(c, s) && Enabled(s, a) && !a.Rename?
    requires forall p: nat :: p in s.calls ==> ReaderOk(s, s.calls[p])
    ensures OrderOk(Step(c, s, a))
  {
    AscendingAfter(c, s, a);
    EntriesAfter(c, s, a);
    TurnsAfter(c, s, a);
  }

  lemma CommittedAfter(c: Codec, s: State, a: Action)
    requires Enabled(s, a) && !a.Rename?
    ensures forall p: nat :: Committed(Step(c, s, a), p) ==> Committed(s, p)
    ensures !a.PowerLoss? ==> Step(c, s, a).log == s.log
  {
    var u := Step(c, s, a);
    forall p: nat | Committed(u, p) ensures Committed(s, p) {
      var i :| 0 <= i < |u.log| && u.log[i].call == p;
      assert s.log[i] == u.log[i];
    }
  }

  /** Getting past the rename, or crashing, cannot be undone. */
  lemma PastAfter(c: Codec, s: State, a: Action, p: nat)
    requires Enabled(s, a) && p in s.calls
    ensures p in Step(c, s, a).calls
    ensures var before, after := s.calls[p].pc, Step(c, s, a).calls[p].pc;
      && (Settled(before) ==> Settled(after) && a != Rename(p))
      && (Past(after) ==> Past(before) || a == Rename(p))
  {
  }

  lemma ResultsAfter(c: Codec, s: State, a: Action)
    requires ResultsOk(s) && Enabled(s, a)
    ensures ResultsOk(Step(c, s, a))
  {
    var u := Step(c, s, a);
    if a.Rename? { CommittedAfterRename(c, s, a.p); } else { CommittedAfter(c, s, a); }
    forall p: nat | Committed(u, p) ensures p in u.calls && Settled(u.calls[p].pc) {
      if a != Rename(p) { PastAfter(c, s, a, p); }
    }
  }

  lemma {:induction false} AlwaysOrdered(c: Codec, states: seq<State>, actions: seq<Action>, n: nat)
    requires IsRun(c, states, actions) && RoundTrips(c) && n <= |actions|
    ensures OrderOk(states[n]) && ResultsOk(states[n])
  {
    if n > 0 {
      AlwaysOrdered(c, states, actions, n - 1);
      AlwaysInv(c, states, actions, n - 1);
      OrderStep(c, states[n - 1], actions[n - 1]);
    } else {
      var found :| states[0] == Initial(c, found);
      if found.Some? { assert Initial(c, found).log[0].call == 0; }
    }
  }

  lemma OrderStep(c: Codec, s: State, a: Action)
    requires OrderOk(s) && ResultsOk(s) && Inv(c, s) && Enabled(s, a)
    ensures OrderOk(Step(c, s, a)) && ResultsOk(Step(c, s, a))
  {
    if a.Rename? { OrderAfterRename(c, s, a.p); } else { OrderAfter(c, s, a); }
    ResultsAfter(c, s, a);
  }

  /** The commits are in the order in which their calls got the lock, one a call. */
  lemma CommitsInLockOrder(c: Codec, states: seq<State>, actions: seq<Action>, n: nat, i: nat, j: nat)
    requires IsRun(c, states, actions) && RoundTrips(c) && n <= |actions| && i < j < |states[n].log|
    ensures states[n].log[i].turn < states[n].log[j].turn && states[n].log[i].call != states[n].log[j].call
  {
    AlwaysOrdered(c, states, actions, n);
  }

  // ------------------------------------------------------- how long a commit lasts

  /** No power loss between states `n` and `m` takes back the first `i + 1` commits. */
  ghost predicate NotRolledBack(actions: seq<Action>, n: nat, m: nat, i: nat)
    requires m <= |actions|
  {
    forall k :: n <= k < m && actions[k].PowerLoss? ==> actions[k].kept > i
  }

  predicate Holds(flag: seq<bool>, k: nat)
    requires k + 1 < |flag|
  {
    flag[k] ==> flag[k + 1]
  }

  /** What every step keeps stays. */
  lemma {:induction false} Stays(flag: seq<bool>, n: nat, m: nat)
    requires n <= m < |flag| && flag[n] && forall k: nat :: k + 1 < |flag| ==> Holds(flag, k)
    ensures flag[m]
  {
    if n < m {
      Stays(flag, n, m - 1);
      assert Holds(flag, m - 1);
    }
  }

  lemma StaysSettled(c: Codec, states: seq<State>, actions: seq<Action>, n: nat, m: nat, p: nat)
    requires IsRun(c, states, actions) && n <= m <= |actions|
    requires p in states[n].calls && Settled(states[n].calls[p].pc)
    ensures p in states[m].calls && Settled(states[m].calls[p].pc)
  {
    var flag := seq(|states|, k requires 0 <= k < |states| =>
      p in states[k].calls && Settled(states[k].calls[p].pc));
    forall k: nat | k + 1 < |flag| ensures Holds(flag, k) {
      if flag[k] { PastAfter(c, states[k], actions[k], p); }
    }
    Stays(flag, n, m);
  }

  /** A step that takes nothing back keeps the first `i + 1` commits... */
  lemma PrefixKept(c: Codec, s: State, a: Action, i: nat)
    requires Enabled(s, a) && i < |s.log| && (a.PowerLoss? ==> a.kept > i)
    ensures i < |Step(c, s, a).log| && Step(c, s, a).log[..i + 1] == s.log[..i + 1]
  {
  }

  /** ... and one that does forgets the call of the last of them. */
  lemma CommitTakenBack(c: Codec, s: State, a: Action, i: nat)
    requires Enabled(s, a) && Ascending(s.log) && i < |s.log| && a.PowerLoss? && a.kept <= i
    ensures !Committed(Step(c, s, a), s.log[i].call)
  {
  }

  /** A call that is through and not in the log is never in it again. */
  lemma StaysForgotten(c: Codec, s: State, a: Action, p: nat)
    requires Enabled(s, a) && p in s.calls && Settled(s.calls[p].pc) && !Committed(s, p)
    ensures !Committed(Step(c, s, a), p)
  {
    PastAfter(c, s, a, p);
    if a.Rename? { CommittedAfterRename(c, s, a.p); } else { CommittedAfter(c, s, a); }
  }

  lemma SurvivesStep(c: Codec, s: State, a: Action, i: nat)
    requires Enabled(s, a) && Ascending(s.log) && i < |s.log|
    ensures if a.PowerLoss? && a.kept <= i then !Committed(Step(c, s, a), s.log[i].call)
            else i < |Step(c, s, a).log| && Step(c, s, a).log[..i + 1] == s.log[..i + 1]
  {
    if a.PowerLoss? && a.kept <= i { CommitTakenBack(c, s, a, i); } else { PrefixKept(c, s, a, i); }
  }

  /** A commit is still in the file, with all before it, exactly as long as no power loss has taken it back;
      once one has, it never returns. */
  lemma {:induction false} CommitLastsIff(
    c: Codec, states: seq<State>, actions: seq<Action>, n: nat, m: nat, i: nat)
    requires IsRun(c, states, actions) && RoundTrips(c) && n <= m <= |actions| && i < |states[n].log|
    ensures Committed(states[m], states[n].log[i].call) <==> NotRolledBack(actions, n, m, i)
    ensures NotRolledBack(actions, n, m, i) ==>
      i < |states[m].log| && states[m].log[..i + 1] == states[n].log[..i + 1]
  {
    var p := states[n].log[i].call;
    assert Committed(states[n], p);
    if n < m {
      CommitLastsIff(c, states, actions, n, m - 1, i);
      if NotRolledBack(actions, n, m - 1, i) {
        LastsOneMore(c, states, actions, n, m - 1, i);
      } else {
        GoneOneMore(c, states, actions, n, m - 1, p);
      }
    }
  }

  lemma GoneOneMore(c: Codec, states: seq<State>, actions: seq<Action>, n: nat, k: nat, p: nat)
    requires IsRun(c, states, actions) && RoundTrips(c) && n <= k < |actions|
    requires Committed(states[n], p) && !Committed(states[k], p)
    ensures !Committed(states[k + 1], p)
  {
    AlwaysOrdered(c, states, actions, n);
    StaysSettled(c, states, actions, n, k, p);
    StaysForgotten(c, states[k], actions[k], p);
  }

  lemma LastsOneMore(c: Codec, states: seq<State>, actions: seq<Action>, n: nat, k: nat, i: nat)
    requires IsRun(c, states, actions) && RoundTrips(c) && n <= k < |actions| && i < |states[n].log|
    requires NotRolledBack(actions, n, k, i)
    requires i < |states[k].log| && states[k].log[..i + 1] == states[n].log[..i + 1]
    ensures Committed(states[k + 1], states[n].log[i].call) <==> NotRolledBack(actions, n, k + 1, i)
    ensures NotRolledBack(actions, n, k + 1, i) ==>
      i < |states[k + 1].log| && states[k + 1].log[..i + 1] == states[n].log[..i + 1]
  {
    AlwaysOrdered(c, states, actions, k);
    SurvivesStep(c, states[k], actions[k], i);
    assert states[k].log[i] == states[k].log[..i + 1][i] == states[n].log[i];
    if !(actions[k].PowerLoss? && actions[k].kept <= i) {
      assert states[k + 1].log[i] == states[k + 1].log[..i + 1][i];
    }
  }

  /** The commits made so far all last, in place, exactly if no power loss takes any of them back; short of
      one no update is ever lost. */
  lemma NoUpdateLost(c: Codec, states: seq<State>, actions: seq<Action>, n: nat, m: nat)
    requires IsRun(c, states, actions) && RoundTrips(c) && n <= m <= |actions|
    ensures states[n].log <= states[m].log <==>
      forall k :: n <= k < m && actions[k].PowerLoss? ==> actions[k].kept >= |states[n].log|
  {
    var size := |states[n].log|;
    if size > 0 {
      CommitLastsIff(c, states, actions, n, m, size - 1);
      assert states[n].log[..size] == states[n].log;
      if states[n].log <= states[m].log { assert states[m].log[size - 1] == states[n].log[size - 1]; }
    }
  }

  /** The commit says what becomes of the provider's record. */
  predicate Names(m: Mutation, provider: string) {
    m.Whole? || m.provider == provider
  }

  function Lookup(file: Connections, provider: string): Option<Record> {
    if provider in file then Some(file[provider]) else None
  }

  /** What a commit leaves for a provider it names. */
  function Left(m: Mutation, provider: string): Option<Record> {
    match m
    case Put(_, record) => Some(record)
    case Remove(_) => None
    case Whole(file) => Lookup(file, provider)
  }

  lemma {:induction false} FoldKeeps(log: seq<Entry>, i: nat, provider: string)
    requires i < |log| && Names(log[i].mutation, provider)
    requires forall j :: i < j < |log| ==> !Names(log[j].mutation, provider)
    ensures Lookup(Fold(log), provider) == Left(log[i].mutation, provider)
  {
    if i < |log| - 1 { FoldKeeps(log[..|log| - 1], i, provider); }
  }

  /** What a call has committed for a provider is what every later reader of the file finds, until a later
      commit names that provider again or a power loss takes the commit back: nobody else's change loses it. */
  lemma RecordStays(c: Codec, states: seq<State>, actions: seq<Action>, n: nat, m: nat, i: nat, provider: string)
    requires IsRun(c, states, actions) && RoundTrips(c) && n <= m <= |actions|
    requires i < |states[n].log| && Names(states[n].log[i].mutation, provider)
    requires NotRolledBack(actions, n, m, i)
    requires forall j :: i < j < |states[m].log| ==> !Names(states[m].log[j].mutation, provider)
    ensures var onDisk := c.dec(OnDisk(states[m]));
      onDisk.Some? && Lookup(onDisk.value, provider) == Left(states[n].log[i].mutation, provider)
  {
    CommitLastsIff(c, states, actions, n, m, i);
    assert states[m].log[i] == states[m].log[..i + 1][i] == states[n].log[i];
    FileIsTheFold(c, states, actions, m);
    FoldKeeps(states[m].log, i, provider);
    AlwaysInv(c, states, actions, m);
  }

  /** The call has renamed its file into place. */
  ghost predicate Replaced(actions: seq<Action>, n: nat, p: nat)
    requires n <= |actions|
  {
    exists k :: 0 <= k < n && actions[k] == Rename(p)
  }

  lemma ReplacedStep(c: Codec, s: State, a: Action, p: nat)
    requires Enabled(s, a)
    ensures var u := Step(c, s, a);
      && (p in u.calls && Past(u.calls[p].pc) ==> a == Rename(p) || (p in s.calls && Past(s.calls[p].pc)))
      && (a == Rename(p) || (p in s.calls && Settled(s.calls[p].pc)) ==> p in u.calls && Settled(u.calls[p].pc))
  {
  }

  lemma {:induction false} PastIffReplaced(c: Codec, states: seq<State>, actions: seq<Action>, n: nat, p: nat)
    requires IsRun(c, states, actions) && n <= |actions|
    ensures p in states[n].calls && Past(states[n].calls[p].pc) ==> Replaced(actions, n, p) || p in states[0].calls
    ensures Replaced(actions, n, p) || p in states[0].calls ==> p in states[n].calls && Settled(states[n].calls[p].pc)
  {
    if n > 0 {
      PastIffReplaced(c, states, actions, n - 1, p);
      ReplacedStep(c, states[n - 1], actions[n - 1], p);
      assert Replaced(actions, n, p) <==> Replaced(actions, n - 1, p) || actions[n - 1] == Rename(p);
    }
  }

  /** A call that returned has renamed its file into place exactly if it returned Ok, or an error from
      setting the permissions, which comes after.  Only such an error does not mean "nothing written". */
  lemma ResultsMean(c: Codec, states: seq<State>, actions: seq<Action>, n: nat, p: nat)
    requires IsRun(c, states, actions) && n <= |actions| && p !in states[0].calls
    requires p in states[n].calls && states[n].calls[p].pc.Returned?
    ensures Replaced(actions, n, p) <==> states[n].calls[p].pc.result != ErrBefore
  {
    PastIffReplaced(c, states, actions, n, p);
  }

  lemma {:induction false} CommittedWasReplaced(c: Codec, states: seq<State>, actions: seq<Action>, n: nat, p: nat)
    requires IsRun(c, states, actions) && n <= |actions| && p !in states[0].calls && Committed(states[n], p)
    ensures Replaced(actions, n, p)
  {
    if n > 0 && actions[n - 1] != Rename(p) {
      var s, a := states[n - 1], actions[n - 1];
      if a.Rename? { CommittedAfterRename(c, s, a.p); } else { CommittedAfter(c, s, a); }
      CommittedWasReplaced(c, states, actions, n - 1, p);
    }
  }

  /** Its change is among those the file holds exactly if it did, and no power loss has taken it back. */
  lemma CommittedIff(c: Codec, states: seq<State>, actions: seq<Action>, n: nat, p: nat)
    requires IsRun(c, states, actions) && RoundTrips(c) && n <= |actions| && p !in states[0].calls
    ensures Committed(states[n], p) <==>
      exists k :: 0 <= k < n && actions[k] == Rename(p) && NotRolledBack(actions, k + 1, n, |states[k].log|)
  {
    if Committed(states[n], p) {
      CommittedWasReplaced(c, states, actions, n, p);
      var k :| 0 <= k < n && actions[k] == Rename(p);
      RenamedCommits(c, states, actions, k, n, p);
    }
    if k :| 0 <= k < n && actions[k] == Rename(p) && NotRolledBack(actions, k + 1, n, |states[k].log|) {
      RenamedCommits(c, states, actions, k, n, p);
    }
  }

  lemma RenamedCommits(c: Codec, states: seq<State>, actions: seq<Action>, k: nat, n: nat, p: nat)
    requires IsRun(c, states, actions) && RoundTrips(c) && k < n <= |actions| && actions[k] == Rename(p)
    ensures Committed(states[n], p) <==> NotRolledBack(actions, k + 1, n, |states[k].log|)
  {
    assert states[k + 1].log[|states[k].log|].call == p;
    CommitLastsIff(c, states, actions, k + 1, n, |states[k].log|);
  }

  /** Setting the permissions failed for this call. */
  ghost predicate ChmodFailed(actions: seq<Action>, n: nat, p: nat)
    requires n <= |actions|
  {
    exists k :: 0 <= k < n && actions[k] == Chmod(p, false)
  }

  lemma ChmodStep(c: Codec, s: State, a: Action, p: nat)
    requires Enabled(s, a)
    ensures var u := Step(c, s, a);
      && (p in u.calls && ErrsLate(u.calls[p].pc) ==> a == Chmod(p, false) || (p in s.calls && ErrsLate(s.calls[p].pc)))
      && (a == Chmod(p, false) || (p in s.calls && (ErrsLate(s.calls[p].pc) || s.calls[p].pc.Crashed?)) ==>
            p in u.calls && (ErrsLate(u.calls[p].pc) || u.calls[p].pc.Crashed?))
  {
  }

  predicate ErrsLate(pc: Pc) {
    (pc.Leaving? || pc.Returned?) && pc.result == ErrChmod
  }

  lemma {:induction false} LateIffChmodFailed(c: Codec, states: seq<State>, actions: seq<Action>, n: nat, p: nat)
    requires IsRun(c, states, actions) && n <= |actions|
    ensures p in states[n].calls && ErrsLate(states[n].calls[p].pc) ==> ChmodFailed(actions, n, p)
    ensures ChmodFailed(actions, n, p) ==>
      p in states[n].calls && (ErrsLate(states[n].calls[p].pc) || states[n].calls[p].pc.Crashed?)
  {
    if n > 0 {
      LateIffChmodFailed(c, states, actions, n - 1, p);
      ChmodStep(c, states[n - 1], actions[n - 1], p);
      assert ChmodFailed(actions, n, p) <==> ChmodFailed(actions, n - 1, p) || actions[n - 1] == Chmod(p, false);
    }
  }

  /** A call that returned an error has replaced the file all the same if and only if it failed to set the
      permissions of the file it had renamed into place. */
  lemma CommittedErrIff(c: Codec, states: seq<State>, actions: seq<Action>, n: nat, p: nat)
    requires IsRun(c, states, actions) && n <= |actions| && p !in states[0].calls
    requires p in states[n].calls && states[n].calls[p].pc.Returned? && states[n].calls[p].pc.result != Ok
    ensures Replaced(actions, n, p) <==> ChmodFailed(actions, n, p)
  {
    ResultsMean(c, states, actions, n, p);
    LateIffChmodFailed(c, states, actions, n, p);
  }

  /** At most one call is between taking and giving up the lock, and it works from the latest commit. */
  lemma WritersAreAlone(c: Codec, states: seq<State>, actions: seq<Action>, n: nat, p: nat, q: nat)
    requires IsRun(c, states, actions) && RoundTrips(c) && n <= |actions|
    requires p in states[n].calls && Critical(states[n].calls[p])
    requires q in states[n].calls && Critical(states[n].calls[q])
    ensures p == q
    ensures states[n].calls[p].pc.Loaded? ==> states[n].calls[p].pc.file == Fold(states[n].log)
  {
    AlwaysInv(c, states, actions, n);
  }

  lemma Extend(c: Codec, states: seq<State>, actions: seq<Action>, a: Action)
    returns (states': seq<State>, actions': seq<Action>)
    requires IsRun(c, states, actions) && Enabled(states[|actions|], a)
    ensures IsRun(c, states', actions') && actions' == actions + [a]
    ensures states'[|actions'|] == Step(c, states[|actions|], a)
  {
    states', actions' := states + [Step(c, states[|actions|], a)], actions + [a];
  }

  /** The error that comes after the commit does happen: the change is in the file, the call says Err. */
  lemma ErrorAfterCommit(c: Codec, m: Mutation) returns (states: seq<State>, actions: seq<Action>)
    requires RoundTrips(c) && !m.Whole?
    ensures IsRun(c, states, actions)
    ensures states[|actions|].calls == map[0 := Call(Returned(ErrChmod), true, 0, 0)]
    ensures states[|actions|].log == [Entry(0, 0, m)]
  {
    states, actions := UpToRename(c, m);
    states, actions := Extend(c, states, actions, Rename(0));
    states, actions := Extend(c, states, actions, Chmod(0, false));
    states, actions := Extend(c, states, actions, Unlock(0));
  }

  /** A commit can be forgotten: the call returned Ok, and the power went before its rename was on disk. */
  lemma CommitForgotten(c: Codec, m: Mutation) returns (states: seq<State>, actions: seq<Action>)
    requires RoundTrips(c) && !m.Whole?
    ensures IsRun(c, states, actions)
    ensures states[|actions|].calls == map[0 := Call(Returned(Ok), true, 0, 0)]
    ensures states[|actions|].log == [] && states[|actions|].links == []
  {
    states, actions := UpToRename(c, m);
    states, actions := Extend(c, states, actions, Rename(0));
    states, actions := Extend(c, states, actions, Chmod(0, true));
    states, actions := Extend(c, states, actions, Unlock(0));
    var junk := seq(|states[|actions|].inodes|, i => []);
    states, actions := Extend(c, states, actions, PowerLoss(0, junk));
  }

  lemma UpToEdit(c: Codec, m: Mutation) returns (states: seq<State>, actions: seq<Action>)
    requires !m.Whole?
    ensures IsRun(c, states, actions)
    ensures states[|actions|].calls == map[0 := Call(Edited(m, Applied(map[], m)), true, 0, 0)]
    ensures states[|actions|].log == [] && states[|actions|].inodes == []
  {
    states, actions := [Initial(c, None)], [];
    states, actions := Extend(c, states, actions, Begin(0, true));
    states, actions := Extend(c, states, actions, Lock(0));
    states, actions := Extend(c, states, actions, Open(0));
    states, actions := Extend(c, states, actions, Finish(0));
    states, actions := Extend(c, states, actions, Edit(0, m));
  }

  lemma UpToRename(c: Codec, m: Mutation) returns (states: seq<State>, actions: seq<Action>)
    requires !m.Whole?
    ensures IsRun(c, states, actions)
    ensures states[|actions|].calls == map[0 := Call(Synced(m, 0), true, 0, 0)]
    ensures states[|actions|].log == []
  {
    states, actions := UpToEdit(c, m);
    states, actions := Extend(c, states, actions, Create(0));
    var text := states[|actions|].calls[0].pc.left;
    assert text[|text|..] == [];
    states, actions := Extend(c, states, actions, Write(0, |text|));
    states, actions := Extend(c, states, actions, WriteDone(0));
    states, actions := Extend(c, states, actions, Sync(0));
  }
}
