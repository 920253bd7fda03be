/** Saving, using and forgetting a provider's key (crates/workshop-providers/src/broker.rs), over the
    layered secret store (crates/workshop-providers/src/secrets.rs): the operating system's keyring
    first, a file only where there is no keyring.  One process at a time gets here: the lock and the
    interleavings are the business of `ConnectionsFile`. */
module CredentialBroker {
  import opened Text
  import opened ConnectionsFile

  datatype Error = InvalidProviderId | UnknownProvider | EmptyKey | NoCredentialStored | Failed | RollbackFailed

  datatype Reply<T> = Good(value: T) | Bad(error: Error)

  /** A write that fails does so before its rename, or after it, when only the permissions are left. */
  datatype Outcome = Fine | Fails | Late

  /** What the environment does to one call on the layered store. */
  datatype StoreFaults = StoreFaults(keyringOk: bool, file: Outcome)

  /** What it does to a save: in order, the lock, the two reads, the write of the secret, the write of the
      connections, and the rollback. */
  datatype Faults = Faults(lockOk: bool, readOk: bool, get: StoreFaults, put: StoreFaults, write: Outcome,
                           back: StoreFaults)

  datatype Manifest = Manifest(
    local: bool, auth: bool, acceptsKey: bool, anonymous: bool, envVar: Option<string>, allowedHosts: seq<string>)

  predicate RequiresCredential(m: Manifest) { m.auth && !m.anonymous }

  /** What is stored: keyring entries, the contents of the secret files, and the connections file. */
  datatype World = World(
    keyringUp: bool, keyring: map<string, string>, secretFiles: map<string, string>, connections: Connections)

  function TrimNewlines(s: string): string {
    if s != [] && (s[|s| - 1] == '\n' || s[|s| - 1] == '\r') then TrimNewlines(s[..|s| - 1]) else s
  }

  // ------------------------------------------------------------ the layered store

  function FileGet(w: World, p: string, file: Outcome): Reply<Option<string>> {
    if file != Fine then Bad(Failed)
    else if p in w.secretFiles then Good(Some(TrimNewlines(w.secretFiles[p]))) else Good(None)
  }

  function StoreGet(w: World, p: string, f: StoreFaults): Reply<Option<string>> {
    if w.keyringUp && !f.keyringOk then Bad(Failed)
    else if w.keyringUp && p in w.keyring then Good(Some(w.keyring[p]))
    else FileGet(w, p, f.file)
  }

  function FileSet(w: World, p: string, value: string, file: Outcome): (World, Reply<CredentialSource>) {
    var written := w.(secretFiles := w.secretFiles[p := value + "\n"]);
    match file
    case Fine => (written, Good(File))
    case Fails => (w, Bad(Failed))
    case Late => (written, Bad(Failed))
  }

  function StoreSet(w: World, p: string, value: string, f: StoreFaults): (World, Reply<CredentialSource>) {
    if !w.keyringUp then FileSet(w, p, value, f.file)
    else if !f.keyringOk then (w, Bad(Failed))
    else
      (w.(keyring := w.keyring[p := value],
          secretFiles := if f.file == Fine then w.secretFiles - {p} else w.secretFiles),
       Good(Keyring))
  }

  function StoreDelete(w: World, p: string, f: StoreFaults): (World, Reply<()>) {
    var keyringDone := !w.keyringUp || f.keyringOk;
    var v := if w.keyringUp && f.keyringOk then w.(keyring := w.keyring - {p}) else w;
    if f.file != Fine then (v, Bad(Failed))
    else (v.(secretFiles := v.secretFiles - {p}), if keyringDone then Good(()) else Bad(Failed))
  }

  /** What a read with nothing going wrong returns. */
  function Stored(w: World, p: string): Option<string> {
    if w.keyringUp && p in w.keyring then Some(w.keyring[p])
    else if p in w.secretFiles then Some(TrimNewlines(w.secretFiles[p])) else None
  }

  function WriteConnections(w: World, file: Connections, write: Outcome): (World, bool) {
    match write
    case Fine => (w.(connections := file), true)
    case Fails => (w, false)
    case Late => (w.(connections := file), false)
  }

  // ------------------------------------------------------------------ the broker

  predicate ValidId(p: string) {
    p != "" && forall c :: c in p ==>
      'a' <= c <= 'z' || 'A' <= c <= 'Z' || '0' <= c <= '9' || c == '-' || c == '_' || c == '.'
  }

  function ManifestFor(manifests: map<string, Manifest>, p: string): Reply<Manifest> {
    if !ValidId(p) then Bad(InvalidProviderId) else if p !in manifests then Bad(UnknownProvider)
    else Good(manifests[p])
  }

  function RecordFor(m: Manifest, source: CredentialSource, now: nat): Record {
    Record(m.local, source, m.allowedHosts, now)
  }

  function RolledBack(w: World, p: string, previous: Option<string>, back: StoreFaults): (World, Error) {
    match previous
    case Some(v) =>
      var (u, r) := StoreSet(w, p, v, back); (u, if r.Good? then Failed else RollbackFailed)
    case None =>
      var (u, r) := StoreDelete(w, p, back); (u, if r.Good? then Failed else RollbackFailed)
  }

  function Saved(w: World, m: Manifest, p: string, key: string, now: nat, f: Faults): (World, Reply<()>) {
    if !f.lockOk || !f.readOk then (w, Bad(Failed))
    else match StoreGet(w, p, f.get)
      case Bad(e) => (w, Bad(e))
      case Good(previous) =>
        match StoreSet(w, p, key, f.put)
        case (u, Bad(e)) => (u, Bad(e))
        case (u, Good(source)) =>
          var (v, ok) := WriteConnections(u, u.connections[p := RecordFor(m, source, now)], f.write);
          if ok then (v, Good(())) else var (back, e) := RolledBack(v, p, previous, f.back); (back, Bad(e))
  }

  function SaveChecked(manifests: map<string, Manifest>, p: string, key: string): Reply<Manifest> {
    match ManifestFor(manifests, p)
    case Bad(e) => Bad(e)
    case Good(m) =>
      if Trim(key) == "" then Bad(EmptyKey) else if !m.auth || !m.acceptsKey then Bad(UnknownProvider) else Good(m)
  }

  function SaveApiKey(w: World, manifests: map<string, Manifest>, p: string, key: string, now: nat, f: Faults)
    : (World, Reply<()>)
  {
    match SaveChecked(manifests, p, key)
    case Bad(e) => (w, Bad(e))
    case Good(m) => Saved(w, m, p, Trim(key), now, f)
  }

  /** Where the credential comes from: the record, else the environment variable of the manifest. */
  function CredentialFor(w: World, m: Manifest, p: string, env: map<string, string>): CredentialSource {
    if p in w.connections then w.connections[p].credential
    else if m.envVar.Some? && m.envVar.value in env then Env(m.envVar.value) else NoCredential
  }

  /** The value sent with a request: none, or the stored key, or the variable's. */
  function Resolved(w: World, m: Manifest, p: string, env: map<string, string>): Reply<Option<string>> {
    if !m.auth then Good(None)
    else match CredentialFor(w, m, p, env)
      case NoCredential => if RequiresCredential(m) then Bad(NoCredentialStored) else Good(None)
      case Env(v) => if v in env && env[v] != "" then Good(Some(env[v])) else Bad(NoCredentialStored)
      case _ => if Stored(w, p).Some? then Good(Stored(w, p)) else Bad(NoCredentialStored)
  }

  function Forgotten(w: World, p: string, f: Faults): (World, Reply<bool>) {
    if !f.lockOk || !f.readOk then (w, Bad(Failed))
    else match StoreGet(w, p, f.get)
      case Bad(e) => (w, Bad(e))
      case Good(had) =>
        match StoreDelete(w, p, f.put)
        case (u, Bad(e)) => (u, Bad(e))
        case (u, Good(_)) =>
          var (v, ok) := WriteConnections(u, u.connections - {p}, f.write);
          (v, if ok then Good(p in w.connections || had.Some?) else Bad(Failed))
  }

  /** The broker and the store under it, as they change. */
  class Broker {
    const keyringUp: bool
    var keyring: map<string, string>
    var secretFiles: map<string, string>
    var connections: Connections

    constructor (keyringUp: bool)
      ensures Now() == World(keyringUp, map[], map[], map[])
    {
      this.keyringUp := keyringUp;
      keyring, secretFiles, connections := map[], map[], map[];
    }

    function Now(): World
      reads this
    {
      World(keyringUp, keyring, secretFiles, connections)
    }

    method Set(p: string, value: string, f: StoreFaults) returns (r: Reply<CredentialSource>)
      modifies this`keyring, this`secretFiles
      ensures (Now(), r) == StoreSet(old(Now()), p, value, f)
    {
      if keyringUp {
        if !f.keyringOk { return Bad(Failed); }
        keyring := keyring[p := value];
        if f.file == Fine { secretFiles := secretFiles - {p}; }
        return Good(Keyring);
      }
      if f.file == Fails { return Bad(Failed); }
      secretFiles := secretFiles[p := value + "\n"];
      r := if f.file == Fine then Good(File) else Bad(Failed);
    }

    method Delete(p: string, f: StoreFaults) returns (r: Reply<()>)
      modifies this`keyring, this`secretFiles
      ensures (Now(), r) == StoreDelete(old(Now()), p, f)
    {
      r := Good(());
      if keyringUp {
        if f.keyringOk { keyring := keyring - {p}; } else { r := Bad(Failed); }
      }
      if f.file != Fine { return Bad(Failed); }
      secretFiles := secretFiles - {p};
    }

    method Write(file: Connections, write: Outcome) returns (ok: bool)
      modifies this`connections
      ensures (Now(), ok) == WriteConnections(old(Now()), file, write)
    {
      if write != Fails { connections := file; }
      ok := write == Fine;
    }

    method RollBack(p: string, previous: Option<string>, back: StoreFaults) returns (e: Error)
      modifies this`keyring, this`secretFiles
      ensures (Now(), e) == RolledBack(old(Now()), p, previous, back)
    {
      var ok;
      match previous {
        case Some(v) =>
          var r := Set(p, v, back);
          ok := r.Good?;
        case None =>
          var r := Delete(p, back);
          ok := r.Good?;
      }
      e := if ok then Failed else RollbackFailed;
    }

    /** The body run under the lock. */
    method SaveLocked(m: Manifest, p: string, key: string, now: nat, f: Faults) returns (r: Reply<()>)
      requires f.lockOk
      modifies this
      ensures (Now(), r) == Saved(old(Now()), m, p, key, now, f)
    {
      if !f.readOk { return Bad(Failed); }
      var previous := StoreGet(Now(), p, f.get);
      if previous.Bad? { return Bad(previous.error); }
      var source := Set(p, key, f.put);
      if source.Bad? { return Bad(source.error); }
      var ok := Write(connections[p := RecordFor(m, source.value, now)], f.write);
      if !ok {
        var e := RollBack(p, previous.value, f.back);
        return Bad(e);
      }
      r := Good(());
    }

    method Save(manifests: map<string, Manifest>, p: string, key: string, now: nat, f: Faults) returns (r: Reply<()>)
      modifies this
      ensures (Now(), r) == SaveApiKey(old(Now()), manifests, p, key, now, f)
    {
      var m := SaveChecked(manifests, p, key);
      if m.Bad? { return Bad(m.error); }
      if !f.lockOk { return Bad(Failed); }
      r := SaveLocked(m.value, p, Trim(key), now, f);
    }

    method Forget(p: string, f: Faults) returns (r: Reply<bool>)
      modifies this
      ensures ValidId(p) ==> (Now(), r) == Forgotten(old(Now()), p, f)
      ensures !ValidId(p) ==> Now() == old(Now()) && r == Bad(InvalidProviderId)
    {
      if !ValidId(p) { return Bad(InvalidProviderId); }
      if !f.lockOk || !f.readOk { return Bad(Failed); }
      var file := connections;
      var had := StoreGet(Now(), p, f.get);
      if had.Bad? { return Bad(had.error); }
      var gone := Delete(p, f.put);
      if gone.Bad? { return Bad(gone.error); }
      var ok := Write(file - {p}, f.write);
      r := if ok then Good(p in file || had.value.Some?) else Bad(Failed);
    }
  }

  // -------------------------------------------------------------------- theorems

  /** A value without a newline at its end survives the secret file. */
  lemma NewlinesRoundTrip(value: string)
    requires value != "" && value[|value| - 1] != '\n' && value[|value| - 1] != '\r'
    ensures TrimNewlines(value + "\n") == value
  {
    assert (value + "\n")[..|value|] == value;
  }

  lemma {:induction false} TrimNewlinesEnds(s: string)
    ensures var r := TrimNewlines(s);
      (r != [] ==> r[|r| - 1] != '\n' && r[|r| - 1] != '\r') && TrimNewlines(r + "\n") == r
  {
    if s != [] && (s[|s| - 1] == '\n' || s[|s| - 1] == '\r') {
      TrimNewlinesEnds(s[..|s| - 1]);
    } else if s != [] {
      NewlinesRoundTrip(s);
    } else {
      assert (s + "\n")[..0] == [];
      assert TrimNewlines([]) == [];
    }
  }

  ghost predicate SameSecrets(w: World, u: World) {
    forall q: string :: Stored(w, q) == Stored(u, q)
  }

  predicate Bare(value: string) {
    value != "" && value[|value| - 1] != '\n' && value[|value| - 1] != '\r'
  }

  /** A trimmed key has no newline at its end. */
  lemma TrimmedIsBare(key: string)
    requires Trim(key) != ""
    ensures Bare(Trim(key))
  {
    TrimEndFacts(TrimStart(key));
  }

  /** A write that says Good is read back, whatever was there, and touches nobody else's secret. */
  lemma SetThenGet(w: World, p: string, value: string, f: StoreFaults)
    requires w.keyringUp || TrimNewlines(value + "\n") == value
    requires StoreSet(w, p, value, f).1.Good?
    ensures var (u, r) := StoreSet(w, p, value, f);
      && Stored(u, p) == Some(value) && r.value == (if w.keyringUp then Keyring else File)
      && u.connections == w.connections && u.keyringUp == w.keyringUp
    ensures forall q: string :: q != p ==> Stored(StoreSet(w, p, value, f).0, q) == Stored(w, q)
  {
  }

  lemma SetFailed(w: World, p: string, value: string, f: StoreFaults)
    requires w.keyringUp || TrimNewlines(value + "\n") == value
    requires StoreSet(w, p, value, f).1.Bad?
    ensures var u := StoreSet(w, p, value, f).0;
      && u.connections == w.connections
      && (SameSecrets(w, u) <==> w.keyringUp || f.file != Late || Stored(w, p) == Some(value))
  {
    var u := StoreSet(w, p, value, f).0;
    if !w.keyringUp && f.file == Late {
      assert Stored(u, p) == Some(value);
      assert forall q: string :: q != p ==> Stored(u, q) == Stored(w, q);
    }
  }

  lemma DeleteThenGet(w: World, p: string, f: StoreFaults)
    requires StoreDelete(w, p, f).1.Good?
    ensures var u := StoreDelete(w, p, f).0;
      && Stored(u, p) == None && u.connections == w.connections && u.keyringUp == w.keyringUp
    ensures forall q: string :: q != p ==> Stored(StoreDelete(w, p, f).0, q) == Stored(w, q)
  {
  }

  lemma GetIsStored(w: World, p: string, f: StoreFaults)
    requires StoreGet(w, p, f).Good?
    ensures StoreGet(w, p, f).value == Stored(w, p)
    ensures Stored(w, p).Some? && !w.keyringUp ==> TrimNewlines(Stored(w, p).value + "\n") == Stored(w, p).value
  {
    if p in w.secretFiles { TrimNewlinesEnds(w.secretFiles[p]); }
  }

  /** Rolling back after the secret was written puts every secret back. */
  lemma RollbackRestores(w: World, u: World, p: string, back: StoreFaults)
    requires u.keyringUp == w.keyringUp
    requires forall q: string :: q != p ==> Stored(u, q) == Stored(w, q)
    requires Stored(w, p).Some? && !w.keyringUp ==> TrimNewlines(Stored(w, p).value + "\n") == Stored(w, p).value
    requires RolledBack(u, p, Stored(w, p), back).1 != RollbackFailed
    ensures var v := RolledBack(u, p, Stored(w, p), back).0; SameSecrets(w, v) && v.connections == u.connections
  {
    match Stored(w, p)
    case Some(value) => SetThenGet(u, p, value, back);
    case None => DeleteThenGet(u, p, back);
  }

  /** The save got as far as writing the secret. */
  predicate Reached(w: World, p: string, f: Faults) {
    f.lockOk && f.readOk && StoreGet(w, p, f.get).Good?
  }

  /** The secret file was replaced by another value before its write failed. */
  predicate SecretLate(w: World, p: string, key: string, f: Faults) {
    Reached(w, p, f) && !w.keyringUp && f.put.file == Late && Stored(w, p) != Some(key)
  }

  /** The connections file was replaced by another one before its write failed. */
  predicate RecordLate(w: World, m: Manifest, p: string, key: string, now: nat, f: Faults) {
    && Reached(w, p, f) && StoreSet(w, p, key, f.put).1.Good? && f.write == Late
    && !(p in w.connections
         && w.connections[p] == RecordFor(m, if w.keyringUp then Keyring else File, now))
  }

  /** Ok means the trimmed key is what is read back, the record names the backend that holds it, and no
      other provider's secret or record has changed. */
  lemma SaveOk(w: World, manifests: map<string, Manifest>, p: string, key: string, now: nat, f: Faults)
    requires SaveApiKey(w, manifests, p, key, now, f).1.Good?
    ensures var u := SaveApiKey(w, manifests, p, key, now, f).0;
      && p in manifests && Stored(u, p) == Some(Trim(key))
      && u.connections == w.connections[p := RecordFor(manifests[p], if w.keyringUp then Keyring else File, now)]
    ensures forall q: string :: q != p ==> Stored(SaveApiKey(w, manifests, p, key, now, f).0, q) == Stored(w, q)
  {
    var k := Trim(key);
    TrimmedIsBare(key);
    NewlinesRoundTrip(k);
    SetThenGet(w, p, k, f.put);
  }

  /** Err without a failed rollback leaves every secret and the connections file as they were, unless a
      write failed after its rename, and then exactly what that write was for has changed. */
  lemma SaveErr(w: World, m: Manifest, p: string, key: string, now: nat, f: Faults)
    requires Bare(key)
    requires Saved(w, m, p, key, now, f).1.Bad? && Saved(w, m, p, key, now, f).1.error != RollbackFailed
    ensures var u := Saved(w, m, p, key, now, f).0;
      && (SameSecrets(w, u) <==> !SecretLate(w, p, key, f))
      && (u.connections == w.connections <==> !RecordLate(w, m, p, key, now, f))
  {
    NewlinesRoundTrip(key);
    if Reached(w, p, f) {
      GetIsStored(w, p, f.get);
      var (u, r) := StoreSet(w, p, key, f.put);
      if r.Bad? {
        SetFailed(w, p, key, f.put);
      } else {
        SetThenGet(w, p, key, f.put);
        var v := WriteConnections(u, u.connections[p := RecordFor(m, r.value, now)], f.write).0;
        RollbackRestores(w, v, p, f.back);
        SameRecord(w.connections, p, RecordFor(m, r.value, now));
      }
    }
  }

  lemma SameRecord(file: Connections, p: string, record: Record)
    ensures file[p := record] == file <==> p in file && file[p] == record
  {
    if file[p := record] == file { assert p in file[p := record] && file[p := record][p] == record; }
  }

  /** All or nothing, when failing writes fail before their rename. */
  lemma SaveAllOrNothing(w: World, manifests: map<string, Manifest>, p: string, key: string, now: nat, f: Faults)
    requires f.put.file != Late && f.write != Late
    ensures var (u, r) := SaveApiKey(w, manifests, p, key, now, f);
      match r
      case Good(_) => Stored(u, p) == Some(Trim(key)) && p in u.connections
                      && u.connections[p].credential == (if w.keyringUp then Keyring else File)
      case Bad(e) => e == RollbackFailed || (SameSecrets(w, u) && u.connections == w.connections)
  {
    var (u, r) := SaveApiKey(w, manifests, p, key, now, f);
    if r.Good? {
      SaveOk(w, manifests, p, key, now, f);
    } else if SaveChecked(manifests, p, key).Good? && r.error != RollbackFailed {
      TrimmedIsBare(key);
      SaveErr(w, manifests[p], p, Trim(key), now, f);
    }
  }

  /** A saved key is the one used for requests, and forgetting it leaves neither secret nor record. */
  lemma SavedKeyIsUsed(
    w: World, manifests: map<string, Manifest>, p: string, key: string, now: nat, f: Faults, env: map<string, string>)
    requires SaveApiKey(w, manifests, p, key, now, f).1.Good?
    ensures p in manifests
    ensures Resolved(SaveApiKey(w, manifests, p, key, now, f).0, manifests[p], p, env) == Good(Some(Trim(key)))
  {
    SaveOk(w, manifests, p, key, now, f);
  }

  lemma ForgetOk(w: World, p: string, f: Faults)
    requires Forgotten(w, p, f).1.Good?
    ensures var (u, r) := Forgotten(w, p, f);
      && Stored(u, p) == None && u.connections == w.connections - {p}
      && (r.value <==> p in w.connections || Stored(w, p).Some?)
    ensures forall q: string :: q != p ==> Stored(Forgotten(w, p, f).0, q) == Stored(w, q)
  {
    GetIsStored(w, p, f.get);
    DeleteThenGet(w, p, f.put);
  }

  /** What deleting takes away: all of it, or the copy that would be read, or nothing. */
  lemma DeleteLoses(w: World, p: string, f: StoreFaults)
    ensures var u := StoreDelete(w, p, f).0;
      Stored(u, p) ==
        if w.keyringUp && p in w.keyring && !f.keyringOk then Stored(w, p)
        else if f.file == Fine then None
        else if p in w.secretFiles then Some(TrimNewlines(w.secretFiles[p]))
        else None
  {
  }

  /** What deleting cannot take away: nothing stored, a keyring entry that resists, or a file that resists and
      reads the same as what is stored. */
  predicate Resists(w: World, p: string, f: StoreFaults) {
    || Stored(w, p).None?
    || (w.keyringUp && p in w.keyring && !f.keyringOk)
    || (f.file != Fine && p in w.secretFiles && Stored(w, p) == Some(TrimNewlines(w.secretFiles[p])))
  }

  /** A forget that fails touches no one else, keeps the record exactly if its write did not get as far as
      the rename, and keeps the secret exactly if it was not tried or the secret resisted. */
  lemma ForgetErr(w: World, p: string, f: Faults)
    requires Forgotten(w, p, f).1.Bad?
    ensures var u := Forgotten(w, p, f).0;
      && (u.connections == w.connections <==>
            !(Reached(w, p, f) && StoreDelete(w, p, f.put).1.Good? && f.write == Late && p in w.connections))
      && (Stored(u, p) == Stored(w, p) <==> !Reached(w, p, f) || Resists(w, p, f.put))
      && forall q: string :: q != p ==> Stored(u, q) == Stored(w, q)
  {
    if Reached(w, p, f) {
      DeleteLoses(w, p, f.put);
      if p !in w.connections { assert w.connections - {p} == w.connections; }
    }
  }

  /** A key forgotten while there was no keyring is read again once there is one, exactly if the keyring
      holds an entry for the provider. */
  lemma ForgottenComesBack(w: World, p: string, f: Faults)
    requires !w.keyringUp && Forgotten(w, p, f).1.Good?
    ensures var u := Forgotten(w, p, f).0;
      Stored(u.(keyringUp := true), p) == (if p in w.keyring then Some(w.keyring[p]) else None)
  {
    ForgetOk(w, p, f);
  }

  /** The failing family is not empty: the permissions of the connections file cannot be set. */
  lemma LateWriteKeepsRecord(w: World, m: Manifest, p: string, key: string, now: nat)
    requires Bare(key) && p !in w.connections && p !in w.secretFiles && p !in w.keyring
    ensures var fine := StoreFaults(true, Fine);
      var (u, r) := Saved(w, m, p, key, now, Faults(true, true, fine, fine, Late, fine));
      r == Bad(Failed) && p in u.connections && Stored(u, p) == None
  {
  }

  /** A key saved while there was no keyring is still the one read once there is one, exactly if the
      keyring holds no other, older value for the provider. */
  lemma KeyringComesBack(w: World, manifests: map<string, Manifest>, p: string, key: string, now: nat, f: Faults)
    requires !w.keyringUp && SaveApiKey(w, manifests, p, key, now, f).1.Good?
    ensures var u := SaveApiKey(w, manifests, p, key, now, f).0;
      Stored(u.(keyringUp := true), p) == Some(Trim(key)) <==> (p in w.keyring ==> w.keyring[p] == Trim(key))
  {
    SaveOk(w, manifests, p, key, now, f);
  }
}
