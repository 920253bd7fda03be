/** Which saves and forgets succeed, what the others answer, and which credential a request gets: told of the
    manifest, the key and the faults, without the functions of `CredentialBroker`. */
module CredentialOutcomes {
  import opened Text
  import opened ConnectionsFile
  import opened CredentialBroker

  /** A read of the secret goes well: the keyring answers, and the file is readable if it is asked. */
  predicate CanRead(w: World, p: string, f: StoreFaults) {
    (w.keyringUp ==> f.keyringOk) && ((w.keyringUp && p in w.keyring) || f.file == Fine)
  }

  /** The lock is taken and both reads go well. */
  predicate ReadsGoWell(w: World, p: string, f: Faults) {
    f.lockOk && f.readOk && CanRead(w, p, f.get)
  }

  /** A write of the secret goes well; with a keyring the file does not matter. */
  predicate CanStore(w: World, f: StoreFaults) {
    if w.keyringUp then f.keyringOk else f.file == Fine
  }

  /** A removal of the secret goes well: in both places. */
  predicate CanDelete(w: World, f: StoreFaults) {
    (w.keyringUp ==> f.keyringOk) && f.file == Fine
  }

  /** The provider is one that takes a key. */
  predicate TakesKey(manifests: map<string, Manifest>, p: string) {
    p in manifests && manifests[p].auth && manifests[p].acceptsKey
  }

  /** A save succeeds exactly when the provider takes a key, there is one, and the lock, the reads and the two
      writes go well. */
  lemma SaveSucceedsIff(w: World, manifests: map<string, Manifest>, p: string, key: string, now: nat, f: Faults)
    ensures SaveApiKey(w, manifests, p, key, now, f).1.Good? <==>
      && ValidId(p) && TakesKey(manifests, p) && Trim(key) != ""
      && ReadsGoWell(w, p, f) && CanStore(w, f.put) && f.write == Fine
  {
  }

  /** An id is never empty and never leads out of the directory the secret files are in. */
  lemma IdNamesAFile(p: string)
    requires ValidId(p)
    ensures p != "" && '/' !in p && '\\' !in p && '\0' !in p
  {
  }

  /** What a save that is refused answers, in this order; nothing is touched. */
  lemma SaveRefused(w: World, manifests: map<string, Manifest>, p: string, key: string, now: nat, f: Faults)
    ensures var (u, r) := SaveApiKey(w, manifests, p, key, now, f);
      && (!ValidId(p) ==> u == w && r == Bad(InvalidProviderId))
      && (ValidId(p) && p !in manifests ==> u == w && r == Bad(UnknownProvider))
      && (ValidId(p) && p in manifests && Trim(key) == "" ==> u == w && r == Bad(EmptyKey))
      && (ValidId(p) && p in manifests && Trim(key) != "" && !TakesKey(manifests, p) ==>
            u == w && r == Bad(UnknownProvider))
      && (ValidId(p) && TakesKey(manifests, p) && Trim(key) != "" && r.Bad? ==>
            r.error == Failed || r.error == RollbackFailed)
      && (ValidId(p) && TakesKey(manifests, p) && Trim(key) != "" && !ReadsGoWell(w, p, f) ==>
            u == w && r == Bad(Failed))
  {
  }

  /** A failed rollback is reported exactly when the connections could not be written and the secret that was
      there before, or its absence, could not be put back. */
  lemma RollbackFailsIff(w: World, manifests: map<string, Manifest>, p: string, key: string, now: nat, f: Faults)
    requires ValidId(p) && TakesKey(manifests, p) && Trim(key) != ""
    ensures SaveApiKey(w, manifests, p, key, now, f).1 == Bad(RollbackFailed) <==>
      && ReadsGoWell(w, p, f) && CanStore(w, f.put) && f.write != Fine
      && !(if Stored(w, p).Some? then CanStore(w, f.back) else CanDelete(w, f.back))
  {
  }

  /** The record of a saved key, field by field. */
  lemma SavedRecord(w: World, manifests: map<string, Manifest>, p: string, key: string, now: nat, f: Faults)
    requires SaveApiKey(w, manifests, p, key, now, f).1.Good?
    ensures var u := SaveApiKey(w, manifests, p, key, now, f).0;
      && p in manifests && p in u.connections && u.connections.Keys == w.connections.Keys + {p}
      && (forall q :: q in w.connections && q != p ==> u.connections[q] == w.connections[q])
      && u.connections[p].local == manifests[p].local
      && u.connections[p].allowedHosts == manifests[p].allowedHosts
      && u.connections[p].savedAt == now
      && u.connections[p].credential == (if w.keyringUp then Keyring else File)
      && (if w.keyringUp then p in u.keyring && u.keyring[p] == Trim(key)
          else p in u.secretFiles && u.secretFiles[p] == Trim(key) + "\n")
      && (w.keyringUp && f.put.file == Fine ==> p !in u.secretFiles)
  {
    SaveOk(w, manifests, p, key, now, f);
  }

  /** A forget succeeds exactly when the lock, the reads, the two removals and the write go well. */
  lemma ForgetSucceedsIff(w: World, p: string, f: Faults)
    ensures Forgotten(w, p, f).1.Good? <==>
      ReadsGoWell(w, p, f) && CanDelete(w, f.put) && f.write == Fine
    ensures Forgotten(w, p, f).1.Bad? ==> Forgotten(w, p, f).1.error == Failed
  {
  }

  // ------------------------------------------------------ what a request gets

  /** The variable is set, and not to nothing. */
  predicate HasValue(env: map<string, string>, v: string) { v in env && env[v] != "" }

  /** A provider without a record: its environment variable if that has a value; without the variable, no
      credential where none is required; a variable set to nothing is an error even there. */
  lemma UnrecordedIff(w: World, m: Manifest, p: string, env: map<string, string>)
    requires m.auth && p !in w.connections
    ensures var r := Resolved(w, m, p, env);
      && (r.Good? && r.value.Some? <==> m.envVar.Some? && HasValue(env, m.envVar.value))
      && (r.Good? && r.value.Some? ==> r.value.value == env[m.envVar.value])
      && (r == Good(None) <==> m.anonymous && (m.envVar.None? || m.envVar.value !in env))
      && (r.Bad? ==> r.error == NoCredentialStored)
  {
  }

  /** A provider with a record gets what the record names, whatever else there is. */
  lemma RecordedIff(w: World, m: Manifest, p: string, env: map<string, string>)
    requires m.auth && p in w.connections
    ensures var r, credential := Resolved(w, m, p, env), w.connections[p].credential;
      && (r == Good(None) <==> credential.NoCredential? && m.anonymous)
      && (r.Good? && r.value.Some? <==>
            (credential.Env? && HasValue(env, credential.variable))
            || ((credential.Keyring? || credential.File?) && Stored(w, p).Some?))
      && (r.Good? && r.value.Some? && credential.Env? ==> r.value.value == env[credential.variable])
      && (r.Good? && r.value.Some? && !credential.Env? ==> r.value == Stored(w, p))
      && (r.Bad? ==> r.error == NoCredentialStored)
  {
  }

  /** A provider that takes no credential gets none, whatever is stored. */
  lemma NoAuthNoCredential(w: World, m: Manifest, p: string, env: map<string, string>)
    requires !m.auth
    ensures Resolved(w, m, p, env) == Good(None)
  {
  }

  /** What a request gets depends on nothing that belongs to another provider. */
  lemma OnlyItsOwn(w: World, u: World, m: Manifest, p: string, env: map<string, string>)
    requires Stored(w, p) == Stored(u, p)
    requires p in w.connections <==> p in u.connections
    requires p in w.connections ==> w.connections[p].credential == u.connections[p].credential
    ensures Resolved(w, m, p, env) == Resolved(u, m, p, env)
  {
  }

  /** A forgotten key is not used again: the provider is left with its environment variable, or nothing. */
  lemma ForgottenIsUnused(w: World, m: Manifest, p: string, f: Faults, env: map<string, string>)
    requires m.auth && Forgotten(w, p, f).1.Good?
    ensures var r := Resolved(Forgotten(w, p, f).0, m, p, env);
      r.Good? && r.value.Some? ==>
        m.envVar.Some? && HasValue(env, m.envVar.value) && r.value.value == env[m.envVar.value]
  {
    ForgetOk(w, p, f);
    UnrecordedIff(Forgotten(w, p, f).0, m, p, env);
  }

  /** How the picker decides that a provider is connected. */
  predicate IsConnected(w: World, m: Manifest, p: string, env: map<string, string>) {
    !RequiresCredential(m) || !CredentialFor(w, m, p, env).NoCredential?
  }

  /** A connected provider has a credential to send, or needs none, unless the secret its record names is gone
      or the variable it would use has no value; and one that is not connected never has. */
  lemma ConnectedResolvesIff(w: World, m: Manifest, p: string, env: map<string, string>)
    ensures Resolved(w, m, p, env).Good? <==>
      && IsConnected(w, m, p, env)
      && (m.auth && p in w.connections && w.connections[p].credential in {Keyring, File} ==> Stored(w, p).Some?)
      && (m.auth && p in w.connections && w.connections[p].credential.Env?
          ==> HasValue(env, w.connections[p].credential.variable))
      && (m.auth && p !in w.connections && m.envVar.Some? && m.envVar.value in env ==> env[m.envVar.value] != "")
  {
  }

  /** A provider that would do without a credential is refused because its variable is set to nothing. */
  lemma EmptyVariableRefused(w: World, p: string, v: string, hosts: seq<string>)
    requires p !in w.connections
    ensures var m := Manifest(false, true, true, true, Some(v), hosts);
      && IsConnected(w, m, p, map[v := ""])
      && Resolved(w, m, p, map[v := ""]) == Bad(NoCredentialStored)
      && Resolved(w, m, p, map[]) == Good(None)
  {
  }
}
