/** The on-disk voice model: verification by size and digest, the in-process memory of files that
    passed, and the resumable download (crates/workshop-voice/src/store.rs).  Servers and local I/O
    do whatever the environment chooses; the digest is an arbitrary function. */
module ModelStore {
  import opened Text
  import opened ByteStreams
  import opened Seqs

  type bytes = seq<byte>
  type Digest = bytes -> string

  datatype Pin = Pin(size: nat, sha256: string)

  datatype File = File(content: bytes, mtime: Option<int>)

  /** What `stat` tells of a file. */
  datatype Stamp = Stamp(len: nat, mtime: Option<int>)

  datatype Version = Version(stamp: Stamp, content: bytes)

  datatype Status = Ready | Missing | WrongSize(actual: nat) | BadChecksum(digest: string)

  const ATTEMPTS := 3

  function StampOf(f: File): Stamp { Stamp(|f.content|, f.mtime) }

  function VersionOf(f: File): Version { Version(StampOf(f), f.content) }

  predicate Genuine(content: bytes, pin: Pin, sha256: Digest) {
    |content| == pin.size && sha256(content) == pin.sha256
  }

  function QuickStatusOf(model: Option<File>, pin: Pin): Status {
    if model.None? then Missing
    else if |model.value.content| == pin.size then Ready
    else WrongSize(|model.value.content|)
  }

  /** What a full check of the file says. */
  function StatusOf(model: Option<File>, pin: Pin, sha256: Digest): Status {
    if QuickStatusOf(model, pin).Ready? then
      var actual := sha256(model.value.content);
      if actual == pin.sha256 then Ready else BadChecksum(actual)
    else QuickStatusOf(model, pin)
  }

  /** Length and modification time determine the content, over every version in `seen`. */
  ghost predicate Determinate(seen: set<Version>) {
    forall v, w :: v in seen && w in seen && v.stamp == w.stamp ==> v.content == w.content
  }

  /** A partial that would be resumed, though it is not a beginning of the pinned file. */
  predicate Corrupt(partial: Option<bytes>, pinned: bytes) {
    partial.Some? && 0 < |partial.value| < |pinned| && !(partial.value <= pinned)
  }

  /** What the cheap check says, given the marker of the last file that passed. */
  function CachedStatusOf(model: Option<File>, marker: Option<Stamp>, pin: Pin, sha256: Digest): Status {
    if model.Some? && |model.value.content| == pin.size && marker == Some(StampOf(model.value)) then Ready
    else StatusOf(model, pin, sha256)
  }

  /** The marker was made for a version in `seen` that really had the pinned size and digest. */
  ghost predicate Earned(marker: Stamp, seen: set<Version>, pin: Pin, sha256: Digest) {
    exists v :: v in seen && v.stamp == marker && Genuine(v.content, pin, sha256)
  }

  /** The cheap check agrees with the full one when length and modification time determine the
      content. */
  lemma CachedAgrees(model: Option<File>, marker: Option<Stamp>, seen: set<Version>, pin: Pin, sha256: Digest)
    requires Determinate(seen)
    requires model.Some? ==> VersionOf(model.value) in seen
    requires marker.Some? ==> Earned(marker.value, seen, pin, sha256)
    ensures CachedStatusOf(model, marker, pin, sha256) == StatusOf(model, pin, sha256)
  {
    if model.Some? && marker == Some(StampOf(model.value)) {
      var v :| v in seen && v.stamp == marker.value && Genuine(v.content, pin, sha256);
      assert v.stamp == VersionOf(model.value).stamp;
    }
  }

  /** Otherwise it need not: a forged file of the same length and time passes as ready. */
  lemma StampAloneFooled(genuine: bytes, forged: bytes, time: Option<int>, pin: Pin, sha256: Digest)
    requires Genuine(genuine, pin, sha256) && |forged| == |genuine| && sha256(forged) != pin.sha256
    ensures var marker := StampOf(File(genuine, time));
      Earned(marker, {VersionOf(File(genuine, time)), VersionOf(File(forged, time))}, pin, sha256)
      && CachedStatusOf(Some(File(forged, time)), Some(marker), pin, sha256).Ready?
      && !StatusOf(Some(File(forged, time)), pin, sha256).Ready?
  {
    assert VersionOf(File(genuine, time)).content == genuine;
  }

  // ------------------------------------------------------------ the network

  datatype End = Finished | Stalled | ReadError

  datatype Response =
    | NoAnswer
    | Response(status: nat, length: Option<nat>, chunks: seq<bytes>, end: End)

  /** A server's answer to one attempt, with or without `Range: bytes=n-`. */
  type Server = (nat, Option<nat>) -> Response

  function Flat(chunks: seq<bytes>): bytes {
    if chunks == [] then [] else Flat(chunks[..|chunks| - 1]) + chunks[|chunks| - 1]
  }

  predicate ServesAll(r: Response, pinned: bytes) {
    && r.Response? && 200 <= r.status < 300 && r.status != 206 && r.end.Finished?
    && (r.length.Some? ==> r.length.value == |pinned|) && Flat(r.chunks) == pinned
  }

  predicate ServesRest(r: Response, from: nat, pinned: bytes) {
    r.Response? && r.status == 206 && r.end.Finished? && from <= |pinned| && Flat(r.chunks) == pinned[from..]
  }

  /** The server serves the pinned bytes, honouring a range request or ignoring it. */
  ghost predicate Serves(server: Server, pinned: bytes) {
    && (forall attempt: nat :: ServesAll(server(attempt, None), pinned))
    && (forall attempt: nat, n: nat :: n < |pinned| ==>
          ServesAll(server(attempt, Some(n)), pinned) || ServesRest(server(attempt, Some(n)), n, pinned))
  }

  /** What a download asks for: the rest of a partial shorter than the file, otherwise all of it. */
  function Asked(partial: Option<bytes>, pin: Pin): Option<nat> {
    if partial.Some? && 0 < |partial.value| < pin.size then Some(|partial.value|) else None
  }

  /** The answer is all the download needs: the whole file, or the rest of a partial that begins it. */
  predicate Suffices(r: Response, partial: Option<bytes>, pinned: bytes, pin: Pin) {
    || ServesAll(r, pinned)
    || (Asked(partial, pin).Some? && partial.value <= pinned && ServesRest(r, |partial.value|, pinned))
  }

  /** The server sends some of what was missing, and may break off. */
  predicate ServesSome(r: Response, partial: bytes, pin: Pin) {
    r.Response? && r.status == 206 && |partial| + |Flat(r.chunks)| < pin.size
  }

  lemma ServingSuffices(server: Server, attempt: nat, partial: Option<bytes>, pinned: bytes, pin: Pin)
    requires Serves(server, pinned) && |pinned| == pin.size
    ensures var r := server(attempt, Asked(partial, pin));
      Suffices(r, partial, pinned, pin) || (Corrupt(partial, pinned) && ServesRest(r, |partial.value|, pinned))
  {
  }

  // -------------------------------------------------------------- local I/O

  /** How the local operations of one attempt go; `wrote(i)` is how much of chunk `i` is written
      before an error, `None` for all of it. */
  datatype Local = Local(
    partialStat: bool, removed: bool, space: bool, readBack: bool, reopened: bool, created: bool,
    wrote: nat -> Option<nat>, flushed: bool, renamed: bool, stat: bool, mtime: Option<int>)

  ghost predicate LocalOk(l: Local) {
    && l.partialStat && l.removed && l.space && l.readBack && l.reopened && l.created
    && (forall i :: l.wrote(i).None?) && l.flushed && l.renamed && l.stat
  }

  /** Attempt `k` meets a server of the pinned bytes, and local I/O works. */
  ghost predicate Good(servers: seq<Server>, locals: nat -> Local, k: nat, pinned: bytes)
    requires servers != [] && k > 0
  {
    Serves(servers[(k - 1) % |servers|], pinned) && LocalOk(locals(k))
  }

  /** Two attempts in a row do. */
  ghost predicate TwoGood(servers: seq<Server>, locals: nat -> Local, k: nat, pinned: bytes)
    requires servers != [] && k > 0
  {
    Good(servers, locals, k, pinned) && Good(servers, locals, k + 1, pinned)
  }

  class Store {
    var model: Option<File>
    var partial: Option<bytes>
    var verified: Option<Stamp>    // this process's marker for the model's path
    ghost var seen: set<Version>   // every version the model file ever had
    const pin: Pin
    const sha256: Digest

    /** A marker was made for a version that really had the pinned size and digest. */
    ghost predicate Valid()
      reads this
    {
      && (model.Some? ==> VersionOf(model.value) in seen)
      && (verified.Some? ==> Earned(verified.value, seen, pin, sha256))
    }

    constructor (pin: Pin, sha256: Digest, model: Option<File>, partial: Option<bytes>)
      ensures Valid() && this.pin == pin && this.sha256 == sha256 && this.model == model && this.partial == partial
    {
      this.pin, this.sha256, this.model, this.partial := pin, sha256, model, partial;
      verified := None;
      seen := if model.Some? then {VersionOf(model.value)} else {};
    }

    /** Anyone else may replace either file at any time between operations. */
    method Interfere(newModel: Option<File>, newPartial: Option<bytes>)
      requires Valid()
      modifies this
      ensures Valid() && old(seen) <= seen && model == newModel && partial == newPartial
      ensures verified == old(verified)
    {
      model, partial := newModel, newPartial;
      if newModel.Some? { seen := seen + {VersionOf(newModel.value)}; }
    }

    method RememberVerified(stat: bool)
      requires Valid() && model.Some? && Genuine(model.value.content, pin, sha256)
      modifies this`verified
      ensures Valid()
      ensures verified == if stat then Some(StampOf(model.value)) else old(verified)
    {
      if stat { verified := Some(StampOf(model.value)); }
    }

    method CheckStatus(readable: bool, stat: bool) returns (s: Status)
      requires Valid()
      modifies this`verified
      ensures Valid()
      ensures s == if readable || !QuickStatusOf(model, pin).Ready? then StatusOf(model, pin, sha256) else Missing
      ensures verified == if s.Ready? && stat then Some(StampOf(model.value)) else old(verified)
      ensures s.Ready? ==> model.Some? && Genuine(model.value.content, pin, sha256)
    {
      s := QuickStatusOf(model, pin);
      if !s.Ready? { return; }
      if !readable { return Missing; }
      var actual := sha256(model.value.content);
      if actual == pin.sha256 {
        RememberVerified(stat);
        s := Ready;
      } else {
        s := BadChecksum(actual);
      }
    }

    /** The cheap check agrees with the full one as long as length and modification time determine
        the content. */
    method StatusCached(readable: bool, stat: bool) returns (s: Status)
      requires Valid()
      modifies this`verified
      ensures Valid()
      ensures readable ==> s == CachedStatusOf(model, old(verified), pin, sha256)
      ensures Determinate(seen) && readable ==> s == StatusOf(model, pin, sha256)
      ensures model.Some? && Genuine(model.value.content, pin, sha256) ==> s.Ready? || (s.Missing? && !readable)
      ensures s.Ready? && stat ==> model.Some? && verified == Some(StampOf(model.value))
      ensures verified == old(verified) || s.Ready?
      ensures Determinate(seen) && s.Ready? ==> model.Some? && Genuine(model.value.content, pin, sha256)
    {
      if Determinate(seen) { CachedAgrees(model, verified, seen, pin, sha256); }
      if model.Some? && |model.value.content| == pin.size && verified == Some(StampOf(model.value)) {
        return Ready;
      }
      s := CheckStatus(readable, stat);
    }

    /** However often anyone replaces the files between checks, each cheap check says what a full one would,
        as long as length and modification time tell apart all the versions there ever were. */
    method CheckAmid(changes: seq<(Option<File>, Option<bytes>)>, stat: bool) returns (found: seq<Status>)
      requires Valid()
      modifies this
      ensures Valid() && old(seen) <= seen && |found| == |changes|
      ensures Determinate(seen) ==>
        forall i :: 0 <= i < |changes| ==> found[i] == StatusOf(changes[i].0, pin, sha256)
    {
      found := [];
      var i := 0;
      while i < |changes|
        invariant Valid() && old(seen) <= seen && 0 <= i <= |changes| && |found| == i
        invariant Determinate(seen) ==> forall k :: 0 <= k < i ==> found[k] == StatusOf(changes[k].0, pin, sha256)
      {
        Interfere(changes[i].0, changes[i].1);
        var s := StatusCached(true, stat);
        found, i := found + [s], i + 1;
      }
    }

    method ForgetVerified()
      requires Valid()
      modifies this`verified
      ensures Valid() && verified.None?
    {
      verified := None;
    }

    method RemoveBadModel(removed: bool)
      requires Valid()
      modifies this`model, this`verified
      ensures Valid() && verified.None? && model == if removed then None else old(model)
    {
      if removed { model := None; }
      ForgetVerified();
    }

    /** How much of an existing partial to resume from: all of it when it is shorter than the file,
        otherwise nothing. */
    method ResumePoint(local: Local) returns (have: nat)
      modifies this`partial
      ensures have == if local.partialStat && Asked(old(partial), pin).Some? then |old(partial).value| else 0
      ensures partial == old(partial) || (partial.None? && |old(partial).value| >= pin.size)
    {
      have := 0;
      if partial.Some? && local.partialStat {
        if |partial.value| < pin.size {
          have := |partial.value|;
        } else if local.removed {
          partial := None;
        }
      }
    }

    /** Ask for what is missing; `have` is how much the answer goes on from. */
    method Ask(server: Server, attempt: nat, local: Local) returns (resp: Response, have: nat)
      modifies this`partial
      ensures partial == old(partial) || (partial.None? && |old(partial).value| >= pin.size)
      ensures have > 0 ==> partial == old(partial) && Asked(partial, pin) == Some(have)
      ensures var r, asked := server(attempt, Asked(old(partial), pin)), Asked(old(partial), pin);
        LocalOk(local) && r.Response? && 200 <= r.status < 300
        && (r.status == 206 || r.length.None? || r.length.value == pin.size)
        ==> resp == r && have == if r.status == 206 && asked.Some? then asked.value else 0
    {
      have := ResumePoint(local);
      if !local.space { return NoAnswer, have; }
      resp := server(attempt, if have > 0 then Some(have) else None);
      if resp.NoAnswer? { return; }
      var resumed := resp.status == 206;
      if !(200 <= resp.status < 300 || resumed) { return NoAnswer, have; }
      if have > 0 && !resumed { have := 0; }
      if resp.length.Some? && have + resp.length.value != pin.size && !resumed { return NoAnswer, have; }
    }

    /** Stream the body into the partial file, hashing as it goes: `hasher` is what the digest has
        absorbed, and while streaming that is exactly what the partial file holds. */
    method Receive(resp: Response, have: nat, local: Local) returns (complete: bool, hasher: bytes)
      requires resp.Response?
      requires have > 0 ==> have < pin.size && partial.Some? && |partial.value| == have
      modifies this`partial
      ensures complete ==> partial == Some(hasher) && |hasher| <= pin.size
      ensures complete ==> hasher == (if have > 0 then old(partial).value else []) + Flat(resp.chunks)
      ensures partial.Some? && |partial.value| > pin.size ==> partial == old(partial)
      ensures LocalOk(local) && have + |Flat(resp.chunks)| <= pin.size ==>
        && (complete <==> resp.end.Finished?)
        && partial == Some((if have > 0 then old(partial).value else []) + Flat(resp.chunks))
    {
      complete, hasher := false, [];
      if have > 0 {
        if !local.readBack { return; }
        hasher := partial.value;
        if !local.reopened { return; }
      } else {
        if !local.created { return; }
        partial := Some([]);
      }
      ghost var start := hasher;
      var received, i := have, 0;
      while i < |resp.chunks|
        invariant 0 <= i <= |resp.chunks|
        invariant partial == Some(hasher) && received == |hasher| <= pin.size
        invariant hasher == start + Flat(resp.chunks[..i])
      {
        var chunk := resp.chunks[i];
        FlatTo(resp.chunks, i);
        received := received + |chunk|;
        if received > pin.size {
          if local.removed { partial := None; }
          return;
        }
        hasher := hasher + chunk;
        var cut := local.wrote(i);
        if cut.Some? {
          partial := Some(partial.value + if cut.value <= |chunk| then chunk[..cut.value] else chunk);
          return;
        }
        partial := Some(partial.value + chunk);
        i := i + 1;
      }
      assert resp.chunks[..i] == resp.chunks;
      complete := resp.end.Finished? && local.flushed;
    }

    /** Ask for what is missing and receive it. */
    method Fetch(server: Server, attempt: nat, local: Local, ghost pinned: bytes)
      returns (complete: bool, hasher: bytes)
      modifies this`partial
      ensures complete ==> partial == Some(hasher) && |hasher| <= pin.size
      ensures partial.Some? && |partial.value| > pin.size ==> partial == old(partial)
      ensures var r := server(attempt, Asked(old(partial), pin));
        LocalOk(local) && |pinned| == pin.size && Suffices(r, old(partial), pinned, pin) ==>
          complete && hasher == pinned
      ensures |pinned| == pin.size && Corrupt(old(partial), pinned) && LocalOk(local)
              && ServesRest(server(attempt, Asked(old(partial), pin)), |old(partial).value|, pinned)
              ==> complete && |hasher| == pin.size
      ensures var r := server(attempt, Asked(old(partial), pin));
        LocalOk(local) && Asked(old(partial), pin).Some? && ServesSome(r, old(partial).value, pin) ==>
          partial == Some(old(partial).value + Flat(r.chunks)) && (complete ==> |hasher| < pin.size)
    {
      var resp, have := Ask(server, attempt, local);
      if resp.NoAnswer? { return false, []; }
      FromNothing(Flat(resp.chunks));
      if have > 0 && partial.value <= pinned && |pinned| == pin.size {
        assert partial.value + pinned[have..] == pinned;
      }
      complete, hasher := Receive(resp, have, local);
    }

    /** Check what was received and put it in the model's place.  What is incomplete is kept, what is wrong
        is removed. */
    method Install(hasher: bytes, local: Local) returns (ok: bool)
      requires Valid() && partial == Some(hasher)
      modifies this
      ensures Valid() && old(seen) <= seen
      ensures ok <==> Genuine(hasher, pin, sha256) && local.renamed
      ensures ok ==> model == Some(File(hasher, local.mtime)) && partial.None?
      ensures ok && local.stat ==> verified == Some(StampOf(model.value))
      ensures !ok ==> model == old(model) && verified == old(verified)
      ensures !ok ==>
        partial == if |hasher| == pin.size && sha256(hasher) != pin.sha256 && local.removed then None else Some(hasher)
    {
      if |hasher| != pin.size { return false; }
      if sha256(hasher) != pin.sha256 {
        if local.removed { partial := None; }
        return false;
      }
      if !local.renamed { return false; }
      model, partial := Some(File(partial.value, local.mtime)), None;
      seen := seen + {VersionOf(model.value)};
      RememberVerified(local.stat);
      ok := true;
    }

    /** One attempt.  Success means the model file is genuine; failure leaves it alone.  The partial
        file is never written beyond the pinned size.  Against a server of the pinned bytes, with
        local I/O working, an attempt fails only when it resumed from a corrupt partial, and has then
        removed it.  A good partial needs only the rest of the file, and keeps what it gets when the
        server breaks off. */
    method DownloadOnce(server: Server, attempt: nat, local: Local, ghost pinned: bytes) returns (ok: bool)
      requires Valid()
      modifies this
      ensures Valid() && old(seen) <= seen
      ensures ok ==> model.Some? && Genuine(model.value.content, pin, sha256) && partial.None?
      ensures !ok ==> model == old(model) && verified == old(verified)
      ensures partial.Some? && |partial.value| > pin.size ==> partial == old(partial)
      ensures var r := server(attempt, Asked(old(partial), pin));
        Genuine(pinned, pin, sha256) && LocalOk(local) && Suffices(r, old(partial), pinned, pin) ==> ok
      ensures Genuine(pinned, pin, sha256) && LocalOk(local) && Serves(server, pinned) ==>
        ok || (partial.None? && Corrupt(old(partial), pinned)
               && server(attempt, Some(|old(partial).value|)).status == 206)
      ensures var r := server(attempt, Asked(old(partial), pin));
        LocalOk(local) && Asked(old(partial), pin).Some? && ServesSome(r, old(partial).value, pin) ==>
          !ok && partial == Some(old(partial).value + Flat(r.chunks))
    {
      if Genuine(pinned, pin, sha256) && Serves(server, pinned) {
        ServingSuffices(server, attempt, partial, pinned, pin);
      }
      var complete, hasher := Fetch(server, attempt, local, pinned);
      if !complete { return false; }
      ok := Install(hasher, local);
    }

    /** Up to three attempts, over the servers in turn.  Two in a row that meet good servers are enough. */
    method Attempts(servers: seq<Server>, locals: nat -> Local, ghost pinned: bytes)
      returns (ok: bool, attempts: nat)
      requires Valid() && servers != []
      modifies this
      ensures Valid() && old(seen) <= seen && 0 < attempts <= ATTEMPTS
      ensures if ok then model.Some? && Genuine(model.value.content, pin, sha256) && partial.None?
              else model == old(model) && attempts == ATTEMPTS
      ensures partial.Some? && |partial.value| > pin.size ==> partial == old(partial)
      ensures Genuine(pinned, pin, sha256) && (exists k :: 1 <= k < ATTEMPTS && TwoGood(servers, locals, k, pinned))
              ==> ok
      ensures Genuine(pinned, pin, sha256) && Good(servers, locals, 1, pinned) && !Corrupt(old(partial), pinned)
              ==> ok && attempts == 1
      ensures Genuine(pinned, pin, sha256) && TwoGood(servers, locals, 1, pinned) ==> attempts <= 2
    {
      ok, attempts := false, 0;
      while attempts < ATTEMPTS && !ok
        invariant Valid() && old(seen) <= seen && 0 <= attempts <= ATTEMPTS
        invariant if ok then model.Some? && Genuine(model.value.content, pin, sha256) && partial.None? && attempts > 0
                  else model == old(model)
        invariant partial.Some? && |partial.value| > pin.size ==> partial == old(partial)
        invariant attempts == 0 ==> partial == old(partial)
        invariant Genuine(pinned, pin, sha256) && attempts > 0 && Good(servers, locals, attempts, pinned) ==>
                    ok || partial.None?
        invariant Genuine(pinned, pin, sha256) && !ok ==>
                    forall k :: 1 <= k < attempts ==> !TwoGood(servers, locals, k, pinned)
        invariant Genuine(pinned, pin, sha256) && Good(servers, locals, 1, pinned) && !Corrupt(old(partial), pinned) ==>
                    attempts <= 1 && (attempts == 1 ==> ok)
        invariant Genuine(pinned, pin, sha256) && TwoGood(servers, locals, 1, pinned) ==>
                    attempts <= 2 && (attempts == 2 ==> ok)
      {
        attempts := attempts + 1;
        var server := servers[(attempts - 1) % |servers|];
        ok := DownloadOnce(server, attempts, locals(attempts), pinned);
      }
    }

    /** Make the model present and verified.  `Ok` means verified bytes, as long as length and
        modification time determine the content of the file; the file only ever changes by being
        removed or by a genuine one taking its place.  A readable genuine file is left alone and nothing is
        asked of anyone; a genuine one is never removed, a bad one is.  If every server serves the pinned
        bytes and local I/O works, this succeeds from any state on disk: at the second attempt if the
        partial file was corrupt, at the first otherwise. */
    method EnsureFrom(servers: seq<Server>, locals: nat -> Local, readable: bool, dirMade: bool, client: bool,
                      ghost pinned: bytes)
      returns (ok: bool, attempts: nat)
      requires Valid()
      modifies this
      ensures Valid() && old(seen) <= seen && attempts <= ATTEMPTS
      ensures ok && Determinate(seen) ==> model.Some? && Genuine(model.value.content, pin, sha256)
      ensures model == old(model) || model.None? || Genuine(model.value.content, pin, sha256)
      ensures readable && old(model).Some? && Genuine(old(model).value.content, pin, sha256) ==>
        ok && attempts == 0 && model == old(model) && partial == old(partial)
      ensures old(model).Some? && model.None? ==> !Genuine(old(model).value.content, pin, sha256)
      ensures Determinate(seen) && readable && locals(0).removed && !ok ==> model.None?
      ensures attempts == 0 ==> partial == old(partial)
      ensures !ok && servers != [] && dirMade && client ==> attempts == ATTEMPTS
      ensures partial.Some? && |partial.value| > pin.size ==> partial == old(partial)
      ensures Genuine(pinned, pin, sha256) && servers != [] && dirMade && client
              && (exists k :: 1 <= k < ATTEMPTS && TwoGood(servers, locals, k, pinned))
              ==> ok
      ensures Genuine(pinned, pin, sha256) && servers != [] && dirMade && client
              && (forall i :: 0 <= i < |servers| ==> Serves(servers[i], pinned)) && (forall n :: LocalOk(locals(n)))
              ==> ok && attempts <= if Corrupt(old(partial), pinned) then 2 else 1
    {
      attempts := 0;
      var status := StatusCached(readable, locals(0).stat);
      if status.Ready? { return true, 0; }
      if !status.Missing? { RemoveBadModel(locals(0).removed); }
      if servers == [] || !dirMade || !client { return false, 0; }
      ok, attempts := Attempts(servers, locals, pinned);
    }
  }

  lemma {:induction false} FlatTo(chunks: seq<bytes>, i: nat)
    requires i < |chunks|
    ensures Flat(chunks[..i + 1]) == Flat(chunks[..i]) + chunks[i]
    ensures |Flat(chunks[..i + 1])| <= |Flat(chunks)|
  {
    assert chunks[..i + 1][..i] == chunks[..i];
    var n := |chunks| - 1;
    if i < n {
      FlatTo(chunks[..n], i);
      assert chunks[..n][..i + 1] == chunks[..i + 1];
    } else {
      assert chunks[..i + 1] == chunks;
    }
  }
}
