/**
 Everything outside the operator process: the Kubernetes store, the HAProxy gateway,
 and whoever else writes to either of them.

 The store is an append-only log of Secret revisions; a resourceVersion is an index
 into it. The gateway holds the live configuration, its version and the certificate
 storage. `trace` records what happened, for the theorems to talk about.

 The environment is a parameter: `Setup.env(k)` says what happens around the k-th
 atomic action, so a theorem for all setups is a theorem for all interleavings.
 */
module Platform {
  import opened Prelude
  import opened Errors

  // ---------------------------------------------------------------- Secrets

  /** Annotation keys. All but `ForeignKey` carry the operator's own prefix. */
  datatype Key =
    | LastAppliedHash
    | LastObservedHash
    | LastFailedHash
    | StatusKey
    | StatusMessage
    | LastUpdateTime
    | LastAppliedTime
    | CertSync
    | OtherOperatorKey(suffix: string)
    | ForeignKey(name: string)

  datatype Status =
    | Applied
    | MissingKey
    | Failed(cause: ErrorClass)
    | ApplyFailed(cause: ErrorClass)
    | CertSyncFailed(cause: ErrorClass)
    | DriftCheckFailed(cause: ErrorClass)

  datatype CertEntry = CertEntry(hash: Bytes, time: nat)

  /**
   Annotation values. `Hash(b)` is the digest of `b`: hashing is taken to be injective,
   so a digest is named by what it digests. `Empty` is what a missing key reads as.
   */
  datatype Value =
    | Empty
    | Hash(of: Bytes)
    | Pending
    | StatusIs(status: Status)
    | CertState(certs: map<string, CertEntry>)
    | Time(at: nat)
    | Text(text: string)

  type Annotations = map<Key, Value>

  function Lookup(ann: Annotations, k: Key): Value {
    if k in ann then ann[k] else Empty
  }

  datatype Secret = Secret(name: string, data: map<string, Bytes>, labels: map<string, string>, ann: Annotations)

  /** A revision in the store and whether the operator wrote it. */
  datatype Revision = Revision(secret: Secret, byOperator: bool)

  /** The operator's in-memory copy of a Secret and the resourceVersion it was read at. */
  datatype Copy = Copy(rv: nat, secret: Secret)

  type Log = seq<Revision>

  function Latest(log: Log, name: string): (r: Option<nat>)
    ensures r.Some? ==> r.value < |log| && log[r.value].secret.name == name
    ensures r.Some? ==> forall k :: r.value < k < |log| ==> log[k].secret.name != name
    ensures r.None? ==> forall k :: 0 <= k < |log| ==> log[k].secret.name != name
  {
    if |log| == 0 then None
    else if log[|log| - 1].secret.name == name then Some(|log| - 1)
    else Latest(log[..|log| - 1], name)
  }

  predicate Touched(k: Key, before: Annotations, after: Annotations) {
    Lookup(before, k) != Lookup(after, k) || (k in before) != (k in after)
  }

  /** A merge patch: only keys that differ between the two local maps reach the server's map. */
  function Overlay(server: Annotations, before: Annotations, after: Annotations): (r: Annotations)
    ensures forall k :: k in r <==> if Touched(k, before, after) then k in after else k in server
    ensures forall k :: k in r ==> r[k] == if Touched(k, before, after) then after[k] else server[k]
  {
    map k | k in server.Keys + after.Keys && (if Touched(k, before, after) then k in after else k in server) ::
      if Touched(k, before, after) then after[k] else server[k]
  }

  // ---------------------------------------------------------------- the gateway

  datatype Gateway = Gateway(live: Bytes, version: int, storage: map<string, Bytes>)

  /** What the storage GET reports about a stored certificate: no PEM bytes, and possibly no size. */
  datatype Remote = Remote(serial: string, size: nat)

  datatype Reply =
    | Response(status: int)
    | NoResponse(kind: LeafKind, words: Words)

  predicate Ok(r: Reply) {
    r.Response? && 200 <= r.status < 300
  }

  function ErrorOf(r: Reply): (e: Err)
    ensures !IsLocalRejection(e) && AsVersionCheck(e).None?
    ensures AsAPIError(e) == (if r.Response? then Some(r.status) else None)
  {
    match r
    case Response(s) => APIError(s)
    case NoResponse(k, w) => URLError(Leaf(k, w))
  }

  // ---------------------------------------------------------------- the environment

  /** What other actors may do between two actions of the operator. */
  datatype EnvAct =
    | Flux(name: string, data: map<string, Bytes>, labels: map<string, string>)
    | Annotate(name: string, key: string, value: Option<string>)
    | Recreate(name: string, data: map<string, Bytes>, labels: map<string, string>)
    | Tamper(name: string, opKey: Key, opValue: Value)
    | GatewayWrite(raw: Bytes)
    | Reimage(raw: Bytes, version: int)
    | StorageWrite(file: string, content: Bytes)
    | StorageDelete(file: string)

  /** Reads are served from a cache: any revision of the name may come back. */
  datatype ReadMode = Fresh | Stale(index: nat) | Absent

  /** How the API server treats a write: a lost reply may or may not have landed. */
  datatype APIMood = Healthy | Refused | Faulty(lands: bool)

  /** One tick of the environment: what other actors do first, then how the action is answered. */
  datatype Item = Item(
    acts: seq<EnvAct>,
    kill: bool,
    read: ReadMode,
    api: APIMood,
    reply: Reply,
    lands: bool,
    remote: Remote,
    expired: bool,
    cancelled: Option<LeafKind>,
    text: string,
    now: nat)

  /** A block of a PEM file; `serial` is what X.509 parsing yields, if it parses. */
  datatype Block = Block(isCertificate: bool, serial: Option<string>)

  /** The operator's flags, the gateway's fixed behaviour, and the environment. */
  datatype Setup = Setup(
    secretName: string,
    secretKey: string,
    certs: seq<string>,
    driftRemediate: bool,
    versionLocked: bool,
    norm: Bytes -> Bytes,
    pem: Bytes -> seq<Block>,
    env: nat -> Item)

  // ---------------------------------------------------------------- the world

  datatype PostKind = ValidateOnly | Apply

  /** Why a patch was sent. */
  datatype Purpose =
    | RecordApply(applied: Bytes, observed: Value)
    | AdoptBaseline(live: Bytes)
    | ClearCertStatus
    | ClearCheckStatus
    | RecordFailure
    | RecordCert(name: string)

  /**
   `run` numbers the Reconcile an event belongs to; `stored` says whether a POST changed the
   gateway, whatever it was answered.
   */
  datatype Event =
    | Begin(run: nat, name: string)
    | VersionRead(run: nat, version: int)
    | Post(run: nat, kind: PostKind, raw: Bytes, reply: Reply, stored: bool)
    | LiveRead(run: nat, raw: Bytes)
    | CertWrite(run: nat, name: string, bundle: Bytes, reply: Reply)
    | CertSkipped(run: nat, name: string, bundle: Bytes, localSerial: string, remote: Remote)
    | CertSynced(run: nat, name: string)
    | CertNotSynced(run: nat, name: string)
    | Checked(run: nat, applied: Bytes, live: Bytes, expected: Value, drift: bool)
    | Patched(run: nat, base: nat, index: nat, purpose: Purpose)
    | OutOfBand(raw: Bytes)

  /** `down`: the operator process was killed; nothing it does reaches the world any more. */
  datatype World = World(log: Log, gw: Gateway, trace: seq<Event>, clock: nat, run: nat, down: bool)

  function Note(w: World, e: Event): World {
    if w.down then w else w.(trace := w.trace + [e])
  }

  function CurrentAnn(log: Log, name: string): Annotations {
    var l := Latest(log, name);
    if l.Some? then log[l.value].secret.ann else map[]
  }

  function Append(w: World, s: Secret, byOperator: bool): World {
    w.(log := w.log + [Revision(s, byOperator)])
  }

  function EnvStep(w: World, a: EnvAct): World {
    match a
    case Flux(name, data, labels) => Append(w, Secret(name, data, labels, CurrentAnn(w.log, name)), false)
    case Annotate(name, key, value) =>
      var l := Latest(w.log, name);
      if l.None? then w
      else
        var s := w.log[l.value].secret;
        var ann := if value.Some? then s.ann[ForeignKey(key) := Text(value.value)] else s.ann - {ForeignKey(key)};
        Append(w, s.(ann := ann), false)
    case Recreate(name, data, labels) => Append(w, Secret(name, data, labels, map[]), false)
    case Tamper(name, key, value) =>
      var l := Latest(w.log, name);
      if l.None? then w
      else
        var s := w.log[l.value].secret;
        Append(w, s.(ann := s.ann[key := value]), false)
    case GatewayWrite(raw) =>
      w.(gw := w.gw.(live := raw, version := w.gw.version + 1), trace := w.trace + [OutOfBand(raw)])
    case Reimage(raw, version) =>
      w.(gw := w.gw.(live := raw, version := version), trace := w.trace + [OutOfBand(raw)])
    case StorageWrite(file, content) => w.(gw := w.gw.(storage := w.gw.storage[file := content]))
    case StorageDelete(file) => w.(gw := w.gw.(storage := w.gw.storage - {file}))
  }

  function Interfere(w: World, acts: seq<EnvAct>): World
    decreases |acts|
  {
    if acts == [] then w else Interfere(EnvStep(w, acts[0]), acts[1..])
  }

  /** The environment's share of one action: interference, then possibly the death of the process. */
  function Tick(x: Setup, w: World): World {
    var it := x.env(w.clock);
    var v := Interfere(w, it.acts);
    v.(clock := w.clock + 1, down := w.down || it.kill)
  }

  // ---------------------------------------------------------------- API server actions

  datatype GetReply = Found(copy: Copy) | NotFound | GetFailed

  function Get(x: Setup, w: World, name: string): (World, GetReply) {
    var it := x.env(w.clock);
    var v := Tick(x, w);
    if v.down || !it.api.Healthy? then (v, GetFailed)
    else
      match it.read
      case Fresh =>
        var l := Latest(v.log, name);
        if l.Some? then (v, Found(Copy(l.value, v.log[l.value].secret))) else (v, NotFound)
      case Stale(i) =>
        if i < |v.log| && v.log[i].secret.name == name then (v, Found(Copy(i, v.log[i].secret))) else (v, NotFound)
      case Absent => (v, NotFound)
  }

  datatype PatchReply = Committed | Conflict | PatchFailed

  /** A merge patch from `c` to the annotations `ann`, locked on the resourceVersion of `c`. */
  function Patch(x: Setup, w: World, c: Copy, ann: Annotations, purpose: Purpose): (World, Copy, PatchReply) {
    var it := x.env(w.clock);
    var v := Tick(x, w);
    var mutated := c.(secret := c.secret.(ann := ann));
    if v.down || it.api == Faulty(false) then (v, mutated, PatchFailed)
    else if it.api.Refused? then (v, mutated, Conflict)
    else if Latest(v.log, c.secret.name) != Some(c.rv) then
      (v, mutated, if it.api.Healthy? then Conflict else PatchFailed)
    else
      var u := Commit(v, c, ann, purpose);
      if it.api.Healthy? then
        var now := Latest(u.log, c.secret.name).value;
        (u, Copy(now, u.log[now].secret), Committed)
      else (u, mutated, PatchFailed)
  }

  /** The server's side of a patch that passed the resourceVersion check; a patch without effect writes no revision. */
  function Commit(v: World, c: Copy, ann: Annotations, purpose: Purpose): (u: World)
    requires Latest(v.log, c.secret.name) == Some(c.rv)
    ensures Latest(u.log, c.secret.name).Some?
  {
    var server := v.log[c.rv].secret;
    var merged := Overlay(server.ann, c.secret.ann, ann);
    if merged == server.ann then v.(trace := v.trace + [Patched(v.run, c.rv, c.rv, purpose)])
    else
      Append(v, server.(ann := merged), true)
      .(trace := v.trace + [Patched(v.run, c.rv, |v.log|, purpose)])
  }

  // ---------------------------------------------------------------- gateway actions

  const DEAD := Leaf(Opaque, PLAIN)

  function GetVersion(x: Setup, w: World): (World, Result<int, Err>) {
    var it := x.env(w.clock);
    var v := Tick(x, w);
    if v.down then (v, Failure(DEAD))
    else if !Ok(it.reply) then (v, Failure(ErrorOf(it.reply)))
    else (Note(v, VersionRead(v.run, v.gw.version)), Success(v.gw.version))
  }

  /**
   A raw-config POST. A gateway that locks on the version answers 409 to a stale one and
   stores nothing; otherwise even a POST answered with an error may have landed.
   */
  function PostRaw(x: Setup, w: World, kind: PostKind, raw: Bytes, version: int): (World, Option<Err>) {
    var it := x.env(w.clock);
    var v := Tick(x, w);
    if v.down then (v, Some(DEAD))
    else
      var stale := x.versionLocked && version != v.gw.version;
      var reply := if stale then Response(409) else it.reply;
      var stored := kind.Apply? && (Ok(reply) || (it.lands && !stale));
      var u := if stored then v.(gw := v.gw.(live := x.norm(raw), version := v.gw.version + 1)) else v;
      var t := Note(u, Post(u.run, kind, raw, reply, stored));
      if Ok(reply) then (t, None) else (t, Some(ErrorOf(reply)))
  }

  function ReadLive(x: Setup, w: World): (World, Result<Bytes, Err>) {
    var it := x.env(w.clock);
    var v := Tick(x, w);
    if v.down then (v, Failure(DEAD))
    else if !Ok(it.reply) then (v, Failure(ErrorOf(it.reply)))
    else (Note(v, LiveRead(v.run, v.gw.live)), Success(v.gw.live))
  }

  function ReadCertificate(x: Setup, w: World, file: string): (World, Result<Remote, Err>) {
    var it := x.env(w.clock);
    var v := Tick(x, w);
    if v.down then (v, Failure(DEAD))
    else if !Ok(it.reply) then (v, Failure(ErrorOf(it.reply)))
    else if file !in v.gw.storage then (v, Failure(APIError(404)))
    else (v, Success(it.remote))
  }

  /** Create or replace the stored certificate of Secret `name`. */
  function WriteCertificate(x: Setup, w: World, name: string, bundle: Bytes): (World, Option<Err>) {
    var it := x.env(w.clock);
    var v := Tick(x, w);
    if v.down then (v, Some(DEAD))
    else
      var u := if Ok(it.reply) || it.lands
               then v.(gw := v.gw.(storage := v.gw.storage[StorageName(name) := bundle])) else v;
      var t := Note(u, CertWrite(u.run, name, bundle, it.reply));
      if Ok(it.reply) then (t, None) else (t, Some(ErrorOf(it.reply)))
  }

  function StorageName(name: string): string {
    name + ".pem"
  }

  /** Building the Dataplane client (SPIRE source, certificates) may fail until its inputs are ready. */
  function BuildClient(x: Setup, w: World): (World, Option<Err>) {
    var it := x.env(w.clock);
    var v := Tick(x, w);
    if v.down then (v, Some(DEAD))
    else if it.reply.NoResponse? then (v, Some(Context(it.reply.words, Leaf(it.reply.kind, PLAIN))))
    else (v, None)
  }
}
