/**
 One Reconcile as a function of the world and the operator's memory
 (internal/controller/secret_controller.go, internal/controller/certs.go).

 `SecretReconciler` in Controller.dfy is proved to compute these functions; the
 theorems about runs are proved about them.
 */
module Reconciliation {
  import opened Prelude
  import opened Errors
  import opened Platform
  import opened Dataplane
  import Backoff

  /** The fields of the reconciler that survive from one Reconcile to the next, and die with the process. */
  datatype Memory = Memory(
    clientReady: bool,
    transientFailures: nat,
    lastDesired: Option<Bytes>,
    certHashes: map<string, Bytes>)

  const FRESH := Memory(false, 0, None, map[])

  datatype Reason = Interval | TransientFailure | KeyMissing | WriteConflict

  datatype Outcome = Ignored | Errored | Requeue(after: nat, reason: Reason)

  const NEXT_INTERVAL := Requeue(Backoff.REQUEUE_INTERVAL, Interval)

  datatype Step =
    | Done(w: World, m: Memory, out: Outcome)
    | Go(w: World, m: Memory, c: Copy)

  // ---------------------------------------------------------------- status patches

  function FailureAnnotations(ann: Annotations, it: Item, status: Status, failed: Option<Bytes>): Annotations {
    var marked := ann[StatusKey := StatusIs(status)][StatusMessage := Text(it.text)][LastUpdateTime := Time(it.now)];
    if failed.Some? then marked[LastFailedHash := Hash(failed.value)] else marked
  }

  /** The flag is false only for an error that is not a write conflict. */
  function FailWithStatus(x: Setup, w: World, c: Copy, status: Status, failed: Option<Bytes>): (World, Copy, bool) {
    var ann := FailureAnnotations(c.secret.ann, x.env(w.clock), status, failed);
    var (v, d, reply) := Patch(x, w, c, ann, RecordFailure);
    (v, d, !reply.PatchFailed?)
  }

  /** A retryable failure: record it, count it, back off. */
  function Retry(x: Setup, w: World, m: Memory, c: Copy, status: Status): Step {
    var (v, _, recorded) := FailWithStatus(x, w, c, status, None);
    if !recorded then Done(v, m, Errored)
    else
      var n := m.transientFailures + 1;
      Done(v, m.(transientFailures := n), Requeue(Backoff.ForFailure(n), TransientFailure))
  }

  /** A deterministic rejection: the hash is recorded in the same patch as the status. */
  function Reject(x: Setup, w: World, m: Memory, c: Copy, raw: Bytes): Step {
    var (v, _, recorded) := FailWithStatus(x, w, c, Failed(ConfigRejected), Some(raw));
    if recorded then Done(v, m, NEXT_INTERVAL) else Done(v, m, Errored)
  }

  function ClearedStatus(ann: Annotations): Annotations {
    ann[StatusKey := StatusIs(Applied)] - {StatusMessage}
  }

  // ---------------------------------------------------------------- certificates

  predicate IsSpace(ch: char) {
    ch == ' ' || ch == '\t' || ch == '\n' || ch == '\r' || ch == 11 as char || ch == 12 as char
  }

  function TrimLeft(b: Bytes): Bytes {
    if b != [] && IsSpace(b[0]) then TrimLeft(b[1..]) else b
  }

  function TrimRight(b: Bytes): Bytes {
    if b != [] && IsSpace(b[|b| - 1]) then TrimRight(b[..|b| - 1]) else b
  }

  function TrimSpace(b: Bytes): Bytes {
    TrimRight(TrimLeft(b))
  }

  function DataOf(s: Secret, key: string): Bytes {
    if key in s.data then s.data[key] else ""
  }

  /** The chain and the optional ca.crt before the private key, each part closed by a newline. */
  function CertPEMBundle(s: Secret): Result<Bytes, Err> {
    var crt, ca, key :=
      TrimSpace(DataOf(s, "tls.crt")), TrimSpace(DataOf(s, "ca.crt")), TrimSpace(DataOf(s, "tls.key"));
    if crt == "" || key == "" then Failure(Leaf(Opaque, PLAIN))
    else Success(crt + "\n" + (if ca != "" then ca + "\n" else "") + key + "\n")
  }

  type Records = map<string, CertEntry>

  /** What the annotation says; a missing or malformed one says nothing. */
  function RecordsIn(ann: Annotations): Records {
    var v := Lookup(ann, CertSync);
    if v.CertState? then v.certs else map[]
  }

  function CertSyncState(state: Option<Copy>): Records {
    if state.None? then map[] else RecordsIn(state.value.secret.ann)
  }

  function WithRecord(c: Copy, name: string, entry: CertEntry): Annotations {
    c.secret.ann[CertSync := CertState(RecordsIn(c.secret.ann)[name := entry])]
  }

  predicate RecordedHash(records: Records, name: string, bundle: Bytes) {
    name in records && records[name].hash == bundle
  }

  datatype Push = Push(w: World, m: Memory, state: Option<Copy>, result: Result<bool, Err>)

  /** A push that fails leaves a mark in the trace. */
  function NotPushed(w: World, m: Memory, state: Option<Copy>, name: string, err: Err): Push {
    Push(Note(w, CertNotSynced(w.run, name)), m, state, Failure(err))
  }

  function PushCertSecret(x: Setup, w: World, m: Memory, secret: Secret, state: Option<Copy>): (p: Push)
    ensures p.state.Some? == state.Some?
  {
    var bundle := CertPEMBundle(secret);
    if bundle.Failure? then NotPushed(w, m, state, secret.name, bundle.error)
    else
      var records := CertSyncState(state);
      var inMemory := secret.name in m.certHashes && m.certHashes[secret.name] == bundle.value;
      var previouslySynced := RecordedHash(records, secret.name, bundle.value) || inMemory;
      var (v, changed) := SyncSSLCertificate(x, w, secret.name, bundle.value, previouslySynced);
      if changed.Failure? then NotPushed(v, m, state, secret.name, changed.error)
      else RecordPush(x, v, m.(certHashes := m.certHashes[secret.name := bundle.value]),
                      secret.name, bundle.value, state, changed.value)
  }

  /** Record a pushed bundle on the config Secret; a write conflict is swallowed. */
  function RecordPush(x: Setup, w: World, m: Memory, name: string, bundle: Bytes, state: Option<Copy>, changed: bool)
    : (p: Push)
    ensures p.state.Some? == state.Some?
  {
    var records := CertSyncState(state);
    if state.Some? && (changed || !RecordedHash(records, name, bundle)) then
      var ann := WithRecord(state.value, name, CertEntry(bundle, x.env(w.clock).now));
      var (v, c, reply) := Patch(x, w, state.value, ann, RecordCert(name));
      if reply.PatchFailed? then NotPushed(v, m, Some(c), name, Context(PLAIN, Leaf(Opaque, PLAIN)))
      else Push(Note(v, CertSynced(v.run, name)), m, Some(c), Success(changed))
    else Push(Note(w, CertSynced(w.run, name)), m, state, Success(changed))
  }

  /** Push every listed certificate Secret from the `i`-th on, stopping at the first failure. */
  function EnsureCertSecretsSynced(x: Setup, w: World, m: Memory, c: Copy, i: nat): (p: Push)
    requires i <= |x.certs|
    ensures p.state.Some?
    decreases |x.certs| - i
  {
    if i == |x.certs| then Push(w, m, Some(c), Success(true))
    else
      var (v, got) := Get(x, w, x.certs[i]);
      if !got.Found? then NotPushed(v, m, Some(c), x.certs[i], Context(PLAIN, Leaf(Opaque, PLAIN)))
      else
        var p := PushCertSecret(x, v, m, got.copy.secret, Some(c));
        if p.result.Failure? then p.(result := Failure(Context(PLAIN, p.result.error)))
        else EnsureCertSecretsSynced(x, p.w, p.m, p.state.value, i + 1)
  }

  function GetOrCreateClient(x: Setup, w: World, m: Memory): (World, Memory, Option<Err>) {
    if m.clientReady then (w, m, None)
    else
      var (v, err) := BuildClient(x, w);
      (v, if err.None? then m.(clientReady := true) else m, err)
  }

  function SyncCertSecret(x: Setup, w: World, m: Memory, secret: Secret, state: Option<Copy>): Push {
    var (v, n, err) := GetOrCreateClient(x, w, m);
    if err.Some? then NotPushed(v, n, state, secret.name, err.value) else PushCertSecret(x, v, n, secret, state)
  }

  // ---------------------------------------------------------------- a certificate event

  /** The config Secret beside certificate Secret `c`: `c` itself unless another one is configured. */
  function ConfigSecretFor(x: Setup, w: World, c: Copy): (World, GetReply) {
    if x.secretName != "" && c.secret.name != x.secretName then Get(x, w, x.secretName) else (w, Found(c))
  }

  function CertFailed(x: Setup, w: World, m: Memory, cfg: Option<Copy>, err: Err): Step {
    if cfg.Some? then Retry(x, w, m, cfg.value, CertSyncFailed(Classify(err)))
    else
      var n := m.transientFailures + 1;
      Done(w, m.(transientFailures := n), Requeue(Backoff.ForFailure(n), TransientFailure))
  }

  predicate CertStatus(ann: Annotations) {
    var v := Lookup(ann, StatusKey);
    v.StatusIs? && v.status.CertSyncFailed?
  }

  /** A recovered push clears a stale CertSync status; the failed hash is dropped from the local copy only. */
  function AfterCertPush(x: Setup, w: World, m: Memory, c: Copy): Step {
    if CertStatus(c.secret.ann) then
      var (v, d, _) := Patch(x, w, c, ClearedStatus(c.secret.ann), ClearCertStatus);
      Go(v, m, Unsuppressed(d))
    else Go(w, m, Unsuppressed(c))
  }

  function Unsuppressed(c: Copy): Copy {
    c.(secret := c.secret.(ann := c.secret.ann - {LastFailedHash}))
  }

  function CertEvent(x: Setup, w: World, m: Memory, c: Copy): Step {
    var (v, cfg) := ConfigSecretFor(x, w, c);
    if cfg.GetFailed? then Done(v, m, Errored)
    else
      var p := SyncCertSecret(x, v, m, c.secret, if cfg.Found? then Some(cfg.copy) else None);
      if p.result.Failure? then CertFailed(x, p.w, p.m, p.state, p.result.error)
      else if x.secretName == "" || p.state.None? then Done(p.w, p.m, NEXT_INTERVAL)
      else AfterCertPush(x, p.w, p.m, p.state.value)
  }

  // ---------------------------------------------------------------- the drift check

  predicate DriftCheckStatus(ann: Annotations) {
    var v := Lookup(ann, StatusKey);
    v.StatusIs? && v.status.DriftCheckFailed?
  }

  /** What the live read is compared with: the observed baseline, or the applied hash if there is none. */
  function ExpectedLive(ann: Annotations): Value {
    var v := Lookup(ann, LastObservedHash);
    if v == Empty then Lookup(ann, LastAppliedHash) else v
  }

  function AdoptedBaseline(ann: Annotations, live: Bytes): Annotations {
    ClearedStatus(ann[LastObservedHash := Hash(live)])
  }

  function CompareLive(x: Setup, w: World, m: Memory, c: Copy, raw: Bytes, live: Bytes): Step {
    var ann := c.secret.ann;
    var expected := ExpectedLive(ann);
    if expected == Pending then
      var (v, _, _) := Patch(x, w, c, AdoptedBaseline(ann, live), AdoptBaseline(live));
      Done(v, m, NEXT_INTERVAL)
    else
      var v := Note(w, Checked(w.run, raw, live, expected, Hash(live) != expected));
      if Hash(live) == expected then
        if DriftCheckStatus(ann) then
          var (u, _, _) := Patch(x, v, c, ClearedStatus(ann), ClearCheckStatus);
          Done(u, m, NEXT_INTERVAL)
        else Done(v, m, NEXT_INTERVAL)
      else if Lookup(ann, LastFailedHash) == Hash(raw) || !x.driftRemediate then Done(v, m, NEXT_INTERVAL)
      else Go(v, m, c)
  }

  function DriftCheck(x: Setup, w: World, m: Memory, c: Copy, raw: Bytes): Step {
    var (v, n, noClient) := GetOrCreateClient(x, w, m);
    if noClient.Some? then Retry(x, v, n, c, Failed(Classify(noClient.value)))
    else
      var (u, live) := ReadLive(x, v);
      if live.Failure? then Retry(x, u, n, c, DriftCheckFailed(Classify(live.error)))
      else CompareLive(x, u, n.(transientFailures := 0), c, raw, live.value)
  }

  // ---------------------------------------------------------------- validate and apply

  /** The validator refuses an empty configuration before anything is sent. */
  function Validate(x: Setup, w: World, raw: Bytes): (World, Option<Err>) {
    if raw == "" then (w, Some(Context(PLAIN, ErrLocalRejection))) else ValidateRaw(x, w, raw)
  }

  function RecordedApply(ann: Annotations, it: Item, raw: Bytes, observed: Value): Annotations {
    ann[LastAppliedHash := Hash(raw)][LastObservedHash := observed][StatusKey := StatusIs(Applied)]
       [LastAppliedTime := Time(it.now)] - {LastFailedHash, StatusMessage}
  }

  /** Read the configuration back and record it; without a read-back the baseline stays pending. */
  function RecordSuccess(x: Setup, w: World, m: Memory, c: Copy, raw: Bytes): Step {
    var (v, live) := ReadLive(x, w);
    var observed := if live.Success? then Hash(live.value) else Pending;
    var ann := RecordedApply(c.secret.ann, x.env(v.clock), raw, observed);
    var (u, _, reply) := Patch(x, v, c, ann, RecordApply(raw, observed));
    match reply
    case Committed => Done(u, m, NEXT_INTERVAL)
    case Conflict => Done(u, m, Requeue(Backoff.ForFailure(0), WriteConflict))
    case PatchFailed => Done(u, m, Errored)
  }

  function ApplyPhase(x: Setup, w: World, m: Memory, c: Copy, raw: Bytes): Step {
    var (v, err) := ApplyValidated(x, w, raw);
    if err.Some? then
      var cause := Classify(err.value);
      if cause == ConfigRejected then Reject(x, v, m, c, raw) else Retry(x, v, m, c, ApplyFailed(cause))
    else RecordSuccess(x, v, m.(transientFailures := 0), c, raw)
  }

  function ValidatePhase(x: Setup, w: World, m: Memory, c: Copy, raw: Bytes): Step {
    var (v, err) := Validate(x, w, raw);
    if err.Some? then
      var cause := Classify(err.value);
      if cause == ConfigRejected then Reject(x, v, m, c, raw) else Retry(x, v, m, c, Failed(cause))
    else ApplyPhase(x, v, m, c, raw)
  }

  function CertsPhase(x: Setup, w: World, m: Memory, c: Copy, raw: Bytes): Step {
    var p := EnsureCertSecretsSynced(x, w, m, c, 0);
    var d := p.state.value;
    if p.result.Failure? then Retry(x, p.w, p.m, d, CertSyncFailed(Classify(p.result.error)))
    else ValidatePhase(x, p.w, p.m, d, raw)
  }

  /** New desired bytes start a new failure streak. */
  function Desire(m: Memory, raw: Bytes): Memory {
    if m.lastDesired != Some(raw) then m.(transientFailures := 0, lastDesired := Some(raw)) else m
  }

  function PushDesired(x: Setup, w: World, m: Memory, c: Copy, raw: Bytes): Step {
    var n := Desire(m, raw);
    if Lookup(c.secret.ann, LastFailedHash) == Hash(raw) then Done(w, n, NEXT_INTERVAL)
    else
      var (v, o, noClient) := GetOrCreateClient(x, w, n);
      if noClient.Some? then Retry(x, v, o, c, Failed(Classify(noClient.value)))
      else CertsPhase(x, v, o, c, raw)
  }

  // ---------------------------------------------------------------- Reconcile

  function ConfigPhase(x: Setup, w: World, m: Memory, c: Copy): Step {
    if x.secretName != "" && c.secret.name != x.secretName then Done(w, m, Ignored)
    else if x.secretKey !in c.secret.data then
      var (v, _, recorded) := FailWithStatus(x, w, c, MissingKey, None);
      Done(v, m, if recorded then Requeue(Backoff.BASE_RETRY, KeyMissing) else Errored)
    else
      var raw := c.secret.data[x.secretKey];
      if Lookup(c.secret.ann, LastAppliedHash) == Hash(raw) then
        var s := DriftCheck(x, w, m, c, raw);
        if s.Done? then s else PushDesired(x, s.w, s.m, s.c, raw)
      else PushDesired(x, w, m, c, raw)
  }

  function Start(w: World, name: string): World {
    var v := w.(run := w.run + 1);
    v.(trace := v.trace + [Begin(v.run, name)])
  }

  function Reconcile(x: Setup, w: World, m: Memory, name: string): Step {
    var v := Start(w, name);
    var isCert := name in x.certs;
    if x.secretName != "" && name != x.secretName && !isCert then Done(v, m, Ignored)
    else
      var (u, got) := Get(x, v, name);
      match got
      case NotFound => Done(u, m, Ignored)
      case GetFailed => Done(u, m, Errored)
      case Found(c) =>
        var s := if isCert then CertEvent(x, u, m, c) else Go(u, m, c);
        if s.Done? then s else ConfigPhase(x, s.w, s.m, s.c)
  }

  // ---------------------------------------------------------------- runs

  datatype Trigger = Reconciled(name: string) | Restarted

  /** After a Reconcile in which the process died, a new process starts with no memory. */
  function Trip(x: Setup, w: World, m: Memory, t: Trigger): (World, Memory) {
    match t
    case Restarted => (w, FRESH)
    case Reconciled(name) =>
      var s := Reconcile(x, w, m, name);
      if s.w.down then (s.w.(down := false), FRESH) else (s.w, s.m)
  }

  function Run(x: Setup, w: World, m: Memory, ts: seq<Trigger>): (World, Memory)
    decreases |ts|
  {
    if ts == [] then (w, m)
    else
      var (v, n) := Trip(x, w, m, ts[0]);
      Run(x, v, n, ts[1..])
  }
}
