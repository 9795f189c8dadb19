/**
 The reconciler as the source writes it: an object whose methods change its fields, the
 Secret in memory, the API server and the gateway (internal/controller/secret_controller.go,
 internal/controller/certs.go).

 Each method is proved to compute the function of the same name in Reconciliation.dfy, so
 the theorems about runs hold of `SecretReconciler.Reconcile`. The one long body of the
 source's Reconcile is split at its phases.
 */
module Controller {
  import opened Prelude
  import opened Errors
  import opened Environment
  import opened DataplaneClient
  import Platform
  import Dataplane
  import Spec = Reconciliation
  import Backoff

  /** A Secret in memory; the API server fills it on a read and refreshes it on a committed patch. */
  class SecretObject {
    var resourceVersion: nat
    var name: string
    var data: map<string, Bytes>
    var labels: map<string, string>
    var annotations: Platform.Annotations

    constructor (c: Platform.Copy)
      ensures Copy() == c
    {
      resourceVersion, name, data, labels, annotations :=
        c.rv, c.secret.name, c.secret.data, c.secret.labels, c.secret.ann;
    }

    function Copy(): Platform.Copy
      reads this
    {
      Platform.Copy(resourceVersion, Platform.Secret(name, data, labels, annotations))
    }

    method Refresh(c: Platform.Copy)
      modifies this
      ensures Copy() == c
    {
      resourceVersion, name, data, labels, annotations :=
        c.rv, c.secret.name, c.secret.data, c.secret.labels, c.secret.ann;
    }
  }

  function CopyOf(s: SecretObject?): Option<Platform.Copy>
    reads s
  {
    if s == null then None else Some(s.Copy())
  }

  /** Write the bundle part by part into a buffer. */
  method CertPEMBundle(secret: SecretObject) returns (r: Result<Bytes, Err>)
    ensures r == Spec.CertPEMBundle(secret.Copy().secret)
  {
    var s := secret.Copy().secret;
    var crt := Spec.TrimSpace(Spec.DataOf(s, "tls.crt"));
    var key := Spec.TrimSpace(Spec.DataOf(s, "tls.key"));
    if |crt| == 0 || |key| == 0 {
      return Failure(Leaf(Opaque, PLAIN));
    }
    var b: Bytes := "";
    b := b + crt;
    b := b + "\n";
    var ca := Spec.TrimSpace(Spec.DataOf(s, "ca.crt"));
    if |ca| > 0 {
      b := b + ca;
      b := b + "\n";
    }
    b := b + key;
    b := b + "\n";
    assert b == crt + "\n" + (if ca != "" then ca + "\n" else "") + key + "\n";
    r := Success(b);
  }

  type Series = (Bytes, string)

  class SecretReconciler {
    const out: Outside
    var haproxyClient: Client?
    var clientReady: bool
    var transientFailures: nat
    var lastDesired: Option<Bytes>
    var certSyncHashes: map<string, Bytes>

    // The exported config-hash gauge: at most the latest outcome has a series.
    var lastMetric: Option<Series>
    var exported: set<Series>

    ghost predicate Valid()
      reads this
    {
      && (clientReady ==> haproxyClient != null && haproxyClient.out == out)
      && exported == if lastMetric.Some? then {lastMetric.value} else {}
    }

    /** What the specification calls the operator's memory. */
    function Memory(): Spec.Memory
      reads this
    {
      Spec.Memory(clientReady, transientFailures, lastDesired, certSyncHashes)
    }

    constructor (out: Outside)
      ensures Valid() && this.out == out && Memory() == Spec.FRESH
    {
      this.out := out;
      haproxyClient, clientReady, transientFailures, lastDesired, certSyncHashes := null, false, 0, None, map[];
      lastMetric, exported := None, {};
    }

    method ExportConfigHash(raw: Bytes, state: string)
      requires Valid()
      modifies this`lastMetric, this`exported
      ensures Valid() && exported == {(raw, state)}
    {
      if lastMetric.Some? && lastMetric.value != (raw, state) {
        exported := exported - {lastMetric.value};
      }
      exported := exported + {(raw, state)};
      lastMetric := Some((raw, state));
    }

    // -------------------------------------------------------------- patches

    /** Mutate the Secret in memory, send the difference, and take over what the server answers. */
    method PatchAnnotations(secret: SecretObject, mutate: Platform.Annotations -> Platform.Annotations,
                            purpose: Platform.Purpose)
      returns (reply: Platform.PatchReply)
      modifies secret, out
      ensures (out.w, secret.Copy(), reply) ==
              Platform.Patch(out.x, old(out.w), old(secret.Copy()), mutate(old(secret.annotations)), purpose)
    {
      var orig := secret.Copy();
      secret.annotations := mutate(secret.annotations);
      var updated;
      updated, reply := out.Patch(orig, secret.annotations, purpose);
      if reply.Committed? {
        secret.Refresh(updated);
      }
    }

    method FailWithStatus(secret: SecretObject, status: Platform.Status, failed: Option<Bytes>) returns (ok: bool)
      modifies secret, out
      ensures (out.w, secret.Copy(), ok) ==
              Spec.FailWithStatus(out.x, old(out.w), old(secret.Copy()), status, failed)
    {
      var now := out.Now();
      var reply := PatchAnnotations(secret, ann => Spec.FailureAnnotations(ann, now, status, failed),
          Platform.RecordFailure);
      ok := reply.Committed? || reply.Conflict?;
    }

    /** What every transient branch of Reconcile does. */
    method RetryLater(secret: SecretObject, status: Platform.Status) returns (r: Spec.Outcome)
      requires Valid()
      modifies this, secret, out
      ensures Valid()
      ensures Spec.Done(out.w, Memory(), r) ==
              Spec.Retry(out.x, old(out.w), old(Memory()), old(secret.Copy()), status)
    {
      var ok := FailWithStatus(secret, status, None);
      if !ok {
        return Spec.Errored;
      }
      transientFailures := transientFailures + 1;
      r := Spec.Requeue(Backoff.ForFailure(transientFailures), Spec.TransientFailure);
    }

    /** What both rejection branches of Reconcile do. */
    method RejectBytes(secret: SecretObject, raw: Bytes) returns (r: Spec.Outcome)
      requires Valid()
      modifies this, secret, out
      ensures Valid()
      ensures Spec.Done(out.w, Memory(), r) ==
              Spec.Reject(out.x, old(out.w), old(Memory()), old(secret.Copy()), raw)
    {
      ExportConfigHash(raw, "rejected");
      var ok := FailWithStatus(secret, Platform.Failed(ConfigRejected), Some(raw));
      r := if ok then Spec.NEXT_INTERVAL else Spec.Errored;
    }

    // -------------------------------------------------------------- the client

    method GetOrCreateClient() returns (client: Client?, err: Option<Err>)
      requires Valid()
      modifies this`haproxyClient, this`clientReady, out
      ensures Valid()
      ensures err.None? ==> client != null && client.out == out
      ensures (out.w, Memory(), err) == Spec.GetOrCreateClient(out.x, old(out.w), old(Memory()))
    {
      if clientReady {
        return haproxyClient, None;
      }
      err := out.Credentials();
      if err.Some? {
        return null, err;
      }
      client := new Client(out);
      haproxyClient := client;
      clientReady := true;
    }

    // -------------------------------------------------------------- certificates

    method PushCertSecret(client: Client, secret: SecretObject, state: SecretObject?) returns (r: Result<bool, Err>)
      requires Valid() && client.out == out
      modifies this`certSyncHashes, out, state
      ensures Valid()
      ensures Spec.Push(out.w, Memory(), CopyOf(state), r) ==
              Spec.PushCertSecret(out.x, old(out.w), old(Memory()), old(secret.Copy()).secret, old(CopyOf(state)))
    {
      hide Spec.CertPEMBundle, Dataplane.SyncSSLCertificate, Spec.RecordPush;
      var name := secret.name;
      var bundle := CertPEMBundle(secret);
      if bundle.Failure? {
        out.Note(Platform.CertNotSynced(out.w.run, name));
        return Failure(bundle.error);
      }
      var hash := bundle.value;
      var records := Spec.CertSyncState(CopyOf(state));
      var previouslySynced :=
        (name in records && records[name].hash == hash) || (name in certSyncHashes && certSyncHashes[name] == hash);
      var changed := client.SyncSSLCertificate(name, hash, previouslySynced);
      if changed.Failure? {
        out.Note(Platform.CertNotSynced(out.w.run, name));
        return changed;
      }
      certSyncHashes := certSyncHashes[name := hash];
      r := RecordPush(name, hash, state, changed.value);
    }

    /** The second half of pushCertSecret: the record on the config Secret. A write conflict is swallowed. */
    method RecordPush(name: string, hash: Bytes, state: SecretObject?, changed: bool) returns (r: Result<bool, Err>)
      requires Valid()
      modifies out, state
      ensures Valid()
      ensures Spec.Push(out.w, Memory(), CopyOf(state), r) ==
              Spec.RecordPush(out.x, old(out.w), old(Memory()), name, hash, old(CopyOf(state)), changed)
    {
      hide Platform.Patch, Platform.Note;
      var records := Spec.CertSyncState(CopyOf(state));
      if state != null && (changed || !(name in records && records[name].hash == hash)) {
        records := records[name := Platform.CertEntry(hash, out.Now().now)];
        var reply := PatchAnnotations(state, ann => ann[Platform.CertSync := Platform.CertState(records)],
                                      Platform.RecordCert(name));
        if reply.PatchFailed? {
          out.Note(Platform.CertNotSynced(out.w.run, name));
          return Failure(Context(PLAIN, Leaf(Opaque, PLAIN)));
        }
      }
      out.Note(Platform.CertSynced(out.w.run, name));
      r := Success(changed);
    }

    method EnsureCertSecretsSynced(client: Client, state: SecretObject) returns (err: Option<Err>)
      requires Valid() && client.out == out
      modifies this`certSyncHashes, out, state
      ensures Valid()
      ensures Spec.Push(out.w, Memory(), Some(state.Copy()), if err.None? then Success(true) else Failure(err.value)) ==
              Spec.EnsureCertSecretsSynced(out.x, old(out.w), old(Memory()), old(state.Copy()), 0)
    {
      hide Platform.Get, Spec.PushCertSecret;
      var names := out.x.certs;
      for i := 0 to |names|
        invariant Valid()
        invariant Spec.EnsureCertSecretsSynced(out.x, out.w, Memory(), state.Copy(), i) ==
                  Spec.EnsureCertSecretsSynced(out.x, old(out.w), old(Memory()), old(state.Copy()), 0)
      {
        var got := out.Get(names[i]);
        if !got.Found? {
          out.Note(Platform.CertNotSynced(out.w.run, names[i]));
          return Some(Context(PLAIN, Leaf(Opaque, PLAIN)));
        }
        var s := new SecretObject(got.copy);
        var pushed := PushCertSecret(client, s, state);
        if pushed.Failure? {
          return Some(Context(PLAIN, pushed.error));
        }
      }
      err := None;
    }

    method SyncCertSecret(secret: SecretObject, state: SecretObject?) returns (err: Option<Err>)
      requires Valid()
      modifies this, out, state
      ensures Valid()
      ensures var p := Spec.SyncCertSecret(out.x, old(out.w), old(Memory()), old(secret.Copy()).secret,
              old(CopyOf(state)));
              && out.w == p.w && Memory() == p.m && CopyOf(state) == p.state
              && err == if p.result.Failure? then Some(p.result.error) else None
    {
      var client;
      client, err := GetOrCreateClient();
      if err.Some? {
        out.Note(Platform.CertNotSynced(out.w.run, secret.name));
        return;
      }
      var changed := PushCertSecret(client, secret, state);
      err := if changed.Failure? then Some(changed.error) else None;
    }

    // -------------------------------------------------------------- Reconcile, phase by phase

    /** Without an outcome, Reconcile goes on with `next`. */
    method CertEvent(secret: SecretObject) returns (done: Option<Spec.Outcome>, next: SecretObject)
      requires Valid()
      modifies this, out, secret
      ensures Valid() && (next == secret || fresh(next))
      ensures Spec.CertEvent(out.x, old(out.w), old(Memory()), old(secret.Copy())) == StepOf(done, next)
    {
      next := secret;
      var cfg: SecretObject? := secret;
      if out.x.secretName != "" && secret.name != out.x.secretName {
        var got := out.Get(out.x.secretName);
        if got.GetFailed? {
          return Some(Spec.Errored), next;
        }
        cfg := null;
        if got.Found? {
          cfg := new SecretObject(got.copy);
        }
      }
      var err := SyncCertSecret(secret, cfg);
      if err.Some? {
        var r := CertFailed(cfg, err.value);
        return Some(r), next;
      }
      if out.x.secretName == "" || cfg == null {
        return Some(Spec.NEXT_INTERVAL), next;
      }
      next := cfg;
      AfterCertPush(next);
      done := None;
    }

    function StepOf(done: Option<Spec.Outcome>, next: SecretObject): Spec.Step
      reads this, out, next
    {
      if done.Some? then Spec.Done(out.w, Memory(), done.value) else Spec.Go(out.w, Memory(), next.Copy())
    }

    method CertFailed(cfg: SecretObject?, err: Err) returns (r: Spec.Outcome)
      requires Valid()
      modifies this, out, cfg
      ensures Valid()
      ensures Spec.Done(out.w, Memory(), r) ==
              Spec.CertFailed(out.x, old(out.w), old(Memory()), old(CopyOf(cfg)), err)
    {
      if cfg != null {
        r := RetryLater(cfg, Platform.CertSyncFailed(Classify(err)));
      } else {
        transientFailures := transientFailures + 1;
        r := Spec.Requeue(Backoff.ForFailure(transientFailures), Spec.TransientFailure);
      }
    }

    method AfterCertPush(cfg: SecretObject)
      requires Valid()
      modifies out, cfg
      ensures Valid()
      ensures Spec.Go(out.w, Memory(), cfg.Copy()) ==
              Spec.AfterCertPush(out.x, old(out.w), old(Memory()), old(cfg.Copy()))
    {
      if Spec.CertStatus(cfg.annotations) {
        var _ := PatchAnnotations(cfg, ann => Spec.ClearedStatus(ann), Platform.ClearCertStatus);
      }
      cfg.annotations := cfg.annotations - {Platform.LastFailedHash};
    }

    /** Without an outcome, the desired bytes have to be applied again. */
    method DriftCheck(secret: SecretObject, raw: Bytes) returns (done: Option<Spec.Outcome>)
      requires Valid() && Platform.Lookup(secret.annotations, Platform.LastAppliedHash) == Platform.Hash(raw)
      modifies this, out, secret
      ensures Valid()
      ensures Spec.DriftCheck(out.x, old(out.w), old(Memory()), old(secret.Copy()), raw) == StepOf(done, secret)
    {
      var client, noClient := GetOrCreateClient();
      if noClient.Some? {
        var r := RetryLater(secret, Platform.Failed(Classify(noClient.value)));
        return Some(r);
      }
      var live := client.GetRawConfiguration();
      if live.Failure? {
        var r := RetryLater(secret, Platform.DriftCheckFailed(Classify(live.error)));
        return Some(r);
      }
      transientFailures := 0;
      done := CompareLive(secret, raw, live.value);
    }

    method CompareLive(secret: SecretObject, raw: Bytes, live: Bytes) returns (done: Option<Spec.Outcome>)
      requires Valid() && Platform.Lookup(secret.annotations, Platform.LastAppliedHash) == Platform.Hash(raw)
      modifies out, secret
      ensures Valid()
      ensures Spec.CompareLive(out.x, old(out.w), old(Memory()), old(secret.Copy()), raw, live) == StepOf(done, secret)
    {
      hide Platform.Patch, Platform.Note;
      var liveHash := Platform.Hash(live);
      var expected := Platform.Lookup(secret.annotations, Platform.LastObservedHash);
      if expected == Platform.Pending {
        var _ := PatchAnnotations(secret, ann => Spec.AdoptedBaseline(ann, live), Platform.AdoptBaseline(live));
        return Some(Spec.NEXT_INTERVAL);
      }
      if expected == Platform.Empty {
        expected := Platform.Hash(raw);
      }
      out.Note(Platform.Checked(out.w.run, raw, live, expected, liveHash != expected));
      if liveHash == expected {
        if Spec.DriftCheckStatus(secret.annotations) {
          var _ := PatchAnnotations(secret, ann => Spec.ClearedStatus(ann), Platform.ClearCheckStatus);
        }
        return Some(Spec.NEXT_INTERVAL);
      }
      if Platform.Lookup(secret.annotations, Platform.LastFailedHash) == Platform.Hash(raw) || !out.x.driftRemediate {
        return Some(Spec.NEXT_INTERVAL);
      }
      done := None;
    }

    method ApplyPhase(client: Client, secret: SecretObject, raw: Bytes) returns (r: Spec.Outcome)
      requires Valid() && client.out == out
      modifies this, out, secret
      ensures Valid()
      ensures Spec.Done(out.w, Memory(), r) ==
              Spec.ApplyPhase(out.x, old(out.w), old(Memory()), old(secret.Copy()), raw)
    {
      hide Dataplane.ApplyValidated, Spec.RecordSuccess, Spec.Retry, Spec.Reject;
      var err := client.ApplyRawConfigurationValidated(raw);
      if err.Some? {
        var cause := Classify(err.value);
        if cause == ConfigRejected {
          r := RejectBytes(secret, raw);
        } else {
          r := RetryLater(secret, Platform.ApplyFailed(cause));
        }
        return;
      }
      ExportConfigHash(raw, "applied");
      transientFailures := 0;
      r := RecordSuccess(client, secret, raw);
    }

    method RecordSuccess(client: Client, secret: SecretObject, raw: Bytes) returns (r: Spec.Outcome)
      requires Valid() && client.out == out
      modifies out, secret
      ensures Valid()
      ensures Spec.Done(out.w, Memory(), r) ==
              Spec.RecordSuccess(out.x, old(out.w), old(Memory()), old(secret.Copy()), raw)
    {
      hide Platform.ReadLive, Platform.Patch;
      var observed := Platform.Pending;
      var live := client.GetRawConfiguration();
      if live.Success? {
        observed := Platform.Hash(live.value);
      }
      var now := out.Now();
      var reply := PatchAnnotations(secret, ann => Spec.RecordedApply(ann, now, raw, observed),
                                    Platform.RecordApply(raw, observed));
      match reply
      case Committed => r := Spec.NEXT_INTERVAL;
      case Conflict => r := Spec.Requeue(Backoff.ForFailure(0), Spec.WriteConflict);
      case PatchFailed => r := Spec.Errored;
    }

    /** The validator: an empty configuration is refused without asking the gateway. */
    method Validate(client: Client, raw: Bytes) returns (err: Option<Err>)
      requires client.out == out
      modifies out
      ensures (out.w, err) == Spec.Validate(out.x, old(out.w), raw)
    {
      if |raw| == 0 {
        return Some(Context(PLAIN, ErrLocalRejection));
      }
      err := client.ValidateRawConfiguration(raw);
    }

    method ValidatePhase(client: Client, secret: SecretObject, raw: Bytes) returns (r: Spec.Outcome)
      requires Valid() && client.out == out
      modifies this, out, secret
      ensures Valid()
      ensures Spec.Done(out.w, Memory(), r) ==
              Spec.ValidatePhase(out.x, old(out.w), old(Memory()), old(secret.Copy()), raw)
    {
      hide Spec.Validate, Spec.ApplyPhase, Spec.Retry, Spec.Reject;
      var err := Validate(client, raw);
      if err.Some? {
        var cause := Classify(err.value);
        if cause == ConfigRejected {
          r := RejectBytes(secret, raw);
        } else {
          r := RetryLater(secret, Platform.Failed(cause));
        }
        return;
      }
      r := ApplyPhase(client, secret, raw);
    }

    method PushDesired(secret: SecretObject, raw: Bytes) returns (r: Spec.Outcome)
      requires Valid()
      modifies this, out, secret
      ensures Valid()
      ensures Spec.Done(out.w, Memory(), r) ==
              Spec.PushDesired(out.x, old(out.w), old(Memory()), old(secret.Copy()), raw)
    {
      hide Spec.EnsureCertSecretsSynced, Spec.ValidatePhase, Spec.Retry, Platform.BuildClient;
      if lastDesired != Some(raw) {
        transientFailures := 0;
        lastDesired := Some(raw);
      }
      if Platform.Lookup(secret.annotations, Platform.LastFailedHash) == Platform.Hash(raw) {
        return Spec.NEXT_INTERVAL;
      }
      var client, noClient := GetOrCreateClient();
      if noClient.Some? {
        r := RetryLater(secret, Platform.Failed(Classify(noClient.value)));
        return;
      }
      var err := EnsureCertSecretsSynced(client, secret);
      if err.Some? {
        r := RetryLater(secret, Platform.CertSyncFailed(Classify(err.value)));
        return;
      }
      r := ValidatePhase(client, secret, raw);
    }

    method ConfigPhase(secret: SecretObject) returns (r: Spec.Outcome)
      requires Valid()
      modifies this, out, secret
      ensures Valid()
      ensures Spec.Done(out.w, Memory(), r) == Spec.ConfigPhase(out.x, old(out.w), old(Memory()), old(secret.Copy()))
    {
      hide Spec.DriftCheck, Spec.PushDesired, Spec.FailWithStatus;
      if !ShouldReconcile(secret) {
        return Spec.Ignored;
      }
      if out.x.secretKey !in secret.data {
        var ok := FailWithStatus(secret, Platform.MissingKey, None);
        return if ok then Spec.Requeue(Backoff.BASE_RETRY, Spec.KeyMissing) else Spec.Errored;
      }
      var raw := secret.data[out.x.secretKey];
      if Platform.Lookup(secret.annotations, Platform.LastAppliedHash) == Platform.Hash(raw) {
        var done := DriftCheck(secret, raw);
        if done.Some? {
          return done.value;
        }
      }
      r := PushDesired(secret, raw);
    }

    predicate ShouldReconcile(secret: SecretObject)
      reads secret
    {
      out.x.secretName == "" || secret.name == out.x.secretName
    }

    /**
     One Reconcile does to the world and to the operator's memory exactly what the
     specification says, whatever the environment does meanwhile.
     */
    method Reconcile(name: string) returns (r: Spec.Outcome)
      requires Valid()
      modifies this, out
      ensures Valid()
      ensures Spec.Done(out.w, Memory(), r) == Spec.Reconcile(out.x, old(out.w), old(Memory()), name)
    {
      hide Spec.ConfigPhase, Spec.CertEvent, Platform.Get;
      out.w := Spec.Start(out.w, name);
      var isCert := name in out.x.certs;
      if out.x.secretName != "" && name != out.x.secretName && !isCert {
        return Spec.Ignored;
      }
      var got := out.Get(name);
      if got.NotFound? {
        return Spec.Ignored;
      }
      if got.GetFailed? {
        return Spec.Errored;
      }
      var secret := new SecretObject(got.copy);
      if isCert {
        var done, cfg := CertEvent(secret);
        if done.Some? {
          return done.value;
        }
        secret := cfg;
      }
      r := ConfigPhase(secret);
    }
  }
}
