/**
 Which kinds of events each part of a Reconcile can add to the trace, in any
 environment. Several theorems need to know only that.
 */
module Suffix {
  import opened Prelude
  import opened Errors
  import opened Platform
  import opened Dataplane
  import opened Reconciliation
  import opened Actions
  import opened History

  /**
   Raw-config POSTs; failed certificate pushes; records of an apply; all bookkeeping of applies; any
   patch; what ends a streak of failures; records of a failure.
   */
  datatype Kind = Posting | CertFailing | Recording | Booking | Patching | Resetting | Failing

  predicate Of(e: Event, k: Kind) {
    match k
    case Posting => e.Post?
    case CertFailing => e.CertNotSynced?
    case Recording => RecordsApply(e)
    case Booking => Books(e)
    case Patching => e.Patched?
    case Resetting => e.LiveRead? || AcceptedApply(e)
    case Failing => e.Patched? && e.purpose.RecordFailure?
  }

  /** From `w` to `v`, inside one Reconcile, no event of the kind was added. */
  ghost predicate Free(w: World, v: World, k: Kind) {
    && w.log <= v.log && w.trace <= v.trace && w.run == v.run && (w.down ==> v.down)
    && forall i :: |w.trace| <= i < |v.trace| ==> !Of(v.trace[i], k)
  }

  lemma FreeSelf(w: World, k: Kind)
    ensures Free(w, w, k)
  {
  }

  lemma FreeTransitive(w: World, v: World, u: World, k: Kind)
    requires Free(w, v, k) && Free(v, u, k)
    ensures Free(w, u, k)
  {
  }

  lemma FreeGrows(w: World, v: World, k: Kind)
    requires Free(w, v, k)
    ensures w.log <= v.log && w.trace <= v.trace && w.run == v.run && (w.down ==> v.down)
  {
  }

  lemma NoteFree(w: World, e: Event, k: Kind)
    requires !Of(e, k)
    ensures Free(w, Note(w, e), k)
  {
  }

  // ---------------------------------------------------------------- actions

  lemma {:induction false} InterfereFree(w: World, acts: seq<EnvAct>, k: Kind)
    ensures Free(w, Interfere(w, acts), k)
    decreases |acts|
  {
    if acts != [] {
      var v := EnvStep(w, acts[0]);
      InterfereFree(v, acts[1..], k);
      FreeTransitive(w, v, Interfere(v, acts[1..]), k);
    }
  }

  lemma {:induction false} InterfereDown(w: World, acts: seq<EnvAct>)
    ensures Interfere(w, acts).down == w.down
    decreases |acts|
  {
    if acts != [] {
      InterfereDown(EnvStep(w, acts[0]), acts[1..]);
    }
  }

  lemma {:induction false} InterfereClock(w: World, acts: seq<EnvAct>)
    ensures Interfere(w, acts).clock == w.clock
    decreases |acts|
  {
    if acts != [] {
      InterfereClock(EnvStep(w, acts[0]), acts[1..]);
    }
  }

  lemma TickClock(x: Setup, w: World)
    ensures Tick(x, w).clock == w.clock + 1
  {
    InterfereClock(w, x.env(w.clock).acts);
  }

  lemma TickFree(x: Setup, w: World, k: Kind)
    ensures Free(w, Tick(x, w), k)
  {
    InterfereFree(w, x.env(w.clock).acts, k);
  }

  lemma TickNoteFree(x: Setup, w: World, e: Event, k: Kind)
    requires !Of(e, k)
    ensures Free(w, Tick(x, w), k) && Free(w, Note(Tick(x, w), e), k)
  {
    hide Tick, Free, Note, Of;
    TickFree(x, w, k);
    NoteFree(Tick(x, w), e, k);
    FreeTransitive(w, Tick(x, w), Note(Tick(x, w), e), k);
  }

  lemma GetFree(x: Setup, w: World, name: string, k: Kind)
    ensures Free(w, Get(x, w, name).0, k)
  {
    TickFree(x, w, k);
  }

  lemma FoundName(x: Setup, w: World, name: string)
    ensures var got := Get(x, w, name).1; got.Found? ==> got.copy.secret.name == name
  {
    hide Tick;
  }

  lemma ReadVersionFree(x: Setup, w: World, k: Kind)
    ensures Free(w, ReadVersion(x, w).0, k)
  {
    var v := Tick(x, w);
    TickNoteFree(x, w, VersionRead(v.run, v.gw.version), k);
  }

  lemma ReadLiveFree(x: Setup, w: World, k: Kind)
    requires !k.Resetting?
    ensures Free(w, ReadLive(x, w).0, k)
  {
    var v := Tick(x, w);
    TickNoteFree(x, w, LiveRead(v.run, v.gw.live), k);
  }

  lemma GatewayIsApart(w: World, v: World, g: Gateway, k: Kind)
    requires Free(w, v, k)
    ensures Free(w, v.(gw := g), k)
  {
  }

  lemma WriteCertificateFree(x: Setup, w: World, name: string, bundle: Bytes, k: Kind)
    ensures Free(w, WriteCertificate(x, w, name, bundle).0, k)
  {
    var it, v := x.env(w.clock), Tick(x, w);
    var e := CertWrite(v.run, name, bundle, it.reply);
    TickNoteFree(x, w, e, k);
    hide Free, Tick;
    var g := v.gw.(storage := v.gw.storage[StorageName(name) := bundle]);
    GatewayIsApart(w, Note(v, e), g, k);
    assert Note(v.(gw := g), e) == Note(v, e).(gw := g);
  }

  predicate PostIsNo(kind: PostKind, k: Kind) {
    !k.Posting? && (k.Booking? || k.Resetting? ==> kind.ValidateOnly?)
  }

  lemma PostRawFree(x: Setup, w: World, kind: PostKind, raw: Bytes, version: int, k: Kind)
    requires PostIsNo(kind, k)
    ensures Free(w, PostRaw(x, w, kind, raw, version).0, k)
  {
    var it, v := x.env(w.clock), Tick(x, w);
    var stale := x.versionLocked && version != v.gw.version;
    var reply := if stale then Response(409) else it.reply;
    var stored := kind.Apply? && (Ok(reply) || (it.lands && !stale));
    var e := Post(v.run, kind, raw, reply, stored);
    TickNoteFree(x, w, e, k);
    hide Free, Tick;
    var g := v.gw.(live := x.norm(raw), version := v.gw.version + 1);
    GatewayIsApart(w, Note(v, e), g, k);
    assert Note(v.(gw := g), e) == Note(v, e).(gw := g);
  }

  predicate RecordsOnly(purpose: Purpose, k: Kind) {
    match k
    case Recording => purpose.RecordApply?
    case Booking => purpose.RecordApply? || purpose.AdoptBaseline?
    case Patching => true
    case Failing => purpose.RecordFailure?
    case _ => false
  }

  lemma CommitFree(w: World, c: Copy, ann: Annotations, purpose: Purpose, k: Kind)
    requires Latest(w.log, c.secret.name) == Some(c.rv) && !RecordsOnly(purpose, k)
    ensures Free(w, Commit(w, c, ann, purpose), k)
  {
    hide Overlay, Latest;
  }

  lemma PatchFree(x: Setup, w: World, c: Copy, ann: Annotations, purpose: Purpose, k: Kind)
    requires !RecordsOnly(purpose, k)
    ensures Free(w, Patch(x, w, c, ann, purpose).0, k)
  {
    hide Free, Tick, Commit, Patch, RecordsOnly;
    PatchEnds(x, w, c, ann, purpose);
    TickFree(x, w, k);
    var v := Tick(x, w);
    if Latest(v.log, c.secret.name) == Some(c.rv) {
      CommitFree(v, c, ann, purpose, k);
      FreeTransitive(w, v, Commit(v, c, ann, purpose), k);
    }
  }

  lemma GetOrCreateClientFree(x: Setup, w: World, m: Memory, k: Kind)
    ensures Free(w, GetOrCreateClient(x, w, m).0, k)
  {
    FreeSelf(w, k);
    TickFree(x, w, k);
  }

  // ---------------------------------------------------------------- the client's sequences

  lemma {:induction false} PollFree(x: Setup, w: World, polls: nat, last: Option<Err>, k: Kind)
    requires polls <= MAX_POLLS
    ensures Free(w, Poll(x, w, polls, last).0, k)
    decreases MAX_POLLS - polls
  {
    hide Free, ReadVersion;
    FreeSelf(w, k);
    if !(polls == MAX_POLLS || x.env(w.clock).expired) {
      ReadVersionFree(x, w, k);
      var (v, version) := ReadVersion(x, w);
      if version.Failure? && x.env(v.clock).cancelled.None? {
        PollFree(x, v, polls + 1, Some(version.error), k);
        FreeTransitive(w, v, Poll(x, v, polls + 1, Some(version.error)).0, k);
      }
    }
  }

  lemma PostAtVersionFree(x: Setup, w: World, kind: PostKind, raw: Bytes, k: Kind)
    requires PostIsNo(kind, k)
    ensures Free(w, PostAtVersion(x, w, kind, raw).0, k)
  {
    hide Free, ReadVersion, PostRaw;
    ReadVersionFree(x, w, k);
    var (v, version) := ReadVersion(x, w);
    if version.Success? {
      PostRawFree(x, v, kind, raw, version.value, k);
      FreeTransitive(w, v, PostRaw(x, v, kind, raw, version.value).0, k);
    }
  }

  lemma ApplyValidatedFree(x: Setup, w: World, raw: Bytes, k: Kind)
    requires PostIsNo(Apply, k)
    ensures Free(w, ApplyValidated(x, w, raw).0, k)
  {
    hide Free, Poll, PostAtVersion;
    PollFree(x, w, 0, None, k);
    var (v, err) := WaitForReady(x, w);
    if err.None? {
      PostAtVersionFree(x, v, Apply, raw, k);
      FreeTransitive(w, v, PostAtVersion(x, v, Apply, raw).0, k);
    }
  }

  lemma SyncSSLCertificateFree(x: Setup, w: World, name: string, bundle: Bytes, previouslySynced: bool, k: Kind)
    ensures Free(w, SyncSSLCertificate(x, w, name, bundle, previouslySynced).0, k)
  {
    hide Free, Poll, ReadCertificate, WriteCertificate, Note, MetadataMatches;
    FreeSelf(w, k);
    var serial := LeafSerial(x.pem(bundle));
    if serial.Success? {
      PollFree(x, w, 0, None, k);
      var (v, notReady) := WaitForReady(x, w);
      if notReady.None? {
        ReadCertificateFree(x, v, StorageName(name), k);
        var (u, remote) := ReadCertificate(x, v, StorageName(name));
        FreeTransitive(w, v, u, k);
        if remote.Success? {
          NoteFree(u, CertSkipped(u.run, name, bundle, serial.value, remote.value), k);
          FreeTransitive(w, u, Note(u, CertSkipped(u.run, name, bundle, serial.value, remote.value)), k);
        }
        WriteCertificateFree(x, u, name, bundle, k);
        FreeTransitive(w, u, WriteCertificate(x, u, name, bundle).0, k);
      }
    }
  }

  lemma ReadCertificateFree(x: Setup, w: World, file: string, k: Kind)
    ensures Free(w, ReadCertificate(x, w, file).0, k)
  {
    TickFree(x, w, k);
  }

  // ---------------------------------------------------------------- certificates

  /** A push adds a failure mark only where it fails. */
  predicate Marks(p: Push, k: Kind) {
    k.CertFailing? && p.result.Failure?
  }

  lemma RecordPushFree(
    x: Setup, w: World, m: Memory, name: string, bundle: Bytes, state: Option<Copy>, changed: bool, k: Kind)
    requires !k.Patching?
    ensures var p := RecordPush(x, w, m, name, bundle, state, changed); !Marks(p, k) ==> Free(w, p.w, k)
  {
    hide Free, Patch, Note;
    NoteFree(w, CertSynced(w.run, name), k);
    if state.Some? && (changed || !RecordedHash(CertSyncState(state), name, bundle)) {
      var c := state.value;
      var ann := WithRecord(c, name, CertEntry(bundle, x.env(w.clock).now));
      PatchFree(x, w, c, ann, RecordCert(name), k);
      var v := Patch(x, w, c, ann, RecordCert(name)).0;
      NoteFree(v, CertSynced(v.run, name), k);
      FreeTransitive(w, v, Note(v, CertSynced(v.run, name)), k);
      if !k.CertFailing? {
        NoteFree(v, CertNotSynced(v.run, name), k);
        FreeTransitive(w, v, Note(v, CertNotSynced(v.run, name)), k);
      }
    }
  }

  lemma NotPushedFree(w: World, v: World, m: Memory, state: Option<Copy>, name: string, err: Err, k: Kind)
    requires Free(w, v, k)
    ensures !k.CertFailing? ==> Free(w, NotPushed(v, m, state, name, err).w, k)
  {
    if !k.CertFailing? {
      NoteFree(v, CertNotSynced(v.run, name), k);
      hide Free, Note;
      FreeTransitive(w, v, Note(v, CertNotSynced(v.run, name)), k);
    }
  }

  lemma PushCertSecretFree(x: Setup, w: World, m: Memory, secret: Secret, state: Option<Copy>, k: Kind)
    requires !k.Patching?
    ensures var p := PushCertSecret(x, w, m, secret, state); !Marks(p, k) ==> Free(w, p.w, k)
  {
    hide Free, SyncSSLCertificate, RecordPush, NotPushed, CertPEMBundle;
    NotPushedFails();
    var bundle := CertPEMBundle(secret);
    if bundle.Failure? {
      FreeSelf(w, k);
      NotPushedFree(w, w, m, state, secret.name, bundle.error, k);
    } else {
      var b := bundle.value;
      var previouslySynced := RecordedHash(CertSyncState(state), secret.name, b)
                              || (secret.name in m.certHashes && m.certHashes[secret.name] == b);
      SyncSSLCertificateFree(x, w, secret.name, b, previouslySynced, k);
      var (v, changed) := SyncSSLCertificate(x, w, secret.name, b, previouslySynced);
      if changed.Failure? {
        NotPushedFree(w, v, m, state, secret.name, changed.error, k);
      } else {
        var n := m.(certHashes := m.certHashes[secret.name := b]);
        RecordPushFree(x, v, n, secret.name, b, state, changed.value, k);
        var p := RecordPush(x, v, n, secret.name, b, state, changed.value);
        if !Marks(p, k) {
          FreeTransitive(w, v, p.w, k);
        }
      }
    }
  }

  lemma NotPushedFails()
    ensures forall w, m, state, name, err :: NotPushed(w, m, state, name, err).result.Failure?
  {
  }

  lemma {:induction false} EnsureFree(x: Setup, w: World, m: Memory, c: Copy, i: nat, k: Kind)
    requires i <= |x.certs| && !k.Patching?
    ensures var p := EnsureCertSecretsSynced(x, w, m, c, i); !Marks(p, k) ==> Free(w, p.w, k)
    decreases |x.certs| - i
  {
    hide Free, Get, PushCertSecret, NotPushed;
    NotPushedFails();
    FreeSelf(w, k);
    if i < |x.certs| {
      GetFree(x, w, x.certs[i], k);
      var (v, got) := Get(x, w, x.certs[i]);
      if !got.Found? {
        NotPushedFree(w, v, m, Some(c), x.certs[i], Context(PLAIN, Leaf(Opaque, PLAIN)), k);
      } else {
        PushCertSecretFree(x, v, m, got.copy.secret, Some(c), k);
        var p := PushCertSecret(x, v, m, got.copy.secret, Some(c));
        if !Marks(p, k) {
          FreeTransitive(w, v, p.w, k);
        }
        if p.result.Success? {
          EnsureFree(x, p.w, p.m, p.state.value, i + 1, k);
          var q := EnsureCertSecretsSynced(x, p.w, p.m, p.state.value, i + 1);
          if !Marks(q, k) {
            FreeTransitive(w, p.w, q.w, k);
          }
        }
      }
    }
  }

  lemma SyncCertSecretFree(x: Setup, w: World, m: Memory, secret: Secret, state: Option<Copy>, k: Kind)
    requires !k.Patching?
    ensures var p := SyncCertSecret(x, w, m, secret, state); !Marks(p, k) ==> Free(w, p.w, k)
  {
    hide Free, GetOrCreateClient, PushCertSecret, NotPushed;
    NotPushedFails();
    GetOrCreateClientFree(x, w, m, k);
    var (v, n, err) := GetOrCreateClient(x, w, m);
    if err.Some? {
      NotPushedFree(w, v, n, state, secret.name, err.value, k);
    } else {
      PushCertSecretFree(x, v, n, secret, state, k);
      var p := PushCertSecret(x, v, n, secret, state);
      if !Marks(p, k) {
        FreeTransitive(w, v, p.w, k);
      }
    }
  }

  // ---------------------------------------------------------------- status patches and the drift check

  lemma FailWithStatusFree(x: Setup, w: World, c: Copy, status: Status, failed: Option<Bytes>, k: Kind)
    requires !k.Patching? && !k.Failing?
    ensures Free(w, FailWithStatus(x, w, c, status, failed).0, k)
  {
    hide Free, Patch;
    PatchFree(x, w, c, FailureAnnotations(c.secret.ann, x.env(w.clock), status, failed), RecordFailure, k);
  }

  lemma RetryFree(x: Setup, w: World, m: Memory, c: Copy, status: Status, k: Kind)
    requires !k.Patching? && !k.Failing?
    ensures Retry(x, w, m, c, status).Done? && Free(w, Retry(x, w, m, c, status).w, k)
  {
    hide Free, FailWithStatus;
    FailWithStatusFree(x, w, c, status, None, k);
  }

  lemma RejectFree(x: Setup, w: World, m: Memory, c: Copy, raw: Bytes, k: Kind)
    requires !k.Patching? && !k.Failing?
    ensures Reject(x, w, m, c, raw).Done? && Free(w, Reject(x, w, m, c, raw).w, k)
  {
    hide Free, FailWithStatus;
    FailWithStatusFree(x, w, c, Failed(ConfigRejected), Some(raw), k);
  }

  lemma CompareLiveFree(x: Setup, w: World, m: Memory, c: Copy, raw: Bytes, live: Bytes, k: Kind)
    requires !k.Booking? && !k.Patching?
    ensures var s := CompareLive(x, w, m, c, raw, live); Free(w, s.w, k) && (s.Go? ==> s.c == c)
  {
    hide Free, Patch, Note;
    var ann := c.secret.ann;
    var expected := ExpectedLive(ann);
    PatchFree(x, w, c, AdoptedBaseline(ann, live), AdoptBaseline(live), k);
    var e := Checked(w.run, raw, live, expected, Hash(live) != expected);
    NoteFree(w, e, k);
    var v := Note(w, e);
    PatchFree(x, v, c, ClearedStatus(ann), ClearCheckStatus, k);
    FreeTransitive(w, v, Patch(x, v, c, ClearedStatus(ann), ClearCheckStatus).0, k);
  }

  lemma DriftCheckFree(x: Setup, w: World, m: Memory, c: Copy, raw: Bytes, k: Kind)
    requires !k.Booking? && !k.Patching? && !k.Resetting? && !k.Failing?
    ensures var s := DriftCheck(x, w, m, c, raw); Free(w, s.w, k) && (s.Go? ==> s.c == c)
  {
    hide Free, GetOrCreateClient, ReadLive, Retry, CompareLive;
    GetOrCreateClientFree(x, w, m, k);
    var (v, n, noClient) := GetOrCreateClient(x, w, m);
    if noClient.Some? {
      RetryFree(x, v, n, c, Failed(Classify(noClient.value)), k);
    } else {
      ReadLiveFree(x, v, k);
      var (u, live) := ReadLive(x, v);
      FreeTransitive(w, v, u, k);
      if live.Failure? {
        RetryFree(x, u, n, c, DriftCheckFailed(Classify(live.error)), k);
      } else {
        CompareLiveFree(x, u, n.(transientFailures := 0), c, raw, live.value, k);
      }
      FreeTransitive(w, u, DriftCheck(x, w, m, c, raw).w, k);
    }
    if noClient.Some? {
      FreeTransitive(w, v, DriftCheck(x, w, m, c, raw).w, k);
    }
  }

  // ---------------------------------------------------------------- validate and apply

  lemma ValidateFree(x: Setup, w: World, raw: Bytes, k: Kind)
    requires !k.Posting?
    ensures Free(w, Validate(x, w, raw).0, k)
  {
    hide Free, PostAtVersion;
    FreeSelf(w, k);
    PostAtVersionFree(x, w, ValidateOnly, raw, k);
  }

  lemma RecordSuccessFree(x: Setup, w: World, m: Memory, c: Copy, raw: Bytes, k: Kind)
    requires k.CertFailing? || k.Failing? || k.Posting?
    ensures Free(w, RecordSuccess(x, w, m, c, raw).w, k)
  {
    hide Free, ReadLive, Patch;
    ReadLiveFree(x, w, k);
    var (v, live) := ReadLive(x, w);
    var observed := if live.Success? then Hash(live.value) else Pending;
    var ann := RecordedApply(c.secret.ann, x.env(v.clock), raw, observed);
    PatchFree(x, v, c, ann, RecordApply(raw, observed), k);
    FreeTransitive(w, v, Patch(x, v, c, ann, RecordApply(raw, observed)).0, k);
  }

  /** From the validation on no certificate is touched. */
  lemma ValidatePhaseFree(x: Setup, w: World, m: Memory, c: Copy, raw: Bytes, k: Kind)
    requires k.CertFailing?
    ensures Free(w, ValidatePhase(x, w, m, c, raw).w, k)
  {
    hide Free, Validate, ApplyPhase, Retry, Reject;
    var s := ValidatePhase(x, w, m, c, raw);
    ValidateFree(x, w, raw, k);
    var (v, err) := Validate(x, w, raw);
    if err.Some? {
      RejectFree(x, v, m, c, raw, k);
      RetryFree(x, v, m, c, Failed(Classify(err.value)), k);
    } else {
      ApplyPhaseFree(x, v, m, c, raw, k);
    }
    FreeTransitive(w, v, s.w, k);
  }

  lemma ApplyPhaseFree(x: Setup, w: World, m: Memory, c: Copy, raw: Bytes, k: Kind)
    requires k.CertFailing?
    ensures Free(w, ApplyPhase(x, w, m, c, raw).w, k)
  {
    hide Free, ApplyValidated, RecordSuccess, Retry, Reject;
    var s := ApplyPhase(x, w, m, c, raw);
    ApplyValidatedFree(x, w, raw, k);
    var (v, err) := ApplyValidated(x, w, raw);
    if err.Some? {
      RejectFree(x, v, m, c, raw, k);
      RetryFree(x, v, m, c, ApplyFailed(Classify(err.value)), k);
    } else {
      RecordSuccessFree(x, v, m.(transientFailures := 0), c, raw, k);
    }
    FreeTransitive(w, v, s.w, k);
  }
}
