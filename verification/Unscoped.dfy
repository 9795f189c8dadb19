/**
 An operator that is not given the name of a config Secret reconciles every Secret as if that
 one were the config Secret, so what is proved for a configured name holds for each of them.
 */
module Unscoped {
  import opened Prelude
  import opened Errors
  import opened Platform
  import opened Dataplane
  import opened Reconciliation
  import opened Suffix

  /** The two setups differ in the configured name only. */
  ghost predicate Like(x: Setup, y: Setup) {
    y == x.(secretName := y.secretName)
  }

  lemma TicksAlike(x: Setup, y: Setup)
    requires Like(x, y)
    ensures forall w :: Tick(x, w) == Tick(y, w)
  {
  }

  // ---------------------------------------------------------------- actions

  lemma ActionsAlike(x: Setup, y: Setup)
    requires Like(x, y)
    ensures forall w, name :: Get(x, w, name) == Get(y, w, name)
    ensures forall w :: ReadVersion(x, w) == ReadVersion(y, w)
    ensures forall w :: ReadLive(x, w) == ReadLive(y, w)
    ensures forall w :: BuildClient(x, w) == BuildClient(y, w)
    ensures forall w, file :: ReadCertificate(x, w, file) == ReadCertificate(y, w, file)
  {
    TicksAlike(x, y);
    hide Tick;
  }

  lemma WritesAlike(x: Setup, y: Setup)
    requires Like(x, y)
    ensures forall w, name, bundle :: WriteCertificate(x, w, name, bundle) == WriteCertificate(y, w, name, bundle)
    ensures forall w, kind, raw, version :: PostRaw(x, w, kind, raw, version) == PostRaw(y, w, kind, raw, version)
  {
    TicksAlike(x, y);
    hide Tick;
  }

  lemma PatchesAlike(x: Setup, y: Setup)
    requires Like(x, y)
    ensures forall w, c, ann, purpose :: Patch(x, w, c, ann, purpose) == Patch(y, w, c, ann, purpose)
  {
    TicksAlike(x, y);
    hide Tick, Commit;
  }

  // ---------------------------------------------------------------- the client's sequences

  lemma {:induction false} PollAlike(x: Setup, y: Setup, w: World, polls: nat, last: Option<Err>)
    requires Like(x, y) && polls <= MAX_POLLS
    ensures Poll(x, w, polls, last) == Poll(y, w, polls, last)
    decreases MAX_POLLS - polls
  {
    ActionsAlike(x, y);
    hide ReadVersion;
    if !(polls == MAX_POLLS || x.env(w.clock).expired) {
      var (v, version) := ReadVersion(x, w);
      if version.Failure? && x.env(v.clock).cancelled.None? {
        PollAlike(x, y, v, polls + 1, Some(version.error));
      }
    }
  }

  lemma WaitsAlike(x: Setup, y: Setup)
    requires Like(x, y)
    ensures forall w :: WaitForReady(x, w) == WaitForReady(y, w)
  {
    forall w
      ensures WaitForReady(x, w) == WaitForReady(y, w)
    {
      PollAlike(x, y, w, 0, None);
    }
  }

  lemma PostsAlike(x: Setup, y: Setup)
    requires Like(x, y)
    ensures forall w, kind, raw :: PostAtVersion(x, w, kind, raw) == PostAtVersion(y, w, kind, raw)
    ensures forall w, raw :: ApplyValidated(x, w, raw) == ApplyValidated(y, w, raw)
    ensures forall w, raw :: Validate(x, w, raw) == Validate(y, w, raw)
  {
    ActionsAlike(x, y);
    WritesAlike(x, y);
    WaitsAlike(x, y);
    hide ReadVersion, PostRaw, WaitForReady, ReadLive, Get, BuildClient, ReadCertificate, WriteCertificate;
  }

  lemma SyncAlike(x: Setup, y: Setup, w: World, name: string, bundle: Bytes, previouslySynced: bool)
    requires Like(x, y)
    ensures SyncSSLCertificate(x, w, name, bundle, previouslySynced)
            == SyncSSLCertificate(y, w, name, bundle, previouslySynced)
  {
    ActionsAlike(x, y);
    WritesAlike(x, y);
    WaitsAlike(x, y);
    hide ReadVersion, PostRaw, WaitForReady, ReadLive, Get, BuildClient, ReadCertificate, WriteCertificate, Note;
  }

  // ---------------------------------------------------------------- the parts of a Reconcile

  lemma PushAlike(x: Setup, y: Setup, w: World, m: Memory, secret: Secret, state: Option<Copy>)
    requires Like(x, y)
    ensures PushCertSecret(x, w, m, secret, state) == PushCertSecret(y, w, m, secret, state)
  {
    PatchesAlike(x, y);
    hide Patch, SyncSSLCertificate, CertPEMBundle, Note;
    var bundle := CertPEMBundle(secret);
    if bundle.Success? {
      var b := bundle.value;
      SyncAlike(x, y, w, secret.name, b, RecordedHash(CertSyncState(state), secret.name, b)
                                         || (secret.name in m.certHashes && m.certHashes[secret.name] == b));
    }
  }

  lemma GetAlike(x: Setup, y: Setup, w: World, name: string)
    requires Like(x, y)
    ensures Get(x, w, name) == Get(y, w, name)
  {
    TicksAlike(x, y);
    hide Tick;
  }

  lemma {:induction false} EnsureAlike(x: Setup, y: Setup, w: World, m: Memory, c: Copy, i: nat)
    requires Like(x, y) && i <= |x.certs|
    ensures EnsureCertSecretsSynced(x, w, m, c, i) == EnsureCertSecretsSynced(y, w, m, c, i)
    decreases |x.certs| - i
  {
    hide Get, PushCertSecret, NotPushed;
    if i < |x.certs| {
      assert x.certs == y.certs;
      GetAlike(x, y, w, x.certs[i]);
      var (v, got) := Get(x, w, x.certs[i]);
      hide Like;
      if got.Found? {
        PushAlike(x, y, v, m, got.copy.secret, Some(c));
        var p := PushCertSecret(x, v, m, got.copy.secret, Some(c));
        if p.result.Success? {
          EnsureAlike(x, y, p.w, p.m, p.state.value, i + 1);
        }
      }
    }
  }

  lemma EndsAlike(x: Setup, y: Setup)
    requires Like(x, y)
    ensures forall w, c, status, failed ::
              FailWithStatus(x, w, c, status, failed) == FailWithStatus(y, w, c, status, failed)
    ensures forall w, m, c, status :: Retry(x, w, m, c, status) == Retry(y, w, m, c, status)
    ensures forall w, m, c, raw :: Reject(x, w, m, c, raw) == Reject(y, w, m, c, raw)
  {
    PatchesAlike(x, y);
    hide Patch, FailureAnnotations;
  }

  lemma ClientsAlike(x: Setup, y: Setup)
    requires Like(x, y)
    ensures forall w, m :: GetOrCreateClient(x, w, m) == GetOrCreateClient(y, w, m)
  {
    ActionsAlike(x, y);
    hide Get, ReadVersion, ReadLive, BuildClient, ReadCertificate;
  }

  lemma CheckAlike(x: Setup, y: Setup, w: World, m: Memory, c: Copy, raw: Bytes)
    requires Like(x, y)
    ensures DriftCheck(x, w, m, c, raw) == DriftCheck(y, w, m, c, raw)
  {
    ActionsAlike(x, y);
    PatchesAlike(x, y);
    EndsAlike(x, y);
    ClientsAlike(x, y);
    hide Get, ReadVersion, ReadLive, BuildClient, ReadCertificate, Patch, Retry, FailWithStatus, Reject,
         GetOrCreateClient, Classify, Note;
  }

  lemma ApplyAlike(x: Setup, y: Setup, w: World, m: Memory, c: Copy, raw: Bytes)
    requires Like(x, y)
    ensures ApplyPhase(x, w, m, c, raw) == ApplyPhase(y, w, m, c, raw)
  {
    ActionsAlike(x, y);
    PatchesAlike(x, y);
    EndsAlike(x, y);
    PostsAlike(x, y);
    hide Get, ReadVersion, ReadLive, BuildClient, ReadCertificate, Patch, Retry, FailWithStatus, Reject,
         PostAtVersion, ApplyValidated, Validate, Classify, RecordedApply;
  }

  lemma CertsPhaseAlike(x: Setup, y: Setup, w: World, m: Memory, c: Copy, raw: Bytes)
    requires Like(x, y)
    ensures CertsPhase(x, w, m, c, raw) == CertsPhase(y, w, m, c, raw)
  {
    EndsAlike(x, y);
    PostsAlike(x, y);
    EnsureAlike(x, y, w, m, c, 0);
    hide Retry, FailWithStatus, Reject, PostAtVersion, ApplyValidated, Validate, Classify, EnsureCertSecretsSynced,
         ApplyPhase;
    var p := EnsureCertSecretsSynced(x, w, m, c, 0);
    if p.result.Success? {
      var v := Validate(x, p.w, raw).0;
      ApplyAlike(x, y, v, p.m, p.state.value, raw);
    }
  }

  lemma PushDesiredAlike(x: Setup, y: Setup, w: World, m: Memory, c: Copy, raw: Bytes)
    requires Like(x, y)
    ensures PushDesired(x, w, m, c, raw) == PushDesired(y, w, m, c, raw)
  {
    EndsAlike(x, y);
    ClientsAlike(x, y);
    hide Retry, FailWithStatus, Reject, GetOrCreateClient, CertsPhase, Classify;
    var (v, o, noClient) := GetOrCreateClient(x, w, Desire(m, raw));
    CertsPhaseAlike(x, y, v, o, c, raw);
  }

  lemma ConfigPhaseAlike(x: Setup, y: Setup, w: World, m: Memory, c: Copy)
    requires Like(x, y) && x.secretName == "" && y.secretName == c.secret.name
    ensures ConfigPhase(x, w, m, c) == ConfigPhase(y, w, m, c)
  {
    EndsAlike(x, y);
    hide Retry, FailWithStatus, Reject, DriftCheck, PushDesired;
    if x.secretKey in c.secret.data {
      var raw := c.secret.data[x.secretKey];
      CheckAlike(x, y, w, m, c, raw);
      PushDesiredAlike(x, y, w, m, c, raw);
      var d := DriftCheck(x, w, m, c, raw);
      if d.Go? {
        PushDesiredAlike(x, y, d.w, d.m, d.c, raw);
      }
    }
  }

  /** Without a configured name, a Secret that is no certificate is reconciled as the config Secret would be. */
  lemma EverySecretIsTheConfig(x: Setup, w: World, m: Memory, name: string)
    requires x.secretName == "" && name != "" && name !in x.certs
    ensures Reconcile(x, w, m, name) == Reconcile(x.(secretName := name), w, m, name)
  {
    var y := x.(secretName := name);
    ActionsAlike(x, y);
    var v := Start(w, name);
    FoundName(x, v, name);
    hide Get, ReadVersion, ReadLive, BuildClient, ReadCertificate, ConfigPhase, CertEvent;
    var (u, got) := Get(x, v, name);
    if got.Found? {
      ConfigPhaseAlike(x, y, u, m, got.copy);
    }
  }

  /** The event of a certificate then ends with its push, which is told and recorded on that Secret itself. */
  lemma EventStandsAlone(x: Setup, w: World, m: Memory, name: string, u: World, c: Copy)
    requires x.secretName == "" && name in x.certs && Get(x, Start(w, name), name) == (u, Found(c))
    ensures var p := SyncCertSecret(x, u, m, c.secret, Some(c));
            p.state.Some?
            && Reconcile(x, w, m, name) ==
               if p.result.Success? then Done(p.w, p.m, NEXT_INTERVAL)
               else Retry(x, p.w, p.m, p.state.value, CertSyncFailed(Classify(p.result.error)))
  {
    StateStays(x, u, m, c);
    hide Get, SyncCertSecret, ConfigPhase, FailWithStatus;
  }

  lemma StateStays(x: Setup, w: World, m: Memory, c: Copy)
    ensures SyncCertSecret(x, w, m, c.secret, Some(c)).state.Some?
  {
    hide GetOrCreateClient, PushCertSecret, Note;
  }
}
