/**
 A copy keeps agreeing with the revision it was read from, in every environment, on each
 annotation the operator has not changed. What a recorded apply leaves on the server follows.
 */
module Tracking {
  import opened Prelude
  import opened Errors
  import opened Platform
  import opened Dataplane
  import opened Reconciliation
  import opened Actions
  import opened Steadiness
  import opened History
  import opened Suffix

  /** The copy shows annotation `k`, and everything others own, as its revision does. */
  ghost predicate Tracks(w: World, c: Copy, k: Key) {
    && c.rv < |w.log|
    && w.log[c.rv].secret.name == c.secret.name && w.log[c.rv].secret.data == c.secret.data
    && !Touched(k, c.secret.ann, w.log[c.rv].secret.ann)
  }

  lemma TracksLater(w: World, v: World, c: Copy, k: Key)
    requires Tracks(w, c, k) && w.log <= v.log
    ensures Tracks(v, c, k)
  {
  }

  lemma GetTracks(x: Setup, w: World, name: string, k: Key)
    ensures var (v, got) := Get(x, w, name);
            got.Found? ==> Tracks(v, got.copy, k) && got.copy.secret.name == name
  {
    hide Tick;
  }

  lemma CommitTracks(w: World, c: Copy, ann: Annotations, purpose: Purpose, k: Key)
    requires Tracks(w, c, k) && !Touched(k, c.secret.ann, ann) && Latest(w.log, c.secret.name) == Some(c.rv)
    ensures var u := Commit(w, c, ann, purpose);
            var now := Latest(u.log, c.secret.name).value;
            && Tracks(u, Copy(now, u.log[now].secret), k)
            && u.log[now].secret.name == c.secret.name && u.log[now].secret.data == c.secret.data
  {
    var u := Commit(w, c, ann, purpose);
    hide Overlay;
    if |u.log| > |w.log| {
      LatestAfterAppend(w.log, u.log[|w.log|], c.secret.name);
    }
  }

  /** The copy tracks on, and is one of the same Secret with the same data. */
  ghost predicate TracksOn(w: World, c: Copy, d: Copy, k: Key) {
    Tracks(w, d, k) && d.secret.name == c.secret.name && d.secret.data == c.secret.data
  }

  lemma PatchTracks(x: Setup, w: World, c: Copy, ann: Annotations, purpose: Purpose, k: Key)
    requires Tracks(w, c, k) && !Touched(k, c.secret.ann, ann)
    ensures var (v, d, _) := Patch(x, w, c, ann, purpose); w.log <= v.log && TracksOn(v, c, d, k)
  {
    var mutated := c.(secret := c.secret.(ann := ann));
    assert Tracks(w, mutated, k);
    hide Tick, Commit, Patch, Tracks, Free;
    PatchEnds(x, w, c, ann, purpose);
    var v := Tick(x, w);
    TickFree(x, w, Posting);
    FreeGrows(w, v, Posting);
    TracksLater(w, v, c, k);
    TracksLater(w, v, mutated, k);
    if Latest(v.log, c.secret.name) == Some(c.rv) {
      CommitTracks(v, c, ann, purpose, k);
      CommitFree(v, c, ann, purpose, Posting);
      FreeGrows(v, Commit(v, c, ann, purpose), Posting);
      TracksLater(v, Commit(v, c, ann, purpose), mutated, k);
    }
  }

  // ---------------------------------------------------------------- certificates

  lemma RecordPushTracks(
    x: Setup, w: World, m: Memory, name: string, bundle: Bytes, c: Copy, changed: bool, k: Key)
    requires Tracks(w, c, k) && k != CertSync
    ensures var p := RecordPush(x, w, m, name, bundle, Some(c), changed);
            w.log <= p.w.log && TracksOn(p.w, c, p.state.value, k)
  {
    hide Patch, Tracks;
    if changed || !RecordedHash(CertSyncState(Some(c)), name, bundle) {
      var ann := WithRecord(c, name, CertEntry(bundle, x.env(w.clock).now));
      PatchTracks(x, w, c, ann, RecordCert(name), k);
      var (v, d, _) := Patch(x, w, c, ann, RecordCert(name));
      TracksLater(v, Note(v, CertSynced(v.run, name)), d, k);
      TracksLater(v, Note(v, CertNotSynced(v.run, name)), d, k);
    } else {
      TracksLater(w, Note(w, CertSynced(w.run, name)), c, k);
    }
  }

  lemma NoteTracks(w: World, e: Event, c: Copy, k: Key)
    requires Tracks(w, c, k)
    ensures Tracks(Note(w, e), c, k) && w.log <= Note(w, e).log
  {
  }

  lemma PushCertSecretTracks(x: Setup, w: World, m: Memory, secret: Secret, c: Copy, k: Key)
    requires Tracks(w, c, k) && k != CertSync
    ensures var p := PushCertSecret(x, w, m, secret, Some(c));
            w.log <= p.w.log && TracksOn(p.w, c, p.state.value, k)
  {
    hide Tracks, SyncSSLCertificate, RecordPush, CertPEMBundle, Free, Note;
    NoteTracks(w, CertNotSynced(w.run, secret.name), c, k);
    var bundle := CertPEMBundle(secret);
    if bundle.Success? {
      var b := bundle.value;
      var previouslySynced := RecordedHash(CertSyncState(Some(c)), secret.name, b)
                              || (secret.name in m.certHashes && m.certHashes[secret.name] == b);
      SyncSSLCertificateFree(x, w, secret.name, b, previouslySynced, Posting);
      var (v, changed) := SyncSSLCertificate(x, w, secret.name, b, previouslySynced);
      FreeGrows(w, v, Posting);
      TracksLater(w, v, c, k);
      NoteTracks(v, CertNotSynced(v.run, secret.name), c, k);
      if changed.Success? {
        RecordPushTracks(x, v, m.(certHashes := m.certHashes[secret.name := b]), secret.name, b, c, changed.value, k);
      }
    }
  }

  lemma {:induction false} EnsureTracks(x: Setup, w: World, m: Memory, c: Copy, i: nat, k: Key)
    requires Tracks(w, c, k) && k != CertSync && i <= |x.certs|
    ensures var p := EnsureCertSecretsSynced(x, w, m, c, i);
            w.log <= p.w.log && TracksOn(p.w, c, p.state.value, k)
    decreases |x.certs| - i
  {
    hide Tracks, Get, PushCertSecret, Free;
    if i < |x.certs| {
      GetFree(x, w, x.certs[i], Posting);
      var (v, got) := Get(x, w, x.certs[i]);
      FreeGrows(w, v, Posting);
      TracksLater(w, v, c, k);
      TracksLater(v, Note(v, CertNotSynced(v.run, x.certs[i])), c, k);
      if got.Found? {
        PushCertSecretTracks(x, v, m, got.copy.secret, c, k);
        var p := PushCertSecret(x, v, m, got.copy.secret, Some(c));
        if p.result.Success? {
          EnsureTracks(x, p.w, p.m, p.state.value, i + 1, k);
        }
      }
    }
  }

  // ---------------------------------------------------------------- what a recorded apply leaves

  /** The hashes that decide what is applied next, and what is shown of the last outcome. */
  predicate Matters(k: Key) {
    Decides(k) || k.StatusKey? || k.StatusMessage?
  }

  ghost predicate TracksAll(w: World, c: Copy) {
    forall k :: Matters(k) ==> Tracks(w, c, k)
  }

  /** The record of an apply is what the server shows now: its bytes, their digest, its baseline and no failure. */
  predicate ShowsRecord(x: Setup, u: World, raw: Bytes, observed: Value) {
    && CurrentHolds(x, u, raw)
    && Reads(x, u, LastAppliedHash) == Hash(raw) && Reads(x, u, LastObservedHash) == observed
    && LastFailedHash !in CurrentAnn(u.log, x.secretName)
    && Reads(x, u, StatusKey) == StatusIs(Applied) && StatusMessage !in CurrentAnn(u.log, x.secretName)
    && observed != Empty
  }

  lemma RecordedFacts(ann: Annotations, it: Item, raw: Bytes, observed: Value)
    ensures var after := RecordedApply(ann, it, raw, observed);
            && Lookup(after, LastAppliedHash) == Hash(raw) && Lookup(after, LastObservedHash) == observed
            && LastAppliedHash in after && LastObservedHash in after && LastFailedHash !in after
            && Lookup(after, StatusKey) == StatusIs(Applied) && StatusMessage !in after
            && !DriftCheckStatus(after)
  {
  }

  lemma CommittedRecord(x: Setup, w: World, c: Copy, ann: Annotations, purpose: Purpose, raw: Bytes)
    requires Latest(w.log, c.secret.name) == Some(c.rv) && c.secret.name == x.secretName && TracksAll(w, c)
    requires x.secretKey in c.secret.data && c.secret.data[x.secretKey] == raw
    requires LastAppliedHash in ann && LastObservedHash in ann && LastFailedHash !in ann
    requires Lookup(ann, StatusKey) == StatusIs(Applied) && StatusMessage !in ann
    requires Lookup(ann, LastAppliedHash) == Hash(raw) && Lookup(ann, LastObservedHash) != Empty
    ensures ShowsRecord(x, Commit(w, c, ann, purpose), raw, Lookup(ann, LastObservedHash))
    ensures Commit(w, c, ann, purpose).gw == w.gw
  {
    assert Tracks(w, c, LastAppliedHash) && Tracks(w, c, LastObservedHash) && Tracks(w, c, LastFailedHash);
    var merged := Overlay(w.log[c.rv].secret.ann, c.secret.ann, ann);
    assert Lookup(merged, LastAppliedHash) == Hash(raw) && LastFailedHash !in merged;
    assert Lookup(merged, LastObservedHash) == Lookup(ann, LastObservedHash);
    assert Tracks(w, c, StatusKey) && Tracks(w, c, StatusMessage);
    assert Lookup(merged, StatusKey) == StatusIs(Applied) && StatusMessage !in merged;
    CommittedAnnotations(w, c, ann, purpose);
    CommittedData(w, c, ann, purpose);
    hide Overlay, Commit, TracksAll, Touched;
  }

  lemma CommittedData(w: World, c: Copy, ann: Annotations, purpose: Purpose)
    requires Latest(w.log, c.secret.name) == Some(c.rv)
    ensures var u := Commit(w, c, ann, purpose);
            var l := Latest(u.log, c.secret.name);
            && l.Some? && u.log[l.value].secret.data == w.log[c.rv].secret.data
  {
    var u := Commit(w, c, ann, purpose);
    hide Overlay;
    if |u.log| > |w.log| {
      LatestAfterAppend(w.log, u.log[|w.log|], c.secret.name);
    }
  }

  /** With nobody else writing the gateway, the recorded baseline is open or what the gateway serves. */
  ghost predicate OpenOrServed(x: Setup, v: World, raw: Bytes, observed: Value) {
    DesiredStays(x, raw) && NoOutOfBandWrites(x) ==> observed in {Pending, Hash(v.gw.live)}
  }

  ghost predicate Shown(x: Setup, v: World, raw: Bytes) {
    exists observed :: ShowsRecord(x, v, raw, observed) && OpenOrServed(x, v, raw, observed)
  }

  /** Every record committed from `w` to `v` is of an apply of these bytes. */
  ghost predicate RecordsOf(w: World, v: World, raw: Bytes) {
    forall i :: |w.trace| <= i < |v.trace| && RecordsApply(v.trace[i]) ==> v.trace[i].purpose.applied == raw
  }

  /** Either no record was committed, or one of these bytes was, and the server now shows it. */
  ghost predicate RecordsShown(x: Setup, w: World, v: World, raw: Bytes) {
    Free(w, v, Recording) || (Shown(x, v, raw) && w.trace <= v.trace && RecordsOf(w, v, raw))
  }

  lemma TracksAllLater(w: World, v: World, c: Copy)
    requires TracksAll(w, c) && w.log <= v.log
    ensures TracksAll(v, c)
  {
    forall k | Matters(k)
      ensures Tracks(v, c, k)
    {
      TracksLater(w, v, c, k);
    }
  }

  predicate Wants(x: Setup, c: Copy, raw: Bytes) {
    c.secret.name == x.secretName && x.secretKey in c.secret.data && c.secret.data[x.secretKey] == raw
  }

  lemma RecordPatchShown(x: Setup, w: World, c: Copy, ann: Annotations, raw: Bytes, observed: Value)
    requires TracksAll(w, c) && Wants(x, c, raw) && observed != Empty
    requires LastAppliedHash in ann && LastObservedHash in ann && LastFailedHash !in ann
    requires Lookup(ann, StatusKey) == StatusIs(Applied) && StatusMessage !in ann
    requires Lookup(ann, LastAppliedHash) == Hash(raw) && Lookup(ann, LastObservedHash) == observed
    ensures var (u, _, reply) := Patch(x, w, c, ann, RecordApply(raw, observed));
            && w.log <= u.log && (reply.Committed? ==> ShowsRecord(x, u, raw, observed) && u.gw == Tick(x, w).gw)
            && (Free(w, u, Recording) || (ShowsRecord(x, u, raw, observed) && u.gw == Tick(x, w).gw))
            && w.trace <= u.trace && RecordsOf(w, u, raw)
  {
    hide Tick, Patch, Commit, Free, TracksAll, ShowsRecord, RecordsOf;
    PatchEnds(x, w, c, ann, RecordApply(raw, observed));
    TickFree(x, w, Recording);
    var v := Tick(x, w);
    FreeGrows(w, v, Recording);
    TracksAllLater(w, v, c);
    if Latest(v.log, c.secret.name) == Some(c.rv) {
      CommittedRecord(x, v, c, ann, RecordApply(raw, observed), raw);
      CommittedAnnotations(v, c, ann, RecordApply(raw, observed));
      RecordNamesBytes(w, v, c, ann, raw, observed);
    }
    FreeRecords(w, v, raw);
  }

  lemma FreeRecords(w: World, v: World, raw: Bytes)
    requires Free(w, v, Recording)
    ensures RecordsOf(w, v, raw)
  {
  }

  lemma RecordNamesBytes(w: World, v: World, c: Copy, ann: Annotations, raw: Bytes, observed: Value)
    requires Free(w, v, Recording) && Latest(v.log, c.secret.name) == Some(c.rv)
    ensures var u := Commit(v, c, ann, RecordApply(raw, observed)); w.trace <= u.trace && RecordsOf(w, u, raw)
  {
    hide Overlay;
  }

  lemma ReadBack(x: Setup, w: World, raw: Bytes)
    ensures var (v, live) := ReadLive(x, w);
            && (live.Success? ==> live.value == v.gw.live)
            && (DesiredStays(x, raw) && NoOutOfBandWrites(x) ==> Tick(x, v).gw.live == v.gw.live)
  {
    var v := ReadLive(x, w).0;
    if DesiredStays(x, raw) {
      TickPins(x, v, raw, LastAppliedHash);
    }
  }

  lemma RecordSuccessShown(x: Setup, w: World, m: Memory, c: Copy, raw: Bytes)
    requires TracksAll(w, c) && Wants(x, c, raw)
    ensures RecordsShown(x, w, RecordSuccess(x, w, m, c, raw).w, raw)
    ensures RecordSuccess(x, w, m, c, raw).out == NEXT_INTERVAL ==> Shown(x, RecordSuccess(x, w, m, c, raw).w, raw)
  {
    hide ReadLive, Patch, Free, TracksAll, ShowsRecord, RecordedApply;
    ReadLiveFree(x, w, Recording);
    var (v, live) := ReadLive(x, w);
    FreeGrows(w, v, Recording);
    TracksAllLater(w, v, c);
    var observed := if live.Success? then Hash(live.value) else Pending;
    var ann := RecordedApply(c.secret.ann, x.env(v.clock), raw, observed);
    RecordedFacts(c.secret.ann, x.env(v.clock), raw, observed);
    RecordPatchShown(x, v, c, ann, raw, observed);
    var u := Patch(x, v, c, ann, RecordApply(raw, observed)).0;
    ReadBack(x, w, raw);
    assert u.gw == Tick(x, v).gw ==> OpenOrServed(x, u, raw, observed);
    RecordsAfter(w, v, u, raw);
    if Free(v, u, Recording) {
      FreeTransitive(w, v, u, Recording);
    }
  }

  lemma RecordsAfter(w: World, v: World, u: World, raw: Bytes)
    requires Free(w, v, Recording) && v.trace <= u.trace && RecordsOf(v, u, raw)
    ensures w.trace <= u.trace && RecordsOf(w, u, raw)
  {
  }

  lemma ShownAfter(x: Setup, w: World, v: World, u: World, raw: Bytes)
    requires Free(w, v, Recording) && RecordsShown(x, v, u, raw)
    ensures RecordsShown(x, w, u, raw)
  {
    if Free(v, u, Recording) {
      FreeTransitive(w, v, u, Recording);
    }
  }

  lemma FreeIsShown(x: Setup, w: World, v: World, raw: Bytes)
    requires Free(w, v, Recording)
    ensures RecordsShown(x, w, v, raw)
  {
  }

  lemma ApplyPhaseShown(x: Setup, w: World, m: Memory, c: Copy, raw: Bytes)
    requires TracksAll(w, c) && Wants(x, c, raw)
    ensures RecordsShown(x, w, ApplyPhase(x, w, m, c, raw).w, raw)
  {
    hide Free, TracksAll, ApplyValidated, RecordSuccess, Retry, Reject, RecordsShown, Wants;
    var s := ApplyPhase(x, w, m, c, raw);
    ApplyValidatedFree(x, w, raw, Recording);
    var (v, err) := ApplyValidated(x, w, raw);
    FreeGrows(w, v, Recording);
    if err.Some? {
      RejectFree(x, v, m, c, raw, Recording);
      RetryFree(x, v, m, c, ApplyFailed(Classify(err.value)), Recording);
      FreeIsShown(x, v, s.w, raw);
    } else {
      TracksAllLater(w, v, c);
      RecordSuccessShown(x, v, m.(transientFailures := 0), c, raw);
    }
    ShownAfter(x, w, v, s.w, raw);
  }

  lemma ValidatePhaseShown(x: Setup, w: World, m: Memory, c: Copy, raw: Bytes)
    requires TracksAll(w, c) && Wants(x, c, raw)
    ensures RecordsShown(x, w, ValidatePhase(x, w, m, c, raw).w, raw)
  {
    hide Free, TracksAll, Validate, ApplyPhase, Retry, Reject, RecordsShown, Wants;
    var s := ValidatePhase(x, w, m, c, raw);
    ValidateFree(x, w, raw, Recording);
    var (v, err) := Validate(x, w, raw);
    FreeGrows(w, v, Recording);
    if err.Some? {
      RejectFree(x, v, m, c, raw, Recording);
      RetryFree(x, v, m, c, Failed(Classify(err.value)), Recording);
      FreeIsShown(x, v, s.w, raw);
    } else {
      TracksAllLater(w, v, c);
      ApplyPhaseShown(x, v, m, c, raw);
    }
    ShownAfter(x, w, v, s.w, raw);
  }

  lemma EnsureTracksAll(x: Setup, w: World, m: Memory, c: Copy, raw: Bytes)
    requires TracksAll(w, c) && Wants(x, c, raw)
    ensures var p := EnsureCertSecretsSynced(x, w, m, c, 0);
            TracksAll(p.w, p.state.value) && Wants(x, p.state.value, raw)
  {
    var p := EnsureCertSecretsSynced(x, w, m, c, 0);
    forall k | Matters(k)
      ensures TracksOn(p.w, c, p.state.value, k)
    {
      EnsureTracks(x, w, m, c, 0, k);
    }
    assert TracksOn(p.w, c, p.state.value, LastAppliedHash);
  }

  lemma PushDesiredShown(x: Setup, w: World, m: Memory, c: Copy, raw: Bytes)
    requires TracksAll(w, c) && Wants(x, c, raw)
    ensures RecordsShown(x, w, PushDesired(x, w, m, c, raw).w, raw)
  {
    hide Free, TracksAll, GetOrCreateClient, EnsureCertSecretsSynced, Retry, ValidatePhase, RecordsShown, Wants;
    var s := PushDesired(x, w, m, c, raw);
    if Lookup(c.secret.ann, LastFailedHash) == Hash(raw) {
      FreeSelf(w, Recording);
      FreeIsShown(x, w, w, raw);
    } else {
      var n := Desire(m, raw);
      GetOrCreateClientFree(x, w, n, Recording);
      var (v, o, noClient) := GetOrCreateClient(x, w, n);
      FreeGrows(w, v, Recording);
      TracksAllLater(w, v, c);
      if noClient.Some? {
        RetryFree(x, v, o, c, Failed(Classify(noClient.value)), Recording);
        FreeIsShown(x, v, s.w, raw);
      } else {
        EnsureFree(x, v, o, c, 0, Recording);
        EnsureTracksAll(x, v, o, c, raw);
        var p := EnsureCertSecretsSynced(x, v, o, c, 0);
        if p.result.Failure? {
          RetryFree(x, p.w, p.m, p.state.value, CertSyncFailed(Classify(p.result.error)), Recording);
          FreeIsShown(x, p.w, s.w, raw);
        } else {
          ValidatePhaseShown(x, p.w, p.m, p.state.value, raw);
        }
        ShownAfter(x, v, p.w, s.w, raw);
      }
      ShownAfter(x, w, v, s.w, raw);
    }
  }

  lemma ConfigPhaseShown(x: Setup, w: World, m: Memory, c: Copy) returns (raw: Bytes)
    requires TracksAll(w, c) && c.secret.name == x.secretName
    ensures RecordsShown(x, w, ConfigPhase(x, w, m, c).w, raw)
  {
    hide Free, TracksAll, FailWithStatus, DriftCheck, PushDesired, RecordsShown;
    var s := ConfigPhase(x, w, m, c);
    raw := "";
    if x.secretKey !in c.secret.data {
      FailWithStatusFree(x, w, c, MissingKey, None, Recording);
      FreeIsShown(x, w, s.w, raw);
    } else {
      raw := c.secret.data[x.secretKey];
      if Lookup(c.secret.ann, LastAppliedHash) == Hash(raw) {
        DriftCheckFree(x, w, m, c, raw, Recording);
        var d := DriftCheck(x, w, m, c, raw);
        FreeGrows(w, d.w, Recording);
        TracksAllLater(w, d.w, c);
        if d.Go? {
          PushDesiredShown(x, d.w, d.m, c, raw);
          ShownAfter(x, w, d.w, s.w, raw);
        } else {
          FreeIsShown(x, w, s.w, raw);
        }
      } else {
        PushDesiredShown(x, w, m, c, raw);
      }
    }
  }

  /**
   A config-triggered Reconcile that records an apply, whatever the environment does meanwhile,
   leaves the config Secret showing that very record, and no failed hash.
   */
  lemma RecordedApplyIsShown(x: Setup, w: World, m: Memory, i: nat)
    requires x.secretName != "" && x.secretName !in x.certs
    requires var v := Reconcile(x, w, m, x.secretName).w;
             |w.trace| < i < |v.trace| && RecordsApply(v.trace[i])
    ensures var v := Reconcile(x, w, m, x.secretName).w;
            && LastFailedHash !in CurrentAnn(v.log, x.secretName)
            && Shown(x, v, v.trace[i].purpose.applied)
  {
    var v := Start(w, x.secretName);
    var s := Reconcile(x, w, m, x.secretName);
    GetFree(x, v, x.secretName, Recording);
    var (u, got) := Get(x, v, x.secretName);
    assert got.Found? ==> TracksAll(u, got.copy) && got.copy.secret.name == x.secretName by {
      forall k | got.Found?
        ensures Tracks(u, got.copy, k) && got.copy.secret.name == x.secretName
      {
        GetTracks(x, v, x.secretName, k);
      }
    }
    assert |v.trace| <= i && Of(s.w.trace[i], Recording);
    hide Get, ConfigPhase, TracksAll, ShowsRecord;
    if got.Found? {
      var raw := ConfigPhaseShown(x, u, m, got.copy);
      ShownAfter(x, v, u, s.w, raw);
      assert s.w.trace[i].purpose.applied == raw;
      var observed :| ShowsRecord(x, s.w, raw, observed) && OpenOrServed(x, s.w, raw, observed);
      ShowsNoFailure(x, s.w, raw, observed);
    }
  }

  lemma ShowsNoFailure(x: Setup, u: World, raw: Bytes, observed: Value)
    requires ShowsRecord(x, u, raw, observed)
    ensures LastFailedHash !in CurrentAnn(u.log, x.secretName)
  {
  }
}
