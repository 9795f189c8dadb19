/**
 "Success clears last-failed-hash" for a whole Reconcile triggered by a certificate: it drops
 the failed hash from its copy early on, and a patch before the record brings it back.
 */
module Clearing {
  import opened Prelude
  import opened Errors
  import opened Platform
  import opened Dataplane
  import opened Reconciliation
  import opened Steadiness
  import opened Actions
  import opened History
  import opened Suffix

  // ---------------------------------------------------------------- what the copy knows

  /** A patch of the operator committed at one of these positions of the trace. */
  predicate PatchedIn(t: seq<Event>, from: nat, until: nat)
    requires from <= until <= |t|
  {
    exists i :: from <= i < until && t[i].Patched?
  }

  /** Since the drop, at position `from`: the copy lacks the failed hash until a patch has refreshed it. */
  predicate Knows(w: World, from: nat, c: Copy) {
    && from <= |w.trace|
    && if PatchedIn(w.trace, from, |w.trace|)
       then c.rv < |w.log| && (LastFailedHash in w.log[c.rv].secret.ann ==> LastFailedHash in c.secret.ann)
       else LastFailedHash !in c.secret.ann
  }

  lemma FreeLeavesPatches(w: World, v: World, from: nat)
    requires Free(w, v, Patching) && from <= |w.trace|
    ensures from <= |v.trace| && (PatchedIn(v.trace, from, |v.trace|) <==> PatchedIn(w.trace, from, |w.trace|))
  {
    if i :| from <= i < |w.trace| && w.trace[i].Patched? {
      assert v.trace[i].Patched?;
    }
  }

  lemma KnowsLater(w: World, v: World, from: nat, c: Copy)
    requires Knows(w, from, c) && Free(w, v, Patching)
    ensures Knows(v, from, c)
  {
    FreeLeavesPatches(w, v, from);
    hide PatchedIn;
  }

  // ---------------------------------------------------------------- certificates

  /** The copy of a push that succeeds knows as much, and is one of the same Secret. */
  predicate KnowsOn(w: World, from: nat, c: Copy, d: Copy) {
    Knows(w, from, d) && d.secret.name == c.secret.name
  }

  /** A commit refreshes the copy. */
  lemma CommitKnows(w: World, from: nat, c: Copy, ann: Annotations, purpose: Purpose)
    requires from <= |w.trace| && Latest(w.log, c.secret.name) == Some(c.rv)
    ensures var u := Commit(w, c, ann, purpose);
            var now := Latest(u.log, c.secret.name).value;
            KnowsOn(u, from, c, Copy(now, u.log[now].secret))
  {
    var u := Commit(w, c, ann, purpose);
    hide Overlay;
    assert u.trace[|w.trace|].Patched?;
  }

  lemma PatchKnows(x: Setup, w: World, from: nat, c: Copy, ann: Annotations, purpose: Purpose)
    requires Knows(w, from, c) && (LastFailedHash in ann <==> LastFailedHash in c.secret.ann)
    ensures var (v, d, reply) := Patch(x, w, c, ann, purpose);
            !reply.PatchFailed? ==> KnowsOn(v, from, c, d)
  {
    var mutated := c.(secret := c.secret.(ann := ann));
    assert Knows(w, from, mutated);
    hide Tick, Commit, Patch, Knows, Free;
    PatchEnds(x, w, c, ann, purpose);
    TickFree(x, w, Patching);
    var v := Tick(x, w);
    KnowsLater(w, v, from, mutated);
    KnowsTail(v, from, mutated);
    if Latest(v.log, c.secret.name) == Some(c.rv) {
      CommitKnows(v, from, c, ann, purpose);
    }
  }

  lemma KnowsTail(w: World, from: nat, c: Copy)
    requires Knows(w, from, c)
    ensures from <= |w.trace|
  {
  }

  lemma NoteKnows(w: World, e: Event, from: nat, c: Copy)
    requires Knows(w, from, c) && !e.Patched?
    ensures Knows(Note(w, e), from, c)
  {
    NoteFree(w, e, Patching);
    KnowsLater(w, Note(w, e), from, c);
  }

  lemma RecordPushKnows(
    x: Setup, w: World, from: nat, m: Memory, name: string, bundle: Bytes, c: Copy, changed: bool)
    requires Knows(w, from, c)
    ensures var p := RecordPush(x, w, m, name, bundle, Some(c), changed);
            p.result.Success? ==> KnowsOn(p.w, from, c, p.state.value)
  {
    hide Patch, Knows, Note;
    if changed || !RecordedHash(CertSyncState(Some(c)), name, bundle) {
      var ann := WithRecord(c, name, CertEntry(bundle, x.env(w.clock).now));
      PatchKnows(x, w, from, c, ann, RecordCert(name));
      var (v, d, reply) := Patch(x, w, c, ann, RecordCert(name));
      if !reply.PatchFailed? {
        NoteKnows(v, CertSynced(v.run, name), from, d);
      }
    } else {
      NoteKnows(w, CertSynced(w.run, name), from, c);
    }
  }

  lemma PushCertSecretKnows(x: Setup, w: World, from: nat, m: Memory, secret: Secret, c: Copy)
    requires Knows(w, from, c)
    ensures var p := PushCertSecret(x, w, m, secret, Some(c));
            p.result.Success? ==> KnowsOn(p.w, from, c, p.state.value)
  {
    hide Knows, SyncSSLCertificate, RecordPush, CertPEMBundle, Free, NotPushed;
    NotPushedFails();
    var bundle := CertPEMBundle(secret);
    if bundle.Success? {
      var b := bundle.value;
      var previouslySynced := RecordedHash(CertSyncState(Some(c)), secret.name, b)
                              || (secret.name in m.certHashes && m.certHashes[secret.name] == b);
      SyncSSLCertificateFree(x, w, secret.name, b, previouslySynced, Patching);
      var (v, changed) := SyncSSLCertificate(x, w, secret.name, b, previouslySynced);
      KnowsLater(w, v, from, c);
      if changed.Success? {
        RecordPushKnows(x, v, from, m.(certHashes := m.certHashes[secret.name := b]), secret.name, b, c, changed.value);
      }
    }
  }

  lemma {:induction false} EnsureKnows(x: Setup, w: World, from: nat, m: Memory, c: Copy, i: nat)
    requires Knows(w, from, c) && i <= |x.certs|
    ensures var p := EnsureCertSecretsSynced(x, w, m, c, i);
            p.result.Success? ==> KnowsOn(p.w, from, c, p.state.value)
    decreases |x.certs| - i
  {
    hide Knows, Get, PushCertSecret, Free, NotPushed;
    NotPushedFails();
    if i < |x.certs| {
      GetFree(x, w, x.certs[i], Patching);
      var (v, got) := Get(x, w, x.certs[i]);
      KnowsLater(w, v, from, c);
      if got.Found? {
        PushCertSecretKnows(x, v, from, m, got.copy.secret, c);
        var p := PushCertSecret(x, v, m, got.copy.secret, Some(c));
        if p.result.Success? {
          EnsureKnows(x, p.w, from, p.m, p.state.value, i + 1);
        }
      }
    }
  }

  // ---------------------------------------------------------------- the record

  /** The last event is the record of an apply, and the failed hash it leaves is the one nobody brought back. */
  predicate Cleared(x: Setup, u: World, from: nat) {
    && from < |u.trace|
    && var last := |u.trace| - 1;
    var e := u.trace[last];
    && RecordsApply(e) && e.base < |u.log|
    && (LastFailedHash in CurrentAnn(u.log, x.secretName) <==>
        LastFailedHash in u.log[e.base].secret.ann && !PatchedIn(u.trace, from, last))
  }

  /** Either no record was committed, or it was the last thing that happened. */
  ghost predicate RecordClears(x: Setup, w: World, u: World, from: nat) {
    || Free(w, u, Recording)
    || (w.trace < u.trace && Cleared(x, u, from)
        && forall j :: |w.trace| <= j < |u.trace| - 1 ==> !RecordsApply(u.trace[j]))
  }

  lemma ClearsAfter(x: Setup, w: World, v: World, u: World, from: nat)
    requires Free(w, v, Recording) && RecordClears(x, v, u, from)
    ensures RecordClears(x, w, u, from)
  {
    if Free(v, u, Recording) {
      FreeTransitive(w, v, u, Recording);
    }
  }

  lemma FreeClears(x: Setup, w: World, u: World, from: nat)
    requires Free(w, u, Recording)
    ensures RecordClears(x, w, u, from)
  {
  }

  /** A key that is missing on both sides of the difference is not part of the patch. */
  lemma OverlaidFailedHash(server: Annotations, copy: Annotations, it: Item, raw: Bytes, observed: Value)
    ensures LastFailedHash in Overlay(server, copy, RecordedApply(copy, it, raw, observed)) <==>
            LastFailedHash in server && LastFailedHash !in copy
  {
    assert LastFailedHash !in RecordedApply(copy, it, raw, observed);
    hide RecordedApply;
  }

  lemma CommitClears(x: Setup, w: World, from: nat, c: Copy, it: Item, raw: Bytes, observed: Value)
    requires Knows(w, from, c) && c.secret.name == x.secretName && Latest(w.log, c.secret.name) == Some(c.rv)
    ensures var ann := RecordedApply(c.secret.ann, it, raw, observed);
            RecordClears(x, w, Commit(w, c, ann, RecordApply(raw, observed)), from)
  {
    var ann := RecordedApply(c.secret.ann, it, raw, observed);
    var u := Commit(w, c, ann, RecordApply(raw, observed));
    OverlaidFailedHash(w.log[c.rv].secret.ann, c.secret.ann, it, raw, observed);
    hide Commit, Overlay, RecordedApply;
    CommittedAnnotations(w, c, ann, RecordApply(raw, observed));
    CommittedTrace(w, c, ann, RecordApply(raw, observed));
    assert u.trace[..|w.trace|] == w.trace;
    SamePatches(w.trace, u.trace, from);
  }

  lemma CommittedTrace(w: World, c: Copy, ann: Annotations, purpose: Purpose)
    requires Latest(w.log, c.secret.name) == Some(c.rv)
    ensures var u := Commit(w, c, ann, purpose);
            |u.trace| == |w.trace| + 1 && w.trace <= u.trace
            && u.trace[|w.trace|].Patched? && u.trace[|w.trace|].base == c.rv
            && u.trace[|w.trace|].purpose == purpose
  {
  }

  lemma SamePatches(t: seq<Event>, u: seq<Event>, from: nat)
    requires t <= u && from <= |t|
    ensures PatchedIn(u, from, |t|) <==> PatchedIn(t, from, |t|)
  {
    if i :| from <= i < |t| && t[i].Patched? {
      assert u[i].Patched?;
    }
  }

  lemma RecordSuccessClears(x: Setup, w: World, from: nat, m: Memory, c: Copy, raw: Bytes)
    requires Knows(w, from, c) && c.secret.name == x.secretName
    ensures RecordClears(x, w, RecordSuccess(x, w, m, c, raw).w, from)
  {
    hide ReadLive, Patch, Free, Knows, RecordedApply, RecordClears, Tick, Commit;
    ReadLiveFree(x, w, Patching);
    ReadLiveFree(x, w, Recording);
    var (v, live) := ReadLive(x, w);
    KnowsLater(w, v, from, c);
    var observed := if live.Success? then Hash(live.value) else Pending;
    var ann := RecordedApply(c.secret.ann, x.env(v.clock), raw, observed);
    var t := Tick(x, v);
    TickFree(x, v, Patching);
    TickFree(x, v, Recording);
    KnowsLater(v, t, from, c);
    PatchEnds(x, v, c, ann, RecordApply(raw, observed));
    if Latest(t.log, c.secret.name) == Some(c.rv) {
      CommitClears(x, t, from, c, x.env(v.clock), raw, observed);
    }
    var u := Patch(x, v, c, ann, RecordApply(raw, observed)).0;
    FreeClears(x, v, t, from);
    if u != t {
      ClearsAfter(x, v, t, u, from);
    }
    ClearsAfter(x, w, v, u, from);
  }

  // ---------------------------------------------------------------- the phases before it

  lemma ApplyPhaseClears(x: Setup, w: World, from: nat, m: Memory, c: Copy, raw: Bytes)
    requires Knows(w, from, c) && c.secret.name == x.secretName
    ensures RecordClears(x, w, ApplyPhase(x, w, m, c, raw).w, from)
  {
    hide Free, Knows, ApplyValidated, RecordSuccess, Retry, Reject, RecordClears;
    var s := ApplyPhase(x, w, m, c, raw);
    ApplyValidatedFree(x, w, raw, Recording);
    ApplyValidatedFree(x, w, raw, Patching);
    var (v, err) := ApplyValidated(x, w, raw);
    if err.Some? {
      RejectFree(x, v, m, c, raw, Recording);
      RetryFree(x, v, m, c, ApplyFailed(Classify(err.value)), Recording);
      FreeClears(x, v, s.w, from);
    } else {
      KnowsLater(w, v, from, c);
      RecordSuccessClears(x, v, from, m.(transientFailures := 0), c, raw);
    }
    ClearsAfter(x, w, v, s.w, from);
  }

  lemma ValidatePhaseClears(x: Setup, w: World, from: nat, m: Memory, c: Copy, raw: Bytes)
    requires Knows(w, from, c) && c.secret.name == x.secretName
    ensures RecordClears(x, w, ValidatePhase(x, w, m, c, raw).w, from)
  {
    hide Free, Knows, Validate, ApplyPhase, Retry, Reject, RecordClears;
    var s := ValidatePhase(x, w, m, c, raw);
    ValidateFree(x, w, raw, Recording);
    ValidateFree(x, w, raw, Patching);
    var (v, err) := Validate(x, w, raw);
    if err.Some? {
      RejectFree(x, v, m, c, raw, Recording);
      RetryFree(x, v, m, c, Failed(Classify(err.value)), Recording);
      FreeClears(x, v, s.w, from);
    } else {
      KnowsLater(w, v, from, c);
      ApplyPhaseClears(x, v, from, m, c, raw);
    }
    ClearsAfter(x, w, v, s.w, from);
  }

  lemma CertsPhaseClears(x: Setup, w: World, from: nat, m: Memory, c: Copy, raw: Bytes)
    requires Knows(w, from, c) && c.secret.name == x.secretName
    ensures RecordClears(x, w, CertsPhase(x, w, m, c, raw).w, from)
  {
    hide Free, Knows, EnsureCertSecretsSynced, Retry, ValidatePhase, RecordClears;
    var s := CertsPhase(x, w, m, c, raw);
    EnsureFree(x, w, m, c, 0, Recording);
    EnsureKnows(x, w, from, m, c, 0);
    var p := EnsureCertSecretsSynced(x, w, m, c, 0);
    if p.result.Failure? {
      RetryFree(x, p.w, p.m, p.state.value, CertSyncFailed(Classify(p.result.error)), Recording);
      FreeClears(x, p.w, s.w, from);
    } else {
      ValidatePhaseClears(x, p.w, from, p.m, p.state.value, raw);
    }
    ClearsAfter(x, w, p.w, s.w, from);
  }

  lemma PushDesiredClears(x: Setup, w: World, from: nat, m: Memory, c: Copy, raw: Bytes)
    requires Knows(w, from, c) && c.secret.name == x.secretName
    ensures RecordClears(x, w, PushDesired(x, w, m, c, raw).w, from)
  {
    hide Free, Knows, GetOrCreateClient, Retry, CertsPhase, RecordClears;
    var s := PushDesired(x, w, m, c, raw);
    if Lookup(c.secret.ann, LastFailedHash) == Hash(raw) {
      FreeSelf(w, Recording);
      FreeClears(x, w, w, from);
    } else {
      var n := Desire(m, raw);
      GetOrCreateClientFree(x, w, n, Recording);
      GetOrCreateClientFree(x, w, n, Patching);
      var (v, o, noClient) := GetOrCreateClient(x, w, n);
      if noClient.Some? {
        RetryFree(x, v, o, c, Failed(Classify(noClient.value)), Recording);
        FreeClears(x, v, s.w, from);
      } else {
        KnowsLater(w, v, from, c);
        CertsPhaseClears(x, v, from, o, c, raw);
      }
      ClearsAfter(x, w, v, s.w, from);
    }
  }

  /** A drift check that goes on to remediate has patched nothing. */
  lemma RemediationIsUnpatched(x: Setup, w: World, m: Memory, c: Copy, raw: Bytes)
    requires DriftCheck(x, w, m, c, raw).Go?
    ensures var s := DriftCheck(x, w, m, c, raw); s.c == c && Free(w, s.w, Patching)
  {
    hide Free, GetOrCreateClient, ReadLive, Patch, FailWithStatus;
    GetOrCreateClientFree(x, w, m, Patching);
    var v := GetOrCreateClient(x, w, m).0;
    ReadLiveFree(x, v, Patching);
    var (u, live) := ReadLive(x, v);
    FreeTransitive(w, v, u, Patching);
    var expected := ExpectedLive(c.secret.ann);
    var e := Checked(u.run, raw, live.value, expected, Hash(live.value) != expected);
    NoteFree(u, e, Patching);
    FreeTransitive(w, u, Note(u, e), Patching);
  }

  lemma ConfigPhaseClears(x: Setup, w: World, from: nat, m: Memory, c: Copy)
    requires Knows(w, from, c) && x.secretName != ""
    ensures RecordClears(x, w, ConfigPhase(x, w, m, c).w, from)
  {
    hide Free, Knows, FailWithStatus, DriftCheck, PushDesired, RecordClears;
    var s := ConfigPhase(x, w, m, c);
    FreeSelf(w, Recording);
    FreeClears(x, w, w, from);
    if c.secret.name == x.secretName && x.secretKey !in c.secret.data {
      FailWithStatusFree(x, w, c, MissingKey, None, Recording);
      FreeClears(x, w, s.w, from);
    } else if c.secret.name == x.secretName {
      var raw := c.secret.data[x.secretKey];
      if Lookup(c.secret.ann, LastAppliedHash) == Hash(raw) {
        DriftCheckFree(x, w, m, c, raw, Recording);
        var d := DriftCheck(x, w, m, c, raw);
        if d.Go? {
          RemediationIsUnpatched(x, w, m, c, raw);
          KnowsLater(w, d.w, from, c);
          PushDesiredClears(x, d.w, from, d.m, c, raw);
          ClearsAfter(x, w, d.w, s.w, from);
        } else {
          FreeClears(x, w, s.w, from);
        }
      } else {
        PushDesiredClears(x, w, from, m, c, raw);
      }
    }
  }

  // ---------------------------------------------------------------- the whole Reconcile

  lemma EventDropsHash(x: Setup, w: World, m: Memory, c: Copy)
    requires CertEvent(x, w, m, c).Go?
    ensures var r := CertEvent(x, w, m, c); x.secretName != "" && LastFailedHash !in r.c.secret.ann
  {
    hide Get, SyncCertSecret, Patch, FailWithStatus;
  }

  lemma DroppedIsKnown(w: World, c: Copy)
    requires LastFailedHash !in c.secret.ann
    ensures Knows(w, |w.trace|, c)
  {
  }

  /**
   A Reconcile triggered by a certificate drops the failed hash from its copy once the
   certificate is pushed. If it then records an apply, the stored failed hash survives exactly
   when it was stored on the revision that the record patched, and no patch committed between
   the drop and the record.
   */
  lemma CertTriggeredSuccessClearsExactlyWhen(
    x: Setup, w: World, m: Memory, name: string, u: World, c: Copy, i: nat)
    requires name in x.certs && Get(x, Start(w, name), name) == (u, Found(c)) && CertEvent(x, u, m, c).Go?
    requires |CertEvent(x, u, m, c).w.trace| <= i < |Reconcile(x, w, m, name).w.trace|
    requires RecordsApply(Reconcile(x, w, m, name).w.trace[i])
    ensures var dropped := |CertEvent(x, u, m, c).w.trace|;
            var v := Reconcile(x, w, m, name).w;
            var base := v.trace[i].base;
            && i == |v.trace| - 1 && base < |v.log|
            && (LastFailedHash in CurrentAnn(v.log, x.secretName) <==>
                LastFailedHash in v.log[base].secret.ann && !PatchedIn(v.trace, dropped, i))
  {
    var r := CertEvent(x, u, m, c);
    hide Get, CertEvent, ConfigPhase, Knows;
    EventDropsHash(x, u, m, c);
    DroppedIsKnown(r.w, r.c);
    ConfigPhaseClears(x, r.w, |r.w.trace|, r.m, r.c);
    assert Of(Reconcile(x, w, m, name).w.trace[i], Recording);
  }
}
