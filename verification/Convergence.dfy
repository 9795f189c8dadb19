/**
 With fresh reads, a healthy API server, a gateway that accepts and nobody interfering,
 one config-triggered Reconcile brings the gateway to the desired configuration, and
 every later one changes nothing.
 */
module Convergence {
  import opened Prelude
  import opened Platform
  import opened Dataplane
  import opened Reconciliation
  import opened Safety
  import opened Steadiness
  import opened Tracking

  // ---------------------------------------------------------------- a quiet environment

  predicate SmoothItem(it: Item) {
    && it.acts == [] && !it.kill && it.read == Fresh && it.api == Healthy
    && Ok(it.reply) && !it.expired
  }

  ghost predicate Smooth(x: Setup) {
    forall k: nat :: SmoothItem(x.env(k))
  }

  /** Nothing but the clock and the trace moved. */
  predicate Same(w: World, v: World) {
    v.log == w.log && v.gw == w.gw && v.down == w.down
  }

  /** An event of a Reconcile that changes nothing. */
  predicate ReadOnly(e: Event) {
    e.Begin? || e.VersionRead? || e.LiveRead? || e.Checked?
  }

  ghost predicate OnlyReads(w: World, v: World) {
    w.trace <= v.trace && forall i :: |w.trace| <= i < |v.trace| ==> ReadOnly(v.trace[i])
  }

  function Current(x: Setup, w: World): Copy
    requires Latest(w.log, x.secretName).Some?
  {
    var l := Latest(w.log, x.secretName).value;
    Copy(l, w.log[l].secret)
  }

  /** Every listed certificate Secret exists and holds a bundle whose leaf parses. */
  ghost predicate CertReady(x: Setup, w: World, name: string) {
    var l := Latest(w.log, name);
    && l.Some? && CertPEMBundle(w.log[l.value].secret).Success?
    && LeafSerial(x.pem(CertPEMBundle(w.log[l.value].secret).value)).Success?
  }

  ghost predicate CertsReady(x: Setup, w: World) {
    forall n :: n in x.certs ==> CertReady(x, w, n)
  }

  predicate HoldsDesired(x: Setup, w: World, raw: Bytes) {
    !w.down && CurrentHolds(x, w, raw)
  }

  predicate SameRecord(a: Annotations, b: Annotations) {
    && Lookup(a, LastAppliedHash) == Lookup(b, LastAppliedHash)
    && Lookup(a, LastObservedHash) == Lookup(b, LastObservedHash)
    && Lookup(a, LastFailedHash) == Lookup(b, LastFailedHash)
    && Lookup(a, StatusKey) == Lookup(b, StatusKey)
  }

  /** Only the operator's certificate record differs between the two worlds' config Secrets. */
  ghost predicate OnlyCertRecord(x: Setup, w: World, v: World) {
    && v.gw.live == w.gw.live && !v.down
    && Latest(w.log, x.secretName).Some? && Latest(v.log, x.secretName).Some?
    && Current(x, v).secret.data == Current(x, w).secret.data
    && SameRecord(Current(x, w).secret.ann, Current(x, v).secret.ann)
    && (forall n :: n != x.secretName ==> Latest(v.log, n) == Latest(w.log, n))
    && w.log <= v.log
  }

  // ---------------------------------------------------------------- single actions

  lemma SmoothTick(x: Setup, w: World)
    requires Smooth(x)
    ensures Tick(x, w) == w.(clock := w.clock + 1)
  {
    assert SmoothItem(x.env(w.clock));
  }

  lemma SmoothGet(x: Setup, w: World, name: string)
    requires Smooth(x) && !w.down && Latest(w.log, name).Some?
    ensures var l := Latest(w.log, name).value;
            Get(x, w, name) == (w.(clock := w.clock + 1), Found(Copy(l, w.log[l].secret)))
  {
    SmoothTick(x, w);
    assert SmoothItem(x.env(w.clock));
  }

  lemma SmoothReadVersion(x: Setup, w: World)
    requires Smooth(x) && !w.down
    ensures var (v, version) := ReadVersion(x, w);
            Same(w, v) && version == Success(w.gw.version) && v.trace == w.trace + [VersionRead(w.run, w.gw.version)]
  {
    SmoothTick(x, w);
    assert SmoothItem(x.env(w.clock));
  }

  lemma SmoothWait(x: Setup, w: World)
    requires Smooth(x) && !w.down
    ensures var (v, err) := WaitForReady(x, w); Same(w, v) && err.None?
  {
    SmoothReadVersion(x, w);
    assert SmoothItem(x.env(w.clock));
  }

  lemma SmoothReadLive(x: Setup, w: World)
    requires Smooth(x) && !w.down
    ensures var (v, live) := ReadLive(x, w);
            Same(w, v) && live == Success(w.gw.live) && v.trace == w.trace + [LiveRead(w.run, w.gw.live)]
  {
    SmoothTick(x, w);
    assert SmoothItem(x.env(w.clock));
  }

  lemma SmoothPost(x: Setup, w: World, kind: PostKind, raw: Bytes)
    requires Smooth(x) && !w.down
    ensures var (v, err) := PostAtVersion(x, w, kind, raw);
            && err.None? && v.log == w.log && !v.down
            && v.gw.live == if kind.Apply? then x.norm(raw) else w.gw.live
  {
    SmoothReadVersion(x, w);
    var v := ReadVersion(x, w).0;
    SmoothTick(x, v);
    assert SmoothItem(x.env(v.clock));
  }

  lemma SmoothClient(x: Setup, w: World, m: Memory)
    requires Smooth(x) && !w.down
    ensures var (v, n, err) := GetOrCreateClient(x, w, m);
            Same(w, v) && err.None? && v.trace == w.trace && n == m.(clientReady := true)
  {
    SmoothTick(x, w);
    assert SmoothItem(x.env(w.clock));
  }

  /** From `w` to `v` the annotations of the config Secret became `ann`, and nothing else changed. */
  ghost predicate PatchedTo(x: Setup, w: World, v: World, ann: Annotations) {
    && v.gw == w.gw && !v.down && w.log <= v.log
    && Latest(w.log, x.secretName).Some? && Latest(v.log, x.secretName).Some?
    && Current(x, v).secret == Current(x, w).secret.(ann := ann)
    && (forall n :: n != x.secretName ==> Latest(v.log, n) == Latest(w.log, n))
  }

  /** A patch from the current copy commits, and the copy stays current. */
  lemma SmoothPatch(x: Setup, w: World, c: Copy, ann: Annotations, purpose: Purpose)
    requires Smooth(x) && !w.down && Latest(w.log, x.secretName).Some? && c == Current(x, w)
    ensures var (v, d, reply) := Patch(x, w, c, ann, purpose);
            reply.Committed? && PatchedTo(x, w, v, ann) && d == Current(x, v)
  {
    SmoothTick(x, w);
    assert SmoothItem(x.env(w.clock));
    assert Overlay(c.secret.ann, c.secret.ann, ann) == ann;
    hide Patch, Tick, Smooth, Overlay;
    QuietPatch(x, w, c, ann, purpose);
  }

  // ---------------------------------------------------------------- certificates

  lemma SmoothSync(x: Setup, w: World, name: string, bundle: Bytes, previouslySynced: bool)
    requires Smooth(x) && !w.down && LeafSerial(x.pem(bundle)).Success?
    ensures var (v, changed) := SyncSSLCertificate(x, w, name, bundle, previouslySynced);
            changed.Success? && v.log == w.log && v.gw.live == w.gw.live && !v.down
  {
    SmoothWait(x, w);
    var v := WaitForReady(x, w).0;
    SmoothTick(x, v);
    assert SmoothItem(x.env(v.clock));
    var u := ReadCertificate(x, v, StorageName(name)).0;
    SmoothTick(x, u);
    assert SmoothItem(x.env(u.clock));
  }

  lemma OnlyCertRecordTransitive(x: Setup, w: World, v: World, u: World)
    requires OnlyCertRecord(x, w, v) && OnlyCertRecord(x, v, u)
    ensures OnlyCertRecord(x, w, u)
  {
  }

  lemma OnlyCertRecordHolds(x: Setup, w: World, v: World)
    requires OnlyCertRecord(x, w, v)
    ensures !v.down && Latest(v.log, x.secretName).Some? && v.gw.live == w.gw.live
  {
  }

  lemma CertReadyStays(x: Setup, w: World, v: World)
    requires CertsReady(x, w) && OnlyCertRecord(x, w, v) && ConfigSecretIsDedicated(x)
    ensures CertsReady(x, v)
  {
    forall n | n in x.certs
      ensures CertReady(x, v, n)
    {
      assert CertReady(x, w, n);
    }
  }

  lemma SmoothRecordPush(x: Setup, w: World, m: Memory, name: string, bundle: Bytes, changed: bool)
    requires Smooth(x) && !w.down && Latest(w.log, x.secretName).Some?
    ensures var p := RecordPush(x, w, m, name, bundle, Some(Current(x, w)), changed);
            p.result.Success? && OnlyCertRecord(x, w, p.w) && p.state == Some(Current(x, p.w))
  {
    var c := Current(x, w);
    var records := CertSyncState(Some(c));
    if changed || !RecordedHash(records, name, bundle) {
      var ann := c.secret.ann[CertSync := CertState(records[name := CertEntry(bundle, x.env(w.clock).now)])];
      assert SameRecord(c.secret.ann, ann);
      hide Patch, Smooth, PatchedTo, OnlyCertRecord, SameRecord;
      SmoothPatch(x, w, c, ann, RecordCert(name));
      var v := Patch(x, w, c, ann, RecordCert(name)).0;
      CertRecordPatched(x, w, v, ann);
      var u := Note(v, CertSynced(v.run, name));
      SameLogs(x, w, v, u);
    } else {
      SameLogs(x, w, w, Note(w, CertSynced(w.run, name)));
    }
  }

  lemma CertRecordPatched(x: Setup, w: World, v: World, ann: Annotations)
    requires PatchedTo(x, w, v, ann) && SameRecord(Current(x, w).secret.ann, ann)
    ensures OnlyCertRecord(x, w, v)
  {
  }

  lemma SameLogs(x: Setup, w: World, v: World, u: World)
    requires u.log == v.log && u.gw == v.gw && !u.down && Latest(w.log, x.secretName).Some?
    requires v == w || OnlyCertRecord(x, w, v)
    ensures OnlyCertRecord(x, w, u) && Current(x, u) == Current(x, v)
  {
  }

  lemma SmoothPush(x: Setup, w: World, m: Memory, name: string)
    requires Smooth(x) && !w.down && Latest(w.log, x.secretName).Some? && CertReady(x, w, name)
    ensures var secret := w.log[Latest(w.log, name).value].secret;
            var p := PushCertSecret(x, w, m, secret, Some(Current(x, w)));
            p.result.Success? && OnlyCertRecord(x, w, p.w) && p.state == Some(Current(x, p.w))
  {
    hide SyncSSLCertificate, RecordPush, CertPEMBundle, OnlyCertRecord;
    var secret := w.log[Latest(w.log, name).value].secret;
    var bundle := CertPEMBundle(secret).value;
    var state := Some(Current(x, w));
    var previouslySynced := RecordedHash(CertSyncState(state), secret.name, bundle)
                            || (secret.name in m.certHashes && m.certHashes[secret.name] == bundle);
    SmoothSync(x, w, secret.name, bundle, previouslySynced);
    var (v, changed) := SyncSSLCertificate(x, w, secret.name, bundle, previouslySynced);
    SmoothRecordPush(x, v, m.(certHashes := m.certHashes[secret.name := bundle]), secret.name, bundle, changed.value);
    SameStart(x, w, v, PushCertSecret(x, w, m, secret, state).w);
  }

  lemma SameStart(x: Setup, w: World, v: World, u: World)
    requires OnlyCertRecord(x, v, u) && v.log == w.log && v.gw.live == w.gw.live
    ensures OnlyCertRecord(x, w, u)
  {
  }

  lemma {:induction false} SmoothEnsure(x: Setup, w: World, m: Memory, i: nat)
    requires Smooth(x) && !w.down && Latest(w.log, x.secretName).Some? && ConfigSecretIsDedicated(x)
    requires CertsReady(x, w) && i <= |x.certs|
    ensures var p := EnsureCertSecretsSynced(x, w, m, Current(x, w), i);
            p.result.Success? && OnlyCertRecord(x, w, p.w) && p.state == Some(Current(x, p.w))
    decreases |x.certs| - i
  {
    if i < |x.certs| {
      var name := x.certs[i];
      assert CertReady(x, w, name);
      SmoothGet(x, w, name);
      var (v, got) := Get(x, w, name);
      hide OnlyCertRecord, CertsReady, PushCertSecret, Get, CertReady;
      SmoothPush(x, v, m, name);
      var p := PushCertSecret(x, v, m, got.copy.secret, Some(Current(x, w)));
      SameStart(x, w, v, p.w);
      OnlyCertRecordHolds(x, w, p.w);
      CertReadyStays(x, w, p.w);
      SmoothEnsure(x, p.w, p.m, i + 1);
      OnlyCertRecordTransitive(x, w, p.w, EnsureCertSecretsSynced(x, p.w, p.m, Current(x, p.w), i + 1).w);
    }
  }

  // ---------------------------------------------------------------- one Reconcile

  /** The gateway serves the desired configuration and the config Secret says so. */
  predicate Converged(x: Setup, w: World, raw: Bytes) {
    && HoldsDesired(x, w, raw) && w.gw.live == x.norm(raw)
    && Reads(x, w, LastAppliedHash) == Hash(raw) && Reads(x, w, LastObservedHash) == Hash(x.norm(raw))
    && !DriftCheckStatus(CurrentAnn(w.log, x.secretName))
  }

  lemma SmoothRecord(x: Setup, w: World, m: Memory, raw: Bytes)
    requires Smooth(x) && HoldsDesired(x, w, raw) && w.gw.live == x.norm(raw)
    ensures var s := RecordSuccess(x, w, m, Current(x, w), raw);
            s.Done? && s.out == NEXT_INTERVAL && Converged(x, s.w, raw)
            && LastFailedHash !in CurrentAnn(s.w.log, x.secretName)
  {
    SmoothReadLive(x, w);
    var (v, live) := ReadLive(x, w);
    var ann := RecordedApply(Current(x, w).secret.ann, x.env(v.clock), raw, Hash(live.value));
    RecordedFacts(Current(x, w).secret.ann, x.env(v.clock), raw, Hash(live.value));
    hide ReadLive, Patch, Smooth, PatchedTo, Converged, RecordedApply, DriftCheckStatus, CurrentAnn, Reads;
    SmoothPatch(x, v, Current(x, v), ann, RecordApply(raw, Hash(live.value)));
    var u := Patch(x, v, Current(x, v), ann, RecordApply(raw, Hash(live.value))).0;
    PatchedCurrent(x, v, u, ann);
    ConvergedIf(x, v, u, ann, raw);
  }

  lemma PatchedCurrent(x: Setup, w: World, v: World, ann: Annotations)
    requires PatchedTo(x, w, v, ann)
    ensures CurrentAnn(v.log, x.secretName) == ann
  {
  }

  lemma SmoothApply(x: Setup, w: World, m: Memory, raw: Bytes)
    requires Smooth(x) && HoldsDesired(x, w, raw) && raw != ""
    ensures var s := ValidatePhase(x, w, m, Current(x, w), raw);
            s.Done? && s.out == NEXT_INTERVAL && Converged(x, s.w, raw)
  {
    hide RecordSuccess, Converged, PostAtVersion, WaitForReady;
    SmoothPost(x, w, ValidateOnly, raw);
    var v := Validate(x, w, raw).0;
    SmoothWait(x, v);
    var u := WaitForReady(x, v).0;
    SmoothPost(x, u, Apply, raw);
    SmoothRecord(x, PostAtVersion(x, u, Apply, raw).0, m.(transientFailures := 0), raw);
  }

  lemma SmoothPushDesired(x: Setup, w: World, m: Memory, raw: Bytes)
    requires Smooth(x) && HoldsDesired(x, w, raw) && raw != "" && ConfigSecretIsDedicated(x) && CertsReady(x, w)
    requires Reads(x, w, LastFailedHash) != Hash(raw)
    ensures var s := PushDesired(x, w, m, Current(x, w), raw);
            s.Done? && s.out == NEXT_INTERVAL && Converged(x, s.w, raw)
  {
    hide ValidatePhase, Converged, EnsureCertSecretsSynced, GetOrCreateClient;
    var n := Desire(m, raw);
    SmoothClient(x, w, n);
    var (v, o, _) := GetOrCreateClient(x, w, n);
    SmoothCertsReady(x, w, v);
    SmoothEnsure(x, v, o, 0);
    var p := EnsureCertSecretsSynced(x, v, o, Current(x, v), 0);
    SmoothApply(x, p.w, p.m, raw);
  }

  lemma SmoothCertsReady(x: Setup, w: World, v: World)
    requires CertsReady(x, w) && v.log == w.log
    ensures CertsReady(x, v)
  {
    forall n | n in x.certs
      ensures CertReady(x, v, n)
    {
      assert CertReady(x, w, n);
    }
  }

  /** A check that finds the gateway in sync only clears a stale drift-check status. */
  lemma SmoothCompare(x: Setup, w: World, m: Memory, raw: Bytes)
    requires Smooth(x) && HoldsDesired(x, w, raw) && w.gw.live == x.norm(raw)
    requires Reads(x, w, LastAppliedHash) == Hash(raw) && Reads(x, w, LastObservedHash) == Hash(x.norm(raw))
    ensures var s := CompareLive(x, w, m, Current(x, w), raw, w.gw.live);
            && s.Done? && s.out == NEXT_INTERVAL && Converged(x, s.w, raw)
            && (Converged(x, w, raw) ==> Same(w, s.w) && OnlyReads(w, s.w))
  {
    hide CompareLive, Patch, Smooth, PatchedTo, Converged, OnlyReads, Same, Note, Reads, ClearedStatus,
         DriftCheckStatus;
    var c := Current(x, w);
    var t := Note(w, Checked(w.run, raw, w.gw.live, Hash(w.gw.live), false));
    NotedCheck(x, w, t, raw);
    InSyncCompare(x, w, m, c, raw, w.gw.live);
    var ann := ClearedStatus(c.secret.ann);
    if DriftCheckStatus(c.secret.ann) {
      SmoothPatch(x, t, c, ann, ClearCheckStatus);
      ConvergedIf(x, t, Patch(x, t, c, ann, ClearCheckStatus).0, ann, raw);
    }
  }

  lemma InSyncCompare(x: Setup, w: World, m: Memory, c: Copy, raw: Bytes, live: Bytes)
    requires ExpectedLive(c.secret.ann) == Hash(live)
    ensures var t := Note(w, Checked(w.run, raw, live, Hash(live), false));
            CompareLive(x, w, m, c, raw, live) ==
            Done(if DriftCheckStatus(c.secret.ann) then Patch(x, t, c, ClearedStatus(c.secret.ann), ClearCheckStatus).0
                else t,
                 m, NEXT_INTERVAL)
  {
    hide Patch, Note, DriftCheckStatus;
  }

  lemma NotedCheck(x: Setup, w: World, t: World, raw: Bytes)
    requires HoldsDesired(x, w, raw) && w.gw.live == x.norm(raw)
    requires Reads(x, w, LastAppliedHash) == Hash(raw) && Reads(x, w, LastObservedHash) == Hash(x.norm(raw))
    requires t == Note(w, Checked(w.run, raw, w.gw.live, Hash(w.gw.live), false))
    ensures Same(w, t) && OnlyReads(w, t) && HoldsDesired(x, t, raw) && !t.down
    ensures Latest(t.log, x.secretName).Some? && Current(x, t) == Current(x, w) && t.gw == w.gw
    ensures Converged(x, w, raw) <==> !DriftCheckStatus(Current(x, w).secret.ann)
    ensures Converged(x, t, raw) <==> !DriftCheckStatus(Current(x, w).secret.ann)
    ensures ExpectedLive(Current(x, w).secret.ann) == Hash(w.gw.live)
    ensures var ann := ClearedStatus(Current(x, w).secret.ann);
            && Lookup(ann, LastAppliedHash) == Hash(raw) && Lookup(ann, LastObservedHash) == Hash(x.norm(raw))
            && !DriftCheckStatus(ann)
  {
  }

  lemma ConvergedIf(x: Setup, w: World, v: World, ann: Annotations, raw: Bytes)
    requires HoldsDesired(x, w, raw) && w.gw.live == x.norm(raw) && PatchedTo(x, w, v, ann)
    requires Lookup(ann, LastAppliedHash) == Hash(raw) && Lookup(ann, LastObservedHash) == Hash(x.norm(raw))
    ensures !DriftCheckStatus(ann) <==> Converged(x, v, raw)
  {
  }

  /** With a healthy gateway a drift check is a comparison with what the gateway serves. */
  lemma SmoothCheck(x: Setup, w: World, m: Memory, c: Copy, raw: Bytes) returns (u: World, n: Memory)
    requires Smooth(x) && !w.down
    ensures Same(w, u) && OnlyReads(w, u) && DriftCheck(x, w, m, c, raw) == CompareLive(x, u, n, c, raw, w.gw.live)
  {
    SmoothClient(x, w, m);
    var (v, o, _) := GetOrCreateClient(x, w, m);
    SmoothReadLive(x, v);
    hide GetOrCreateClient, ReadLive, CompareLive;
    u, n := ReadLive(x, v).0, o.(transientFailures := 0);
  }

  lemma OnlyReadsTransitive(w: World, v: World, u: World)
    requires OnlyReads(w, v) && OnlyReads(v, u)
    ensures OnlyReads(w, u)
  {
  }

  lemma ConvergedSame(x: Setup, w: World, v: World, raw: Bytes)
    requires Same(w, v)
    ensures Converged(x, w, raw) <==> Converged(x, v, raw)
  {
  }

  lemma SmoothInSync(x: Setup, w: World, m: Memory, raw: Bytes)
    requires Smooth(x) && HoldsDesired(x, w, raw) && w.gw.live == x.norm(raw)
    requires Reads(x, w, LastAppliedHash) == Hash(raw) && Reads(x, w, LastObservedHash) == Hash(x.norm(raw))
    ensures var s := DriftCheck(x, w, m, Current(x, w), raw);
            && s.Done? && s.out == NEXT_INTERVAL && Converged(x, s.w, raw)
            && (Converged(x, w, raw) ==> Same(w, s.w) && OnlyReads(w, s.w))
  {
    hide DriftCheck, CompareLive, Converged, OnlyReads, Smooth;
    var u, n := SmoothCheck(x, w, m, Current(x, w), raw);
    ConvergedSame(x, w, u, raw);
    SmoothCompare(x, u, n, raw);
    if Converged(x, w, raw) {
      OnlyReadsTransitive(w, u, DriftCheck(x, w, m, Current(x, w), raw).w);
    }
  }

  /** A check that finds drift goes on to push the desired bytes. */
  lemma SmoothDrift(x: Setup, w: World, m: Memory, raw: Bytes)
    requires Smooth(x) && HoldsDesired(x, w, raw) && w.gw.live != x.norm(raw) && x.driftRemediate
    requires Reads(x, w, LastFailedHash) != Hash(raw) && Reads(x, w, LastObservedHash) == Hash(x.norm(raw))
    ensures var s := DriftCheck(x, w, m, Current(x, w), raw);
            s.Go? && Same(w, s.w) && s.c == Current(x, w)
  {
    hide DriftCheck, Smooth;
    var _, _ := SmoothCheck(x, w, m, Current(x, w), raw);
  }

  /** What one Reconcile needs to converge. */
  ghost predicate CanConverge(x: Setup, w: World, raw: Bytes) {
    && HoldsDesired(x, w, raw) && raw != "" && CertsReady(x, w)
    && Reads(x, w, LastFailedHash) != Hash(raw)
    && (Reads(x, w, LastAppliedHash) == Hash(raw) ==> Reads(x, w, LastObservedHash) == Hash(x.norm(raw)))
  }

  lemma ConfigPhaseConverges(x: Setup, w: World, m: Memory, raw: Bytes)
    requires Smooth(x) && ConfigSecretIsDedicated(x) && x.driftRemediate && CanConverge(x, w, raw)
    ensures var s := ConfigPhase(x, w, m, Current(x, w));
            s.Done? && s.out == NEXT_INTERVAL && Converged(x, s.w, raw)
  {
    hide Converged, DriftCheck, PushDesired, CertsReady, FailWithStatus;
    if Reads(x, w, LastAppliedHash) != Hash(raw) {
      SmoothPushDesired(x, w, m, raw);
    } else if w.gw.live == x.norm(raw) {
      SmoothInSync(x, w, m, raw);
    } else {
      SmoothDrift(x, w, m, raw);
      var s := DriftCheck(x, w, m, Current(x, w), raw);
      SmoothCertsReady(x, w, s.w);
      SmoothPushDesired(x, s.w, s.m, raw);
    }
  }

  lemma OneReconcileConverges(x: Setup, w: World, m: Memory, raw: Bytes)
    requires Smooth(x) && ConfigSecretIsDedicated(x) && x.driftRemediate && CanConverge(x, w, raw)
    ensures var s := Reconcile(x, w, m, x.secretName);
            s.Done? && s.out == NEXT_INTERVAL && Converged(x, s.w, raw)
  {
    var v := Start(w, x.secretName);
    SmoothGet(x, v, x.secretName);
    var u := Get(x, v, x.secretName).0;
    SmoothCertsReady(x, w, u);
    hide Converged, ConfigPhase, CertsReady, Get, CertEvent;
    ConfigPhaseConverges(x, u, m, raw);
  }

  lemma ConvergedIsIdle(x: Setup, w: World, m: Memory, raw: Bytes)
    requires Smooth(x) && ConfigSecretIsDedicated(x) && Converged(x, w, raw)
    ensures var s := Reconcile(x, w, m, x.secretName);
            s.out == NEXT_INTERVAL && Same(w, s.w) && OnlyReads(w, s.w)
  {
    var v := Start(w, x.secretName);
    SmoothGet(x, v, x.secretName);
    var u := Get(x, v, x.secretName).0;
    SmoothInSync(x, u, m, raw);
  }

  /** Convergence after the first Reconcile, idempotence ever after, across restarts. */
  lemma {:induction false} ConvergesAndStays(x: Setup, w: World, m: Memory, ts: seq<Trigger>, raw: Bytes)
    requires Smooth(x) && ConfigSecretIsDedicated(x) && x.driftRemediate && CanConverge(x, w, raw)
    requires ConfigTriggers(x, ts)
    ensures var (v, n) := Trip(x, w, m, Reconciled(x.secretName));
            var u := Run(x, v, n, ts).0;
            && v.gw.live == x.norm(raw) && Converged(x, v, raw)
            && Same(v, u) && OnlyReads(v, u)
  {
    OneReconcileConverges(x, w, m, raw);
    var (v, n) := Trip(x, w, m, Reconciled(x.secretName));
    ConvergedRunIsIdle(x, v, n, ts, raw);
  }

  lemma {:induction false} ConvergedRunIsIdle(x: Setup, w: World, m: Memory, ts: seq<Trigger>, raw: Bytes)
    requires Smooth(x) && ConfigSecretIsDedicated(x) && Converged(x, w, raw) && ConfigTriggers(x, ts)
    ensures var u := Run(x, w, m, ts).0; Same(w, u) && OnlyReads(w, u)
    decreases |ts|
  {
    if ts != [] {
      if ts[0].Reconciled? {
        ConvergedIsIdle(x, w, m, raw);
      }
      var (v, n) := Trip(x, w, m, ts[0]);
      ConvergedRunIsIdle(x, v, n, ts[1..], raw);
    }
  }
}
