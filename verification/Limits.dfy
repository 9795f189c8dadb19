/**
 Where an obvious claim about the reconciler is false: the exact condition under which
 it holds, and a run in which it does not.
 */
module Limits {
  import opened Prelude
  import opened Errors
  import opened Platform
  import opened Dataplane
  import opened Reconciliation
  import opened Steadiness
  import opened CertCache
  import opened Actions
  import opened CertAgreement
  import opened Suffix
  import opened Theorems
  import opened Calm

  // ---------------------------------------------------------------- "success clears last-failed-hash"

  /**
   A recorded success removes the stored failed hash exactly when the copy still shows it:
   a key that is missing on both sides of the diff is not part of the patch.
   */
  lemma SuccessClearsFailedHashExactlyWhen(x: Setup, w: World, m: Memory, c: Copy, raw: Bytes)
    requires RecordSuccess(x, w, m, c, raw).out == NEXT_INTERVAL
    ensures var u := RecordSuccess(x, w, m, c, raw).w;
            && c.rv < |u.log|
            && (LastFailedHash in CurrentAnn(u.log, c.secret.name) <==>
                LastFailedHash in u.log[c.rv].secret.ann && LastFailedHash !in c.secret.ann)
  {
    var (v, live) := ReadLive(x, w);
    var observed := if live.Success? then Hash(live.value) else Pending;
    var ann := RecordedApply(c.secret.ann, x.env(v.clock), raw, observed);
    var t := Tick(x, v);
    hide Tick, ReadLive;
    assert Latest(t.log, c.secret.name) == Some(c.rv);
    CommittedAnnotations(t, c, ann, RecordApply(raw, observed));
  }

  // ---------------------------------------------------------------- "a success is reported as one"

  /**
   A recorded success is reported as such exactly when it already was, or when the copy did not
   show it yet: what only the copy was cleared of, after a lost patch, is not part of this one.
   */
  lemma SuccessReportedExactlyWhen(x: Setup, w: World, m: Memory, c: Copy, raw: Bytes)
    requires RecordSuccess(x, w, m, c, raw).out == NEXT_INTERVAL
    ensures var u := RecordSuccess(x, w, m, c, raw).w;
            && c.rv < |u.log|
            && (Lookup(CurrentAnn(u.log, c.secret.name), StatusKey) == StatusIs(Applied) <==>
                || Lookup(u.log[c.rv].secret.ann, StatusKey) == StatusIs(Applied)
                || Lookup(c.secret.ann, StatusKey) != StatusIs(Applied))
  {
    var (v, live) := ReadLive(x, w);
    var observed := if live.Success? then Hash(live.value) else Pending;
    var ann := RecordedApply(c.secret.ann, x.env(v.clock), raw, observed);
    var t := Tick(x, v);
    hide Tick, ReadLive;
    assert Latest(t.log, c.secret.name) == Some(c.rv);
    CommittedAnnotations(t, c, ann, RecordApply(raw, observed));
  }

  // ---------------------------------------------------------------- "the first read after an apply fixes the baseline"

  /** The read-back fails, the patch that adopts the next read is lost, and then somebody writes the gateway. */
  const LOST_BASELINE := map[
    7 := CALM.(reply := Response(500)),
    11 := CALM.(api := Faulty(false)),
    12 := CALM.(acts := [GatewayWrite("other")])]

  lemma LostSetup(x: Setup)
    requires x == CalmExcept([], LOST_BASELINE)
    ensures x.certs == [] && x.secretName == "cfg" && x.secretKey == "haproxy.cfg" && x.norm("new") == "new"
    ensures forall k :: 0 <= k < 7 || 8 <= k < 11 || 13 <= k < 15 ==> x.env(k) == CALM
    ensures x.env(7) == CALM.(reply := Response(500)) && x.env(11) == CALM.(api := Faulty(false))
    ensures x.env(12) == CALM.(acts := [GatewayWrite("other")])
  {
  }

  lemma FailedReadBack(x: Setup, w: World)
    requires x.env(w.clock) == CALM.(reply := Response(500)) && !w.down
    ensures ReadLive(x, w) == (w.(clock := w.clock + 1), Failure(APIError(500)))
  {
    assert Tick(x, w) == w.(clock := w.clock + 1);
  }

  lemma FirstReconcile()
    ensures var s := Reconcile(CalmExcept([], LOST_BASELINE), UNTOUCHED, FRESH, "cfg");
            Holding(s.w, 9, "new", Pending) && s.m.clientReady
  {
    var x := CalmExcept([], LOST_BASELINE);
    var v := Start(UNTOUCHED, "cfg");
    var c := Copy(0, NEW_CONFIG);
    LostSetup(x);
    hide PushDesired, Get, RecordSuccess, Reconcile, CalmExcept;
    CalmGet(x, v, "cfg");
    ReconcilePushes(x, UNTOUCHED, FRESH, v.(clock := 1), c, "new");
    var b, n := CalmPushDesired(x, v.(clock := 1), FRESH, c, "new");
    FailedReadBack(x, b);
    RecordedAs(x, b, b.(clock := 8), Failure(APIError(500)), n, c, "new");
  }

  /** A patch that is lost leaves the store as it was. */
  lemma LostAdoption(x: Setup, w: World, m: Memory, c: Copy, raw: Bytes, live: Bytes)
    requires x.env(w.clock) == CALM.(api := Faulty(false)) && !w.down && ExpectedLive(c.secret.ann) == Pending
    ensures CompareLive(x, w, m, c, raw, live) == Done(w.(clock := w.clock + 1), m, NEXT_INTERVAL)
  {
    assert Tick(x, w) == w.(clock := w.clock + 1);
    hide Tick;
  }

  /** The first successful live read since the apply returns what was applied, but is not recorded. */
  lemma SecondReconcile(w: World, m: Memory)
    requires Holding(w, 9, "new", Pending) && m.clientReady
    ensures var s := Reconcile(CalmExcept([], LOST_BASELINE), w, m, "cfg");
            && Holding(s.w, 12, "new", Pending) && s.m.clientReady
            && w.trace <= s.w.trace && LiveRead(s.w.run, "new") in s.w.trace
  {
    var x := CalmExcept([], LOST_BASELINE);
    var v := Start(w, "cfg");
    var l := Latest(w.log, "cfg").value;
    var c := Copy(l, w.log[l].secret);
    LostSetup(x);
    hide Get, ReadLive, CompareLive, Reconcile, CalmExcept;
    CalmGet(x, v, "cfg");
    var u := v.(clock := 10);
    var t := Note(u, LiveRead(u.run, "new")).(clock := 11);
    CalmReadLive(x, u);
    LostAdoption(x, t, m.(transientFailures := 0), c, "new", "new");
    ReconcileCompares(x, w, m, u, t, c, "new", "new");
    assert t.trace[|t.trace| - 1] == LiveRead(t.run, "new");
  }

  /** With a pending baseline, whatever the gateway serves now becomes the baseline. */
  lemma AdoptsWhatIsServed(x: Setup, w: World, m: Memory, c: Copy, raw: Bytes, live: Bytes)
    requires x.env(w.clock) == CALM && !w.down && ExpectedLive(c.secret.ann) == Pending
    requires Latest(w.log, c.secret.name) == Some(c.rv) && w.log[c.rv].secret == c.secret
    ensures var s := CompareLive(x, w, m, c, raw, live);
      && s.Done? && s.m == m && !s.w.down && s.w.clock == w.clock + 1 && s.w.gw == w.gw
      && var l := Latest(s.w.log, c.secret.name);
      && l.Some? && s.w.log[l.value].secret.name == c.secret.name && s.w.log[l.value].secret.data == c.secret.data
      && var ann := s.w.log[l.value].secret.ann;
      && Lookup(ann, LastAppliedHash) == Lookup(c.secret.ann, LastAppliedHash)
      && Lookup(ann, LastObservedHash) == Hash(live)
  {
    var ann := AdoptedBaseline(c.secret.ann, live);
    OverlaySelf(c.secret.ann, ann);
    assert Lookup(ann, LastAppliedHash) == Lookup(c.secret.ann, LastAppliedHash)
           && Lookup(ann, LastObservedHash) == Hash(live);
    hide Patch, Overlay, AdoptedBaseline;
    CalmPatch(x, w, c, ann, AdoptBaseline(live));
  }

  lemma ThirdReconcile(w: World, m: Memory)
    requires Holding(w, 12, "new", Pending) && m.clientReady
    ensures var s := Reconcile(CalmExcept([], LOST_BASELINE), w, m, "cfg");
            Holding(s.w, 15, "other", Hash("other"))
  {
    var x := CalmExcept([], LOST_BASELINE);
    var v := Start(w, "cfg");
    var t := EnvStep(v, GatewayWrite("other")).(clock := 13);
    var l := Latest(w.log, "cfg").value;
    var c := Copy(l, w.log[l].secret);
    LostSetup(x);
    hide CalmExcept;
    OverwrittenBefore(x, v, "other");
    assert Get(x, v, "cfg") == (t, Found(c));
    hide Get, ReadLive, CompareLive, Reconcile;
    CalmReadLive(x, t);
    var r := Note(t, LiveRead(t.run, "other")).(clock := 14);
    AdoptsWhatIsServed(x, r, m.(transientFailures := 0), c, "new", "other");
    ReconcileCompares(x, w, m, t, r, c, "new", "other");
  }

  /**
   The first successful live read after an apply does not fix the baseline: if the patch that
   adopts it is lost, a later one adopts what somebody else wrote in between, and no check
   ever reports that drift. Drift.BaselineIsRightExactlyWhen says when it is right.
   */
  lemma FirstReadIsNotEnough()
    ensures var x := CalmExcept([], LOST_BASELINE);
            var (w, m) := Run(x, UNTOUCHED, FRESH, [Reconciled("cfg"), Reconciled("cfg")]);
            var (u, _) := Run(x, w, m, [Reconciled("cfg")]);
            && Untouched(UNTOUCHED) && x.norm("new") == "new"
            && LiveRead(w.run, "new") in w.trace && Holding(w, 12, "new", Pending)
            && Holding(u, 15, "other", Hash("other"))
  {
    var x := CalmExcept([], LOST_BASELINE);
    hide Reconcile, Run;
    assert Untouched(UNTOUCHED) && x.norm("new") == "new";
    hide CalmExcept;
    FirstReconcile();
    var s := Reconcile(x, UNTOUCHED, FRESH, "cfg");
    SecondReconcile(s.w, s.m);
    var t := Reconcile(x, s.w, s.m, "cfg");
    ThirdReconcile(t.w, t.m);
    RunTwo(x, UNTOUCHED, FRESH, Reconciled("cfg"), Reconciled("cfg"));
    RunOne(x, t.w, t.m, Reconciled("cfg"));
    assert Run(x, UNTOUCHED, FRESH, [Reconciled("cfg"), Reconciled("cfg")]) == (t.w, t.m);
  }

  // ---------------------------------------------------------------- "a synced certificate is stored"

  /** What the GET of the stored object answers when this push comes to it. */
  function StoredMetadata(x: Setup, w: World, name: string): Result<Remote, Err> {
    ReadCertificate(x, WaitForReady(x, w).0, StorageName(name)).1
  }

  /** The skipping branch: a recorded hash, and metadata that match. */
  predicate LooksSynced(x: Setup, w: World, name: string, bundle: Bytes, previouslySynced: bool) {
    var serial, found := LeafSerial(x.pem(bundle)), StoredMetadata(x, w, name);
    previouslySynced && serial.Success? && found.Success? && MetadataMatches(found.value, serial.value, |bundle|)
  }

  lemma SkipsExactlyWhen(x: Setup, w: World, name: string, bundle: Bytes, previouslySynced: bool)
    requires SyncSSLCertificate(x, w, name, bundle, previouslySynced).1.Success?
    ensures !SyncSSLCertificate(x, w, name, bundle, previouslySynced).1.value <==>
            LooksSynced(x, w, name, bundle, previouslySynced)
  {
    hide WaitForReady, WriteCertificate, Note, LeafSerial;
  }

  /**
   While nobody else writes storage: a sync that reports success leaves the bundle stored if
   and only if it was stored, or the recorded hash or the metadata tell it apart from what is.
   */
  lemma SuccessStoresExactlyWhen(x: Setup, w: World, name: string, bundle: Bytes, previouslySynced: bool)
    requires StorageIsOurs(x) && SyncSSLCertificate(x, w, name, bundle, previouslySynced).1.Success?
    ensures Stores(SyncSSLCertificate(x, w, name, bundle, previouslySynced).0.gw, name, bundle) <==>
            Stores(w.gw, name, bundle) || !LooksSynced(x, w, name, bundle, previouslySynced)
  {
    SkipsExactlyWhen(x, w, name, bundle, previouslySynced);
    hide SyncSSLCertificate, LooksSynced, StorageIsOurs;
    SyncSSLCertificatePushes(x, w, name, bundle, previouslySynced);
  }

  /** Recording a push does not touch storage. */
  lemma RecordLeavesStorage(
    x: Setup, w: World, m: Memory, name: string, bundle: Bytes, state: Option<Copy>, changed: bool)
    requires StorageIsOurs(x)
    ensures RecordPush(x, w, m, name, bundle, state, changed).w.gw.storage == w.gw.storage
  {
    hide StorageIsOurs, Patch, Tick, Commit;
    if state.Some? {
      var c := state.value;
      var ann := WithRecord(c, name, CertEntry(bundle, x.env(w.clock).now));
      PatchEnds(x, w, c, ann, RecordCert(name));
      TickRests(x, w);
      if Latest(Tick(x, w).log, c.secret.name) == Some(c.rv) {
        CommittedAnnotations(Tick(x, w), c, ann, RecordCert(name));
      }
    }
  }

  /**
   For the push of a Secret, the recorded hash is the one on the config Secret or the one in
   memory, whichever equals the bundle: an outdated one of the two is enough for a wrong skip.
   */
  lemma PushStoresExactlyWhen(x: Setup, w: World, m: Memory, secret: Secret, state: Option<Copy>)
    requires StorageIsOurs(x) && PushCertSecret(x, w, m, secret, state).result.Success?
    ensures CertPEMBundle(secret).Success?
    ensures var name, bundle := secret.name, CertPEMBundle(secret).value;
            var recorded := RecordedHash(CertSyncState(state), name, bundle);
            var remembered := name in m.certHashes && m.certHashes[name] == bundle;
            Stores(PushCertSecret(x, w, m, secret, state).w.gw, name, bundle) <==>
            Stores(w.gw, name, bundle) || !LooksSynced(x, w, name, bundle, recorded || remembered)
  {
    hide SyncSSLCertificate, LooksSynced, RecordPush, StorageIsOurs, CertPEMBundle, NotPushed;
    NotPushedFails();
    var b := CertPEMBundle(secret).value;
    var previouslySynced := RecordedHash(CertSyncState(state), secret.name, b)
                            || (secret.name in m.certHashes && m.certHashes[secret.name] == b);
    var (v, changed) := SyncSSLCertificate(x, w, secret.name, b, previouslySynced);
    SuccessStoresExactlyWhen(x, w, secret.name, b, previouslySynced);
    var n := m.(certHashes := m.certHashes[secret.name := b]);
    RecordLeavesStorage(x, v, n, secret.name, b, state, changed.value);
    StorageDecides(v.gw, RecordPush(x, v, n, secret.name, b, state, changed.value).w.gw, secret.name, b);
  }

  lemma StorageDecides(g: Gateway, h: Gateway, name: string, bundle: Bytes)
    requires g.storage == h.storage
    ensures Stores(g, name, bundle) <==> Stores(h, name, bundle)
  {
  }

  // ---------------------------------------------------------------- "status Applied means applied"

  /**
   Whenever the patch after a recovered push commits, the stored status is Applied; whether an
   apply is on record is as before. CertRun.AppliedWithoutAnApply is a run in which none is.
   */
  lemma RecoveredPushReportsApplied(x: Setup, w: World, m: Memory, c: Copy)
    requires CertStatus(c.secret.ann) && Patch(x, w, c, ClearedStatus(c.secret.ann), ClearCertStatus).2.Committed?
    ensures var u := AfterCertPush(x, w, m, c).w;
            var ann := CurrentAnn(u.log, c.secret.name);
            && Lookup(ann, StatusKey) == StatusIs(Applied)
            && (LastAppliedHash in ann <==> LastAppliedHash in CurrentAnn(Tick(x, w).log, c.secret.name))
  {
    var ann, v := ClearedStatus(c.secret.ann), Tick(x, w);
    assert Touched(StatusKey, c.secret.ann, ann) && !Touched(LastAppliedHash, c.secret.ann, ann);
    hide Tick;
    CommittedAnnotations(v, c, ann, ClearCertStatus);
  }

  /** The status reports a drift check that failed. */
  ghost predicate ReportsCheck(ann: Annotations) {
    exists cause :: Lookup(ann, StatusKey) == StatusIs(DriftCheckFailed(cause))
  }

  /**
   A check that finds no drift changes the stored status exactly when that came from a drift
   check; otherwise it writes nothing. CheckRun.FailureOutlivesACheck is a run with another one.
   */
  lemma InSyncKeepsOtherFailures(x: Setup, w: World, m: Memory, c: Copy, raw: Bytes, live: Bytes)
    requires ExpectedLive(c.secret.ann) == Hash(live)
    ensures var u := CompareLive(x, w, m, c, raw, live).w;
            && (ReportsCheck(c.secret.ann) ==>
                  var t := Note(w, Checked(w.run, raw, live, Hash(live), false));
                  Patch(x, t, c, ClearedStatus(c.secret.ann), ClearCheckStatus).2.Committed? ==>
                    Lookup(CurrentAnn(u.log, c.secret.name), StatusKey) == StatusIs(Applied))
            && (!ReportsCheck(c.secret.ann) ==> u.log == w.log)
  {
    var t := Note(w, Checked(w.run, raw, live, Hash(live), false));
    var ann := ClearedStatus(c.secret.ann);
    if DriftCheckStatus(c.secret.ann) && Patch(x, t, c, ann, ClearCheckStatus).2.Committed? {
      assert Touched(StatusKey, c.secret.ann, ann);
      hide Tick;
      CommittedAnnotations(Tick(x, t), c, ann, ClearCheckStatus);
    }
  }
}
