/**
 A run from an untouched world, in which a certificate fails to be pushed, is pushed and
 recorded, and is then found in place; before anything is applied the process dies.
 */
module CertRun {
  import opened Prelude
  import opened Errors
  import opened Platform
  import opened Dataplane
  import opened Reconciliation
  import opened CertCache
  import opened Theorems
  import opened Calm

  /** The client cannot be built at first; later the process is killed when it is about to validate. */
  const ROCKY := map[2 := CALM.(reply := NoResponse(Opaque, PLAIN)), 15 := CALM.(kill := true)]

  /** One certificate, and no client at first. */
  ghost predicate Rocky(x: Setup) {
    && OneCertificate(x) && CalmFor(x, 0, 2) && CalmFor(x, 3, 7)
    && x.env(2) == CALM.(reply := NoResponse(Opaque, PLAIN))
  }

  lemma RockySetup(x: Setup)
    requires x == CalmExcept(["tls"], ROCKY)
    ensures Rocky(x)
    ensures x.certs == ["tls"] && x.secretName == "cfg" && x.secretKey == "haproxy.cfg"
    ensures x.pem == CalmExcept([], map[]).pem
    ensures forall k :: 0 <= k < 2 || 3 <= k < 15 || k == 16 ==> x.env(k) == CALM
    ensures x.env(2) == CALM.(reply := NoResponse(Opaque, PLAIN)) && x.env(15) == CALM.(kill := true)
  {
  }

  /** The two Secrets as they are, the config Secret never applied. */
  predicate Unapplied(w: World, clock: nat) {
    && !w.down && w.clock == clock
    && Latest(w.log, "tls") == Some(0) && w.log[0].secret == TLS_SECRET
    && var l := Latest(w.log, "cfg");
    && l.Some? && w.log[l.value].secret.name == "cfg" && w.log[l.value].secret.data == NEW_CONFIG.data
    && LastAppliedHash !in w.log[l.value].secret.ann && LastFailedHash !in w.log[l.value].secret.ann
  }

  // ---------------------------------------------------------------- the trace so far

  /** Nothing was posted, and every accepted push was recorded at once. */
  predicate Clean(t: seq<Event>) {
    Kept(t) && Unsaved(t).None? && forall i :: 0 <= i < |t| ==> !t[i].Post?
  }

  /** As above, but for one push whose record comes next. */
  predicate Owing(t: seq<Event>) {
    Kept(t) && forall i :: 0 <= i < |t| ==> !t[i].Post?
  }

  lemma CleanSnoc(t: seq<Event>, e: Event)
    requires !AcceptedPush(e) && !e.Post?
    ensures Clean(t) ==> Clean(t + [e])
  {
    CertSnoc(t, e);
  }

  lemma PushOwes(t: seq<Event>, e: Event)
    requires Clean(t) && !e.Post?
    ensures Owing(t + [e])
  {
    CertSnoc(t, e);
  }

  lemma RecordClears(t: seq<Event>, e: Event)
    requires Owing(t) && RecordsCert(e)
    ensures Clean(t + [e])
  {
    CertSnoc(t, e);
  }

  lemma SkipIsClean(t: seq<Event>, run: nat, version: int)
    ensures Clean(t) ==>
              Clean(t + [VersionRead(run, version), CertSkipped(run, "tls", BUNDLE, "1", CALM.remote),
                  CertSynced(run, "tls")])
  {
    var a, b, c := VersionRead(run, version), CertSkipped(run, "tls", BUNDLE, "1", CALM.remote), CertSynced(run, "tls");
    CleanSnoc(t, a);
    CleanSnoc(t + [a], b);
    CleanSnoc(t + [a] + [b], c);
    assert t + [a, b, c] == t + [a] + [b] + [c];
  }

  const AFTER_FAILURE := Memory(false, 1, None, map[])

  /** A patch of the config Secret that commits. */
  lemma CalmConfigPatch(x: Setup, w: World, ann: Annotations, purpose: Purpose)
    requires x.env(w.clock) == CALM && Unapplied(w, w.clock) && LastAppliedHash !in ann && LastFailedHash !in ann
    ensures var (v, d, reply) := Patch(x, w, ConfigCopy(w), ann, purpose);
            && reply == Committed && Unapplied(v, w.clock + 1) && v.gw == w.gw && v.run == w.run
            && d == ConfigCopy(v) && d.secret.ann == ann
            && |v.trace| == |w.trace| + 1 && v.trace == w.trace + [v.trace[|w.trace|]]
            && v.trace[|w.trace|].Patched? && v.trace[|w.trace|].purpose == purpose
  {
    var cfg := ConfigCopy(w);
    OverlaySelf(cfg.secret.ann, ann);
    hide Patch, Overlay;
    CalmPatch(x, w, cfg, ann, purpose);
  }

  // ---------------------------------------------------------------- the first event: no client

  lemma FailureMarks(ann: Annotations)
    requires LastAppliedHash !in ann && LastFailedHash !in ann && CertSync !in ann
    ensures var after := FailureAnnotations(ann, CALM, CertSyncFailed(UnknownError), None);
            && CertStatus(after) && CertSync !in after && LastAppliedHash !in after && LastFailedHash !in after
  {
  }

  lemma CalmRetry(x: Setup, w: World, m: Memory)
    requires x.env(w.clock) == CALM && Unapplied(w, w.clock) && CertSync !in ConfigCopy(w).secret.ann
    ensures var s := Retry(x, w, m, ConfigCopy(w), CertSyncFailed(UnknownError));
            && s.Done? && s.m == m.(transientFailures := m.transientFailures + 1)
            && Unapplied(s.w, w.clock + 1) && s.w.gw == w.gw && s.w.run == w.run
            && CertStatus(ConfigCopy(s.w).secret.ann) && CertSync !in ConfigCopy(s.w).secret.ann
            && (Clean(w.trace) ==> Clean(s.w.trace))
  {
    var cfg := ConfigCopy(w);
    var ann := FailureAnnotations(cfg.secret.ann, CALM, CertSyncFailed(UnknownError), None);
    UnappliedCopy(w, w.clock);
    hide Patch, CertStatus, Unapplied, Clean, ConfigCopy;
    FailureMarks(cfg.secret.ann);
    hide FailureAnnotations;
    CalmConfigPatch(x, w, ann, RecordFailure);
    var v := Patch(x, w, cfg, ann, RecordFailure).0;
    CleanSnoc(w.trace, v.trace[|w.trace|]);
  }

  /** The event up to the failed push. */
  lemma UnbuiltClient(x: Setup, w: World)
    requires Rocky(x) && Unapplied(w, 1)
    ensures var v := w.(clock := 3, trace := w.trace + [CertNotSynced(w.run, "tls")]);
            CertEvent(x, w, FRESH, Copy(0, TLS_SECRET))
                == Retry(x, v, FRESH, ConfigCopy(w), CertSyncFailed(UnknownError))
  {
    NoClient(x, w.(clock := 2));
    hide Get, Retry, GetOrCreateClient, Classify;
    CalmGet(x, w, "cfg");
  }

  lemma FailedEvent(x: Setup, w: World)
    requires Rocky(x) && Unapplied(w, 1) && CertSync !in ConfigCopy(w).secret.ann
    ensures var s := CertEvent(x, w, FRESH, Copy(0, TLS_SECRET));
            && s.Done? && s.m == AFTER_FAILURE && Unapplied(s.w, 4) && s.w.gw == w.gw && s.w.run == w.run
            && CertStatus(ConfigCopy(s.w).secret.ann) && CertSync !in ConfigCopy(s.w).secret.ann
            && (Clean(w.trace) ==> Clean(s.w.trace))
  {
    UnappliedCopy(w, 1);
    assert x.env(3) == CALM && AFTER_FAILURE == FRESH.(transientFailures := FRESH.transientFailures + 1);
    hide *;
    UnbuiltClient(x, w);
    var v := w.(clock := 3, trace := w.trace + [CertNotSynced(w.run, "tls")]);
    StillUnapplied(w, v, 1);
    CleanSnoc(w.trace, CertNotSynced(w.run, "tls"));
    CalmRetry(x, v, FRESH);
  }

  // ---------------------------------------------------------------- the second event: pushed, recorded, cleared

  lemma ClientReady(x: Setup, w: World)
    requires x.env(w.clock) == CALM && !w.down
    ensures GetOrCreateClient(x, w, AFTER_FAILURE)
            == (w.(clock := w.clock + 1), AFTER_FAILURE.(clientReady := true), None)
  {
    CalmTick(x, w);
  }

  /** A bundle that is not on record is written, whatever is stored. */
  lemma CalmSyncWrites(x: Setup, w: World, bundle: Bytes)
    requires x.env(w.clock) == CALM == x.env(w.clock + 1) == x.env(w.clock + 2) && !w.down
    requires x.pem == CalmExcept([], map[]).pem
    ensures var (v, changed) := SyncSSLCertificate(x, w, "tls", bundle, false);
            && changed == Success(true) && !v.down && v.log == w.log && v.clock == w.clock + 3 && v.run == w.run
            && v.gw == w.gw.(storage := w.gw.storage["tls.pem" := bundle])
            && (Clean(w.trace) ==> Owing(v.trace))
  {
    CalmWait(x, w);
    var v := WaitForReady(x, w).0;
    hide WaitForReady;
    CalmTick(x, v);
    assert StorageName("tls") == "tls.pem" && LeafSerial(x.pem(bundle)) == Success("1");
    var u := v.(clock := v.clock + 1);
    var stored := if "tls.pem" in w.gw.storage then Success(CALM.remote) else Failure(APIError(404));
    assert ReadCertificate(x, v, "tls.pem") == (u, stored);
    CalmTick(x, u);
    if Clean(w.trace) {
      CleanSnoc(w.trace, VersionRead(w.run, w.gw.version));
      PushOwes(v.trace, CertWrite(w.run, "tls", bundle, Response(200)));
    }
  }

  lemma CalmPushWrites(x: Setup, w: World, m: Memory)
    requires forall k :: w.clock <= k < w.clock + 4 ==> x.env(k) == CALM
    requires x.pem == CalmExcept([], map[]).pem && "tls" !in m.certHashes
    requires Unapplied(w, w.clock) && CertSync !in ConfigCopy(w).secret.ann
    ensures var p := PushCertSecret(x, w, m, TLS_SECRET, Some(ConfigCopy(w)));
            && p.result == Success(true) && p.m == m.(certHashes := m.certHashes["tls" := BUNDLE])
            && Unapplied(p.w, w.clock + 4) && p.state == Some(ConfigCopy(p.w)) && p.w.run == w.run
            && p.w.gw == w.gw.(storage := w.gw.storage["tls.pem" := BUNDLE])
            && RecordedHash(CertSyncState(p.state), "tls", BUNDLE)
            && (CertStatus(p.state.value.secret.ann) <==> CertStatus(ConfigCopy(w).secret.ann))
            && (Clean(w.trace) ==> Clean(p.w.trace))
  {
    var cfg := ConfigCopy(w);
    BundleOfSecret();
    assert CertSyncState(Some(cfg)) == map[];
    UnappliedCopy(w, w.clock);
    hide SyncSSLCertificate, CertPEMBundle, RecordPush, CertStatus, CertSyncState, Unapplied, ConfigCopy, Latest, Clean,
         Owing;
    CalmSyncWrites(x, w, BUNDLE);
    var v := SyncSSLCertificate(x, w, "tls", BUNDLE, false).0;
    StillUnapplied(w, v, w.clock);
    CalmRecordPush(x, v, m.(certHashes := m.certHashes["tls" := BUNDLE]));
  }

  lemma StillUnapplied(w: World, v: World, clock: nat)
    requires Unapplied(w, clock) && v.log == w.log && !v.down
    ensures Unapplied(v, v.clock) && Latest(w.log, "cfg").Some? && ConfigCopy(v) == ConfigCopy(w)
  {
  }

  lemma RecordIsKept(c: Copy, entry: CertEntry)
    requires LastAppliedHash !in c.secret.ann && LastFailedHash !in c.secret.ann && CertSync !in c.secret.ann
    ensures var ann := WithRecord(c, "tls", entry);
            && RecordsIn(ann) == map["tls" := entry] && (CertStatus(ann) <==> CertStatus(c.secret.ann))
            && LastAppliedHash !in ann && LastFailedHash !in ann
  {
  }

  lemma CalmRecordPush(x: Setup, w: World, m: Memory)
    requires x.env(w.clock) == CALM && Unapplied(w, w.clock) && CertSync !in ConfigCopy(w).secret.ann
    ensures var p := RecordPush(x, w, m, "tls", BUNDLE, Some(ConfigCopy(w)), true);
            && p.result == Success(true) && p.m == m
            && Unapplied(p.w, w.clock + 1) && p.state == Some(ConfigCopy(p.w)) && p.w.run == w.run && p.w.gw == w.gw
            && RecordedHash(CertSyncState(p.state), "tls", BUNDLE)
            && (CertStatus(p.state.value.secret.ann) <==> CertStatus(ConfigCopy(w).secret.ann))
            && (Owing(w.trace) ==> Clean(p.w.trace))
  {
    var cfg := ConfigCopy(w);
    var entry := CertEntry(BUNDLE, CALM.now);
    var ann := WithRecord(cfg, "tls", entry);
    UnappliedCopy(w, w.clock);
    hide Patch, CertStatus, Clean, Owing, Unapplied, ConfigCopy;
    RecordIsKept(cfg, entry);
    hide WithRecord;
    CalmConfigPatch(x, w, ann, RecordCert("tls"));
    var v := Patch(x, w, cfg, ann, RecordCert("tls")).0;
    if Owing(w.trace) {
      RecordClears(w.trace, v.trace[|w.trace|]);
      CleanSnoc(v.trace, CertSynced(v.run, "tls"));
    }
  }

  lemma CalmClear(x: Setup, w: World, m: Memory)
    requires x.env(w.clock) == CALM && Unapplied(w, w.clock) && CertStatus(ConfigCopy(w).secret.ann)
    requires RecordedHash(CertSyncState(Some(ConfigCopy(w))), "tls", BUNDLE)
    ensures var s := AfterCertPush(x, w, m, ConfigCopy(w));
            && s.Go? && s.m == m && Unapplied(s.w, w.clock + 1) && s.w.gw == w.gw && s.w.run == w.run
            && s.c == ConfigCopy(s.w) && Lookup(s.c.secret.ann, StatusKey) == StatusIs(Applied)
            && RecordedHash(CertSyncState(Some(s.c)), "tls", BUNDLE)
            && (Clean(w.trace) ==> Clean(s.w.trace))
  {
    var cfg := ConfigCopy(w);
    var ann := ClearedStatus(cfg.secret.ann);
    assert Lookup(ann, StatusKey) == StatusIs(Applied) && RecordsIn(ann) == RecordsIn(cfg.secret.ann);
    assert LastAppliedHash !in ann && LastFailedHash !in ann && ann - {LastFailedHash} == ann;
    hide Patch, ClearedStatus, Clean;
    CalmConfigPatch(x, w, ann, ClearCertStatus);
    CleanSnoc(w.trace, Patch(x, w, cfg, ann, ClearCertStatus).0.trace[|w.trace|]);
  }

  lemma PushedEvent(x: Setup, w: World)
    requires x == CalmExcept(["tls"], ROCKY) && Unapplied(w, 5) && w.gw.storage == map[]
    requires CertSync !in ConfigCopy(w).secret.ann && CertStatus(ConfigCopy(w).secret.ann)
    ensures var s := CertEvent(x, w, AFTER_FAILURE, Copy(0, TLS_SECRET));
            && s.Go? && s.m.clientReady && Unapplied(s.w, 12) && s.w.run == w.run && "tls.pem" in s.w.gw.storage
            && s.c == ConfigCopy(s.w) && Lookup(s.c.secret.ann, StatusKey) == StatusIs(Applied)
            && RecordedHash(CertSyncState(Some(s.c)), "tls", BUNDLE)
            && (Clean(w.trace) ==> Clean(s.w.trace))
  {
    RockySetup(x);
    var u, m := w.(clock := 7), AFTER_FAILURE.(clientReady := true);
    assert Unapplied(u, 7) && ConfigCopy(u) == ConfigCopy(w);
    hide CalmExcept, PushCertSecret, AfterCertPush, CertStatus, CertSyncState, CertEvent, Unapplied, Clean,
         RecordedHash;
    PushThenClear(x, u, m);
    BuiltClient(x, w);
  }

  lemma PushThenClear(x: Setup, w: World, m: Memory)
    requires forall k :: w.clock <= k < w.clock + 5 ==> x.env(k) == CALM
    requires x.pem == CalmExcept([], map[]).pem && "tls" !in m.certHashes
    requires Unapplied(w, w.clock) && CertSync !in ConfigCopy(w).secret.ann && CertStatus(ConfigCopy(w).secret.ann)
    ensures var p := PushCertSecret(x, w, m, TLS_SECRET, Some(ConfigCopy(w)));
            && p.result.Success? && p.state.Some?
            && var s := AfterCertPush(x, p.w, p.m, p.state.value);
            && s.Go? && s.m.clientReady == m.clientReady && Unapplied(s.w, w.clock + 5) && s.w.run == w.run
            && "tls.pem" in s.w.gw.storage && s.c == ConfigCopy(s.w)
            && Lookup(s.c.secret.ann, StatusKey) == StatusIs(Applied)
            && RecordedHash(CertSyncState(Some(s.c)), "tls", BUNDLE)
            && (Clean(w.trace) ==> Clean(s.w.trace))
  {
    hide CalmExcept, PushCertSecret, AfterCertPush, CertStatus, CertSyncState, Unapplied, Clean, RecordedHash;
    UnappliedCopy(w, w.clock);
    CalmPushWrites(x, w, m);
    var p := PushCertSecret(x, w, m, TLS_SECRET, Some(ConfigCopy(w)));
    UnappliedCopy(p.w, w.clock + 4);
    CalmClear(x, p.w, p.m);
  }

  /** The event up to the push. */
  lemma BuiltClient(x: Setup, w: World)
    requires Rocky(x) && Unapplied(w, 5)
    requires var m := AFTER_FAILURE.(clientReady := true);
             var p := PushCertSecret(x, w.(clock := 7), m, TLS_SECRET, Some(ConfigCopy(w)));
             p.result.Success?
    ensures var m := AFTER_FAILURE.(clientReady := true);
            var p := PushCertSecret(x, w.(clock := 7), m, TLS_SECRET, Some(ConfigCopy(w)));
            CertEvent(x, w, AFTER_FAILURE, Copy(0, TLS_SECRET)) == AfterCertPush(x, p.w, p.m, p.state.value)
  {
    hide Get, PushCertSecret, GetOrCreateClient, AfterCertPush;
    CalmGet(x, w, "cfg");
    ClientReady(x, w.(clock := 6));
  }

  // ---------------------------------------------------------------- on to the configuration

  lemma KilledAtValidation(x: Setup, w: World, m: Memory, c: Copy)
    requires x.env(w.clock) == CALM.(kill := true) && x.env(w.clock + 1) == CALM && !w.down
    ensures var s := ValidatePhase(x, w, m, c, "new");
            s.Done? && s.w.down && s.w.log == w.log && s.w.trace == w.trace && s.w.gw == w.gw
  {
    var v := w.(clock := w.clock + 1, down := true);
    assert Tick(x, w) == v;
    assert Validate(x, w, "new") == (v, Some(VersionCheckError(DEAD)));
    assert Classify(VersionCheckError(DEAD)) == UnknownError;
    hide Validate;
    DownPatch(x, v, c, FailureAnnotations(c.secret.ann, x.env(v.clock), Failed(UnknownError), None));
  }

  lemma DownPatch(x: Setup, w: World, c: Copy, ann: Annotations)
    requires w.down
    ensures var (v, _, reply) := Patch(x, w, c, ann, RecordFailure);
            && reply == PatchFailed && v.down
            && (x.env(w.clock).acts == [] ==> v.log == w.log && v.trace == w.trace && v.gw == w.gw)
  {
  }

  lemma SkippedThenKilled(x: Setup, w: World, m: Memory)
    requires x == CalmExcept(["tls"], ROCKY) && Unapplied(w, 12) && m.clientReady && "tls.pem" in w.gw.storage
    requires RecordedHash(CertSyncState(Some(ConfigCopy(w))), "tls", BUNDLE)
    ensures var s := ConfigPhase(x, w, m, ConfigCopy(w));
            && s.Done? && s.w.down && s.w.log == w.log
            && (Clean(w.trace) ==> Clean(s.w.trace))
            && exists i :: 0 <= i < |s.w.trace| && s.w.trace[i].CertSkipped?
  {
    RockySetup(x);
    var cfg, n := ConfigCopy(w), Desire(m, "new");
    assert cfg.secret.data["haproxy.cfg"] == "new";
    var u := w.(clock := 13);
    hide Get, CalmExcept, PushCertSecret, ValidatePhase, DriftCheck, CertSyncState, RecordedHash, Clean, Latest;
    CalmGet(x, w, "tls");
    CalmPushSkips(x, u, n, cfg);
    var p := PushCertSecret(x, u, n, TLS_SECRET, Some(cfg));
    assert EnsureCertSecretsSynced(x, w, n, cfg, 0) == EnsureCertSecretsSynced(x, p.w, p.m, cfg, 1)
        == Push(p.w, p.m, Some(cfg), Success(true));
    hide EnsureCertSecretsSynced;
    KilledAtValidation(x, p.w, p.m, cfg);
    SkipIsClean(w.trace, w.run, w.gw.version);
    assert p.w.trace[|w.trace| + 1].CertSkipped?;
  }

  // ---------------------------------------------------------------- the run

  lemma FirstEventFails(x: Setup)
    requires Rocky(x)
    ensures var s := Reconcile(x, BEGINNING, FRESH, "tls");
            s.m == AFTER_FAILURE && Failing(s.w)
  {
    var v := Start(BEGINNING, "tls");
    hide Get, CertEvent, Unapplied, CertStatus, Clean, Latest, ConfigCopy;
    FirstBegins();
    CalmGet(x, v, "tls");
    FailedEvent(x, v.(clock := 1));
  }

  lemma FirstBegins()
    ensures var v := Start(BEGINNING, "tls");
            && !v.down && Latest(v.log, "tls") == Some(0) && v.log[0].secret == TLS_SECRET
            && Unapplied(v.(clock := 1), 1) && v.(clock := 1).gw == BEGINNING.gw && Clean(v.trace)
            && Latest(v.log, "cfg").Some? && CertSync !in ConfigCopy(v.(clock := 1)).secret.ann
  {
    var v := Start(BEGINNING, "tls");
    assert Latest(BEGINNING.log, "cfg") == Some(1) && Latest(BEGINNING.log, "tls") == Some(0);
    assert [] + [Begin(1, "tls")] == v.trace && Clean([]);
    CleanSnoc([], Begin(1, "tls"));
    hide Clean;
  }

  /** What the config phase of the second event starts from. */
  predicate ReadyToApply(w: World, m: Memory, c: Copy) {
    && Unapplied(w, 12) && m.clientReady && "tls.pem" in w.gw.storage && Clean(w.trace)
    && c == ConfigCopy(w) && Lookup(c.secret.ann, StatusKey) == StatusIs(Applied)
    && RecordedHash(CertSyncState(Some(c)), "tls", BUNDLE)
  }

  predicate Failing(w: World) {
    && Unapplied(w, 4) && w.gw == BEGINNING.gw && Clean(w.trace)
    && CertStatus(ConfigCopy(w).secret.ann) && CertSync !in ConfigCopy(w).secret.ann
  }

  lemma BeginSecond(w: World)
    requires Failing(w)
    ensures var u := Start(w, "tls").(clock := 5);
            && Unapplied(u, 5) && u.gw.storage == map[] && Clean(u.trace)
            && CertStatus(ConfigCopy(u).secret.ann) && CertSync !in ConfigCopy(u).secret.ann
    ensures var v := Start(w, "tls");
            !v.down && v.clock == 4 && Latest(v.log, "tls") == Some(0) && v.log[0].secret == TLS_SECRET
  {
    CleanSnoc(w.trace, Begin(w.run + 1, "tls"));
    hide Clean, CertStatus;
  }

  lemma EventGoesOn(w: World) returns (v: World, m: Memory, c: Copy)
    requires Failing(w)
    ensures Reconcile(CalmExcept(["tls"], ROCKY), w, AFTER_FAILURE, "tls") ==
            ConfigPhase(CalmExcept(["tls"], ROCKY), v, m, c)
    ensures ReadyToApply(v, m, c)
  {
    var x, t, cert := CalmExcept(["tls"], ROCKY), Start(w, "tls"), Copy(0, TLS_SECRET);
    hide Get, CertEvent, ConfigPhase, CalmExcept, CertStatus, Clean, CertSyncState, Reconcile, RecordedHash, Failing;
    BeginSecond(w);
    hide Unapplied;
    RockySetup(x);
    var u := t.(clock := 5);
    CalmGet(x, t, "tls");
    PushedEvent(x, u);
    CertReconcileGoesOn(x, w, AFTER_FAILURE, "tls", u, cert);
    var s := CertEvent(x, u, AFTER_FAILURE, cert);
    v, m, c := s.w, s.m, s.c;
  }

  lemma SecondEvent(w: World)
    requires Failing(w)
    ensures var s := Reconcile(CalmExcept(["tls"], ROCKY), w, AFTER_FAILURE, "tls");
            && s.w.down && Clean(s.w.trace) && Latest(s.w.log, "cfg").Some?
            && Lookup(ConfigCopy(s.w).secret.ann, StatusKey) == StatusIs(Applied)
            && LastAppliedHash !in ConfigCopy(s.w).secret.ann
            && exists i :: 0 <= i < |s.w.trace| && s.w.trace[i].CertSkipped?
  {
    hide ConfigPhase, CalmExcept, Clean, CertSyncState, Reconcile, RecordedHash, Failing, Unapplied;
    var v, m, c := EventGoesOn(w);
    UnappliedCopy(v, 12);
    SkippedThenKilled(CalmExcept(["tls"], ROCKY), v, m);
    SameCopy(v, ConfigPhase(CalmExcept(["tls"], ROCKY), v, m, c).w);
  }

  lemma UnappliedCopy(w: World, clock: nat)
    requires Unapplied(w, clock)
    ensures Latest(w.log, "cfg").Some?
    ensures LastAppliedHash !in ConfigCopy(w).secret.ann && LastFailedHash !in ConfigCopy(w).secret.ann
    ensures w.clock == clock && !w.down
  {
  }

  lemma SameCopy(w: World, v: World)
    requires Latest(w.log, "cfg").Some? && v.log == w.log
    ensures Latest(v.log, "cfg").Some? && ConfigCopy(v) == ConfigCopy(w)
  {
  }

  lemma FailingIsUp(w: World)
    requires Failing(w)
    ensures !w.down
  {
  }

  lemma TwoTrips(x: Setup, w: World, m: Memory, t: Trigger, s: Step, u: Step)
    requires t.Reconciled? && s == Reconcile(x, w, m, t.name) && !s.w.down
    requires u == Reconcile(x, s.w, s.m, t.name) && u.w.down
    ensures Run(x, w, m, [t, t]).0 == u.w.(down := false)
  {
    hide Reconcile, Run;
    RunTwo(x, w, m, t, t);
  }

  /**
   From an untouched world: the stored status is Applied, although not even a POST was ever
   sent. And a push can be skipped in a run that keeps every record of an accepted one.
   */
  lemma AppliedWithoutAnApply() returns (w: World)
    ensures var x := CalmExcept(["tls"], ROCKY);
            Untouched(BEGINNING) && w == Run(x, BEGINNING, FRESH, [Reconciled("tls"), Reconciled("tls")]).0
    ensures var ann := CurrentAnn(w.log, "cfg");
            Lookup(ann, StatusKey) == StatusIs(Applied) && LastAppliedHash !in ann
    ensures forall i :: 0 <= i < |w.trace| ==> !w.trace[i].Post?
    ensures Kept(w.trace) && exists i :: 0 <= i < |w.trace| && w.trace[i].CertSkipped?
  {
    var x := CalmExcept(["tls"], ROCKY);
    assert Untouched(BEGINNING);
    hide Reconcile, Run, CalmExcept, Untouched, Failing, Kept;
    RockySetup(x);
    FirstEventFails(x);
    var s := Reconcile(x, BEGINNING, FRESH, "tls");
    SecondEvent(s.w);
    FailingIsUp(s.w);
    var u := Reconcile(x, s.w, s.m, "tls");
    TwoTrips(x, BEGINNING, FRESH, Reconciled("tls"), s, u);
    w := u.w.(down := false);
  }
}
