/**
 Runs from an untouched world in which what is stored says less than it seems to: a success
 after which the failed hash is still there, one after which a failed certificate sync is still
 reported, and a certificate that is called synced while the gateway stores another one.
 */
module StaleRun {
  import opened Prelude
  import opened Errors
  import opened Platform
  import opened Dataplane
  import opened Reconciliation
  import opened Steadiness
  import opened Theorems
  import opened Calm
  import opened CertRun

  /** The certificate Secret reads as given, the config Secret holds the bytes "new". */
  predicate Serves(w: World, clock: nat, tls: Secret) {
    && !w.down && w.clock == clock
    && Latest(w.log, "tls").Some? && w.log[Latest(w.log, "tls").value].secret == tls
    && Latest(w.log, "cfg").Some? && ConfigCopy(w).secret.name == "cfg"
    && ConfigCopy(w).secret.data == NEW_CONFIG.data
  }

  lemma ServesClock(w: World, clock: nat, tls: Secret)
    requires Serves(w, clock, tls)
    ensures w.clock == clock && !w.down && Latest(w.log, "cfg").Some? && Latest(w.log, "tls").Some?
  {
  }

  lemma StillServes(w: World, v: World, clock: nat, tls: Secret)
    requires Serves(w, clock, tls) && v.log == w.log && !v.down
    ensures Serves(v, v.clock, tls) && ConfigCopy(v) == ConfigCopy(w)
  {
  }

  lemma BeginningIsUntouched()
    ensures Untouched(BEGINNING)
  {
  }

  // ---------------------------------------------------------------- the certificate is pushed and recorded

  /** What the config phase of the first Reconcile starts from. */
  predicate FirstPushed(w: World, m: Memory, c: Copy) {
    && Unapplied(w, 7) && w.gw == BEGINNING.gw.(storage := map["tls.pem" := BUNDLE])
    && m == Memory(true, 0, None, map["tls" := BUNDLE]) && c == ConfigCopy(w) && !CertStatus(c.secret.ann)
    && RecordedHash(CertSyncState(Some(c)), "tls", BUNDLE)
  }

  lemma FirstEventPushes(x: Setup, w: World)
    requires OneCertificate(x) && CalmFor(x, 0, 7) && Unapplied(w, 1) && w.gw == BEGINNING.gw
    requires CertSync !in ConfigCopy(w).secret.ann && !CertStatus(ConfigCopy(w).secret.ann)
    ensures var s := CertEvent(x, w, FRESH, Copy(0, TLS_SECRET)); s.Go? && FirstPushed(s.w, s.m, s.c)
  {
    var cfg, n := ConfigCopy(w), FRESH.(clientReady := true);
    var u := w.(clock := 3);
    hide Get, GetOrCreateClient, PushCertSecret, CertStatus, CertSyncState, RecordedHash;
    CalmGet(x, w, "cfg");
    FirstClient(x, w.(clock := 2));
    assert Unapplied(u, 3) && ConfigCopy(u) == cfg;
    hide Latest, Unapplied;
    CalmPushWrites(x, u, n);
    var p := PushCertSecret(x, u, n, TLS_SECRET, Some(cfg));
    UnappliedFacts(p.w, 7);
    NothingToDrop(p.state.value);
  }

  lemma FirstClient(x: Setup, w: World)
    requires x.env(w.clock) == CALM && !w.down
    ensures GetOrCreateClient(x, w, FRESH) == (w.(clock := w.clock + 1), FRESH.(clientReady := true), None)
  {
    CalmTick(x, w);
  }

  lemma UnappliedFacts(w: World, clock: nat)
    requires Unapplied(w, clock)
    ensures Latest(w.log, "cfg").Some? && LastFailedHash !in ConfigCopy(w).secret.ann
  {
  }

  lemma NothingToDrop(c: Copy)
    requires LastFailedHash !in c.secret.ann
    ensures Unsuppressed(c) == c
  {
    assert c.secret.ann - {LastFailedHash} == c.secret.ann;
  }

  lemma FirstPush(x: Setup) returns (w: World, m: Memory, c: Copy)
    requires OneCertificate(x) && CalmFor(x, 0, 7)
    ensures FirstPushed(w, m, c) && Reconcile(x, BEGINNING, FRESH, "tls") == ConfigPhase(x, w, m, c)
  {
    var v := Start(BEGINNING, "tls");
    assert Latest(BEGINNING.log, "cfg") == Some(1) && Latest(BEGINNING.log, "tls") == Some(0);
    assert Unapplied(v.(clock := 1), 1) && ConfigCopy(v).secret == NEW_CONFIG;
    hide Get, CertEvent, Unapplied, Reconcile, ConfigPhase;
    CalmGet(x, v, "tls");
    var u := v.(clock := 1);
    FirstEventPushes(x, u);
    CertReconcileGoesOn(x, BEGINNING, FRESH, "tls", u, Copy(0, TLS_SECRET));
    var s := CertEvent(x, u, FRESH, Copy(0, TLS_SECRET));
    w, m, c := s.w, s.m, s.c;
  }

  /** Bytes without an applied hash are pushed. */
  lemma UnappliedIsPushed(x: Setup, w: World, m: Memory, c: Copy)
    requires OneCertificate(x) && c.secret.name == "cfg" && c.secret.data == NEW_CONFIG.data
    requires LastAppliedHash !in c.secret.ann
    ensures ConfigPhase(x, w, m, c) == PushDesired(x, w, m, c, "new")
  {
    hide PushDesired, DriftCheck;
  }

  /** The listed certificate is found in place. */
  lemma CertsInPlace(x: Setup, w: World, m: Memory, c: Copy)
    requires OneCertificate(x) && CalmFor(x, w.clock, w.clock + 3) && Serves(w, w.clock, TLS_SECRET)
    requires "tls.pem" in w.gw.storage && RecordedHash(CertSyncState(Some(c)), "tls", BUNDLE)
    ensures var p := EnsureCertSecretsSynced(x, w, m, c, 0);
            && p.result == Success(true) && p.state == Some(c) && p.m == m.(certHashes := m.certHashes["tls" := BUNDLE])
            && !p.w.down && p.w.log == w.log && p.w.gw == w.gw && p.w.run == w.run && p.w.clock == w.clock + 3
  {
    hide PushCertSecret, Get, CertSyncState, RecordedHash;
    CalmGet(x, w, "tls");
    var u := w.(clock := w.clock + 1);
    CalmPushSkips(x, u, m, c);
    var p := PushCertSecret(x, u, m, TLS_SECRET, Some(c));
    assert EnsureCertSecretsSynced(x, w, m, c, 0) == EnsureCertSecretsSynced(x, p.w, p.m, c, 1);
  }

  // ---------------------------------------------------------------- "success clears last-failed-hash"

  /** The gateway refuses the first validation. */
  const PICKY: map<nat, Item> := map[11 := CALM.(reply := Response(400))]

  ghost predicate Picky(x: Setup) {
    && OneCertificate(x) && CalmFor(x, 0, 11) && CalmFor(x, 12, 27)
    && x.env(11) == CALM.(reply := Response(400))
  }

  lemma PickySetup(x: Setup)
    requires x == CalmExcept(["tls"], PICKY)
    ensures Picky(x)
  {
  }

  lemma RefusedValidation(x: Setup, w: World, raw: Bytes)
    requires x.env(w.clock) == CALM && x.env(w.clock + 1) == CALM.(reply := Response(400)) && !w.down && raw != ""
    ensures var (v, err) := Validate(x, w, raw);
            && err.Some? && Classify(err.value) == ConfigRejected
            && !v.down && v.log == w.log && v.gw == w.gw && v.run == w.run && v.clock == w.clock + 2
  {
    CalmVersion(x, w);
    var v := ReadVersion(x, w).0;
    assert Tick(x, v) == v.(clock := v.clock + 1);
    hide Tick;
  }

  /** The config Secret carries the failed hash of its bytes, the certificate is in place. */
  predicate RefusedOnce(w: World, m: Memory) {
    && Serves(w, 13, TLS_SECRET) && "tls.pem" in w.gw.storage && m.clientReady
    && Marked(ConfigCopy(w))
  }

  predicate Marked(c: Copy) {
    && Lookup(c.secret.ann, LastFailedHash) == Hash("new") && LastAppliedHash !in c.secret.ann
    && !CertStatus(c.secret.ann) && RecordedHash(CertSyncState(Some(c)), "tls", BUNDLE)
  }

  lemma CalmReject(x: Setup, w: World, m: Memory, c: Copy)
    requires x.env(12) == CALM && Unapplied(w, 12) && "tls.pem" in w.gw.storage && m.clientReady
    requires c == ConfigCopy(w) && RecordedHash(CertSyncState(Some(c)), "tls", BUNDLE)
    ensures var s := Reject(x, w, m, c, "new"); s.Done? && RefusedOnce(s.w, s.m)
  {
    hide Patch, FailureAnnotations, Overlay, Marked, CertSyncState, RecordedHash;
    var ann := FailureAnnotations(c.secret.ann, CALM, Failed(ConfigRejected), Some("new"));
    OverlaySelf(c.secret.ann, ann);
    RejectionMarks(c);
    CalmPatch(x, w, c, ann, RecordFailure);
    SameMark(c.(secret := c.secret.(ann := ann)), ConfigCopy(Patch(x, w, c, ann, RecordFailure).0));
  }

  lemma RejectionMarks(c: Copy)
    requires LastAppliedHash !in c.secret.ann && RecordedHash(CertSyncState(Some(c)), "tls", BUNDLE)
    ensures Marked(c.(secret := c.secret.(
                     ann := FailureAnnotations(c.secret.ann, CALM, Failed(ConfigRejected), Some("new")))))
  {
    var ann := FailureAnnotations(c.secret.ann, CALM, Failed(ConfigRejected), Some("new"));
    assert RecordsIn(ann) == RecordsIn(c.secret.ann);
  }

  lemma SameMark(c: Copy, d: Copy)
    requires Marked(c) && c.secret.ann == d.secret.ann
    ensures Marked(d)
  {
  }

  lemma PushIsRefused(x: Setup, w: World, m: Memory, c: Copy)
    requires Picky(x) && FirstPushed(w, m, c)
    ensures var s := PushDesired(x, w, m, c, "new"); s.Done? && RefusedOnce(s.w, s.m)
  {
    hide *;
    FirstPushedFacts(w, m, c);
    PickyFacts(x);
    DesireFacts(m, c);
    var n := Desire(m, "new");
    CertsInPlace(x, w, n, c);
    var p := EnsureCertSecretsSynced(x, w, n, c, 0);
    RefusedValidation(x, p.w, "new");
    var v := Validate(x, p.w, "new").0;
    StillUnapplied(w, v, 7);
    PushDesiredReachesReject(x, w, m, c, "new");
    CalmReject(x, v, p.m, c);
  }

  lemma PickyFacts(x: Setup)
    requires Picky(x)
    ensures OneCertificate(x) && CalmFor(x, 7, 10) && x.env(10) == CALM == x.env(12)
    ensures x.env(11) == CALM.(reply := Response(400))
  {
  }

  lemma DesireFacts(m: Memory, c: Copy)
    ensures Desire(m, "new").clientReady == m.clientReady && Desire(m, "new").certHashes == m.certHashes
    ensures LastFailedHash !in c.secret.ann ==> Lookup(c.secret.ann, LastFailedHash) != Hash("new")
  {
  }

  lemma PushDesiredReachesReject(x: Setup, w: World, m: Memory, c: Copy, raw: Bytes)
    requires m.clientReady && Lookup(c.secret.ann, LastFailedHash) != Hash(raw)
    requires var p := EnsureCertSecretsSynced(x, w, Desire(m, raw), c, 0);
             && p.result.Success? && p.state == Some(c)
             && var err := Validate(x, p.w, raw).1; err.Some? && Classify(err.value) == ConfigRejected
    ensures var p := EnsureCertSecretsSynced(x, w, Desire(m, raw), c, 0);
            PushDesired(x, w, m, c, raw) == Reject(x, Validate(x, p.w, raw).0, p.m, c, raw)
  {
    hide EnsureCertSecretsSynced, Validate, Reject, Classify;
  }

  lemma FirstRefused(x: Setup)
    requires Picky(x)
    ensures var s := Reconcile(x, BEGINNING, FRESH, "tls"); s.Done? && RefusedOnce(s.w, s.m)
  {
    assert OneCertificate(x) && CalmFor(x, 0, 7);
    hide *;
    var w, m, c := FirstPush(x);
    FirstPushedFacts(w, m, c);
    UnappliedIsPushed(x, w, m, c);
    PushIsRefused(x, w, m, c);
  }

  lemma FirstPushedFacts(w: World, m: Memory, c: Copy)
    requires FirstPushed(w, m, c)
    ensures Unapplied(w, 7) && Serves(w, 7, TLS_SECRET) && c == ConfigCopy(w) && m.clientReady && w.clock == 7
    ensures m.certHashes == map["tls" := BUNDLE] && w.gw.storage == map["tls.pem" := BUNDLE]
    ensures RecordedHash(CertSyncState(Some(c)), "tls", BUNDLE)
    ensures c.secret.name == "cfg" && c.secret.data == NEW_CONFIG.data
    ensures LastAppliedHash !in c.secret.ann && LastFailedHash !in c.secret.ann
  {
  }

  /** In this Reconcile the push of the old bundle was skipped. */
  predicate Skips(w: World) {
    exists i :: 0 <= i < |w.trace| && w.trace[i] == CertSkipped(w.run, "tls", BUNDLE, "1", CALM.remote)
  }

  /** A certificate event with nothing to push goes on, with the failed hash dropped from the copy. */
  lemma EventDropsHash(x: Setup, w: World, m: Memory, c: Copy, d: Copy)
    requires OneCertificate(x) && CalmFor(x, w.clock, w.clock + 3) && Serves(w, w.clock, TLS_SECRET)
    requires "tls.pem" in w.gw.storage && m.clientReady && c.secret == TLS_SECRET && d == ConfigCopy(w)
    requires RecordedHash(CertSyncState(Some(d)), "tls", BUNDLE) && !CertStatus(d.secret.ann)
    ensures var s := CertEvent(x, w, m, c);
            && s.Go? && s.c == Unsuppressed(d) && s.m.clientReady && s.w.log == w.log && s.w.gw == w.gw && !s.w.down
            && s.w.clock == w.clock + 3 && s.w.run == w.run
            && Skips(s.w)
  {
    hide PushCertSecret, Get, CertSyncState, RecordedHash, CertStatus, Unsuppressed;
    CalmGet(x, w, "cfg");
    CalmPushSkips(x, w.(clock := w.clock + 1), m, d);
    assert CertEvent(x, w, m, c).w.trace[|w.trace| + 1] == CertSkipped(w.run, "tls", BUNDLE, "1", CALM.remote);
  }

  /** The applied hash is stored and the failed hash survives, because the copy had already dropped it. */
  lemma CalmRecord(x: Setup, w: World, m: Memory, c: Copy, raw: Bytes)
    requires x.env(w.clock) == CALM == x.env(w.clock + 1) && !w.down
    requires Latest(w.log, c.secret.name) == Some(c.rv) && LastFailedHash !in c.secret.ann
    ensures var s := RecordSuccess(x, w, m, c, raw);
            && s.Done? && s.out == NEXT_INTERVAL && s.w.gw == w.gw && !s.w.down
            && var ann := CurrentAnn(s.w.log, c.secret.name);
            && Lookup(ann, LastFailedHash) == Lookup(w.log[c.rv].secret.ann, LastFailedHash)
            && (Lookup(c.secret.ann, LastAppliedHash) != Hash(raw) ==> Lookup(ann, LastAppliedHash) == Hash(raw))
  {
    CalmTick(x, w);
    var v := Note(w, LiveRead(w.run, w.gw.live)).(clock := w.clock + 1);
    assert ReadLive(x, w) == (v, Success(w.gw.live));
    hide ReadLive, Patch;
    CalmPatch(x, v, c, RecordedApply(c.secret.ann, CALM, raw, Hash(w.gw.live)), RecordApply(raw, Hash(w.gw.live)));
  }

  lemma PushDesiredReachesRecord(x: Setup, w: World, m: Memory, c: Copy, raw: Bytes)
    requires m.clientReady && Lookup(c.secret.ann, LastFailedHash) != Hash(raw)
    requires var p := EnsureCertSecretsSynced(x, w, Desire(m, raw), c, 0);
             && p.result.Success? && Validate(x, p.w, raw).1.None?
             && ApplyValidated(x, Validate(x, p.w, raw).0, raw).1.None?
    ensures var p := EnsureCertSecretsSynced(x, w, Desire(m, raw), c, 0);
            var v := ApplyValidated(x, Validate(x, p.w, raw).0, raw).0;
            PushDesired(x, w, m, c, raw) == RecordSuccess(x, v, p.m.(transientFailures := 0), p.state.value, raw)
  {
    hide EnsureCertSecretsSynced, Validate, ApplyValidated, RecordSuccess;
  }

  /** A Reconcile that reports success, applied the bytes, and left both of their hashes stored. */
  predicate AppliedYetFailed(w: World, out: Outcome) {
    && out == NEXT_INTERVAL && w.gw.live == "new"
    && var ann := CurrentAnn(w.log, "cfg");
    && Lookup(ann, LastAppliedHash) == Hash("new") && Lookup(ann, LastFailedHash) == Hash("new")
  }

  /** Bytes that the gateway accepts are recorded next. */
  lemma ReachesRecord(x: Setup, w: World, m: Memory, c: Copy) returns (b: World, n: Memory)
    requires OneCertificate(x) && CalmFor(x, w.clock, w.clock + 10) && m.clientReady
    requires Serves(w, w.clock, TLS_SECRET) && "tls.pem" in w.gw.storage
    requires RecordedHash(CertSyncState(Some(c)), "tls", BUNDLE) && LastFailedHash !in c.secret.ann
    ensures PushDesired(x, w, m, c, "new") == RecordSuccess(x, b, n, c, "new")
    ensures b.log == w.log && !b.down && b.clock == w.clock + 8 && b.gw.live == "new"
  {
    var d := Desire(m, "new");
    hide EnsureCertSecretsSynced, Validate, ApplyValidated, PushDesired, RecordSuccess, CertSyncState, RecordedHash;
    CertsInPlace(x, w, d, c);
    var p := EnsureCertSecretsSynced(x, w, d, c, 0);
    CalmValidate(x, p.w, "new");
    var a := Validate(x, p.w, "new").0;
    CalmApply(x, a, "new");
    PushDesiredReachesRecord(x, w, m, c, "new");
    b, n := ApplyValidated(x, a, "new").0, p.m.(transientFailures := 0);
  }

  lemma AcceptedAfterAll(x: Setup, w: World, m: Memory, c: Copy)
    requires OneCertificate(x) && CalmFor(x, w.clock, w.clock + 10) && m.clientReady
    requires Serves(w, w.clock, TLS_SECRET) && "tls.pem" in w.gw.storage
    requires Marked(ConfigCopy(w)) && c == Unsuppressed(ConfigCopy(w))
    ensures var s := PushDesired(x, w, m, c, "new"); s.Done? && !s.w.down && AppliedYetFailed(s.w, s.out)
  {
    assert LastFailedHash !in c.secret.ann && LastAppliedHash !in c.secret.ann;
    assert RecordsIn(c.secret.ann) == RecordsIn(ConfigCopy(w).secret.ann);
    hide PushDesired, RecordSuccess, CertSyncState, RecordedHash;
    var b, n := ReachesRecord(x, w, m, c);
    CalmRecord(x, b, n, c, "new");
  }

  lemma SecondAccepted(x: Setup, w: World, m: Memory)
    requires Picky(x) && RefusedOnce(w, m)
    ensures var s := Reconcile(x, w, m, "tls"); s.Done? && !s.w.down && AppliedYetFailed(s.w, s.out)
  {
    var t := Start(w, "tls");
    var u := t.(clock := 14);
    var cert := Copy(Latest(w.log, "tls").value, TLS_SECRET);
    assert Serves(u, 14, TLS_SECRET) && ConfigCopy(u) == ConfigCopy(w);
    hide Reconcile, CertEvent, PushDesired, ConfigPhase, Get;
    CalmGet(x, t, "tls");
    EventDropsHash(x, u, m, cert, ConfigCopy(w));
    CertReconcileGoesOn(x, w, m, "tls", u, cert);
    var s := CertEvent(x, u, m, cert);
    StillServes(u, s.w, 14, TLS_SECRET);
    UnappliedIsPushed(x, s.w, s.m, s.c);
    AcceptedAfterAll(x, s.w, s.m, s.c);
  }

  /**
   From an untouched world: the gateway refuses the bytes once, and the certificate event that
   follows applies them. That event drops the failed hash from its copy only, so a success is
   reported and recorded while the stored hash still calls the bytes rejected.
   */
  lemma CertTriggeredSuccessKeepsFailedHash() returns (s: Step)
    ensures var x := CalmExcept(["tls"], PICKY);
            var (w, m) := Run(x, BEGINNING, FRESH, [Reconciled("tls")]);
            && Untouched(BEGINNING) && s == Reconcile(x, w, m, "tls") && s.Done? && AppliedYetFailed(s.w, s.out)
  {
    hide *;
    var x := CalmExcept(["tls"], PICKY);
    PickySetup(x);
    BeginningIsUntouched();
    FirstRefused(x);
    var r := Reconcile(x, BEGINNING, FRESH, "tls");
    RefusedIsUp(r.w, r.m);
    OneTrip(x, BEGINNING, FRESH, "tls");
    SecondAccepted(x, r.w, r.m);
    s := Reconcile(x, r.w, r.m, "tls");
  }

  lemma RefusedIsUp(w: World, m: Memory)
    requires RefusedOnce(w, m)
    ensures !w.down
  {
  }

  lemma OneTrip(x: Setup, w: World, m: Memory, name: string)
    requires !Reconcile(x, w, m, name).w.down
    ensures var s := Reconcile(x, w, m, name); Run(x, w, m, [Reconciled(name)]) == (s.w, s.m)
  {
    hide Reconcile, Run;
    RunOne(x, w, m, Reconciled(name));
  }

  // ---------------------------------------------------------------- "a success is reported as one"

  /** The client cannot be built at first; when that status is to be cleared the patch is lost. */
  const LOST_CLEAR: map<nat, Item> := map[
    2 := CALM.(reply := NoResponse(Opaque, PLAIN)),
    11 := CALM.(api := Faulty(false))]

  lemma LostClearSetup(x: Setup)
    requires x == CalmExcept(["tls"], LOST_CLEAR)
    ensures Rocky(x) && OneCertificate(x) && CalmFor(x, 3, 11) && CalmFor(x, 12, 22)
    ensures x.env(11) == CALM.(api := Faulty(false))
  {
  }

  /** The status is cleared in the copy, not on the server. */
  predicate ClearedLocally(w: World, m: Memory, c: Copy) {
    && Serves(w, 12, TLS_SECRET) && "tls.pem" in w.gw.storage && m.clientReady
    && CertStatus(ConfigCopy(w).secret.ann)
    && c.rv == ConfigCopy(w).rv && c.secret.name == "cfg" && c.secret.data == NEW_CONFIG.data
    && Lookup(c.secret.ann, StatusKey) == StatusIs(Applied)
    && LastAppliedHash !in c.secret.ann && LastFailedHash !in c.secret.ann
    && RecordedHash(CertSyncState(Some(c)), "tls", BUNDLE)
  }

  lemma LostClear(x: Setup, w: World, m: Memory)
    requires x.env(11) == CALM.(api := Faulty(false)) && Unapplied(w, 11) && m.clientReady
    requires CertStatus(ConfigCopy(w).secret.ann)
    requires "tls.pem" in w.gw.storage && RecordedHash(CertSyncState(Some(ConfigCopy(w))), "tls", BUNDLE)
    ensures var s := AfterCertPush(x, w, m, ConfigCopy(w)); s.Go? && ClearedLocally(s.w, s.m, s.c)
  {
    assert Tick(x, w) == w.(clock := 12);
    var ann := ClearedStatus(ConfigCopy(w).secret.ann);
    assert RecordsIn(ann - {LastFailedHash}) == RecordsIn(ConfigCopy(w).secret.ann);
    hide Tick, RecordedHash;
  }

  /** A Reconcile that reports success and applied the bytes, while a failed certificate sync is still stored. */
  predicate AppliedYetReported(s: Step) {
    && s.Done? && s.out == NEXT_INTERVAL && s.w.gw.live == "new"
    && var ann := CurrentAnn(s.w.log, "cfg");
    && Lookup(ann, LastAppliedHash) == Hash("new") && CertStatus(ann)
  }

  lemma RecordLeavesStatus(x: Setup, w: World, m: Memory, c: Copy)
    requires x.env(w.clock) == CALM == x.env(w.clock + 1) && !w.down && w.gw.live == "new"
    requires Latest(w.log, "cfg") == Some(c.rv) && c.secret.name == "cfg"
    requires CertStatus(w.log[c.rv].secret.ann) && Lookup(c.secret.ann, StatusKey) == StatusIs(Applied)
    requires LastAppliedHash !in c.secret.ann
    ensures AppliedYetReported(RecordSuccess(x, w, m, c, "new"))
  {
    CalmReadLive(x, w);
    var v := ReadLive(x, w).0;
    var ann := RecordedApply(c.secret.ann, CALM, "new", Hash("new"));
    OverlaidStatus(w.log[c.rv].secret.ann, c.secret.ann);
    hide ReadLive, Patch, Overlay, RecordedApply;
    CalmPatch(x, v, c, ann, RecordApply("new", Hash("new")));
  }

  lemma OverlaidStatus(server: Annotations, copy: Annotations)
    requires Lookup(copy, StatusKey) == StatusIs(Applied) && LastAppliedHash !in copy
    ensures var ann := Overlay(server, copy, RecordedApply(copy, CALM, "new", Hash("new")));
            && Lookup(ann, StatusKey) == Lookup(server, StatusKey) && Lookup(ann, LastAppliedHash) == Hash("new")
  {
    var after := RecordedApply(copy, CALM, "new", Hash("new"));
    assert !Touched(StatusKey, copy, after);
    assert Lookup(after, LastAppliedHash) == Hash("new");
    hide RecordedApply;
  }

  /** The second event up to its config phase. */
  lemma LostClearEvent(x: Setup, w: World) returns (v: World, m: Memory, c: Copy)
    requires Rocky(x) && OneCertificate(x) && CalmFor(x, 3, 11) && x.env(11) == CALM.(api := Faulty(false))
    requires Failing(w)
    ensures Reconcile(x, w, AFTER_FAILURE, "tls") == ConfigPhase(x, v, m, c) && ClearedLocally(v, m, c)
  {
    var t := Start(w, "tls");
    var u, n := t.(clock := 7), AFTER_FAILURE.(clientReady := true);
    var cert := Copy(0, TLS_SECRET);
    BeginSecond(w);
    assert Unapplied(u, 7) && ConfigCopy(u) == ConfigCopy(w) && u.gw.storage == map[];
    assert CertSync !in ConfigCopy(u).secret.ann && CertStatus(ConfigCopy(u).secret.ann);
    hide Get, CertEvent, ConfigPhase, PushCertSecret, AfterCertPush, CertStatus, CertSyncState, Unapplied, RecordedHash,
         Failing, Clean, Reconcile, ConfigCopy, Latest, ClearedLocally;
    CalmGet(x, t, "tls");
    CalmPushWrites(x, u, n);
    var p := PushCertSecret(x, u, n, TLS_SECRET, Some(ConfigCopy(u)));
    BuiltClient(x, t.(clock := 5));
    LostClear(x, p.w, p.m);
    CertReconcileGoesOn(x, w, AFTER_FAILURE, "tls", t.(clock := 5), cert);
    var s := CertEvent(x, t.(clock := 5), AFTER_FAILURE, cert);
    v, m, c := s.w, s.m, s.c;
  }

  lemma LostClearApplies(x: Setup, w: World, m: Memory, c: Copy)
    requires OneCertificate(x) && CalmFor(x, 12, 22) && ClearedLocally(w, m, c)
    ensures AppliedYetReported(ConfigPhase(x, w, m, c))
  {
    UnappliedIsPushed(x, w, m, c);
    CurrentOf(w);
    hide PushDesired, RecordSuccess, CertSyncState, RecordedHash, ConfigPhase, Serves, CertStatus, Latest, ConfigCopy,
         AppliedYetReported;
    ServesClock(w, 12, TLS_SECRET);
    var b, n := ReachesRecord(x, w, m, c);
    assert x.env(20) == CALM == x.env(21);
    RecordLeavesStatus(x, b, n, c);
  }

  /**
   From an untouched world: a certificate sync fails and recovers, but the patch that is to clear
   its status is lost. The bytes are then applied and recorded, and that success is not reported:
   the copy already shows it, so that it is not part of the patch. The failed sync stays stored.
   */
  lemma SuccessLeavesStaleStatus() returns (s: Step)
    ensures var x := CalmExcept(["tls"], LOST_CLEAR);
            var (w, m) := Run(x, BEGINNING, FRESH, [Reconciled("tls")]);
            && Untouched(BEGINNING) && s == Reconcile(x, w, m, "tls") && AppliedYetReported(s)
  {
    var x := CalmExcept(["tls"], LOST_CLEAR);
    LostClearSetup(x);
    hide *;
    BeginningIsUntouched();
    FirstEventFails(x);
    var r := Reconcile(x, BEGINNING, FRESH, "tls");
    FailingIsUp(r.w);
    OneTrip(x, BEGINNING, FRESH, "tls");
    var v, n, c := LostClearEvent(x, r.w);
    LostClearApplies(x, v, n, c);
    s := Reconcile(x, r.w, r.m, "tls");
  }

  // ---------------------------------------------------------------- "a synced certificate is stored"

  const RENEWED := Secret("tls", map["tls.crt" := "D", "tls.key" := "K"], map[], map[])

  const RENEWED_BUNDLE: Bytes := "D\nK\n"

  lemma BundleOfRenewed()
    ensures CertPEMBundle(RENEWED) == Success(RENEWED_BUNDLE)
  {
    assert TrimLeft("D") == "D" == TrimRight("D") && TrimLeft("K") == "K" == TrimRight("K");
    assert TrimSpace("D") == "D" && TrimSpace("K") == "K" && TrimSpace("") == "";
    assert DataOf(RENEWED, "tls.crt") == "D" && DataOf(RENEWED, "ca.crt") == "" && DataOf(RENEWED, "tls.key") == "K";
    assert "D" + "\n" + "" + "K" + "\n" == RENEWED_BUNDLE;
  }

  /** The certificate is renewed while a Reconcile is under way, its record is refused, and the old one comes back. */
  const RENEWAL: map<nat, Item> := map[
    7 := CALM.(acts := [Flux("tls", RENEWED.data, map[])]),
    11 := CALM.(api := APIMood.Refused),
    19 := CALM.(acts := [Flux("tls", TLS_SECRET.data, map[])])]

  ghost predicate Renewing(x: Setup) {
    && OneCertificate(x) && CalmFor(x, 0, 7) && CalmFor(x, 8, 11) && CalmFor(x, 12, 19) && CalmFor(x, 20, 24)
    && x.env(7) == CALM.(acts := [Flux("tls", RENEWED.data, map[])])
    && x.env(11) == CALM.(api := APIMood.Refused)
    && x.env(19) == CALM.(acts := [Flux("tls", TLS_SECRET.data, map[])])
  }

  lemma RenewalSetup(x: Setup)
    requires x == CalmExcept(["tls"], RENEWAL)
    ensures Renewing(x)
  {
  }

  /** A read of the certificate Secret just after somebody replaced its data. */
  lemma ReplacedBefore(x: Setup, w: World, before: Secret, s: Secret)
    requires x.env(w.clock) == CALM.(acts := [Flux("tls", s.data, map[])])
    requires Serves(w, w.clock, before) && before.ann == map[] && s == Secret("tls", s.data, map[], map[])
    ensures var (v, got) := Get(x, w, "tls");
            && got.Found? && got.copy.secret == s && Serves(v, w.clock + 1, s) && v.gw == w.gw && v.run == w.run
            && ConfigCopy(v) == ConfigCopy(w) && v.trace == w.trace
  {
    var a := Flux("tls", s.data, map[]);
    var acts := x.env(w.clock).acts;
    assert acts[0] == a && acts[1..] == [] && !x.env(w.clock).kill;
    var u := EnvStep(w, a);
    assert Interfere(w, acts) == u;
    assert u.log == w.log + [Revision(s, false)];
    LatestAfterAppend(w.log, Revision(s, false), "tls");
    LatestAfterAppend(w.log, Revision(s, false), "cfg");
  }

  /** A record that the API server refuses leaves the store as it was; the conflict is no error. */
  lemma RefusedRecord(x: Setup, w: World, m: Memory, c: Copy, bundle: Bytes)
    requires x.env(w.clock) == CALM.(api := APIMood.Refused) && !w.down
    ensures var p := RecordPush(x, w, m, "tls", bundle, Some(c), true);
            && p.result == Success(true) && p.m == m && !p.w.down && p.w.log == w.log && p.w.gw == w.gw
            && p.w.clock == w.clock + 1 && p.w.run == w.run
            && p.state == Some(c.(secret := c.secret.(ann := WithRecord(c, "tls", CertEntry(bundle, CALM.now)))))
  {
    assert Tick(x, w) == w.(clock := w.clock + 1);
    hide Tick, WithRecord;
  }

  /** The renewed bundle is written, but its record is lost. */
  lemma UnrecordedRenewal(x: Setup, w: World, m: Memory, c: Copy)
    requires OneCertificate(x) && CalmFor(x, 8, 11) && x.env(11) == CALM.(api := APIMood.Refused)
    requires Serves(w, 8, RENEWED) && w.gw.storage == map["tls.pem" := BUNDLE]
    requires m.certHashes == map["tls" := BUNDLE] && RecordedHash(CertSyncState(Some(c)), "tls", BUNDLE)
    ensures var p := PushCertSecret(x, w, m, RENEWED, Some(c));
            && p.result == Success(true) && p.m.clientReady == m.clientReady
            && !p.w.down && p.w.log == w.log && p.w.clock == 12 && p.w.run == w.run
            && p.w.gw == w.gw.(storage := map["tls.pem" := RENEWED_BUNDLE])
            && p.state == Some(c.(secret := c.secret.(
                            ann := WithRecord(c, "tls", CertEntry(RENEWED_BUNDLE, CALM.now)))))
  {
    BundleOfRenewed();
    assert BUNDLE[0] != RENEWED_BUNDLE[0];
    assert !RecordedHash(CertSyncState(Some(c)), "tls", RENEWED_BUNDLE);
    hide CertPEMBundle, CertSyncState, SyncSSLCertificate, RecordPush, WithRecord;
    CalmSyncWrites(x, w, RENEWED_BUNDLE);
    var v := SyncSSLCertificate(x, w, "tls", RENEWED_BUNDLE, false).0;
    RefusedRecord(x, v, m.(certHashes := m.certHashes["tls" := RENEWED_BUNDLE]), c, RENEWED_BUNDLE);
  }

  /** The first Reconcile pushes the old bundle as the event's and the renewed one as a listed one. */
  lemma CertsRenewed(x: Setup, w: World, m: Memory, c: Copy)
    requires Renewing(x) && Serves(w, 7, TLS_SECRET) && w.gw.storage == map["tls.pem" := BUNDLE]
    requires m.certHashes == map["tls" := BUNDLE] && RecordedHash(CertSyncState(Some(c)), "tls", BUNDLE)
    ensures var p := EnsureCertSecretsSynced(x, w, m, c, 0);
            && p.result == Success(true) && p.m.clientReady == m.clientReady
            && Serves(p.w, 12, RENEWED) && ConfigCopy(p.w) == ConfigCopy(w) && p.w.run == w.run
            && p.w.gw == w.gw.(storage := map["tls.pem" := RENEWED_BUNDLE])
            && p.state == Some(c.(secret := c.secret.(
                            ann := WithRecord(c, "tls", CertEntry(RENEWED_BUNDLE, CALM.now)))))
  {
    hide Get, PushCertSecret, CertSyncState, RecordedHash, WithRecord, ConfigCopy, Latest;
    ReplacedBefore(x, w, TLS_SECRET, RENEWED);
    var v := Get(x, w, "tls").0;
    UnrecordedRenewal(x, v, m, c);
    var p := PushCertSecret(x, v, m, RENEWED, Some(c));
    StillServes(v, p.w, 8, RENEWED);
    assert EnsureCertSecretsSynced(x, w, m, c, 0) == EnsureCertSecretsSynced(x, p.w, p.m, p.state.value, 1);
  }

  /** Applied and in sync, but the record of the certificate is outdated. */
  predicate Lagging(w: World, m: Memory) {
    && Serves(w, 19, RENEWED) && m.clientReady
    && w.gw.live == "new" && w.gw.storage == map["tls.pem" := RENEWED_BUNDLE]
    && InSync(ConfigCopy(w).secret.ann) && RecordedHash(CertSyncState(Some(ConfigCopy(w))), "tls", BUNDLE)
  }

  predicate InSync(ann: Annotations) {
    && Lookup(ann, LastAppliedHash) == Hash("new") && Lookup(ann, LastObservedHash) == Hash("new")
    && Lookup(ann, StatusKey) == StatusIs(Applied)
  }

  /** What a recorded success leaves when the copy holds a record of a certificate that the server does not. */
  lemma RecordKeepsTheServersCerts(server: Annotations, copy: Annotations)
    requires forall k :: k != CertSync ==> Lookup(copy, k) == Lookup(server, k) && (k in copy <==> k in server)
    ensures var ann := Overlay(server, copy, RecordedApply(copy, CALM, "new", Hash("new")));
            InSync(ann) && RecordsIn(ann) == RecordsIn(server)
  {
    var after := RecordedApply(copy, CALM, "new", Hash("new"));
    assert InSync(after) && !Touched(CertSync, copy, after);
    hide RecordedApply;
    OverlayAt(server, copy, after, LastAppliedHash);
    OverlayAt(server, copy, after, LastObservedHash);
    OverlayAt(server, copy, after, StatusKey);
    hide Overlay;
  }

  /** Where copy and server agree, a merge patch sets what the copy was given. */
  lemma OverlayAt(server: Annotations, copy: Annotations, after: Annotations, k: Key)
    requires Lookup(copy, k) == Lookup(server, k) && (k in copy <==> k in server)
    ensures Lookup(Overlay(server, copy, after), k) == Lookup(after, k)
  {
  }

  lemma RenewalRecords(x: Setup, w: World, m: Memory, c: Copy)
    requires Renewing(x) && Serves(w, 17, RENEWED) && m.clientReady
    requires w.gw.live == "new" && w.gw.storage == map["tls.pem" := RENEWED_BUNDLE]
    requires var d := ConfigCopy(w);
             && RecordedHash(CertSyncState(Some(d)), "tls", BUNDLE)
             && c == d.(secret := d.secret.(ann := WithRecord(d, "tls", CertEntry(RENEWED_BUNDLE, CALM.now))))
    ensures var s := RecordSuccess(x, w, m, c, "new"); s.Done? && Lagging(s.w, s.m)
  {
    var d := ConfigCopy(w);
    var ann := RecordedApply(c.secret.ann, CALM, "new", Hash("new"));
    RecordOverRenewal(d, c);
    ServesClock(w, 17, RENEWED);
    CurrentOf(w);
    assert x.env(17) == CALM == x.env(18);
    hide ReadLive, Patch, Overlay, RecordedApply, WithRecord, InSync, RecordedHash, CertSyncState, Latest, Serves,
         ConfigCopy, Renewing;
    CalmReadLive(x, w);
    var v := ReadLive(x, w).0;
    CalmPatch(x, v, c, ann, RecordApply("new", Hash("new")));
    var (u, e, _) := Patch(x, v, c, ann, RecordApply("new", Hash("new")));
    PatchServes(w, u, e, 17, RENEWED);
    SameRecord(Overlay(d.secret.ann, c.secret.ann, ann), ConfigCopy(u));
  }

  lemma CurrentOf(w: World)
    requires Latest(w.log, "cfg").Some?
    ensures var d := ConfigCopy(w);
            Latest(w.log, "cfg") == Some(d.rv) && d.rv < |w.log| && w.log[d.rv].secret == d.secret
            && d.secret.name == "cfg"
  {
  }

  lemma PatchServes(w: World, u: World, d: Copy, clock: nat, tls: Secret)
    requires Serves(w, clock, tls) && w.log <= u.log && !u.down
    requires Latest(u.log, "tls") == Latest(w.log, "tls") && Latest(u.log, "cfg") == Some(d.rv)
    requires u.log[d.rv].secret == d.secret && d.secret.data == ConfigCopy(w).secret.data
    ensures Serves(u, u.clock, tls) && ConfigCopy(u) == d
  {
  }

  lemma RecordOverRenewal(d: Copy, c: Copy)
    requires RecordedHash(CertSyncState(Some(d)), "tls", BUNDLE)
    requires c == d.(secret := d.secret.(ann := WithRecord(d, "tls", CertEntry(RENEWED_BUNDLE, CALM.now))))
    ensures var ann := Overlay(d.secret.ann, c.secret.ann, RecordedApply(c.secret.ann, CALM, "new", Hash("new")));
            InSync(ann) && RecordedHash(RecordsIn(ann), "tls", BUNDLE)
  {
    assert forall k :: k != CertSync ==> Lookup(c.secret.ann, k) == Lookup(d.secret.ann, k)
                                         && (k in c.secret.ann <==> k in d.secret.ann);
    hide Overlay, RecordedApply, WithRecord, InSync;
    RecordKeepsTheServersCerts(d.secret.ann, c.secret.ann);
  }

  lemma SameRecord(ann: Annotations, c: Copy)
    requires RecordedHash(RecordsIn(ann), "tls", BUNDLE) && c.secret.ann == ann
    ensures RecordedHash(CertSyncState(Some(c)), "tls", BUNDLE)
  {
  }

  lemma RenewingFacts(x: Setup)
    requires Renewing(x)
    ensures OneCertificate(x) && x.norm("new") == "new" && CalmFor(x, 20, 23) && "tls" in x.certs
    ensures forall k :: 12 <= k < 17 ==> x.env(k) == CALM
    ensures x.env(19) == CALM.(acts := [Flux("tls", TLS_SECRET.data, map[])])
    ensures TLS_SECRET == Secret("tls", TLS_SECRET.data, map[], map[]) && RENEWED.ann == map[]
  {
  }

  lemma FirstLags(x: Setup, w: World, m: Memory, c: Copy)
    requires Renewing(x) && FirstPushed(w, m, c)
    ensures var s := PushDesired(x, w, m, c, "new"); s.Done? && Lagging(s.w, s.m)
  {
    hide *;
    FirstPushedFacts(w, m, c);
    RenewingFacts(x);
    DesireFacts(m, c);
    var n := Desire(m, "new");
    CertsRenewed(x, w, n, c);
    var p := EnsureCertSecretsSynced(x, w, n, c, 0);
    ServesClock(p.w, 12, RENEWED);
    CalmValidate(x, p.w, "new");
    var a := Validate(x, p.w, "new").0;
    CalmApply(x, a, "new");
    var b := ApplyValidated(x, a, "new").0;
    PushDesiredReachesRecord(x, w, m, c, "new");
    StillServes(p.w, b, 12, RENEWED);
    RenewalRecords(x, b, p.m.(transientFailures := 0), p.state.value);
  }

  /** A check that finds the gateway as recorded ends the Reconcile. */
  lemma InSyncReconcile(x: Setup, w: World, m: Memory, c: Copy)
    requires OneCertificate(x) && x.env(w.clock) == CALM && !w.down && m.clientReady && w.gw.live == "new"
    requires c.secret.name == "cfg" && c.secret.data == NEW_CONFIG.data && InSync(c.secret.ann)
    ensures var s := ConfigPhase(x, w, m, c);
            && s.Done? && s.out == NEXT_INTERVAL && s.w.gw == w.gw && s.w.log == w.log && w.trace <= s.w.trace
            && s.w.run == w.run
  {
    hide PushDesired, ReadLive, Patch;
    CalmReadLive(x, w);
  }

  /** The Reconcile calls the bundle of the current Secret synced, but the gateway stores another one. */
  predicate CalledSynced(s: Step) {
    && s.Done? && s.out == NEXT_INTERVAL
    && Skips(s.w)
    && CurrentTls(s.w) == Some(TLS_SECRET) && s.w.gw.storage == map["tls.pem" := RENEWED_BUNDLE]
  }

  function CurrentTls(w: World): Option<Secret> {
    var l := Latest(w.log, "tls");
    if l.Some? then Some(w.log[l.value].secret) else None
  }

  /** The second Reconcile up to its config phase: the push of the old bundle is skipped. */
  lemma OldOneIsSkipped(x: Setup, w: World, m: Memory) returns (v: World, n: Memory, c: Copy)
    requires Renewing(x) && Lagging(w, m)
    ensures Reconcile(x, w, m, "tls") == ConfigPhase(x, v, n, c)
    ensures Serves(v, 23, TLS_SECRET) && v.gw == w.gw && n.clientReady && c == Unsuppressed(ConfigCopy(w))
    ensures Skips(v)
  {
    hide *;
    RenewingFacts(x);
    LaggingFacts(w, m);
    var t := Start(w, "tls");
    StartFacts(w);
    StillServes(w, t, 19, RENEWED);
    ServesClock(t, 19, RENEWED);
    ReplacedBefore(x, t, RENEWED, TLS_SECRET);
    var (u, got) := Get(x, t, "tls");
    ServesClock(u, 20, TLS_SECRET);
    EventDropsHash(x, u, m, got.copy, ConfigCopy(w));
    CertReconcileGoesOn(x, w, m, "tls", u, got.copy);
    var s := CertEvent(x, u, m, got.copy);
    StillServes(u, s.w, 20, TLS_SECRET);
    v, n, c := s.w, s.m, s.c;
  }

  lemma StartFacts(w: World)
    ensures var t := Start(w, "tls"); t.log == w.log && t.gw == w.gw && t.down == w.down && t.clock == w.clock
  {
  }

  lemma LaggingFacts(w: World, m: Memory)
    requires Lagging(w, m)
    ensures Serves(w, 19, RENEWED) && !w.down && m.clientReady
    ensures "tls.pem" in w.gw.storage && Latest(w.log, "cfg").Some?
    ensures RecordedHash(CertSyncState(Some(ConfigCopy(w))), "tls", BUNDLE)
    ensures !CertStatus(ConfigCopy(w).secret.ann) && InSync(ConfigCopy(w).secret.ann - {LastFailedHash})
  {
  }

  lemma SecondSkips(x: Setup, w: World, m: Memory)
    requires Renewing(x) && Lagging(w, m)
    ensures CalledSynced(Reconcile(x, w, m, "tls"))
  {
    LaggingFacts(w, m);
    hide Reconcile, ConfigPhase, Latest, ConfigCopy, InSync;
    var v, n, c := OldOneIsSkipped(x, w, m);
    InSyncReconcile(x, v, n, c);
  }

  /**
   From an untouched world: the record of a renewed bundle is lost to a write conflict, and an
   older recorded hash still counts as synced. When the old Secret is back its push is skipped
   on matching metadata and reported as synced, while storage holds the renewed bundle.
   */
  lemma LostRecordSkipsWrongly() returns (s: Step)
    ensures var x := CalmExcept(["tls"], RENEWAL);
            var (w, m) := Run(x, BEGINNING, FRESH, [Reconciled("tls")]);
            && Untouched(BEGINNING) && s == Reconcile(x, w, m, "tls") && CalledSynced(s)
    ensures CertPEMBundle(TLS_SECRET) == Success(BUNDLE) && BUNDLE != RENEWED_BUNDLE
  {
    var x := CalmExcept(["tls"], RENEWAL);
    BundleOfSecret();
    assert BUNDLE[0] != RENEWED_BUNDLE[0];
    RenewalSetup(x);
    assert OneCertificate(x) && CalmFor(x, 0, 7);
    hide *;
    BeginningIsUntouched();
    var v, n, c := FirstPush(x);
    FirstPushedFacts(v, n, c);
    UnappliedIsPushed(x, v, n, c);
    FirstLags(x, v, n, c);
    var r := Reconcile(x, BEGINNING, FRESH, "tls");
    LaggingIsUp(r.w, r.m);
    OneTrip(x, BEGINNING, FRESH, "tls");
    SecondSkips(x, r.w, r.m);
    s := Reconcile(x, r.w, r.m, "tls");
  }

  lemma LaggingIsUp(w: World, m: Memory)
    requires Lagging(w, m)
    ensures !w.down
  {
  }
}
