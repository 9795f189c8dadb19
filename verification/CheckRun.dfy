/**
 Two runs from an untouched world: in one a failure status outlives a check that finds
 everything in order, in the other a check counts a drift that is one.
 */
module CheckRun {
  import opened Prelude
  import opened Errors
  import opened Platform
  import opened Reconciliation
  import opened History
  import opened Theorems
  import opened Calm

  predicate OneConfig(x: Setup) {
    && x.certs == [] && x.secretName == "cfg" && x.secretKey == "haproxy.cfg" && x.norm("new") == "new"
  }

  /** Fair so far, and no baseline open. */
  predicate Closed(t: seq<Event>) {
    Fair(t) && !Open(t) && !Unrecorded(t)
  }

  lemma ClosedSnoc(t: seq<Event>, e: Event)
    requires !AcceptedApply(e)
    ensures Closed(t) ==> Closed(t + [e])
  {
    Snoc(t, e);
  }

  // ---------------------------------------------------------------- an apply, read back and recorded

  lemma AppliedTrace(t: seq<Event>, run: nat, name: string, version: int)
    requires Closed(t)
    ensures var read := VersionRead(run, version);
            Fair(t + [Begin(run, name)] + [read, Post(run, ValidateOnly, "new", Response(200), false),
                                           read, read, Post(run, Apply, "new", Response(200), true)])
  {
    var read, valid := VersionRead(run, version), Post(run, ValidateOnly, "new", Response(200), false);
    var apply := Post(run, Apply, "new", Response(200), true);
    var u := t + [Begin(run, name)];
    ClosedSnoc(t, Begin(run, name));
    ClosedSnoc(u, read);
    ClosedSnoc(u + [read], valid);
    ClosedSnoc(u + [read] + [valid], read);
    ClosedSnoc(u + [read] + [valid] + [read], read);
    Snoc(u + [read] + [valid] + [read] + [read], apply);
    assert u + [read, valid, read, read, apply] == u + [read] + [valid] + [read] + [read] + [apply];
  }

  lemma RecordedTrace(t: seq<Event>, run: nat, base: nat, index: nat)
    requires Fair(t)
    ensures Closed(t + [LiveRead(run, "new")] + [Patched(run, base, index, RecordApply("new", Hash("new")))])
  {
    Snoc(t, LiveRead(run, "new"));
    Snoc(t + [LiveRead(run, "new")], Patched(run, base, index, RecordApply("new", Hash("new"))));
  }

  lemma AppliesCalmly(x: Setup)
    requires OneConfig(x) && forall k :: 0 <= k < 9 ==> x.env(k) == CALM
    ensures var s := Reconcile(x, UNTOUCHED, FRESH, "cfg");
            Holding(s.w, 9, "new", Hash("new")) && s.m.clientReady && Closed(s.w.trace)
  {
    var v := Start(UNTOUCHED, "cfg");
    var u := v.(clock := 1);
    var c := Copy(0, NEW_CONFIG);
    assert Closed([]) && v.trace == [] + [Begin(1, "cfg")];
    AppliedTrace([], 1, "cfg", 1);
    hide PushDesired, Get, RecordSuccess, Reconcile, Closed, Fair;
    CalmGet(x, v, "cfg");
    ReconcilePushes(x, UNTOUCHED, FRESH, u, c, "new");
    var b, n := CalmPushDesired(x, u, FRESH, c, "new");
    CalmReadLive(x, b);
    var r := Note(b, LiveRead(1, "new")).(clock := 8);
    RecordedAs(x, b, r, Success("new"), n, c, "new");
    var w := RecordSuccess(x, b, n, c, "new").w;
    var index: nat :| w.trace == r.trace + [Patched(1, 0, index, RecordApply("new", Hash("new")))];
    RecordedTrace(b.trace, 1, 0, index);
  }

  // ---------------------------------------------------------------- a drift that is one

  const TAKEN_OVER := map[9 := CALM.(acts := [GatewayWrite("other")])]

  function AlertOnly(): Setup {
    CalmExcept([], TAKEN_OVER).(driftRemediate := false)
  }

  lemma AlertSetup(x: Setup)
    requires x == AlertOnly()
    ensures OneConfig(x) && !x.driftRemediate && x.env(9) == CALM.(acts := [GatewayWrite("other")])
    ensures forall k :: 0 <= k < 9 || 10 <= k ==> x.env(k) == CALM
  {
  }

  lemma TakenOver(x: Setup, w: World, m: Memory)
    requires x == AlertOnly() && Holding(w, 9, "new", Hash("new")) && m.clientReady && Closed(w.trace)
    ensures var s := Reconcile(x, w, m, "cfg");
            var n := |s.w.trace|;
            && !s.w.down && Fair(s.w.trace) && n > 0 && s.w.trace[n - 1].Checked?
            && s.w.trace[n - 1].drift && s.w.trace[n - 1].live == "other" && s.w.trace[n - 1].applied == "new"
  {
    var v := Start(w, "cfg");
    var t := EnvStep(v, GatewayWrite("other")).(clock := 10);
    var l := Latest(w.log, "cfg").value;
    var c := Copy(l, w.log[l].secret);
    AlertSetup(x);
    OverwrittenBefore(x, v, "other");
    assert Get(x, v, "cfg") == (t, Found(c));
    hide Get, ReadLive, AlertOnly;
    CalmReadLive(x, t);
    var r := Note(t, LiveRead(t.run, "other")).(clock := 11);
    var e := Checked(r.run, "new", "other", Hash("new"), true);
    ClosedSnoc(w.trace, Begin(v.run, "cfg"));
    ClosedSnoc(v.trace, OutOfBand("other"));
    ClosedSnoc(t.trace, LiveRead(t.run, "other"));
    ClosedSnoc(r.trace, e);
    Alerts(x, r, m.(transientFailures := 0), c);
    hide Reconcile, CompareLive, Closed;
    ReconcileCompares(x, w, m, t, r, c, "new", "other");
  }

  lemma Alerts(x: Setup, w: World, m: Memory, c: Copy)
    requires !x.driftRemediate && ExpectedLive(c.secret.ann) == Hash("new") && !w.down
    ensures CompareLive(x, w, m, c, "new", "other") ==
            Done(Note(w, Checked(w.run, "new", "other", Hash("new"), true)), m, NEXT_INTERVAL)
  {
    hide Patch;
  }

  /** In a fair run from an untouched world a check can find a drift. */
  lemma FairRunWithDrift() returns (w: World)
    ensures Untouched(UNTOUCHED) && w == Run(AlertOnly(), UNTOUCHED, FRESH, [Reconciled("cfg"), Reconciled("cfg")]).0
    ensures Fair(w.trace) && exists i :: 0 <= i < |w.trace| && w.trace[i].Checked? && w.trace[i].drift
  {
    var x := AlertOnly();
    AlertSetup(x);
    hide Reconcile, Run, AlertOnly, Closed, Fair;
    AppliesCalmly(x);
    var s := Reconcile(x, UNTOUCHED, FRESH, "cfg");
    TakenOver(x, s.w, s.m);
    RunTwo(x, UNTOUCHED, FRESH, Reconciled("cfg"), Reconciled("cfg"));
    w := Reconcile(x, s.w, s.m, "cfg").w;
  }

  // ---------------------------------------------------------------- a failure that outlives a check

  /** After a restart the client cannot be built at first. */
  const BRIEF_OUTAGE := map[10 := CALM.(reply := NoResponse(Opaque, PLAIN))]

  lemma OutageSetup(x: Setup)
    requires x == CalmExcept([], BRIEF_OUTAGE)
    ensures OneConfig(x) && x.env(10) == CALM.(reply := NoResponse(Opaque, PLAIN))
    ensures forall k :: 0 <= k < 10 || 11 <= k ==> x.env(k) == CALM
  {
  }

  /** The configuration is applied and in place, but the stored status is a failure to build the client. */
  predicate Troubled(w: World, clock: nat) {
    && Holding(w, clock, "new", Hash("new"))
    && Lookup(CurrentAnn(w.log, "cfg"), StatusKey) == StatusIs(Failed(UnknownError))
  }

  /** A Reconcile of applied bytes is a drift check, if that ends it. */
  lemma ReconcileChecks(x: Setup, w: World, m: Memory, u: World, c: Copy)
    requires OneConfig(x) && Get(x, Start(w, "cfg"), "cfg") == (u, Found(c)) && c.secret.name == "cfg"
    requires c.secret.data == NEW_CONFIG.data && Lookup(c.secret.ann, LastAppliedHash) == Hash("new")
    requires DriftCheck(x, u, m, c, "new").Done?
    ensures Reconcile(x, w, m, "cfg") == DriftCheck(x, u, m, c, "new")
  {
    assert "haproxy.cfg" in NEW_CONFIG.data;
    hide Get, DriftCheck, PushDesired;
  }

  lemma RecordsTrouble(x: Setup, w: World, m: Memory, c: Copy)
    requires x.env(w.clock) == CALM && Holding(w, w.clock, "new", Hash("new"))
    requires var l := Latest(w.log, "cfg").value; c == Copy(l, w.log[l].secret)
    ensures var s := Retry(x, w, m, c, Failed(UnknownError)); s.Done? && Troubled(s.w, w.clock + 1)
  {
    var ann := FailureAnnotations(c.secret.ann, CALM, Failed(UnknownError), None);
    OverlaySelf(c.secret.ann, ann);
    assert Lookup(ann, StatusKey) == StatusIs(Failed(UnknownError));
    assert Lookup(ann, LastAppliedHash) == Hash("new") && Lookup(ann, LastObservedHash) == Hash("new");
    hide Patch, FailureAnnotations, Overlay;
    CalmPatch(x, w, c, ann, RecordFailure);
  }

  lemma AfterRestart(x: Setup, w: World)
    requires x == CalmExcept([], BRIEF_OUTAGE) && Holding(w, 9, "new", Hash("new"))
    ensures var s := Reconcile(x, w, FRESH, "cfg"); Troubled(s.w, 12) && !s.m.clientReady
  {
    var v := Start(w, "cfg");
    var u := v.(clock := 10);
    var l := Latest(w.log, "cfg").value;
    var c := Copy(l, w.log[l].secret);
    OutageSetup(x);
    hide Get, GetOrCreateClient, Retry, Reconcile, CalmExcept, Troubled, Classify;
    CalmGet(x, v, "cfg");
    NoClient(x, u);
    RecordsTrouble(x, u.(clock := 11), FRESH, c);
    RetryKeepsClient(x, u.(clock := 11), FRESH, c);
    ReconcileChecks(x, w, FRESH, u, c);
  }

  lemma RetryKeepsClient(x: Setup, w: World, m: Memory, c: Copy)
    ensures Retry(x, w, m, c, Failed(UnknownError)).m.clientReady == m.clientReady
  {
    hide Patch;
  }

  lemma FindsInOrder(x: Setup, w: World, m: Memory, c: Copy)
    requires ExpectedLive(c.secret.ann) == Hash("new") && !DriftCheckStatus(c.secret.ann) && !w.down
    ensures CompareLive(x, w, m, c, "new", "new") ==
            Done(Note(w, Checked(w.run, "new", "new", Hash("new"), false)), m, NEXT_INTERVAL)
  {
    hide Patch;
  }

  lemma ChecksInOrder(x: Setup, w: World, m: Memory)
    requires x == CalmExcept([], BRIEF_OUTAGE) && Troubled(w, 12) && !m.clientReady
    ensures var s := Reconcile(x, w, m, "cfg");
            var n := |s.w.trace|;
            && Troubled(s.w, 15) && s.out == NEXT_INTERVAL
            && n > 0 && s.w.trace[n - 1] == Checked(s.w.run, "new", "new", Hash("new"), false)
  {
    var v := Start(w, "cfg");
    var u := v.(clock := 13);
    var l := Latest(w.log, "cfg").value;
    var c := Copy(l, w.log[l].secret);
    OutageSetup(x);
    CalmTick(x, u);
    var n := m.(clientReady := true);
    assert GetOrCreateClient(x, u, m) == (u.(clock := 14), n, None);
    hide Get, GetOrCreateClient, ReadLive, Reconcile, CalmExcept, CompareLive;
    CalmGet(x, v, "cfg");
    CalmReadLive(x, u.(clock := 14));
    var r := Note(u, LiveRead(u.run, "new")).(clock := 15);
    FindsInOrder(x, r, n.(transientFailures := 0), c);
    ReconcileChecks(x, w, m, u, c);
  }

  /** From an untouched world: a check finds the gateway in order, and the stored status is still the older failure. */
  lemma FailureOutlivesACheck() returns (w: World)
    ensures Untouched(UNTOUCHED)
    ensures w == Run(CalmExcept([], BRIEF_OUTAGE), UNTOUCHED, FRESH,
                     [Reconciled("cfg"), Restarted, Reconciled("cfg"), Reconciled("cfg")]).0
    ensures var n := |w.trace|;
            n > 0 && w.trace[n - 1].Checked? && !w.trace[n - 1].drift && Troubled(w, 15)
  {
    var x := CalmExcept([], BRIEF_OUTAGE);
    OutageSetup(x);
    assert Untouched(UNTOUCHED);
    hide Reconcile, Run, CalmExcept, Closed, Troubled, Holding, Untouched;
    AppliesCalmly(x);
    var s := Reconcile(x, UNTOUCHED, FRESH, "cfg");
    HoldingIsUp(s.w, 9);
    AfterRestart(x, s.w);
    var t := Reconcile(x, s.w, FRESH, "cfg");
    TroubledIsUp(t.w, 12);
    ChecksInOrder(x, t.w, t.m);
    w := Reconcile(x, t.w, t.m, "cfg").w;
    TroubledIsUp(w, 15);
    RunFour(x, UNTOUCHED, FRESH);
  }

  lemma HoldingIsUp(w: World, clock: nat)
    requires Holding(w, clock, "new", Hash("new"))
    ensures !w.down
  {
  }

  lemma TroubledIsUp(w: World, clock: nat)
    requires Troubled(w, clock)
    ensures !w.down
  {
  }

  lemma RunFour(x: Setup, w: World, m: Memory)
    requires var s := Reconcile(x, w, m, "cfg");
             var t := Reconcile(x, s.w, FRESH, "cfg");
             !s.w.down && !t.w.down && !Reconcile(x, t.w, t.m, "cfg").w.down
    ensures var s := Reconcile(x, w, m, "cfg");
            var t := Reconcile(x, s.w, FRESH, "cfg");
            Run(x, w, m, [Reconciled("cfg"), Restarted, Reconciled("cfg"), Reconciled("cfg")]).0 ==
            Reconcile(x, t.w, t.m, "cfg").w
  {
    hide Reconcile;
    var s := Reconcile(x, w, m, "cfg");
    var a, b := Reconciled("cfg"), Restarted;
    assert [a, b, a, a][1..] == [b, a, a] && [b, a, a][1..] == [a, a];
    assert Run(x, w, m, [a, b, a, a]) == Run(x, s.w, FRESH, [a, a]);
    RunTwo(x, s.w, FRESH, a, a);
  }
}
