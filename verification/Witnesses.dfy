/** The hypotheses of the theorems about quiet environments and about streaks of failures can be met. */
module Witnesses {
  import opened Prelude
  import opened Errors
  import opened Platform
  import opened Reconciliation
  import opened Safety
  import opened Steadiness
  import opened Convergence
  import opened RetrySchedule
  import opened Calm

  /** A gateway that has never been configured converges under a calm environment. */
  lemma ConvergenceIsPossible()
    ensures var x := CalmExcept([], map[]);
            Smooth(x) && ConfigSecretIsDedicated(x) && x.driftRemediate && CanConverge(x, UNTOUCHED, "new")
  {
    var x := CalmExcept([], map[]);
    assert Latest(UNTOUCHED.log, "cfg") == Some(0);
    assert "haproxy.cfg" in NEW_CONFIG.data;
  }

  // ---------------------------------------------------------------- a gateway that is down for good

  /** Every request to the gateway is answered 503; the API server is well. */
  const DOWN := CALM.(reply := Response(503))

  function Outage(): (x: Setup)
    ensures x.secretName == "cfg"
  {
    Setup("cfg", "haproxy.cfg", [], true, true, (b: Bytes) => b, (b: Bytes) => [], k => DOWN)
  }

  /** The configuration waits to be applied for the first time. */
  predicate Waiting(w: World) {
    && !w.down
    && var l := Latest(w.log, "cfg");
    && l.Some? && w.log[l.value].secret.data == NEW_CONFIG.data
    && var ann := w.log[l.value].secret.ann;
    && LastAppliedHash !in ann && LastFailedHash !in ann
  }

  lemma OutageTick(w: World)
    ensures Tick(Outage(), w) == w.(clock := w.clock + 1)
  {
  }

  lemma OutageGet(w: World)
    requires Waiting(w)
    ensures var l := Latest(w.log, "cfg").value;
            Get(Outage(), w, "cfg") == (w.(clock := w.clock + 1), Found(Copy(l, w.log[l].secret)))
  {
    OutageTick(w);
  }

  lemma OutageClient(w: World, m: Memory)
    requires !w.down
    ensures var (v, _, err) := GetOrCreateClient(Outage(), w, m);
            err.None? && v.log == w.log && !v.down
  {
    OutageTick(w);
  }

  lemma OutageValidate(w: World)
    requires !w.down
    ensures var (v, err) := Validate(Outage(), w, "new");
            && err == Some(VersionCheckError(APIError(503))) && Classify(err.value) == DataplaneServerError
            && v.log == w.log && !v.down
  {
    OutageTick(w);
  }

  lemma OutageRetry(w: World, m: Memory, c: Copy, status: Status)
    requires Waiting(w) && c == Copy(Latest(w.log, "cfg").value, w.log[Latest(w.log, "cfg").value].secret)
    ensures var s := Retry(Outage(), w, m, c, status); TransientEnd(s) && Waiting(s.w)
  {
    OutageTick(w);
    var ann := FailureAnnotations(c.secret.ann, DOWN, status, None);
    OverlaySelf(c.secret.ann, ann);
    assert LastAppliedHash !in ann && LastFailedHash !in ann;
    hide Tick, Overlay, Patch, FailureAnnotations;
    QuietPatch(Outage(), w, c, ann, RecordFailure);
  }

  lemma OutageReconcile(w: World, m: Memory)
    requires Waiting(w)
    ensures var s := Reconcile(Outage(), w, m, "cfg");
            Attempts(Outage(), w, "new") && TransientEnd(s) && Waiting(s.w) && !s.w.down
  {
    var x := Outage();
    var v := Start(w, "cfg");
    OutageGet(v);
    var (u, got) := Get(x, v, "cfg");
    var c := got.copy;
    assert x.certs == [] && x.secretName == "cfg" && x.secretKey == "haproxy.cfg" && "haproxy.cfg" in NEW_CONFIG.data;
    assert Lookup(c.secret.ann, LastAppliedHash) == Empty && Lookup(c.secret.ann, LastFailedHash) == Empty;
    hide Get, Outage, PushDesired, Reconcile;
    ReconcilePushes(x, w, m, u, c, "new");
    OutagePush(u, m, c);
  }

  lemma OutagePush(w: World, m: Memory, c: Copy)
    requires Waiting(w) && c == Copy(Latest(w.log, "cfg").value, w.log[Latest(w.log, "cfg").value].secret)
    ensures var s := PushDesired(Outage(), w, m, c, "new"); TransientEnd(s) && Waiting(s.w)
  {
    var x, n := Outage(), Desire(m, "new");
    OutageClient(w, n);
    var (v, o, _) := GetOrCreateClient(x, w, n);
    assert x.certs == [] && EnsureCertSecretsSynced(x, v, o, c, 0) == Push(v, o, Some(c), Success(true));
    OutageValidate(v);
    assert Lookup(c.secret.ann, LastFailedHash) == Empty;
    hide Outage, GetOrCreateClient, EnsureCertSecretsSynced, Validate, Retry, Classify;
    OutageRetry(Validate(x, v, "new").0, o, c, Failed(DataplaneServerError));
  }

  /** An outage yields streaks of any length, so the backoff schedule is followed to its end. */
  lemma {:induction false} OutageStreak(w: World, m: Memory, n: nat)
    requires Waiting(w)
    ensures Streak(Outage(), w, m, "new", n)
    decreases n
  {
    hide Reconcile, Attempts, Outage, Waiting, TransientEnd, Streak;
    if n > 0 {
      OutageReconcile(w, m);
      var s := Reconcile(Outage(), w, m, "cfg");
      OutageStreak(s.w, s.m, n - 1);
    }
    StreakStep(Outage(), w, m, "new", n);
  }

  lemma StreakStep(x: Setup, w: World, m: Memory, raw: Bytes, n: nat)
    requires x.secretName == "cfg"
    requires n > 0 ==>
               var s := Reconcile(x, w, m, "cfg");
               Attempts(x, w, raw) && TransientEnd(s) && !s.w.down && Streak(x, s.w, s.m, raw, n - 1)
    ensures Streak(x, w, m, raw, n)
  {
    hide Reconcile, Attempts, TransientEnd;
  }
}
