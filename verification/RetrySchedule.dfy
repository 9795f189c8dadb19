/** The delays of consecutive transient failures, over whole runs of Reconciles. */
module RetrySchedule {
  import opened Prelude
  import opened Errors
  import opened Platform
  import opened Dataplane
  import opened Reconciliation
  import opened Safety
  import Backoff

  predicate TransientEnd(s: Step) {
    s.Done? && s.out.Requeue? && s.out.reason.TransientFailure?
  }

  /** The end of a Reconcile whose last patch got no answer. */
  predicate Errs(s: Step) {
    s.Done? && s.out == Errored
  }

  predicate SameCounts(m: Memory, n: Memory) {
    m.transientFailures == n.transientFailures && m.lastDesired == n.lastDesired
  }

  /** A transient end counts one more failure than the memory it started from, and waits accordingly. */
  predicate CountsOne(m: Memory, s: Step) {
    TransientEnd(s) ==>
      && s.m.transientFailures == m.transientFailures + 1 && s.m.lastDesired == m.lastDesired
      && s.out.after == Backoff.ForFailure(m.transientFailures + 1)
  }

  // ---------------------------------------------------------------- what does not count

  lemma PushKeepsCounts(x: Setup, w: World, m: Memory, secret: Secret, state: Option<Copy>)
    ensures SameCounts(m, PushCertSecret(x, w, m, secret, state).m)
  {
    hide SyncSSLCertificate, Patch, CertPEMBundle, Note;
  }

  lemma {:induction false} EnsureKeepsCounts(x: Setup, w: World, m: Memory, c: Copy, i: nat)
    requires i <= |x.certs|
    ensures SameCounts(m, EnsureCertSecretsSynced(x, w, m, c, i).m)
    decreases |x.certs| - i
  {
    hide PushCertSecret, Get;
    if i < |x.certs| {
      var (v, got) := Get(x, w, x.certs[i]);
      if got.Found? {
        PushKeepsCounts(x, v, m, got.copy.secret, Some(c));
        var p := PushCertSecret(x, v, m, got.copy.secret, Some(c));
        if p.result.Success? {
          EnsureKeepsCounts(x, p.w, p.m, p.state.value, i + 1);
        }
      }
    }
  }

  lemma ValidatePhaseCounts(x: Setup, w: World, m: Memory, c: Copy, raw: Bytes)
    ensures CountsOne(m, ValidatePhase(x, w, m, c, raw))
  {
    hide Validate, ApplyValidated, FailWithStatus, Patch, ReadLive;
  }

  lemma PushDesiredCounts(x: Setup, w: World, m: Memory, c: Copy, raw: Bytes)
    ensures CountsOne(Desire(m, raw), PushDesired(x, w, m, c, raw))
  {
    hide ValidatePhase, EnsureCertSecretsSynced, FailWithStatus, BuildClient;
    var n := Desire(m, raw);
    var (v, o, noClient) := GetOrCreateClient(x, w, n);
    if noClient.None? {
      EnsureKeepsCounts(x, v, o, c, 0);
      var p := EnsureCertSecretsSynced(x, v, o, c, 0);
      ValidatePhaseCounts(x, p.w, p.m, p.state.value, raw);
    }
  }

  // ---------------------------------------------------------------- a streak of failures

  /** The Reconcile reads a config Secret that holds `raw`, not recorded as applied. */
  predicate Attempts(x: Setup, w: World, raw: Bytes) {
    var got := Get(x, Start(w, x.secretName), x.secretName).1;
    && got.Found? && x.secretKey in got.copy.secret.data && got.copy.secret.data[x.secretKey] == raw
    && Lookup(got.copy.secret.ann, LastAppliedHash) != Hash(raw)
  }

  lemma OneFailure(x: Setup, w: World, m: Memory, raw: Bytes)
    requires ConfigSecretIsDedicated(x) && Attempts(x, w, raw)
    ensures CountsOne(Desire(m, raw), Reconcile(x, w, m, x.secretName))
  {
    var v := Start(w, x.secretName);
    var (u, got) := Get(x, v, x.secretName);
    assert got.copy.secret.name == x.secretName;
    hide PushDesired, DriftCheck, FailWithStatus, CertEvent, Get;
    PushDesiredCounts(x, u, m, got.copy, raw);
  }

  /** `n` Reconciles in a row that attempt `raw` and end transiently, in one process. */
  predicate Streak(x: Setup, w: World, m: Memory, raw: Bytes, n: nat)
    decreases n
  {
    n == 0 ||
    var s := Reconcile(x, w, m, x.secretName);
    Attempts(x, w, raw) && TransientEnd(s) && !s.w.down && Streak(x, s.w, s.m, raw, n - 1)
  }

  function Delays(x: Setup, w: World, m: Memory, n: nat): (d: seq<nat>)
    decreases n
  {
    if n == 0 then []
    else
      var s := Reconcile(x, w, m, x.secretName);
      [if TransientEnd(s) then s.out.after else 0] + Delays(x, s.w, s.m, n - 1)
  }

  function Sum(d: seq<nat>): nat {
    if d == [] then 0 else d[0] + Sum(d[1..])
  }

  /** The delays from the `k`-th failure on. */
  function ScheduleFrom(k: nat, n: nat): (d: seq<nat>)
    ensures |d| == n
    ensures forall i :: 0 <= i < n ==> d[i] == Backoff.ForFailure(k + i + 1)
    decreases n
  {
    if n == 0 then [] else [Backoff.ForFailure(k + 1)] + ScheduleFrom(k + 1, n - 1)
  }

  lemma {:induction false} StreakFollowsSchedule(x: Setup, w: World, m: Memory, raw: Bytes, n: nat)
    requires ConfigSecretIsDedicated(x) && Streak(x, w, m, raw, n)
    ensures Delays(x, w, m, n) == ScheduleFrom(Desire(m, raw).transientFailures, n)
    decreases n
  {
    hide Reconcile, Attempts, Backoff.ForFailure, ScheduleFrom;
    if n > 0 {
      OneFailure(x, w, m, raw);
      var s := Reconcile(x, w, m, x.secretName);
      assert Desire(s.m, raw) == s.m;
      StreakFollowsSchedule(x, s.w, s.m, raw, n - 1);
      var k := Desire(m, raw).transientFailures;
      ScheduleStep(k, n);
      DelaysStep(x, w, m, n);
    }
  }

  lemma ScheduleStep(k: nat, n: nat)
    requires n > 0
    ensures ScheduleFrom(k, n) == [Backoff.ForFailure(k + 1)] + ScheduleFrom(k + 1, n - 1)
  {
  }

  lemma DelaysStep(x: Setup, w: World, m: Memory, n: nat)
    requires n > 0
    ensures var s := Reconcile(x, w, m, x.secretName);
            Delays(x, w, m, n) == [if TransientEnd(s) then s.out.after else 0] + Delays(x, s.w, s.m, n - 1)
  {
    hide Reconcile;
  }

  lemma {:induction false} SumOfSchedule(k: nat, n: nat)
    ensures Backoff.TotalWait(k) + Sum(ScheduleFrom(k, n)) == Backoff.TotalWait(k + n)
    decreases n
  {
    if n > 0 {
      SumOfSchedule(k + 1, n - 1);
      assert ScheduleFrom(k, n)[1..] == ScheduleFrom(k + 1, n - 1);
    }
  }

  lemma ScheduleOfNewBytes(n: nat)
    ensures var d := ScheduleFrom(0, n);
            && (forall i :: 0 <= i < n ==> d[i] == Backoff.Min(30 * Backoff.Pow2(i + 1), 300))
            && (forall i, j :: 0 <= i <= j < n ==> d[i] <= d[j])
            && (n >= 3 ==> Sum(d) == 300 * n - 480)
  {
    hide Backoff.ForFailure, Backoff.Pow2, Backoff.Min;
    var d := ScheduleFrom(0, n);
    forall i | 0 <= i < n
      ensures d[i] == Backoff.Min(30 * Backoff.Pow2(i + 1), 300)
    {
      Backoff.CappedExponential(i + 1);
    }
    forall i, j | 0 <= i <= j < n
      ensures d[i] <= d[j]
    {
      Backoff.NonDecreasing(i + 1, j + 1);
    }
    SumOfSchedule(0, n);
    if n >= 3 {
      Backoff.TotalWaitExact(n);
    }
  }

  /**
   The i-th failure in a row of newly seen bytes is retried after min(30 * 2^i, 300)
   seconds; from the third on, `n` failures have waited 300n - 480 seconds in all.
   */
  lemma BackoffOverRuns(x: Setup, w: World, m: Memory, raw: Bytes, n: nat)
    requires ConfigSecretIsDedicated(x) && m.lastDesired != Some(raw) && Streak(x, w, m, raw, n)
    ensures var d := Delays(x, w, m, n);
            && |d| == n
            && (forall i :: 0 <= i < n ==> d[i] == Backoff.Min(30 * Backoff.Pow2(i + 1), 300))
            && (forall i, j :: 0 <= i <= j < n ==> d[i] <= d[j])
            && (n >= 3 ==> Sum(d) == 300 * n - 480)
  {
    hide Streak, Delays, Sum, Backoff.Min, Backoff.Pow2, ConfigSecretIsDedicated;
    StreakFollowsSchedule(x, w, m, raw, n);
    ScheduleOfNewBytes(n);
  }

  // ---------------------------------------------------------------- where the counter is not what its comment says

  /** The gateway, or the validator, deterministically rejects the bytes, while validating or while applying them. */
  predicate Rejected(x: Setup, w: World, raw: Bytes) {
    var (v, invalid) := Validate(x, w, raw);
    var refused := ApplyValidated(x, v, raw).1;
    if invalid.Some? then Classify(invalid.value) == ConfigRejected
    else refused.Some? && Classify(refused.value) == ConfigRejected
  }

  /** Neither rejection resets the counter. */
  lemma RejectionKeepsTheCount(x: Setup, w: World, m: Memory, c: Copy, raw: Bytes)
    requires Rejected(x, w, raw)
    ensures ValidatePhase(x, w, m, c, raw).m == m
  {
    hide Validate, ApplyValidated, FailWithStatus, Classify;
  }

  lemma GoingOnResets(x: Setup, w: World, m: Memory, c: Copy, raw: Bytes)
    requires DriftCheck(x, w, m, c, raw).Go?
    ensures DriftCheck(x, w, m, c, raw).m.transientFailures == 0
  {
    hide GetOrCreateClient, ReadLive, Patch, Note;
  }

  /** A failed remediation of drift never gets past the first delay: each live read resets the counter. */
  lemma FailedRemediationNeverBacksOff(x: Setup, w: World, m: Memory, c: Copy, raw: Bytes)
    requires DriftCheck(x, w, m, c, raw).Go?
    ensures var s := DriftCheck(x, w, m, c, raw);
            var t := PushDesired(x, s.w, s.m, s.c, raw);
            TransientEnd(t) ==> t.out.after == 60
  {
    var s := DriftCheck(x, w, m, c, raw);
    hide DriftCheck, PushDesired;
    GoingOnResets(x, w, m, c, raw);
    PushDesiredCounts(x, s.w, s.m, s.c, raw);
    assert Backoff.Pow2(1) == 2;
  }
}
