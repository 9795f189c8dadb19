/**
 The failure counter over whole Reconciles, told from their traces: what resets it, what it
 counts, and the delays it leads to, whatever triggers them and wherever they fail.
 */
module Counting {
  import opened Prelude
  import opened Errors
  import opened Platform
  import opened Dataplane
  import opened Reconciliation
  import opened Safety
  import opened History
  import opened Suffix
  import opened Posts
  import opened RetrySchedule
  import Backoff

  // ---------------------------------------------------------------- what the counter should be

  /** The gateway was read, or it accepted an apply, between `w` and `v`. */
  ghost predicate Heard(w: World, v: World) {
    exists i :: |w.trace| <= i < |v.trace| && (v.trace[i].LiveRead? || AcceptedApply(v.trace[i]))
  }

  /** The count that this step leaves if it does not fail: nought after good news or for new bytes. */
  ghost function Base(w: World, m: Memory, s: Step): nat {
    if Heard(w, s.w) || s.m.lastDesired != m.lastDesired then 0 else m.transientFailures
  }

  /** A transient failure counts one more and waits accordingly; anything else leaves the base. */
  ghost predicate CountedRight(w: World, m: Memory, s: Step) {
    !s.w.down ==>
      if TransientEnd(s) then
        s.m.transientFailures == Base(w, m, s) + 1 && s.out.after == Backoff.ForFailure(s.m.transientFailures)
      else s.m.transientFailures == Base(w, m, s)
  }

  ghost predicate Counted(w: World, m: Memory, s: Step) {
    w.trace <= s.w.trace && (w.down ==> s.w.down) && CountedRight(w, m, s)
  }

  /** What has been counted when a phase hands on. */
  ghost predicate Carried(w: World, m: Memory, v: World, n: Memory) {
    && w.trace <= v.trace && (w.down ==> v.down) && n.lastDesired == m.lastDesired
    && (!v.down ==> n.transientFailures == if Heard(w, v) then 0 else m.transientFailures)
  }

  lemma HeardInSteps(w: World, v: World, u: World)
    requires w.trace <= v.trace && v.trace <= u.trace
    ensures Heard(w, u) <==> Heard(w, v) || Heard(v, u)
  {
    if i :| |w.trace| <= i < |v.trace| && (v.trace[i].LiveRead? || AcceptedApply(v.trace[i])) {
      assert u.trace[i] == v.trace[i];
    }
    if i :| |w.trace| <= i < |u.trace| && (u.trace[i].LiveRead? || AcceptedApply(u.trace[i])) {
      assert i < |v.trace| ==> v.trace[i] == u.trace[i];
    }
  }

  lemma CountedAfter(w: World, m: Memory, v: World, n: Memory, s: Step)
    requires Carried(w, m, v, n) && Counted(v, n, s)
    ensures Counted(w, m, s)
  {
    HeardInSteps(w, v, s.w);
    hide Heard, TransientEnd;
  }

  lemma CarriedFree(w: World, m: Memory, v: World, n: Memory)
    requires Free(w, v, Resetting) && SameCounts(m, n)
    ensures Carried(w, m, v, n)
  {
  }

  lemma CountedFree(w: World, m: Memory, s: Step)
    requires Free(w, s.w, Resetting) && !TransientEnd(s) && SameCounts(m, s.m)
    ensures Counted(w, m, s)
  {
  }

  // ---------------------------------------------------------------- phases that fail

  lemma RetryCounted(x: Setup, w: World, m: Memory, c: Copy, status: Status)
    ensures Counted(w, m, Retry(x, w, m, c, status)) && Retry(x, w, m, c, status).m.lastDesired == m.lastDesired
  {
    RetryFree(x, w, m, c, status, Resetting);
    hide FailWithStatus;
  }

  lemma RejectCounted(x: Setup, w: World, m: Memory, c: Copy, raw: Bytes)
    ensures Counted(w, m, Reject(x, w, m, c, raw)) && Reject(x, w, m, c, raw).m == m
  {
    RejectFree(x, w, m, c, raw, Resetting);
    hide FailWithStatus;
  }

  // ---------------------------------------------------------------- the drift check

  lemma CompareLiveCounted(x: Setup, w: World, m: Memory, c: Copy, raw: Bytes, live: Bytes)
    ensures var s := CompareLive(x, w, m, c, raw, live); Counted(w, m, s) && s.m == m
  {
    CompareLiveFree(x, w, m, c, raw, live, Resetting);
    hide Free, Patch, Note;
    CountedFree(w, m, CompareLive(x, w, m, c, raw, live));
  }

  lemma LiveReadHeard(x: Setup, w: World)
    ensures var (v, live) := ReadLive(x, w);
            && w.trace <= v.trace && (w.down ==> v.down)
            && (if live.Success? then Heard(w, v) else !Heard(w, v))
  {
    TickFree(x, w, Resetting);
    var v := Tick(x, w);
    hide Tick;
    var (u, live) := ReadLive(x, w);
    if live.Success? {
      assert u.trace[|v.trace|].LiveRead?;
    }
  }

  lemma DriftCheckCounted(x: Setup, w: World, m: Memory, c: Copy, raw: Bytes)
    ensures var s := DriftCheck(x, w, m, c, raw); Counted(w, m, s) && s.m.lastDesired == m.lastDesired
  {
    hide Free, GetOrCreateClient, ReadLive, Retry, CompareLive, Counted, Carried;
    ClientCarries(x, w, m);
    var (v, n, noClient) := GetOrCreateClient(x, w, m);
    if noClient.Some? {
      RetryCounted(x, v, n, c, Failed(Classify(noClient.value)));
      CountedAfter(w, m, v, n, DriftCheck(x, w, m, c, raw));
    } else {
      var (u, live) := ReadLive(x, v);
      ReadCarries(x, v, n);
      if live.Failure? {
        RetryCounted(x, u, n, c, DriftCheckFailed(Classify(live.error)));
        CountedAfter(v, n, u, n, DriftCheck(x, w, m, c, raw));
      } else {
        CompareLiveCounted(x, u, n.(transientFailures := 0), c, raw, live.value);
        CountedAfter(v, n, u, n.(transientFailures := 0), DriftCheck(x, w, m, c, raw));
      }
      CountedAfter(w, m, v, n, DriftCheck(x, w, m, c, raw));
    }
  }

  lemma ReadCarries(x: Setup, w: World, m: Memory)
    ensures var (v, live) := ReadLive(x, w);
            Carried(w, m, v, if live.Success? then m.(transientFailures := 0) else m)
  {
    LiveReadHeard(x, w);
    hide ReadLive, Heard;
  }

  lemma ClientCarries(x: Setup, w: World, m: Memory)
    ensures var (v, n, _) := GetOrCreateClient(x, w, m);
            Carried(w, m, v, n) && n.lastDesired == m.lastDesired && n.certHashes == m.certHashes
  {
    GetOrCreateClientFree(x, w, m, Resetting);
    var (v, n, _) := GetOrCreateClient(x, w, m);
    hide Free, BuildClient;
    CarriedFree(w, m, v, n);
  }

  // ---------------------------------------------------------------- validate and apply

  /** Recording leaves the counter alone; here it is nought, as the apply was accepted. */
  lemma RecordSuccessCounted(x: Setup, w: World, m: Memory, c: Copy, raw: Bytes)
    requires m.transientFailures == 0
    ensures var s := RecordSuccess(x, w, m, c, raw); Counted(w, m, s) && s.m == m
  {
    hide ReadLive, Patch, Free, Heard;
    RecordSuccessFree(x, w, m, c, raw, CertFailing);
    FreeGrows(w, RecordSuccess(x, w, m, c, raw).w, CertFailing);
  }

  lemma ApplyCarries(x: Setup, w: World, m: Memory, raw: Bytes)
    ensures var (v, err) := ApplyValidated(x, w, raw);
            Carried(w, m, v, if err.None? then m.(transientFailures := 0) else m)
  {
    ApplyHeard(x, w, raw);
    hide ApplyValidated, Heard;
  }

  lemma ApplyHeard(x: Setup, w: World, raw: Bytes)
    ensures var (v, err) := ApplyValidated(x, w, raw);
            && w.trace <= v.trace && (w.down ==> v.down)
            && (if err.None? then Heard(w, v) else !Heard(w, v))
  {
    hide Poll, PostAtVersion, Free, OnlyOthersWrote;
    ApplyValidatedFree(x, w, raw, Recording);
    FreeGrows(w, ApplyValidated(x, w, raw).0, Recording);
    PollFree(x, w, 0, None, Resetting);
    var (v, notReady) := WaitForReady(x, w);
    NotHeard(w, v);
    if notReady.None? {
      PostAtVersionHeard(x, v, raw);
      FreeGrows(w, v, Resetting);
      HeardInSteps(w, v, PostAtVersion(x, v, Apply, raw).0);
    }
  }

  lemma NotHeard(w: World, v: World)
    requires Free(w, v, Resetting)
    ensures !Heard(w, v)
  {
  }

  lemma PostAtVersionHeard(x: Setup, w: World, raw: Bytes)
    ensures var (v, err) := PostAtVersion(x, w, Apply, raw);
            && w.trace <= v.trace
            && (if err.None? then Heard(w, v) else !Heard(w, v))
  {
    PostAtVersionLast(x, w, Apply, raw);
    PostAtVersionReads(x, w, Apply, raw);
    PostAtVersionFree(x, w, Apply, raw, Recording);
    hide PostAtVersion, OnlyOthersWrote;
    var (v, err) := PostAtVersion(x, w, Apply, raw);
    if err.None? {
      assert AcceptedApply(v.trace[|v.trace| - 1]);
    }
  }

  /** A POST reads no live configuration. */
  lemma PostAtVersionReads(x: Setup, w: World, kind: PostKind, raw: Bytes)
    ensures var v := PostAtVersion(x, w, kind, raw).0;
            forall i :: |w.trace| <= i < |v.trace| ==> !v.trace[i].LiveRead?
  {
    hide Tick;
    ReadVersionFree(x, w, Resetting);
    var (v, version) := ReadVersion(x, w);
    TickFree(x, v, Resetting);
    hide ReadVersion;
  }

  lemma ApplyPhaseCounted(x: Setup, w: World, m: Memory, c: Copy, raw: Bytes)
    ensures var s := ApplyPhase(x, w, m, c, raw); Counted(w, m, s) && s.m.lastDesired == m.lastDesired
  {
    hide ApplyValidated, RecordSuccess, Retry, Reject, Counted, Carried, Classify;
    var s := ApplyPhase(x, w, m, c, raw);
    ApplyCarries(x, w, m, raw);
    var (v, err) := ApplyValidated(x, w, raw);
    if err.Some? {
      RejectCounted(x, v, m, c, raw);
      RetryCounted(x, v, m, c, ApplyFailed(Classify(err.value)));
      CountedAfter(w, m, v, m, s);
    } else {
      RecordSuccessCounted(x, v, m.(transientFailures := 0), c, raw);
      CountedAfter(w, m, v, m.(transientFailures := 0), s);
    }
  }

  lemma ValidatePhaseCounted(x: Setup, w: World, m: Memory, c: Copy, raw: Bytes)
    ensures var s := ValidatePhase(x, w, m, c, raw); Counted(w, m, s) && s.m.lastDesired == m.lastDesired
  {
    hide Validate, ApplyPhase, Retry, Reject, Counted, Free, Classify;
    var s := ValidatePhase(x, w, m, c, raw);
    ValidateFree(x, w, raw, Resetting);
    var (v, err) := Validate(x, w, raw);
    CarriedFree(w, m, v, m);
    if err.Some? {
      RejectCounted(x, v, m, c, raw);
      RetryCounted(x, v, m, c, Failed(Classify(err.value)));
    } else {
      ApplyPhaseCounted(x, v, m, c, raw);
    }
    CountedAfter(w, m, v, m, s);
  }

  lemma CertsPhaseCounted(x: Setup, w: World, m: Memory, c: Copy, raw: Bytes)
    ensures var s := CertsPhase(x, w, m, c, raw); Counted(w, m, s) && s.m.lastDesired == m.lastDesired
  {
    hide EnsureCertSecretsSynced, Retry, ValidatePhase, Counted, Free, Classify;
    var s := CertsPhase(x, w, m, c, raw);
    EnsureFree(x, w, m, c, 0, Resetting);
    EnsureKeepsCounts(x, w, m, c, 0);
    var p := EnsureCertSecretsSynced(x, w, m, c, 0);
    CarriedFree(w, m, p.w, p.m);
    if p.result.Failure? {
      RetryCounted(x, p.w, p.m, p.state.value, CertSyncFailed(Classify(p.result.error)));
    } else {
      ValidatePhaseCounted(x, p.w, p.m, p.state.value, raw);
    }
    CountedAfter(w, m, p.w, p.m, s);
  }

  // ---------------------------------------------------------------- the desired bytes

  /** New bytes start at nought. */
  lemma DesireCounted(w: World, m: Memory, raw: Bytes, s: Step)
    requires Counted(w, Desire(m, raw), s) && s.m.lastDesired == Desire(m, raw).lastDesired
    ensures Counted(w, m, s)
  {
    hide Heard, TransientEnd;
  }

  lemma PushDesiredCounted(x: Setup, w: World, m: Memory, c: Copy, raw: Bytes)
    ensures Counted(w, m, PushDesired(x, w, m, c, raw))
  {
    hide GetOrCreateClient, Retry, CertsPhase, Counted, Carried, Classify, Free, Desire;
    var s := PushDesired(x, w, m, c, raw);
    var n := Desire(m, raw);
    if Lookup(c.secret.ann, LastFailedHash) == Hash(raw) {
      FreeSelf(w, Resetting);
      CountedFree(w, n, s);
    } else {
      ClientCarries(x, w, n);
      var (v, o, noClient) := GetOrCreateClient(x, w, n);
      if noClient.Some? {
        RetryCounted(x, v, o, c, Failed(Classify(noClient.value)));
      } else {
        CertsPhaseCounted(x, v, o, c, raw);
      }
      CountedAfter(w, n, v, o, s);
    }
    DesireCounted(w, m, raw, s);
  }

  lemma ConfigPhaseCounted(x: Setup, w: World, m: Memory, c: Copy)
    ensures Counted(w, m, ConfigPhase(x, w, m, c))
  {
    hide FailWithStatus, DriftCheck, PushDesired, Counted, Carried, Free;
    var s := ConfigPhase(x, w, m, c);
    FreeSelf(w, Resetting);
    if x.secretName != "" && c.secret.name != x.secretName {
      CountedFree(w, m, s);
    } else if x.secretKey !in c.secret.data {
      FailWithStatusFree(x, w, c, MissingKey, None, Resetting);
      CountedFree(w, m, s);
    } else {
      var raw := c.secret.data[x.secretKey];
      if Lookup(c.secret.ann, LastAppliedHash) == Hash(raw) {
        DriftCheckCounted(x, w, m, c, raw);
        var d := DriftCheck(x, w, m, c, raw);
        if d.Go? {
          PushDesiredCounted(x, d.w, d.m, d.c, raw);
          CountedCarries(w, m, d);
          CountedAfter(w, m, d.w, d.m, s);
        }
      } else {
        PushDesiredCounted(x, w, m, c, raw);
      }
    }
  }

  lemma CountedCarries(w: World, m: Memory, s: Step)
    requires s.Go? && Counted(w, m, s) && s.m.lastDesired == m.lastDesired
    ensures Carried(w, m, s.w, s.m)
  {
    hide Heard;
  }

  // ---------------------------------------------------------------- certificate events

  lemma CertFailedCounted(x: Setup, w: World, m: Memory, cfg: Option<Copy>, err: Err)
    ensures var s := CertFailed(x, w, m, cfg, err); Counted(w, m, s) && s.Done? && s.m.lastDesired == m.lastDesired
  {
    if cfg.Some? {
      RetryCounted(x, w, m, cfg.value, CertSyncFailed(Classify(err)));
      hide Retry, Counted, Classify;
      RetryFree(x, w, m, cfg.value, CertSyncFailed(Classify(err)), Resetting);
    } else {
      FreeSelf(w, Resetting);
    }
  }

  lemma SyncCarries(x: Setup, w: World, m: Memory, secret: Secret, state: Option<Copy>)
    ensures var p := SyncCertSecret(x, w, m, secret, state); Carried(w, m, p.w, p.m)
  {
    hide GetOrCreateClient, PushCertSecret, Free, Carried, Note;
    SyncCertSecretFree(x, w, m, secret, state, Resetting);
    ClientCarries(x, w, m);
    var (v, n, err) := GetOrCreateClient(x, w, m);
    SameCountsAfterClient(x, w, m);
    if err.None? {
      PushKeepsCounts(x, v, n, secret, state);
    }
    var p := SyncCertSecret(x, w, m, secret, state);
    CarriedFree(w, m, p.w, p.m);
  }

  lemma SameCountsAfterClient(x: Setup, w: World, m: Memory)
    ensures SameCounts(m, GetOrCreateClient(x, w, m).1)
  {
    hide BuildClient;
  }

  lemma CertEventCounted(x: Setup, w: World, m: Memory, c: Copy)
    ensures var s := CertEvent(x, w, m, c); Counted(w, m, s) && s.m.lastDesired == m.lastDesired
  {
    hide Get, SyncCertSecret, CertFailed, AfterCertPush, Counted, Carried, Free;
    var s := CertEvent(x, w, m, c);
    FreeSelf(w, Resetting);
    GetFree(x, w, x.secretName, Resetting);
    var (v, cfg) := ConfigSecretFor(x, w, c);
    CarriedFree(w, m, v, m);
    if cfg.GetFailed? {
      CountedFree(w, m, s);
    } else {
      var state := if cfg.Found? then Some(cfg.copy) else None;
      SyncCarries(x, v, m, c.secret, state);
      var p := SyncCertSecret(x, v, m, c.secret, state);
      PushEndCounted(x, p, s);
      CarriedDesire(v, m, p.w, p.m);
      CountedAfter(v, m, p.w, p.m, s);
      CountedAfter(w, m, v, m, s);
    }
  }

  lemma CarriedDesire(w: World, m: Memory, v: World, n: Memory)
    requires Carried(w, m, v, n)
    ensures n.lastDesired == m.lastDesired
  {
  }

  /** What follows the push of a certificate event. */
  lemma PushEndCounted(x: Setup, p: Push, s: Step)
    requires s == if p.result.Failure? then CertFailed(x, p.w, p.m, p.state, p.result.error)
                  else if x.secretName == "" || p.state.None? then Done(p.w, p.m, NEXT_INTERVAL)
                  else AfterCertPush(x, p.w, p.m, p.state.value)
    ensures Counted(p.w, p.m, s) && s.m.lastDesired == p.m.lastDesired
  {
    hide CertFailed, Patch, Counted, Free;
    FreeSelf(p.w, Resetting);
    if p.result.Failure? {
      CertFailedCounted(x, p.w, p.m, p.state, p.result.error);
    } else if x.secretName == "" || p.state.None? {
      CountedFree(p.w, p.m, s);
    } else {
      var c := p.state.value;
      PatchFree(x, p.w, c, ClearedStatus(c.secret.ann), ClearCertStatus, Resetting);
      CountedFree(p.w, p.m, s);
    }
  }

  // ---------------------------------------------------------------- whole Reconciles

  lemma StartCarries(w: World, m: Memory, name: string)
    ensures Carried(w, m, Start(w, name), m)
  {
  }

  /**
   After any Reconcile, of any Secret, in any environment: the counter is nought if the gateway
   was read or accepted an apply in it, or if it took up other desired bytes than the one
   before; else it is as it was. A transient failure counts one on top of that and waits for
   what the schedule says.
   */
  lemma CountIsExact(x: Setup, w: World, m: Memory, name: string)
    ensures CountedRight(w, m, Reconcile(x, w, m, name))
  {
    hide Get, CertEvent, ConfigPhase, Counted, Carried, Free, Start;
    var v := Start(w, name);
    var s := Reconcile(x, w, m, name);
    StartCarries(w, m, name);
    FreeSelf(v, Resetting);
    GetFree(x, v, name, Resetting);
    var (u, got) := Get(x, v, name);
    CarriedFree(v, m, u, m);
    if x.secretName != "" && name != x.secretName && name !in x.certs {
      CountedFree(v, m, s);
    } else if !got.Found? {
      CountedFree(v, m, s);
    } else {
      if name in x.certs {
        CertEventCounted(x, u, m, got.copy);
        var r := CertEvent(x, u, m, got.copy);
        if r.Go? {
          ConfigPhaseCounted(x, r.w, r.m, r.c);
          CountedCarries(u, m, r);
          CountedAfter(u, m, r.w, r.m, s);
        }
      } else {
        ConfigPhaseCounted(x, u, m, got.copy);
      }
      CountedAfter(v, m, u, m, s);
    }
    CountedAfter(w, m, v, m, s);
    CountedIsRight(w, m, s);
  }

  lemma CountedIsRight(w: World, m: Memory, s: Step)
    requires Counted(w, m, s)
    ensures CountedRight(w, m, s)
  {
  }

  // ---------------------------------------------------------------- outages

  /** A Reconcile that fails transiently, hears nothing good and takes up no other bytes. */
  ghost predicate InVain(w: World, m: Memory, s: Step) {
    TransientEnd(s) && !s.w.down && !Heard(w, s.w) && s.m.lastDesired == m.lastDesired
  }

  /** Reconciles of these Secrets, one after the other in one process, all in vain. */
  ghost predicate Outage(x: Setup, w: World, m: Memory, names: seq<string>)
    decreases |names|
  {
    names == [] ||
    var s := Reconcile(x, w, m, names[0]);
    InVain(w, m, s) && Outage(x, s.w, s.m, names[1..])
  }

  function Waits(x: Setup, w: World, m: Memory, names: seq<string>): (d: seq<nat>)
    decreases |names|
  {
    if names == [] then []
    else
      var s := Reconcile(x, w, m, names[0]);
      [if TransientEnd(s) then s.out.after else 0] + Waits(x, s.w, s.m, names[1..])
  }

  /**
   From any count, whatever is reconciled and wherever it fails: the i-th Reconcile of an outage
   waits for min(30 * 2^(k + i), 300) seconds, counting from one.
   */
  lemma {:induction false} OutageBacksOff(x: Setup, w: World, m: Memory, names: seq<string>)
    requires Outage(x, w, m, names)
    ensures var d := Waits(x, w, m, names);
            && |d| == |names|
            && forall i :: 0 <= i < |d| ==> d[i] == Backoff.Min(30 * Backoff.Pow2(m.transientFailures + i + 1), 300)
    decreases |names|
  {
    hide Reconcile, Heard, Backoff.Min, Backoff.Pow2, Backoff.ForFailure;
    if names != [] {
      var k := m.transientFailures;
      var s := Reconcile(x, w, m, names[0]);
      CountIsExact(x, w, m, names[0]);
      Backoff.CappedExponential(k + 1);
      OutageBacksOff(x, s.w, s.m, names[1..]);
      var d, rest := Waits(x, w, m, names), Waits(x, s.w, s.m, names[1..]);
      assert d == [Backoff.ForFailure(k + 1)] + rest;
      assert forall i :: 1 <= i < |d| ==> d[i] == rest[i - 1];
    }
  }

  // ---------------------------------------------------------------- failed drift checks

  /** The Reconcile reads a config Secret that shows its bytes as applied. */
  predicate ShowsApplied(x: Setup, w: World) {
    var got := Get(x, Start(w, x.secretName), x.secretName).1;
    && got.Found? && x.secretKey in got.copy.secret.data
    && Lookup(got.copy.secret.ann, LastAppliedHash) == Hash(got.copy.secret.data[x.secretKey])
  }

  lemma CheckEnds(x: Setup, w: World, m: Memory, c: Copy, raw: Bytes)
    ensures var s := DriftCheck(x, w, m, c, raw);
            && w.trace <= s.w.trace && (Heard(w, s.w) || TransientEnd(s) || Errs(s) || s.w.down)
  {
    hide GetOrCreateClient, ReadLive, FailWithStatus, CompareLive, Heard, Free;
    ClientCarries(x, w, m);
    DriftCheckCounted(x, w, m, c, raw);
    var (v, n, noClient) := GetOrCreateClient(x, w, m);
    if noClient.None? {
      LiveReadHeard(x, v);
      var (u, live) := ReadLive(x, v);
      if live.Success? {
        var s := DriftCheck(x, w, m, c, raw);
        CompareLiveFree(x, u, n.(transientFailures := 0), c, raw, live.value, Recording);
        FreeGrows(u, s.w, Recording);
        HeardInSteps(v, u, s.w);
        HeardInSteps(w, v, s.w);
      }
    }
  }

  /** What a Reconcile of an applied configuration does after reading the Secret. */
  lemma ReconcileChecks(x: Setup, w: World, m: Memory, u: World, c: Copy, raw: Bytes)
    requires ConfigSecretIsDedicated(x) && Get(x, Start(w, x.secretName), x.secretName) == (u, Found(c))
    requires x.secretKey in c.secret.data && c.secret.data[x.secretKey] == raw
    requires Lookup(c.secret.ann, LastAppliedHash) == Hash(raw) && c.secret.name == x.secretName
    ensures var d := DriftCheck(x, u, m, c, raw);
            Reconcile(x, w, m, x.secretName) == if d.Done? then d else PushDesired(x, d.w, d.m, d.c, raw)
  {
    hide Get, DriftCheck, PushDesired;
  }

  /** A check that hears nothing from the gateway is a transient failure, if the patch of its status is answered. */
  lemma FailedCheckIsTransient(x: Setup, w: World, m: Memory)
    requires ConfigSecretIsDedicated(x) && ShowsApplied(x, w)
    requires var s := Reconcile(x, w, m, x.secretName); !s.w.down && !Heard(w, s.w) && !Errs(s)
    ensures InVain(w, m, Reconcile(x, w, m, x.secretName))
  {
    var v := Start(w, x.secretName);
    var (u, got) := Get(x, v, x.secretName);
    GetFree(x, v, x.secretName, Resetting);
    FoundName(x, v, x.secretName);
    assert w.trace <= v.trace;
    hide Get, DriftCheck, PushDesired, Heard, Free, Reconcile;
    var c := got.copy;
    var raw := c.secret.data[x.secretKey];
    ReconcileChecks(x, w, m, u, c, raw);
    CheckEnds(x, u, m, c, raw);
    DriftCheckCounted(x, u, m, c, raw);
    FreeGrows(v, u, Resetting);
    var d := DriftCheck(x, u, m, c, raw);
    if d.Go? {
      PushDesiredCounted(x, d.w, d.m, d.c, raw);
    }
    HeardInSteps(w, u, d.w);
    HeardInSteps(w, d.w, Reconcile(x, w, m, x.secretName).w);
  }

  /** `n` drift checks in a row that hear nothing from the gateway. */
  ghost predicate FailedChecks(x: Setup, w: World, m: Memory, n: nat)
    decreases n
  {
    n == 0 ||
    var s := Reconcile(x, w, m, x.secretName);
    ShowsApplied(x, w) && !s.w.down && !Heard(w, s.w) && !Errs(s) && FailedChecks(x, s.w, s.m, n - 1)
  }

  function Same(name: string, n: nat): (names: seq<string>)
    ensures |names| == n && forall i :: 0 <= i < n ==> names[i] == name
  {
    seq(n, _ => name)
  }

  lemma {:induction false} FailedChecksAreAnOutage(x: Setup, w: World, m: Memory, n: nat)
    requires ConfigSecretIsDedicated(x) && FailedChecks(x, w, m, n)
    ensures Outage(x, w, m, Same(x.secretName, n))
    decreases n
  {
    hide Reconcile, ShowsApplied, Heard;
    if n > 0 {
      FailedCheckIsTransient(x, w, m);
      var s := Reconcile(x, w, m, x.secretName);
      FailedChecksAreAnOutage(x, s.w, s.m, n - 1);
      assert Same(x.secretName, n)[1..] == Same(x.secretName, n - 1);
    }
  }

  /** Failed live reads, and clients that cannot be built, back off like every other failure. */
  lemma FailedChecksBackOff(x: Setup, w: World, m: Memory, n: nat)
    requires ConfigSecretIsDedicated(x) && FailedChecks(x, w, m, n)
    ensures var d := Waits(x, w, m, Same(x.secretName, n));
            && |d| == n
            && forall i :: 0 <= i < n ==> d[i] == Backoff.Min(30 * Backoff.Pow2(m.transientFailures + i + 1), 300)
  {
    hide Reconcile, FailedChecks, Outage, Waits, Backoff.Min, Backoff.Pow2;
    FailedChecksAreAnOutage(x, w, m, n);
    OutageBacksOff(x, w, m, Same(x.secretName, n));
  }
}
