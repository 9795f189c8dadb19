/** The theorems about what stored hashes prevent, over whole runs of config-triggered Reconciles. */
module Suppression {
  import opened Prelude
  import opened Errors
  import opened Platform
  import opened Reconciliation
  import opened Safety
  import opened Steadiness
  import opened History
  import opened Tracking

  /** The assumptions every theorem here shares. */
  ghost predicate Steady(x: Setup, raw: Bytes) {
    ConfigSecretIsDedicated(x) && DesiredStays(x, raw) && NoStaleReads(x)
  }

  lemma StartPins(x: Setup, w: World, raw: Bytes, k: Key)
    ensures Keeps(x, w, Start(w, x.secretName), raw, k)
  {
  }

  // ---------------------------------------------------------------- rejected bytes, and alert-only mode

  /** A failed hash keeps its bytes from being applied, and so does an applied one while only alerting. */
  predicate Suppresses(x: Setup, k: Key) {
    k.LastFailedHash? || (k.LastAppliedHash? && !x.driftRemediate)
  }

  /** Since revision `n` the config Secret has held the bytes, and hash `k` of them that says not to apply them. */
  ghost predicate Forbids(x: Setup, w: World, raw: Bytes, k: Key, n: nat) {
    && Latest(w.log, x.secretName).Some? && n <= Latest(w.log, x.secretName).value
    && CarriesFrom(x, w.log, n, raw, k, Hash(raw)) && Suppresses(x, k)
  }

  lemma ConfigPhaseForbidden(x: Setup, w: World, m: Memory, c: Copy, raw: Bytes, k: Key)
    requires DesiredStays(x, raw) && c.secret.name == x.secretName
    requires Carries(x, c.secret, raw, k, Hash(raw)) && Suppresses(x, k)
    ensures Keeps(x, w, ConfigPhase(x, w, m, c).w, raw, k)
  {
    hide Keeps, DriftCheck;
    if Lookup(c.secret.ann, LastAppliedHash) == Hash(raw) {
      DriftCheckPins(x, w, m, c, raw, k);
    } else {
      KeepsSelf(x, w, raw, k);
    }
  }

  lemma KeepsSelf(x: Setup, w: World, raw: Bytes, k: Key)
    ensures Keeps(x, w, w, raw, k)
  {
  }

  lemma ForbidsOn(x: Setup, w: World, u: World, raw: Bytes, k: Key, n: nat)
    requires Forbids(x, w, raw, k, n) && Keeps(x, w, u, raw, k)
    ensures Forbids(x, u, raw, k, n) && w.clock <= u.clock
    ensures w.trace <= u.trace && forall i :: |w.trace| <= i < |u.trace| ==> !u.trace[i].Post?
  {
    var l := Latest(w.log, x.secretName).value;
    assert Carries(x, w.log[l].secret, raw, k, Hash(raw));
    assert w.log[l] == u.log[l];
  }

  /** A read of a revision from the `n`-th on finds the hash. */
  lemma ReadForbids(x: Setup, w: World, raw: Bytes, k: Key, n: nat)
    requires DesiredStays(x, raw) && ReadsFrom(x, w.clock, n) && Forbids(x, w, raw, k, n)
    ensures var (v, got) := Get(x, w, x.secretName);
            && Keeps(x, w, v, raw, k)
            && (got.Found? ==> Carries(x, got.copy.secret, raw, k, Hash(raw)) && got.copy.secret.name == x.secretName)
  {
    hide Tick, Keeps, Carries;
    TickPins(x, w, raw, k);
    ForbidsOn(x, w, Tick(x, w), raw, k, n);
  }

  lemma ReconcileForbidden(x: Setup, w: World, m: Memory, raw: Bytes, k: Key, n: nat)
    requires x.secretName !in x.certs
    requires DesiredStays(x, raw) && ReadsFrom(x, w.clock, n) && Forbids(x, w, raw, k, n)
    ensures Keeps(x, w, Reconcile(x, w, m, x.secretName).w, raw, k)
  {
    var s := Reconcile(x, w, m, x.secretName);
    StartPins(x, w, raw, k);
    var v := Start(w, x.secretName);
    ForbidsOn(x, w, v, raw, k, n);
    ReadForbids(x, v, raw, k, n);
    var (u, got) := Get(x, v, x.secretName);
    KeepsTransitive(x, w, v, u, raw, k);
    if got.Found? {
      hide Keeps, ConfigPhase, Get;
      ConfigPhaseForbidden(x, u, m, got.copy, raw, k);
      KeepsTransitive(x, w, u, s.w, raw, k);
    }
  }

  /**
   Once the stored failed hash equals the desired one, and in alert-only mode once the
   stored applied hash does, no run of config-triggered Reconciles posts anything or
   changes that hash, whatever the live reads return and whatever fails. Reads may be stale
   as long as none is older than the revision that stored the hash.
   */
  lemma {:induction false} StoredHashForbidsApply(
    x: Setup, w: World, m: Memory, ts: seq<Trigger>, raw: Bytes, k: Key, n: nat)
    requires x.secretName !in x.certs && ConfigTriggers(x, ts)
    requires DesiredStays(x, raw) && ReadsFrom(x, w.clock, n) && Forbids(x, w, raw, k, n)
    ensures var u := Run(x, w, m, ts).0;
            && Forbids(x, u, raw, k, n)
            && w.trace <= u.trace && forall i :: |w.trace| <= i < |u.trace| ==> !u.trace[i].Post?
    decreases |ts|
  {
    hide Forbids, Reconcile, ReadsFrom, Keeps;
    if ts != [] {
      var (v, o) := Trip(x, w, m, ts[0]);
      if ts[0].Reconciled? {
        var s := Reconcile(x, w, m, x.secretName);
        ReconcileForbidden(x, w, m, raw, k, n);
        ForbidsOn(x, w, s.w, raw, k, n);
        OnlyUpOrDown(x, s.w, v, raw, k, n);
      }
      ReadsLater(x, w.clock, v.clock, n);
      StoredHashForbidsApply(x, v, o, ts[1..], raw, k, n);
    }
  }

  lemma OnlyUpOrDown(x: Setup, w: World, v: World, raw: Bytes, k: Key, n: nat)
    requires Forbids(x, w, raw, k, n) && v == w.(down := v.down)
    ensures Forbids(x, v, raw, k, n)
  {
  }

  lemma ReadsLater(x: Setup, before: nat, after: nat, n: nat)
    requires ReadsFrom(x, before, n) && before <= after
    ensures ReadsFrom(x, after, n)
  {
  }

  // ---------------------------------------------------------------- no remediation loop

  /** The apply of `raw` is recorded, and the baseline is open or what the gateway serves. */
  predicate Settled(x: Setup, w: World, raw: Bytes) {
    && CurrentHolds(x, w, raw) && Reads(x, w, LastAppliedHash) == Hash(raw)
    && ExpectedLive(CurrentAnn(w.log, x.secretName)) in {Pending, Hash(w.gw.live)}
  }

  ghost predicate Settles(x: Setup, w: World, u: World, raw: Bytes) {
    && NoPostBetween(w, u) && u.gw.live == w.gw.live && (Settled(x, w, raw) ==> Settled(x, u, raw))
  }

  lemma SettlesFromPins(x: Setup, w: World, u: World, raw: Bytes)
    requires Keeps(x, w, u, raw, LastAppliedHash) && Keeps(x, w, u, raw, LastObservedHash)
    requires u.gw.live == w.gw.live
    ensures Settles(x, w, u, raw)
  {
  }

  lemma SettlesTransitive(x: Setup, w: World, v: World, u: World, raw: Bytes)
    requires Settles(x, w, v, raw) && Settles(x, v, u, raw)
    ensures Settles(x, w, u, raw)
  {
  }

  lemma PatchSettles(x: Setup, w: World, c: Copy, ann: Annotations, purpose: Purpose, raw: Bytes)
    requires Steady(x, raw) && NoOutOfBandWrites(x)
    requires !Touched(LastAppliedHash, c.secret.ann, ann) && !Touched(LastObservedHash, c.secret.ann, ann)
    ensures Settles(x, w, Patch(x, w, c, ann, purpose).0, raw)
  {
    hide Keeps, Patch, Settles;
    PatchPins(x, w, c, ann, purpose, raw, LastAppliedHash);
    PatchPins(x, w, c, ann, purpose, raw, LastObservedHash);
    SettlesFromPins(x, w, Patch(x, w, c, ann, purpose).0, raw);
  }

  lemma RetrySettles(x: Setup, w: World, m: Memory, c: Copy, status: Status, raw: Bytes)
    requires Steady(x, raw) && NoOutOfBandWrites(x)
    ensures Retry(x, w, m, c, status).Done? && Settles(x, w, Retry(x, w, m, c, status).w, raw)
  {
    hide Keeps, Retry, Settles;
    RetryPins(x, w, m, c, status, raw, LastAppliedHash);
    RetryPins(x, w, m, c, status, raw, LastObservedHash);
    SettlesFromPins(x, w, Retry(x, w, m, c, status).w, raw);
  }

  lemma CommittedAdoption(x: Setup, w: World, c: Copy, raw: Bytes, live: Bytes)
    requires Latest(w.log, c.secret.name) == Some(c.rv) && c.secret.name == x.secretName
    requires Lookup(c.secret.ann, LastObservedHash) == Pending && live == w.gw.live
    ensures Settles(x, w, Commit(w, c, AdoptedBaseline(c.secret.ann, live), AdoptBaseline(live)), raw)
  {
    var ann := AdoptedBaseline(c.secret.ann, live);
    var u := Commit(w, c, ann, AdoptBaseline(live));
    var merged := Overlay(w.log[c.rv].secret.ann, c.secret.ann, ann);
    assert !Touched(LastAppliedHash, c.secret.ann, ann) && Touched(LastObservedHash, c.secret.ann, ann);
    assert Lookup(merged, LastAppliedHash) == Lookup(w.log[c.rv].secret.ann, LastAppliedHash);
    assert Lookup(merged, LastObservedHash) == Hash(live);
    CommittedAnnotations(w, c, ann, AdoptBaseline(live));
    CommitPins(x, w, c, ann, AdoptBaseline(live), raw, LastAppliedHash);
    hide Commit, Overlay, AdoptedBaseline, Touched;
  }

  lemma TickSettles(x: Setup, w: World, raw: Bytes)
    requires Steady(x, raw) && NoOutOfBandWrites(x)
    ensures Settles(x, w, Tick(x, w), raw)
  {
    hide Tick, Keeps, Settles;
    TickPins(x, w, raw, LastAppliedHash);
    TickPins(x, w, raw, LastObservedHash);
    SettlesFromPins(x, w, Tick(x, w), raw);
  }

  lemma AdoptionSettles(x: Setup, w: World, c: Copy, raw: Bytes, live: Bytes)
    requires Steady(x, raw) && NoOutOfBandWrites(x)
    requires c.secret.name == x.secretName && live == w.gw.live && Lookup(c.secret.ann, LastObservedHash) == Pending
    ensures Settles(x, w, Patch(x, w, c, AdoptedBaseline(c.secret.ann, live), AdoptBaseline(live)).0, raw)
  {
    TickPins(x, w, raw, LastAppliedHash);
    TickSettles(x, w, raw);
    var v := Tick(x, w);
    hide Tick, Settles, Commit;
    if Latest(v.log, c.secret.name) == Some(c.rv) {
      CommittedAdoption(x, v, c, raw, live);
      SettlesTransitive(x, w, v, Commit(v, c, AdoptedBaseline(c.secret.ann, live), AdoptBaseline(live)), raw);
    }
  }

  lemma CompareLiveSettles(x: Setup, w: World, m: Memory, c: Copy, raw: Bytes, live: Bytes)
    requires Steady(x, raw) && NoOutOfBandWrites(x) && c.secret.name == x.secretName
    requires live == w.gw.live && ExpectedLive(c.secret.ann) in {Pending, Hash(live)}
    requires Lookup(c.secret.ann, LastAppliedHash) == Hash(raw)
    ensures var s := CompareLive(x, w, m, c, raw, live); s.Done? && Settles(x, w, s.w, raw)
  {
    var ann := c.secret.ann;
    var e := Checked(w.run, raw, live, Hash(live), false);
    NotePins(x, w, e, raw, LastAppliedHash);
    NotePins(x, w, e, raw, LastObservedHash);
    SettlesFromPins(x, w, Note(w, e), raw);
    hide Patch, Settles, Note, Keeps;
    if ExpectedLive(ann) == Pending {
      AdoptionSettles(x, w, c, raw, live);
    } else {
      PatchSettles(x, Note(w, e), c, ClearedStatus(ann), ClearCheckStatus, raw);
      SettlesTransitive(x, w, Note(w, e), Patch(x, Note(w, e), c, ClearedStatus(ann), ClearCheckStatus).0, raw);
    }
  }

  lemma DriftCheckSettles(x: Setup, w: World, m: Memory, c: Copy, raw: Bytes)
    requires Steady(x, raw) && NoOutOfBandWrites(x) && c.secret.name == x.secretName
    requires ExpectedLive(c.secret.ann) in {Pending, Hash(w.gw.live)}
    requires Lookup(c.secret.ann, LastAppliedHash) == Hash(raw)
    ensures var s := DriftCheck(x, w, m, c, raw); s.Done? && Settles(x, w, s.w, raw)
  {
    var s := DriftCheck(x, w, m, c, raw);
    var (v, n, noClient) := GetOrCreateClient(x, w, m);
    var (u, live) := ReadLive(x, v);
    hide Retry, CompareLive, GetOrCreateClient, ReadLive, Keeps, Settles, ExpectedLive;
    GetOrCreateClientPins(x, w, m, raw, LastAppliedHash);
    GetOrCreateClientPins(x, w, m, raw, LastObservedHash);
    SettlesFromPins(x, w, v, raw);
    if noClient.Some? {
      RetrySettles(x, v, n, c, Failed(Classify(noClient.value)), raw);
      SettlesTransitive(x, w, v, s.w, raw);
    } else {
      ReadLivePins(x, v, raw, LastAppliedHash);
      ReadLivePins(x, v, raw, LastObservedHash);
      SettlesFromPins(x, v, u, raw);
      SettlesTransitive(x, w, v, u, raw);
      if live.Failure? {
        RetrySettles(x, u, n, c, DriftCheckFailed(Classify(live.error)), raw);
      } else {
        CompareLiveSettles(x, u, n.(transientFailures := 0), c, raw, live.value);
      }
      SettlesTransitive(x, w, u, s.w, raw);
    }
  }

  lemma ReconcileSettles(x: Setup, w: World, m: Memory, raw: Bytes)
    requires Steady(x, raw) && NoOutOfBandWrites(x) && Settled(x, w, raw)
    ensures Settles(x, w, Reconcile(x, w, m, x.secretName).w, raw)
  {
    var s := Reconcile(x, w, m, x.secretName);
    StartPins(x, w, raw, LastAppliedHash);
    StartPins(x, w, raw, LastObservedHash);
    var v := Start(w, x.secretName);
    SettlesFromPins(x, w, v, raw);
    GetPins(x, v, raw, LastAppliedHash);
    GetPins(x, v, raw, LastObservedHash);
    var (u, got) := Get(x, v, x.secretName);
    SettlesFromPins(x, v, u, raw);
    SettlesTransitive(x, w, v, u, raw);
    if got.Found? {
      hide Keeps, DriftCheck, Get;
      DriftCheckSettles(x, u, m, got.copy, raw);
      SettlesTransitive(x, w, u, s.w, raw);
    }
  }

  /**
   Once an apply of the desired bytes is recorded, no number of later config-triggered
   Reconciles applies them again, whichever reads and patches fail and however the gateway
   rewrites what it is sent, as long as nobody else writes the gateway.
   */
  lemma {:induction false} NoRemediationLoop(x: Setup, w: World, m: Memory, ts: seq<Trigger>, raw: Bytes)
    requires Steady(x, raw) && NoOutOfBandWrites(x) && Settled(x, w, raw) && ConfigTriggers(x, ts)
    ensures var u := Run(x, w, m, ts).0;
            && Settled(x, u, raw) && u.gw.live == w.gw.live
            && w.trace <= u.trace && forall i :: |w.trace| <= i < |u.trace| ==> !u.trace[i].Post?
    decreases |ts|
  {
    hide Reconcile;
    if ts != [] {
      var (v, n) := Trip(x, w, m, ts[0]);
      if ts[0].Reconciled? {
        ReconcileSettles(x, w, m, raw);
      }
      NoRemediationLoop(x, v, n, ts[1..], raw);
    }
  }

  /** The hypothesis above is what a recorded apply leaves behind, with or without a read-back. */
  lemma RecordedApplySettles(x: Setup, u: World, raw: Bytes)
    requires Steady(x, raw) && NoOutOfBandWrites(x) && Shown(x, u, raw)
    ensures Settled(x, u, raw)
  {
  }

  /**
   So from the Reconcile that records an apply on, whichever read-back, live read or patch
   fails in it or later, the desired bytes are never applied again.
   */
  lemma NoRemediationLoopAfterApply(x: Setup, w: World, m: Memory, ts: seq<Trigger>, raw: Bytes, i: nat)
    requires Steady(x, raw) && NoOutOfBandWrites(x) && ConfigTriggers(x, ts)
    requires var v := Reconcile(x, w, m, x.secretName).w;
             |w.trace| < i < |v.trace| && RecordsApply(v.trace[i]) && v.trace[i].purpose.applied == raw
    ensures var (v, n) := Trip(x, w, m, Reconciled(x.secretName));
            var u := Run(x, v, n, ts).0;
            && u.gw.live == v.gw.live
            && v.trace <= u.trace && forall j :: |v.trace| <= j < |u.trace| ==> !u.trace[j].Post?
  {
    hide Reconcile, Run, Shown, Settled;
    RecordedApplyIsShown(x, w, m, i);
    var s := Reconcile(x, w, m, x.secretName);
    RecordedApplySettles(x, s.w, raw);
    var (v, n) := Trip(x, w, m, Reconciled(x.secretName));
    SettledOnlyLooks(x, s.w, v, raw);
    NoRemediationLoop(x, v, n, ts, raw);
  }

  lemma SettledOnlyLooks(x: Setup, w: World, v: World, raw: Bytes)
    requires Settled(x, w, raw) && v == w.(down := v.down)
    ensures Settled(x, v, raw)
  {
  }
}
