/** A Reconcile in which any certificate fails sends no raw-config POST. */
module CertOrder {
  import opened Prelude
  import opened Errors
  import opened Platform
  import opened Dataplane
  import opened Reconciliation
  import opened Safety
  import opened Actions
  import opened ReconcileSafety
  import opened Suffix
  import opened Theorems

  // ---------------------------------------------------------------- every failure is marked

  /** A push from `w` that fails ends with the mark of it. */
  ghost predicate Marked(w: World, p: Push) {
    p.result.Failure? ==>
      p.w.down
      || (|w.trace| < |p.w.trace| && var e := p.w.trace[|p.w.trace| - 1]; e.CertNotSynced? && e.run == p.w.run)
  }

  lemma NotPushedMarked(w: World, v: World, m: Memory, state: Option<Copy>, name: string, err: Err)
    requires |w.trace| <= |v.trace|
    ensures Marked(w, NotPushed(v, m, state, name, err))
  {
  }

  lemma PushMarked(x: Setup, w: World, m: Memory, secret: Secret, state: Option<Copy>)
    ensures Marked(w, PushCertSecret(x, w, m, secret, state))
  {
    hide SyncSSLCertificate, RecordPush, CertPEMBundle, NotPushed, Marked, Free;
    var bundle := CertPEMBundle(secret);
    if bundle.Failure? {
      NotPushedMarked(w, w, m, state, secret.name, bundle.error);
    } else {
      var b := bundle.value;
      var previouslySynced := RecordedHash(CertSyncState(state), secret.name, b)
                              || (secret.name in m.certHashes && m.certHashes[secret.name] == b);
      var (v, changed) := SyncSSLCertificate(x, w, secret.name, b, previouslySynced);
      SyncSSLCertificateFree(x, w, secret.name, b, previouslySynced, Posting);
      FreeGrows(w, v, Posting);
      if changed.Failure? {
        NotPushedMarked(w, v, m, state, secret.name, changed.error);
      } else {
        var n := m.(certHashes := m.certHashes[secret.name := b]);
        RecordPushMarked(x, v, n, secret.name, b, state, changed.value);
        MarkedBefore(w, v, RecordPush(x, v, n, secret.name, b, state, changed.value));
      }
    }
  }

  lemma RecordPushMarked(
    x: Setup, w: World, m: Memory, name: string, bundle: Bytes, state: Option<Copy>, changed: bool)
    ensures Marked(w, RecordPush(x, w, m, name, bundle, state, changed))
  {
    if state.Some? {
      var c := state.value;
      var ann := WithRecord(c, name, CertEntry(bundle, x.env(w.clock).now));
      PatchFree(x, w, c, ann, RecordCert(name), Posting);
    }
    hide Patch;
  }

  lemma MarkedBefore(w: World, v: World, p: Push)
    requires |w.trace| <= |v.trace| && Marked(v, p)
    ensures Marked(w, p)
  {
  }

  lemma SucceededIsMarked()
    ensures forall w: World, p: Push :: p.result.Success? ==> Marked(w, p)
  {
  }

  lemma ContextIsMarked(w: World, p: Push, err: Err)
    requires p.result.Failure? && Marked(w, p)
    ensures Marked(w, p.(result := Failure(err)))
  {
  }

  /**
   Whatever makes the sync fail (a Secret that cannot be read, its bundle, the gateway, the record) is
   in the trace.
   */
  lemma {:induction false} EverySyncFailureIsMarked(x: Setup, w: World, m: Memory, c: Copy, i: nat)
    requires i <= |x.certs|
    ensures Marked(w, EnsureCertSecretsSynced(x, w, m, c, i))
    decreases |x.certs| - i
  {
    hide PushCertSecret, Get, NotPushed, Marked, Free;
    SucceededIsMarked();
    if i < |x.certs| {
      var (v, got) := Get(x, w, x.certs[i]);
      GetFree(x, w, x.certs[i], Recording);
      FreeGrows(w, v, Recording);
      if !got.Found? {
        NotPushedMarked(w, v, m, Some(c), x.certs[i], Context(PLAIN, Leaf(Opaque, PLAIN)));
      } else {
        PushMarked(x, v, m, got.copy.secret, Some(c));
        var p := PushCertSecret(x, v, m, got.copy.secret, Some(c));
        MarkedBefore(w, v, p);
        if p.result.Success? {
          PushCertSecretFree(x, v, m, got.copy.secret, Some(c), Recording);
          FreeGrows(v, p.w, Recording);
          EverySyncFailureIsMarked(x, p.w, p.m, p.state.value, i + 1);
          MarkedBefore(w, p.w, EnsureCertSecretsSynced(x, p.w, p.m, p.state.value, i + 1));
        } else {
          ContextIsMarked(w, p, Context(PLAIN, p.result.error));
        }
      }
    }
  }

  lemma EveryEventFailureIsMarked(x: Setup, w: World, m: Memory, secret: Secret, state: Option<Copy>)
    ensures Marked(w, SyncCertSecret(x, w, m, secret, state))
  {
    hide PushCertSecret, GetOrCreateClient, NotPushed, Marked, Free;
    var (v, n, err) := GetOrCreateClient(x, w, m);
    GetOrCreateClientFree(x, w, m, Posting);
    FreeGrows(w, v, Posting);
    if err.Some? {
      NotPushedMarked(w, v, n, state, secret.name, err.value);
    } else {
      PushMarked(x, v, n, secret, state);
      MarkedBefore(w, v, PushCertSecret(x, v, n, secret, state));
    }
  }

  // ---------------------------------------------------------------- one Reconcile

  /** No POST was sent from `w` to `v`, or no certificate failed. */
  ghost predicate Exclusive(w: World, v: World) {
    Free(w, v, Posting) || Free(w, v, CertFailing)
  }

  ghost predicate Neither(w: World, v: World) {
    Free(w, v, Posting) && Free(w, v, CertFailing)
  }

  lemma ExclusiveAfter(w: World, v: World, u: World)
    requires Neither(w, v) && Exclusive(v, u)
    ensures Exclusive(w, u)
  {
    if Free(v, u, Posting) {
      FreeTransitive(w, v, u, Posting);
    } else {
      FreeTransitive(w, v, u, CertFailing);
    }
  }

  lemma PushDesiredExclusive(x: Setup, w: World, m: Memory, c: Copy, raw: Bytes)
    ensures Exclusive(w, PushDesired(x, w, m, c, raw).w)
  {
    hide Free, GetOrCreateClient, EnsureCertSecretsSynced, Retry, ValidatePhase;
    var s := PushDesired(x, w, m, c, raw);
    FreeSelf(w, Posting);
    if Lookup(c.secret.ann, LastFailedHash) != Hash(raw) {
      var n := Desire(m, raw);
      GetOrCreateClientFree(x, w, n, Posting);
      GetOrCreateClientFree(x, w, n, CertFailing);
      var (v, o, noClient) := GetOrCreateClient(x, w, n);
      if noClient.Some? {
        RetryFree(x, v, o, c, Failed(Classify(noClient.value)), Posting);
      } else {
        EnsureFree(x, v, o, c, 0, Posting);
        EnsureFree(x, v, o, c, 0, CertFailing);
        var p := EnsureCertSecretsSynced(x, v, o, c, 0);
        if p.result.Failure? {
          RetryFree(x, p.w, p.m, p.state.value, CertSyncFailed(Classify(p.result.error)), Posting);
          FreeTransitive(v, p.w, s.w, Posting);
        } else {
          ValidatePhaseFree(x, p.w, p.m, p.state.value, raw, CertFailing);
          FreeTransitive(v, p.w, s.w, CertFailing);
        }
      }
      ExclusiveAfter(w, v, s.w);
    }
  }

  lemma ConfigPhaseExclusive(x: Setup, w: World, m: Memory, c: Copy)
    ensures Exclusive(w, ConfigPhase(x, w, m, c).w)
  {
    hide Free, FailWithStatus, DriftCheck, PushDesired;
    FreeSelf(w, Posting);
    if x.secretKey !in c.secret.data {
      FailWithStatusFree(x, w, c, MissingKey, None, Posting);
    } else {
      var raw := c.secret.data[x.secretKey];
      PushDesiredExclusive(x, w, m, c, raw);
      DriftCheckFree(x, w, m, c, raw, Posting);
      DriftCheckFree(x, w, m, c, raw, CertFailing);
      var s := DriftCheck(x, w, m, c, raw);
      PushDesiredExclusive(x, s.w, s.m, c, raw);
      ExclusiveAfter(w, s.w, PushDesired(x, s.w, s.m, c, raw).w);
    }
  }

  lemma AfterCertPushFree(x: Setup, w: World, m: Memory, c: Copy, k: Kind)
    requires !k.Patching?
    ensures AfterCertPush(x, w, m, c).Go? && Free(w, AfterCertPush(x, w, m, c).w, k)
  {
    hide Free, Patch;
    FreeSelf(w, k);
    PatchFree(x, w, c, ClearedStatus(c.secret.ann), ClearCertStatus, k);
  }

  /** A certificate event posts nothing, and only goes on when its push did not fail. */
  lemma CertEventFree(x: Setup, w: World, m: Memory, c: Copy)
    ensures var s := CertEvent(x, w, m, c); Free(w, s.w, Posting) && (s.Go? ==> Free(w, s.w, CertFailing))
  {
    hide Free, Get, SyncCertSecret, AfterCertPush, Retry;
    CertEventFreeOf(x, w, m, c, Posting);
    CertEventFreeOf(x, w, m, c, CertFailing);
  }

  lemma CertEventFreeOf(x: Setup, w: World, m: Memory, c: Copy, k: Kind)
    requires !k.Patching?
    ensures var s := CertEvent(x, w, m, c); (k.CertFailing? || k.Failing? ==> s.Go?) ==> Free(w, s.w, k)
  {
    hide Free, Get, SyncCertSecret, AfterCertPush, FailWithStatus;
    var s := CertEvent(x, w, m, c);
    FreeSelf(w, k);
    GetFree(x, w, x.secretName, k);
    var (v, cfg) := ConfigSecretFor(x, w, c);
    if !cfg.GetFailed? {
      var state := if cfg.Found? then Some(cfg.copy) else None;
      SyncCertSecretFree(x, v, m, c.secret, state, k);
      var p := SyncCertSecret(x, v, m, c.secret, state);
      if p.result.Failure? && p.state.Some? && !k.Failing? {
        RetryFree(x, p.w, p.m, p.state.value, CertSyncFailed(Classify(p.result.error)), k);
      } else if p.result.Success? && p.state.Some? {
        AfterCertPushFree(x, p.w, p.m, p.state.value, k);
      }
      FreeSelf(p.w, k);
      if !Marks(p, k) && !(k.Failing? && p.result.Failure?) {
        FreeTransitive(w, v, p.w, k);
        FreeTransitive(w, p.w, s.w, k);
      }
    }
  }

  lemma ReconcileExclusive(x: Setup, w: World, m: Memory, name: string)
    ensures Exclusive(Start(w, name), Reconcile(x, w, m, name).w)
  {
    hide Free, Get, CertEvent, ConfigPhase, Start;
    var v := Start(w, name);
    FreeSelf(v, Posting);
    GetFree(x, v, name, Posting);
    GetFree(x, v, name, CertFailing);
    var (u, got) := Get(x, v, name);
    if got.Found? {
      var c := got.copy;
      ConfigPhaseExclusive(x, u, m, c);
      ExclusiveAfter(v, u, ConfigPhase(x, u, m, c).w);
      CertEventFree(x, u, m, c);
      var s := CertEvent(x, u, m, c);
      FreeTransitive(v, u, s.w, Posting);
      if s.Go? {
        FreeTransitive(v, u, s.w, CertFailing);
        ConfigPhaseExclusive(x, s.w, s.m, s.c);
        ExclusiveAfter(v, s.w, ConfigPhase(x, s.w, s.m, s.c).w);
      }
    }
  }

  // ---------------------------------------------------------------- every run

  ghost predicate NeverBoth(t: seq<Event>) {
    forall i, j :: 0 <= i < |t| && 0 <= j < |t| && t[i].Post? && t[j].CertNotSynced? ==> t[i].run != t[j].run
  }

  /** What a Reconcile adds carries its own number. */
  lemma NewEventsAreNumbered(x: Setup, w: World, v: World, name: string)
    requires Inv(x, w) && Inv(x, v) && Start(w, name).trace <= v.trace && v.run == w.run + 1
    ensures forall i :: 0 <= i < |v.trace| && Numbered(v.trace[i]) ==>
              if i < |w.trace| then v.trace[i].run <= w.run else v.trace[i].run == v.run
  {
    var begin := |w.trace|;
    assert v.trace[begin] == Begin(w.run + 1, name);
    forall i | 0 <= i < |v.trace| && Numbered(v.trace[i])
      ensures if i < |w.trace| then v.trace[i].run <= w.run else v.trace[i].run == v.run
    {
      assert InOrder(v.trace, i);
      assert i < begin ==> v.trace[i] == w.trace[i];
    }
  }

  lemma ReconcileNeverBoth(x: Setup, w: World, m: Memory, name: string)
    requires Inv(x, w) && MemoryOk(x, w, m) && NeverBoth(w.trace)
    ensures NeverBoth(Reconcile(x, w, m, name).w.trace)
  {
    var v, s := Start(w, name), Reconcile(x, w, m, name);
    ReconcileKeeps(x, w, m, name);
    ReconcileExclusive(x, w, m, name);
    hide Inv, Reconcile, MemoryOk;
    NewEventsAreNumbered(x, w, s.w, name);
    assert !v.trace[|w.trace|].Post? && !v.trace[|w.trace|].CertNotSynced?;
    assert forall i :: 0 <= i < |w.trace| ==> s.w.trace[i] == w.trace[i];
  }

  lemma {:induction false} RunNeverBoth(x: Setup, w: World, m: Memory, ts: seq<Trigger>)
    requires Inv(x, w) && MemoryOk(x, w, m) && NeverBoth(w.trace)
    ensures NeverBoth(Run(x, w, m, ts).0.trace)
    decreases |ts|
  {
    hide Inv, MemoryOk, Reconcile, NeverBoth;
    if ts != [] {
      TripKeeps(x, w, m, ts[0]);
      var (v, n) := Trip(x, w, m, ts[0]);
      if ts[0].Reconciled? {
        ReconcileNeverBoth(x, w, m, ts[0].name);
      }
      RunNeverBoth(x, v, n, ts[1..]);
    }
  }

  /** In every run, a Reconcile in which a certificate failed, at whatever point, sends no raw config of either kind. */
  lemma AnyCertFailureMeansNoPost(x: Setup, w: World, i: nat, j: nat)
    requires Reachable(x, w) && i < |w.trace| && j < |w.trace|
    requires w.trace[j].CertNotSynced? && w.trace[i].Post?
    ensures w.trace[i].run != w.trace[j].run
  {
    var w0, ts :| Untouched(w0) && w == Run(x, w0, FRESH, ts).0;
    forall k | 0 <= k < |w0.log|
      ensures RevisionGood(x, w0, k)
    {
    }
    RunNeverBoth(x, w0, FRESH, ts);
  }
}
