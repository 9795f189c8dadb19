/** The phases of Reconcile, whole Reconciles and whole runs keep the invariant. */
module ReconcileSafety {
  import opened Prelude
  import opened Errors
  import opened Platform
  import opened Dataplane
  import opened Reconciliation
  import opened Safety
  import opened Actions
  import opened Protocol

  /** A phase that starts with a good copy ends well, and hands on a copy of the same Secret. */
  ghost predicate StepGood(x: Setup, w0: World, c: Copy, s: Step) {
    && Good(x, w0, s.w, s.m)
    && (s.Go? ==> CopyOk(x, s.w, s.c) && SameForOthers(c.secret, s.c.secret))
  }

  ghost predicate Ready(x: Setup, w: World, m: Memory, c: Copy) {
    Inv(x, w) && MemoryOk(x, w, m) && CopyOk(x, w, c) && Target(x, c)
  }

  lemma ReadyLater(x: Setup, w: World, v: World, m: Memory, c: Copy)
    requires Ready(x, w, m, c) && Inv(x, v) && Later(w, v)
    ensures Ready(x, v, m, c)
  {
    CopyLater(x, w, v, c);
    MemoryLater(x, w, v, m);
  }

  // ---------------------------------------------------------------- patches of the controller

  predicate IsDesired(x: Setup, c: Copy, raw: Bytes) {
    x.secretKey in c.secret.data && c.secret.data[x.secretKey] == raw
  }

  lemma FailureJustified(x: Setup, w: World, c: Copy, it: Item, status: Status, failed: Option<Bytes>)
    requires Target(x, c) && status != Applied
    requires failed.Some? ==> IsDesired(x, c, failed.value) && RefusedIn(w.trace, |w.trace|, w.run, failed.value)
    ensures Justified(x, w, c, FailureAnnotations(c.secret.ann, it, status, failed))
  {
  }

  lemma ClearedJustified(x: Setup, w: World, c: Copy)
    requires Target(x, c)
    ensures Justified(x, w, c, ClearedStatus(c.secret.ann))
  {
  }

  lemma AdoptionJustified(x: Setup, w: World, c: Copy, live: Bytes)
    requires Target(x, c) && ReadIn(w.trace, |w.trace|, w.run, live)
    ensures Justified(x, w, c, AdoptedBaseline(c.secret.ann, live))
  {
  }

  lemma RecordJustified(x: Setup, w: World, c: Copy, it: Item, raw: Bytes, observed: Value)
    requires Target(x, c) && IsDesired(x, c, raw) && AppliedIn(w.trace, |w.trace|, w.run, raw)
    requires observed == Pending || (observed.Hash? && ReadIn(w.trace, |w.trace|, w.run, observed.of))
    ensures Justified(x, w, c, RecordedApply(c.secret.ann, it, raw, observed))
  {
  }

  lemma FailWithStatusKeeps(x: Setup, w: World, m: Memory, c: Copy, status: Status, failed: Option<Bytes>)
    requires Ready(x, w, m, c) && status != Applied
    requires failed.Some? ==> IsDesired(x, c, failed.value) && RefusedIn(w.trace, |w.trace|, w.run, failed.value)
    ensures Good(x, w, FailWithStatus(x, w, c, status, failed).0, m)
  {
    hide Inv, Justified, CopyOk, MemoryOk, Patch;
    var ann := FailureAnnotations(c.secret.ann, x.env(w.clock), status, failed);
    FailureJustified(x, w, c, x.env(w.clock), status, failed);
    PatchKeeps(x, w, c, ann, RecordFailure);
    MemoryLater(x, w, Patch(x, w, c, ann, RecordFailure).0, m);
  }

  lemma CountsDoNotMatter(x: Setup, w0: World, w: World, m: Memory, n: Memory)
    requires Good(x, w0, w, m) && n.certHashes == m.certHashes
    ensures Good(x, w0, w, n)
  {
  }

  lemma RetryKeeps(x: Setup, w: World, m: Memory, c: Copy, status: Status)
    requires Ready(x, w, m, c) && status != Applied
    ensures StepGood(x, w, c, Retry(x, w, m, c, status))
  {
    hide Inv, CopyOk, FailWithStatus;
    FailWithStatusKeeps(x, w, m, c, status, None);
  }

  lemma RejectKeeps(x: Setup, w: World, m: Memory, c: Copy, raw: Bytes)
    requires Ready(x, w, m, c) && IsDesired(x, c, raw) && RefusedIn(w.trace, |w.trace|, w.run, raw)
    ensures StepGood(x, w, c, Reject(x, w, m, c, raw))
  {
    hide Inv, CopyOk, FailWithStatus;
    FailWithStatusKeeps(x, w, m, c, Failed(ConfigRejected), Some(raw));
  }

  // ---------------------------------------------------------------- the drift check

  lemma GetOrCreateClientKeeps(x: Setup, w: World, m: Memory)
    requires Inv(x, w) && MemoryOk(x, w, m)
    ensures Good(x, w, GetOrCreateClient(x, w, m).0, GetOrCreateClient(x, w, m).1)
  {
    hide Inv, MemoryOk, BuildClient;
    BuildClientKeeps(x, w);
    MemoryLater(x, w, BuildClient(x, w).0, m);
    CountsDoNotMatter(x, w, BuildClient(x, w).0, m, m.(clientReady := true));
  }

  lemma NoteCheckedKeeps(x: Setup, w: World, m: Memory, c: Copy, raw: Bytes, live: Bytes, expected: Value)
    requires Ready(x, w, m, c)
    ensures var v := Note(w, Checked(w.run, raw, live, expected, Hash(live) != expected));
            Ready(x, v, m, c) && Later(w, v)
  {
    var e := Checked(w.run, raw, live, expected, Hash(live) != expected);
    NoteKeeps(x, w, e);
    ReadyLater(x, w, Note(w, e), m, c);
  }

  lemma PatchInPhase(x: Setup, w: World, m: Memory, c: Copy, ann: Annotations, purpose: Purpose)
    requires Ready(x, w, m, c) && Justified(x, w, c, ann) && Backs(x, w, c, ann, purpose)
    ensures Good(x, w, Patch(x, w, c, ann, purpose).0, m)
  {
    hide Inv, Justified, CopyOk, MemoryOk, Patch, Backs;
    PatchKeeps(x, w, c, ann, purpose);
    MemoryLater(x, w, Patch(x, w, c, ann, purpose).0, m);
  }

  lemma CompareLiveKeeps(x: Setup, w: World, m: Memory, c: Copy, raw: Bytes, live: Bytes)
    requires Ready(x, w, m, c) && ReadIn(w.trace, |w.trace|, w.run, live) && LastAppliedHash in c.secret.ann
    ensures StepGood(x, w, c, CompareLive(x, w, m, c, raw, live))
  {
    hide Inv, Justified, CopyOk, MemoryOk, Patch, Note;
    var ann := c.secret.ann;
    var expected := ExpectedLive(ann);
    if expected == Pending {
      AdoptionJustified(x, w, c, live);
      PatchInPhase(x, w, m, c, AdoptedBaseline(ann, live), AdoptBaseline(live));
    } else {
      NoteCheckedKeeps(x, w, m, c, raw, live, expected);
      var v := Note(w, Checked(w.run, raw, live, expected, Hash(live) != expected));
      ClearedJustified(x, v, c);
      PatchInPhase(x, v, m, c, ClearedStatus(ann), ClearCheckStatus);
    }
  }

  lemma DriftCheckKeeps(x: Setup, w: World, m: Memory, c: Copy, raw: Bytes)
    requires Ready(x, w, m, c) && LastAppliedHash in c.secret.ann
    ensures StepGood(x, w, c, DriftCheck(x, w, m, c, raw))
  {
    hide Inv, CopyOk, MemoryOk, Retry, CompareLive, GetOrCreateClient, ReadLive;
    GetOrCreateClientKeeps(x, w, m);
    var (v, n, noClient) := GetOrCreateClient(x, w, m);
    CopyLater(x, w, v, c);
    if noClient.Some? {
      RetryKeeps(x, v, n, c, Failed(Classify(noClient.value)));
    } else {
      ReadLiveKeeps(x, v);
      var (u, live) := ReadLive(x, v);
      ReadyLater(x, v, u, n, c);
      if live.Failure? {
        RetryKeeps(x, u, n, c, DriftCheckFailed(Classify(live.error)));
      } else {
        CountsDoNotMatter(x, u, u, n, n.(transientFailures := 0));
        CompareLiveKeeps(x, u, n.(transientFailures := 0), c, raw, live.value);
      }
    }
  }

  // ---------------------------------------------------------------- validate and apply

  lemma RecordSuccessKeeps(x: Setup, w: World, m: Memory, c: Copy, raw: Bytes)
    requires Ready(x, w, m, c) && IsDesired(x, c, raw) && AppliedIn(w.trace, |w.trace|, w.run, raw)
    ensures StepGood(x, w, c, RecordSuccess(x, w, m, c, raw))
  {
    hide Inv, Justified, CopyOk, MemoryOk, Patch, ReadLive, ReadIn;
    ReadLiveKeeps(x, w);
    var (v, live) := ReadLive(x, w);
    ReadyLater(x, w, v, m, c);
    var observed := if live.Success? then Hash(live.value) else Pending;
    assert AppliedIn(v.trace, |v.trace|, v.run, raw);
    RecordJustified(x, v, c, x.env(v.clock), raw, observed);
    PatchInPhase(x, v, m, c, RecordedApply(c.secret.ann, x.env(v.clock), raw, observed), RecordApply(raw, observed));
  }

  lemma ApplyPhaseKeeps(x: Setup, w: World, m: Memory, c: Copy, raw: Bytes)
    requires Ready(x, w, m, c) && IsDesired(x, c, raw) && ValidatedIn(w.trace, |w.trace|, w.run, raw)
    ensures StepGood(x, w, c, ApplyPhase(x, w, m, c, raw))
  {
    hide Inv, CopyOk, MemoryOk, Retry, Reject, RecordSuccess, ApplyValidated, Classify;
    ApplyValidatedKeeps(x, w, raw);
    var (v, err) := ApplyValidated(x, w, raw);
    ReadyLater(x, w, v, m, c);
    if err.None? {
      CountsDoNotMatter(x, v, v, m, m.(transientFailures := 0));
      RecordSuccessKeeps(x, v, m.(transientFailures := 0), c, raw);
    } else if Classify(err.value) == ConfigRejected {
      RejectKeeps(x, v, m, c, raw);
    } else {
      RetryKeeps(x, v, m, c, ApplyFailed(Classify(err.value)));
    }
  }

  lemma ValidatePhaseKeeps(x: Setup, w: World, m: Memory, c: Copy, raw: Bytes)
    requires Ready(x, w, m, c) && IsDesired(x, c, raw) && MayPost(x, w, ValidateOnly, raw)
    ensures StepGood(x, w, c, ValidatePhase(x, w, m, c, raw))
  {
    hide Inv, CopyOk, MemoryOk, Retry, Reject, ApplyPhase, PostAtVersion, Classify;
    if raw != "" {
      PostAtVersionKeeps(x, w, ValidateOnly, raw);
    }
    var (v, err) := Validate(x, w, raw);
    ReadyLater(x, w, v, m, c);
    if err.None? {
      ApplyPhaseKeeps(x, v, m, c, raw);
    } else if Classify(err.value) == ConfigRejected {
      RejectKeeps(x, v, m, c, raw);
    } else {
      RetryKeeps(x, v, m, c, Failed(Classify(err.value)));
    }
  }

  lemma CertsPhaseKeeps(x: Setup, w: World, m: Memory, c: Copy, raw: Bytes)
    requires Ready(x, w, m, c) && IsDesired(x, c, raw)
    ensures StepGood(x, w, c, CertsPhase(x, w, m, c, raw))
  {
    hide Inv, CopyOk, MemoryOk, Retry, ValidatePhase, EnsureCertSecretsSynced, SyncedIn;
    EnsureCertSecretsSyncedKeeps(x, w, m, c, 0);
    var p := EnsureCertSecretsSynced(x, w, m, c, 0);
    var d := p.state.value;
    if p.result.Failure? {
      RetryKeeps(x, p.w, p.m, d, CertSyncFailed(Classify(p.result.error)));
    } else {
      ValidatePhaseKeeps(x, p.w, p.m, d, raw);
    }
  }

  lemma PushDesiredKeeps(x: Setup, w: World, m: Memory, c: Copy, raw: Bytes)
    requires Ready(x, w, m, c) && IsDesired(x, c, raw)
    ensures StepGood(x, w, c, PushDesired(x, w, m, c, raw))
  {
    hide Inv, CopyOk, MemoryOk, Retry, CertsPhase, GetOrCreateClient;
    var n := Desire(m, raw);
    CountsDoNotMatter(x, w, w, m, n);
    GetOrCreateClientKeeps(x, w, n);
    var (v, o, noClient) := GetOrCreateClient(x, w, n);
    CopyLater(x, w, v, c);
    if noClient.Some? {
      RetryKeeps(x, v, o, c, Failed(Classify(noClient.value)));
    } else {
      CertsPhaseKeeps(x, v, o, c, raw);
    }
  }

  // ---------------------------------------------------------------- certificate events

  /** Dropping the failed hash locally, or clearing the status of a patch that failed, leaves a good copy. */
  lemma LocalChangesOk(x: Setup, w: World, c: Copy)
    requires CopyOk(x, w, c)
    ensures CopyOk(x, w, Unsuppressed(c))
    ensures CopyOk(x, w, c.(secret := c.secret.(ann := ClearedStatus(c.secret.ann))))
  {
  }

  lemma AfterCertPushKeeps(x: Setup, w: World, m: Memory, c: Copy)
    requires Ready(x, w, m, c) && (w.down || SomeSynced(x, w))
    ensures StepGood(x, w, c, AfterCertPush(x, w, m, c))
  {
    hide Inv, Justified, CopyOk, MemoryOk, Patch;
    LocalChangesOk(x, w, c);
    if CertStatus(c.secret.ann) {
      var cleared := ClearedStatus(c.secret.ann);
      ClearedJustified(x, w, c);
      PatchKeeps(x, w, c, cleared, ClearCertStatus);
      PatchInPhase(x, w, m, c, cleared, ClearCertStatus);
      var (v, d, reply) := Patch(x, w, c, cleared, ClearCertStatus);
      if !reply.Committed? {
        CopyLater(x, w, v, d);
      }
      LocalChangesOk(x, v, d);
    }
  }

  lemma CertFailedKeeps(x: Setup, w: World, m: Memory, cfg: Option<Copy>, err: Err)
    requires Inv(x, w) && MemoryOk(x, w, m) && (cfg.Some? ==> CopyOk(x, w, cfg.value) && Target(x, cfg.value))
    ensures Good(x, w, CertFailed(x, w, m, cfg, err).w, CertFailed(x, w, m, cfg, err).m)
    ensures CertFailed(x, w, m, cfg, err).Done?
  {
    hide Inv, CopyOk, Classify;
    if cfg.Some? {
      RetryKeeps(x, w, m, cfg.value, CertSyncFailed(Classify(err)));
    }
  }

  lemma SyncCertSecretKeeps(x: Setup, w: World, m: Memory, secret: Secret, state: Option<Copy>)
    requires Inv(x, w) && MemoryOk(x, w, m)
    requires state.Some? ==> CopyOk(x, w, state.value) && Target(x, state.value)
    ensures var p := SyncCertSecret(x, w, m, secret, state);
            && Good(x, w, p.w, p.m) && p.state.Some? == state.Some?
            && (state.Some? ==>
                  CopyOk(x, p.w, p.state.value) && SameForOthers(state.value.secret, p.state.value.secret))
            && (p.result.Success? ==> p.w.down || SyncedIn(p.w.trace, |p.w.trace|, p.w.run, secret.name))
  {
    hide Inv, CopyOk, MemoryOk, PushCertSecret, GetOrCreateClient;
    GetOrCreateClientKeeps(x, w, m);
    var (v, n, err) := GetOrCreateClient(x, w, m);
    if state.Some? {
      CopyLater(x, w, v, state.value);
      SameSelf(state.value.secret);
    }
    if err.Some? {
      NotPushedKeeps(x, v, n, state, secret.name, err.value);
    } else {
      PushCertSecretKeeps(x, v, n, secret, state);
    }
  }

  /** The copy handed on after a certificate event is one of the config Secret. */
  ghost predicate EventGood(x: Setup, w: World, s: Step) {
    Good(x, w, s.w, s.m) && (s.Go? ==> CopyOk(x, s.w, s.c) && Target(x, s.c))
  }

  lemma CertEventKeeps(x: Setup, w: World, m: Memory, c: Copy)
    requires Inv(x, w) && MemoryOk(x, w, m) && CopyOk(x, w, c) && c.secret.name in x.certs
    ensures EventGood(x, w, CertEvent(x, w, m, c))
  {
    hide Inv, CopyOk, MemoryOk, Get, SyncCertSecret, CertFailed, AfterCertPush, SyncedIn;
    GetKeeps(x, w, x.secretName);
    var (v, cfg) := ConfigSecretFor(x, w, c);
    MemoryLater(x, w, v, m);
    if !cfg.GetFailed? {
      var state := if cfg.Found? then Some(cfg.copy) else None;
      SyncCertSecretKeeps(x, v, m, c.secret, state);
      var p := SyncCertSecret(x, v, m, c.secret, state);
      if p.result.Failure? {
        CertFailedKeeps(x, p.w, p.m, p.state, p.result.error);
      } else if p.state.Some? {
        AfterCertPushKeeps(x, p.w, p.m, p.state.value);
      }
    }
  }

  // ---------------------------------------------------------------- Reconcile and runs

  lemma ConfigPhaseKeeps(x: Setup, w: World, m: Memory, c: Copy)
    requires Ready(x, w, m, c)
    ensures Good(x, w, ConfigPhase(x, w, m, c).w, ConfigPhase(x, w, m, c).m)
  {
    hide Inv, CopyOk, MemoryOk, FailWithStatus, DriftCheck, PushDesired;
    if x.secretKey !in c.secret.data {
      FailWithStatusKeeps(x, w, m, c, MissingKey, None);
    } else {
      var raw := c.secret.data[x.secretKey];
      if Lookup(c.secret.ann, LastAppliedHash) != Hash(raw) {
        PushDesiredKeeps(x, w, m, c, raw);
      } else {
        DriftCheckKeeps(x, w, m, c, raw);
        var s := DriftCheck(x, w, m, c, raw);
        if s.Go? {
          PushDesiredKeeps(x, s.w, s.m, s.c, raw);
        }
      }
    }
  }

  /** `v` extends the history of `w`, possibly by whole Reconciles. */
  ghost predicate History(w: World, v: World) {
    w.log <= v.log && w.trace <= v.trace && w.run <= v.run
  }

  lemma StartKeeps(x: Setup, w: World, m: Memory, name: string)
    requires Inv(x, w) && MemoryOk(x, w, m)
    ensures var v := Start(w, name); Inv(x, v) && MemoryOk(x, v, m) && History(w, v)
  {
    var v := Start(w, name);
    InvStep(x, w, v);
    if Polite(x) {
      forall n | n in m.certHashes
        ensures Pushed(v.trace, |v.trace|, n, m.certHashes[n])
      {
        PushedStable(w.trace, v.trace, n, m.certHashes[n]);
      }
    }
  }

  lemma ReconcileKeeps(x: Setup, w: World, m: Memory, name: string)
    requires Inv(x, w) && MemoryOk(x, w, m)
    ensures var s := Reconcile(x, w, m, name);
            Inv(x, s.w) && MemoryOk(x, s.w, s.m) && History(w, s.w) && s.w.run == w.run + 1
  {
    hide Inv, CopyOk, MemoryOk, Get, CertEvent, ConfigPhase;
    StartKeeps(x, w, m, name);
    var v := Start(w, name);
    GetKeeps(x, v, name);
    var (u, got) := Get(x, v, name);
    MemoryLater(x, v, u, m);
    if got.Found? && (x.secretName == "" || name == x.secretName || name in x.certs) {
      var c := got.copy;
      if name in x.certs {
        CertEventKeeps(x, u, m, c);
        var s := CertEvent(x, u, m, c);
        if s.Go? {
          ConfigPhaseKeeps(x, s.w, s.m, s.c);
        }
      } else {
        ConfigPhaseKeeps(x, u, m, c);
      }
    }
  }

  lemma TripKeeps(x: Setup, w: World, m: Memory, t: Trigger)
    requires Inv(x, w) && MemoryOk(x, w, m)
    ensures var (v, n) := Trip(x, w, m, t); Inv(x, v) && MemoryOk(x, v, n) && History(w, v)
  {
    if t.Reconciled? {
      ReconcileKeeps(x, w, m, t.name);
      var s := Reconcile(x, w, m, t.name);
      if s.w.down {
        InvStep(x, s.w, s.w.(down := false));
      }
    }
  }

  lemma {:induction false} RunKeeps(x: Setup, w: World, m: Memory, ts: seq<Trigger>)
    requires Inv(x, w) && MemoryOk(x, w, m)
    ensures var (v, n) := Run(x, w, m, ts); Inv(x, v) && MemoryOk(x, v, n) && History(w, v)
    decreases |ts|
  {
    hide Inv, MemoryOk, Trip;
    if ts != [] {
      TripKeeps(x, w, m, ts[0]);
      var (v, n) := Trip(x, w, m, ts[0]);
      RunKeeps(x, v, n, ts[1..]);
    }
  }
}
