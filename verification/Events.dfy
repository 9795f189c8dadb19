/**
 How the event of a certificate Secret ends: pushed, remembered and recorded, and on to the
 configuration; or failed, with that told and nothing else done.
 */
module Events {
  import opened Prelude
  import opened Errors
  import opened Platform
  import opened Dataplane
  import opened Reconciliation
  import opened Safety
  import opened Actions
  import opened Steadiness
  import opened Suffix
  import opened Tracking
  import opened Answers
  import opened RetrySchedule
  import opened ReconcileSafety
  import opened Copies
  import opened CertOrder
  import opened Verdict
  import opened Reports

  // ---------------------------------------------------------------- a failure ends the Reconcile

  /** After the mark of a failed certificate only others act, and the failure is recorded. */
  predicate MarkIsLast(w: World, v: World) {
    && w.trace <= v.trace
    && forall j, i :: |w.trace| <= j < i < |v.trace| && v.trace[j].CertNotSynced? ==>
         v.trace[i].OutOfBand? || v.trace[i].Patched?
  }

  lemma NoMark(w: World, v: World)
    requires Free(w, v, CertFailing)
    ensures MarkIsLast(w, v)
  {
  }

  lemma MarkAfter(w: World, v: World, u: World)
    requires Free(w, v, CertFailing) && MarkIsLast(v, u)
    ensures MarkIsLast(w, u)
  {
  }

  lemma MarkThenPatch(w: World, v: World, u: World)
    requires MarkIsLast(w, v) && NoGateway(v, u)
    ensures MarkIsLast(w, u)
  {
  }

  lemma MarkNoted(w: World, v: World, m: Memory, state: Option<Copy>, name: string, err: Err)
    requires Free(w, v, CertFailing)
    ensures MarkIsLast(w, NotPushed(v, m, state, name, err).w)
  {
  }

  lemma RecordPushMarks(
    x: Setup, w: World, m: Memory, name: string, bundle: Bytes, state: Option<Copy>, changed: bool)
    ensures MarkIsLast(w, RecordPush(x, w, m, name, bundle, state, changed).w)
  {
    hide Free, Patch, NotPushed, Note, MarkIsLast;
    var p := RecordPush(x, w, m, name, bundle, state, changed);
    RecordPushFree(x, w, m, name, bundle, state, changed, CertFailing);
    if p.result.Success? {
      NoMark(w, p.w);
    } else {
      var c := state.value;
      var ann := WithRecord(c, name, CertEntry(bundle, x.env(w.clock).now));
      PatchFree(x, w, c, ann, RecordCert(name), CertFailing);
      var (v, d, _) := Patch(x, w, c, ann, RecordCert(name));
      MarkNoted(w, v, m, Some(d), name, Context(PLAIN, Leaf(Opaque, PLAIN)));
    }
  }

  lemma PushMarks(x: Setup, w: World, m: Memory, secret: Secret, state: Option<Copy>)
    ensures MarkIsLast(w, PushCertSecret(x, w, m, secret, state).w)
  {
    hide Free, SyncSSLCertificate, RecordPush, NotPushed, CertPEMBundle, MarkIsLast;
    var bundle := CertPEMBundle(secret);
    if bundle.Failure? {
      FreeSelf(w, CertFailing);
      MarkNoted(w, w, m, state, secret.name, bundle.error);
    } else {
      var b := bundle.value;
      var previouslySynced := RecordedHash(CertSyncState(state), secret.name, b)
                              || (secret.name in m.certHashes && m.certHashes[secret.name] == b);
      SyncSSLCertificateFree(x, w, secret.name, b, previouslySynced, CertFailing);
      var (v, changed) := SyncSSLCertificate(x, w, secret.name, b, previouslySynced);
      if changed.Failure? {
        MarkNoted(w, v, m, state, secret.name, changed.error);
      } else {
        var n := m.(certHashes := m.certHashes[secret.name := b]);
        RecordPushMarks(x, v, n, secret.name, b, state, changed.value);
        MarkAfter(w, v, RecordPush(x, v, n, secret.name, b, state, changed.value).w);
      }
    }
  }

  lemma {:induction false} EnsureMarks(x: Setup, w: World, m: Memory, c: Copy, i: nat)
    requires i <= |x.certs|
    ensures MarkIsLast(w, EnsureCertSecretsSynced(x, w, m, c, i).w)
    decreases |x.certs| - i
  {
    hide Free, Get, PushCertSecret, NotPushed, MarkIsLast;
    FreeSelf(w, CertFailing);
    NoMark(w, w);
    if i < |x.certs| {
      GetFree(x, w, x.certs[i], CertFailing);
      var (v, got) := Get(x, w, x.certs[i]);
      if !got.Found? {
        MarkNoted(w, v, m, Some(c), x.certs[i], Context(PLAIN, Leaf(Opaque, PLAIN)));
      } else {
        PushMarks(x, v, m, got.copy.secret, Some(c));
        PushCertSecretFree(x, v, m, got.copy.secret, Some(c), CertFailing);
        var p := PushCertSecret(x, v, m, got.copy.secret, Some(c));
        MarkAfter(w, v, p.w);
        if p.result.Success? {
          EnsureMarks(x, p.w, p.m, p.state.value, i + 1);
          FreeTransitive(w, v, p.w, CertFailing);
          MarkAfter(w, p.w, EnsureCertSecretsSynced(x, p.w, p.m, p.state.value, i + 1).w);
        }
      }
    }
  }

  lemma SyncMarks(x: Setup, w: World, m: Memory, secret: Secret, state: Option<Copy>)
    ensures MarkIsLast(w, SyncCertSecret(x, w, m, secret, state).w)
  {
    hide Free, GetOrCreateClient, PushCertSecret, NotPushed, MarkIsLast;
    GetOrCreateClientFree(x, w, m, CertFailing);
    var (v, n, err) := GetOrCreateClient(x, w, m);
    if err.Some? {
      MarkNoted(w, v, n, state, secret.name, err.value);
    } else {
      PushMarks(x, v, n, secret, state);
      MarkAfter(w, v, PushCertSecret(x, v, n, secret, state).w);
    }
  }

  lemma RetryNoGateway(x: Setup, w: World, m: Memory, c: Copy, status: Status)
    ensures NoGateway(w, Retry(x, w, m, c, status).w)
  {
    PatchNoGateway(x, w, c, FailureAnnotations(c.secret.ann, x.env(w.clock), status, None), RecordFailure);
    hide Patch;
  }

  lemma PushDesiredMarks(x: Setup, w: World, m: Memory, c: Copy, raw: Bytes)
    ensures MarkIsLast(w, PushDesired(x, w, m, c, raw).w)
  {
    hide Free, GetOrCreateClient, EnsureCertSecretsSynced, Retry, ValidatePhase, MarkIsLast, NoGateway;
    var s := PushDesired(x, w, m, c, raw);
    FreeSelf(w, CertFailing);
    NoMark(w, w);
    if Lookup(c.secret.ann, LastFailedHash) != Hash(raw) {
      var n := Desire(m, raw);
      GetOrCreateClientFree(x, w, n, CertFailing);
      var (v, o, noClient) := GetOrCreateClient(x, w, n);
      if noClient.Some? {
        RetryFree(x, v, o, c, Failed(Classify(noClient.value)), CertFailing);
        NoMark(v, s.w);
      } else {
        EnsureMarks(x, v, o, c, 0);
        EnsureFree(x, v, o, c, 0, CertFailing);
        var p := EnsureCertSecretsSynced(x, v, o, c, 0);
        if p.result.Failure? {
          RetryNoGateway(x, p.w, p.m, p.state.value, CertSyncFailed(Classify(p.result.error)));
          MarkThenPatch(v, p.w, s.w);
        } else {
          ValidatePhaseFree(x, p.w, p.m, p.state.value, raw, CertFailing);
          NoMark(p.w, s.w);
          MarkAfter(v, p.w, s.w);
        }
      }
      MarkAfter(w, v, s.w);
    }
  }

  lemma ConfigPhaseMarks(x: Setup, w: World, m: Memory, c: Copy)
    ensures MarkIsLast(w, ConfigPhase(x, w, m, c).w)
  {
    hide Free, FailWithStatus, DriftCheck, PushDesired, MarkIsLast;
    FreeSelf(w, CertFailing);
    NoMark(w, w);
    if x.secretKey !in c.secret.data {
      FailWithStatusFree(x, w, c, MissingKey, None, CertFailing);
      NoMark(w, FailWithStatus(x, w, c, MissingKey, None).0);
    } else {
      var raw := c.secret.data[x.secretKey];
      PushDesiredMarks(x, w, m, c, raw);
      var d := DriftCheck(x, w, m, c, raw);
      DriftCheckFree(x, w, m, c, raw, CertFailing);
      NoMark(w, d.w);
      if d.Go? {
        PushDesiredMarks(x, d.w, d.m, d.c, raw);
        MarkAfter(w, d.w, PushDesired(x, d.w, d.m, d.c, raw).w);
      }
    }
  }

  lemma CertEventMarks(x: Setup, w: World, m: Memory, c: Copy)
    ensures MarkIsLast(w, CertEvent(x, w, m, c).w)
  {
    hide Free, Get, SyncCertSecret, AfterCertPush, Retry, MarkIsLast, NoGateway;
    var s := CertEvent(x, w, m, c);
    FreeSelf(w, CertFailing);
    GetFree(x, w, x.secretName, CertFailing);
    var (v, cfg) := ConfigSecretFor(x, w, c);
    NoMark(w, v);
    if !cfg.GetFailed? {
      var state := if cfg.Found? then Some(cfg.copy) else None;
      SyncMarks(x, v, m, c.secret, state);
      var p := SyncCertSecret(x, v, m, c.secret, state);
      MarkAfter(w, v, p.w);
      if p.state.Some? {
        RetryNoGateway(x, p.w, p.m, p.state.value, CertSyncFailed(Classify(if p.result.Failure? then p.result.error
                                                                            else DEAD)));
        ClearNoGateway(x, p.w, p.m, p.state.value);
      }
      if s.w != p.w {
        MarkThenPatch(w, p.w, s.w);
      }
    }
  }

  lemma ClearNoGateway(x: Setup, w: World, m: Memory, c: Copy)
    ensures NoGateway(w, AfterCertPush(x, w, m, c).w)
  {
    NothingNoGateway(w);
    PatchNoGateway(x, w, c, ClearedStatus(c.secret.ann), ClearCertStatus);
    hide Patch;
  }

  /**
   The first failure of a certificate ends the work of the Reconcile: no other certificate is
   touched after it, and nothing is validated or applied.
   */
  lemma NothingAfterCertFailure(x: Setup, w: World, m: Memory, name: string)
    ensures MarkIsLast(w, Reconcile(x, w, m, name).w)
  {
    hide Free, Get, CertEvent, ConfigPhase, MarkIsLast;
    var v := Start(w, name);
    var s := Reconcile(x, w, m, name);
    StartMarks(w, name);
    FreeSelf(v, CertFailing);
    GetFree(x, v, name, CertFailing);
    var (u, got) := Get(x, v, name);
    NoMark(v, u);
    NoMark(v, v);
    if got.Found? {
      var c := got.copy;
      ConfigPhaseMarks(x, u, m, c);
      MarkAfter(v, u, ConfigPhase(x, u, m, c).w);
      CertEventMarks(x, u, m, c);
      CertEventFreeOf(x, u, m, c, CertFailing);
      var r := CertEvent(x, u, m, c);
      MarkAfter(v, u, r.w);
      if r.Go? {
        ConfigPhaseMarks(x, r.w, r.m, r.c);
        MarkAfter(u, r.w, ConfigPhase(x, r.w, r.m, r.c).w);
        MarkAfter(v, u, ConfigPhase(x, r.w, r.m, r.c).w);
      }
    }
    BegunMarks(w, v, s.w);
  }

  lemma StartMarks(w: World, name: string)
    ensures var v := Start(w, name); w.trace <= v.trace && |v.trace| == |w.trace| + 1 && v.trace[|w.trace|].Begin?
  {
  }

  lemma BegunMarks(w: World, v: World, u: World)
    requires w.trace <= v.trace && |v.trace| == |w.trace| + 1 && v.trace[|w.trace|].Begin? && MarkIsLast(v, u)
    ensures MarkIsLast(w, u)
  {
    assert u.trace[|w.trace|] == v.trace[|w.trace|];
  }

  // ---------------------------------------------------------------- how an event ends

  /** The Reconcile of certificate Secret `name` has read it as `c`, and `cfg` is what it found as config Secret. */
  predicate EventHasRead(x: Setup, w: World, name: string, u: World, c: Copy, v: World, cfg: GetReply) {
    && name in x.certs && Get(x, Start(w, name), name) == (u, Found(c)) && Get(x, u, x.secretName) == (v, cfg)
  }

  lemma EventUnfolds(x: Setup, w: World, m: Memory, name: string, u: World, c: Copy, v: World, cfg: GetReply)
    requires ConfigSecretIsDedicated(x) && EventHasRead(x, w, name, u, c, v, cfg)
    ensures c.secret.name == name
    ensures var r := CertEvent(x, u, m, c);
            var p := SyncCertSecret(x, v, m, c.secret, if cfg.Found? then Some(cfg.copy) else None);
            && Reconcile(x, w, m, name) == (if r.Done? then r else ConfigPhase(x, r.w, r.m, r.c))
            && p.state.Some? == cfg.Found?
            && r == if cfg.GetFailed? then Done(v, m, Errored)
                    else if p.result.Failure? then CertFailed(x, p.w, p.m, p.state, p.result.error)
                    else if cfg.NotFound? then Done(p.w, p.m, NEXT_INTERVAL)
                    else AfterCertPush(x, p.w, p.m, p.state.value)
  {
    FoundName(x, Start(w, name), name);
    SyncStateSame(x, v, m, c.secret, if cfg.Found? then Some(cfg.copy) else None);
    hide Get, SyncCertSecret, CertFailed, AfterCertPush, ConfigPhase;
  }

  /** Without a config Secret the certificate is pushed all the same; nothing is told or recorded. */
  lemma EventWithoutConfig(x: Setup, w: World, m: Memory, name: string, u: World, c: Copy, v: World)
    requires ConfigSecretIsDedicated(x) && EventHasRead(x, w, name, u, c, v, NotFound)
    ensures var s := Reconcile(x, w, m, name);
            var p := SyncCertSecret(x, v, m, c.secret, None);
            && s.Done? && s.w == p.w
            && if p.result.Success? then s.m == p.m && s.out == NEXT_INTERVAL
               else TransientEnd(s) && s.m.transientFailures == p.m.transientFailures + 1
  {
    EventUnfolds(x, w, m, name, u, c, v, NotFound);
    hide SyncCertSecret, Get, CertEvent, Reconcile, ConfigPhase;
  }

  /** A failed push is told on the config Secret with the class of its error, and retried. */
  lemma EventFailureIsTold(x: Setup, w: World, m: Memory, name: string, u: World, c: Copy, v: World, cfg: Copy)
    requires ConfigSecretIsDedicated(x) && EventHasRead(x, w, name, u, c, v, Found(cfg))
    requires SyncCertSecret(x, v, m, c.secret, Some(cfg)).result.Failure?
    ensures var s := Reconcile(x, w, m, name);
            var p := SyncCertSecret(x, v, m, c.secret, Some(cfg));
            Retried(s) && Told(x, p.w, s, CertSyncFailed(Classify(p.result.error)), None) && NoGateway(p.w, s.w)
  {
    EventUnfolds(x, w, m, name, u, c, v, Found(cfg));
    GetGood(x, u);
    SyncCertSecretGood(x, v, m, c.secret, cfg);
    hide SyncCertSecret, Get, CertEvent, Reconcile, ConfigPhase, Good, Told, Retry, NoGateway, EventHasRead;
    var p := SyncCertSecret(x, v, m, c.secret, Some(cfg));
    RetryTold(x, p.w, p.m, p.state.value, CertSyncFailed(Classify(p.result.error)));
    RetryNoGateway(x, p.w, p.m, p.state.value, CertSyncFailed(Classify(p.result.error)));
    RetryIsDone(x, p.w, p.m, p.state.value, CertSyncFailed(Classify(p.result.error)));
  }

  /**
   After a push that succeeds the desired bytes are pushed, unless they are applied: a stored
   refusal of them no longer counts, since it may have been for want of this certificate.
   */
  lemma EventLiftsSuppression(
    x: Setup, w: World, m: Memory, name: string, u: World, c: Copy, v: World, cfg: Copy, raw: Bytes)
    requires ConfigSecretIsDedicated(x) && EventHasRead(x, w, name, u, c, v, Found(cfg)) && IsDesired(x, cfg, raw)
    requires SyncCertSecret(x, v, m, c.secret, Some(cfg)).result.Success?
    ensures var r := CertEvent(x, u, m, c);
            && r.Go? && IsDesired(x, r.c, raw)
            && (Lookup(r.c.secret.ann, LastAppliedHash) != Hash(raw) ==>
                  Explained(x, r.w, Reconcile(x, w, m, name), raw))
  {
    EventUnfolds(x, w, m, name, u, c, v, Found(cfg));
    GetGood(x, u);
    SyncCertSecretGood(x, v, m, c.secret, cfg);
    var p := SyncCertSecret(x, v, m, c.secret, Some(cfg));
    hide SyncCertSecret, Get, CertEvent, Reconcile, Good, AfterCertPush, EventHasRead, PushDesired, Explained, Told;
    AfterCertPushGood(x, p.w, p.m, p.state.value);
    EventDropsTheHash(x, p.w, p.m, p.state.value);
    var r := CertEvent(x, u, m, c);
    GoodNamesConfig(x, r.w, r.c);
    PushDesiredExplained(x, r.w, r.m, r.c, raw);
  }

  lemma GoodNamesConfig(x: Setup, w: World, c: Copy)
    requires Good(x, w, c)
    ensures c.secret.name == x.secretName
  {
  }

  lemma EventDropsTheHash(x: Setup, w: World, m: Memory, c: Copy)
    ensures var s := AfterCertPush(x, w, m, c); s.Go? && Lookup(s.c.secret.ann, LastFailedHash) == Empty
  {
    hide Patch;
  }

  /** A status that is not that of a failed certificate sync is left alone by a push that succeeds. */
  lemma OtherStatusStays(x: Setup, w: World, m: Memory, c: Copy)
    requires forall cause :: Lookup(c.secret.ann, StatusKey) != StatusIs(CertSyncFailed(cause))
    ensures var s := AfterCertPush(x, w, m, c); s.w == w && s.m == m
  {
  }

  // ---------------------------------------------------------------- a stored certificate that cannot be read

  /** The push of this Secret's bundle has come to the GET of the stored object, in world `q`. */
  predicate PushAsks(x: Setup, w: World, secret: Secret, q: World) {
    CertPEMBundle(secret).Success? && AsksStorage(x, w, CertPEMBundle(secret).value, q)
  }

  lemma UnreadableEndsPush(x: Setup, w: World, m: Memory, secret: Secret, state: Option<Copy>, q: World)
    requires PushAsks(x, w, secret, q) && Unreadable(x, q)
    ensures PushCertSecret(x, w, m, secret, state)
            == NotPushed(After(x, q, 1), m, state, secret.name, ErrorAt(x, q, 0))
  {
    var b := CertPEMBundle(secret).value;
    var previouslySynced := RecordedHash(CertSyncState(state), secret.name, b)
                            || (secret.name in m.certHashes && m.certHashes[secret.name] == b);
    UnreadableIsNotOverwritten(x, w, secret.name, b, previouslySynced, q);
    hide SyncSSLCertificate, CertPEMBundle, RecordPush, AsksStorage, Unreadable, After, ErrorAt, NotPushed;
  }

  /** Probes, and what others do. */
  predicate OnlyProbes(w: World, v: World) {
    w.trace <= v.trace && forall i :: |w.trace| <= i < |v.trace| ==> v.trace[i].OutOfBand? || v.trace[i].VersionRead?
  }

  lemma TickProbes(x: Setup, w: World)
    ensures OnlyProbes(w, Tick(x, w))
  {
    TickNoGateway(x, w);
    TickFree(x, w, Patching);
    hide Tick;
  }

  lemma ReadVersionProbes(x: Setup, w: World)
    ensures OnlyProbes(w, ReadVersion(x, w).0)
  {
    TickProbes(x, w);
    hide Tick;
  }

  lemma {:induction false} PollProbes(x: Setup, w: World, polls: nat, last: Option<Err>)
    requires polls <= MAX_POLLS
    ensures OnlyProbes(w, Poll(x, w, polls, last).0)
    decreases MAX_POLLS - polls
  {
    hide ReadVersion;
    if !(polls == MAX_POLLS || x.env(w.clock).expired) {
      ReadVersionProbes(x, w);
      var (v, version) := ReadVersion(x, w);
      if version.Failure? && x.env(v.clock).cancelled.None? {
        PollProbes(x, v, polls + 1, Some(version.error));
      }
    }
  }

  /** All that is sent is probes and the mark; the failure may be recorded. */
  predicate NothingWritten(w: World, v: World) {
    w.trace <= v.trace && forall i :: |w.trace| <= i < |v.trace| ==>
      var e := v.trace[i];
      e.OutOfBand? || e.VersionRead? || e.CertNotSynced? || (e.Patched? && e.purpose.RecordFailure?)
  }

  /**
   An event whose stored certificate cannot be read (any answer but 2xx and 404) ends with that
   error: nothing is written, validated or applied, and the failure is told with its class.
   */
  lemma UnreadableStorageEndsEvent(
    x: Setup, w: World, m: Memory, name: string, u: World, c: Copy, v: World, cfg: Copy, q: World)
    requires ConfigSecretIsDedicated(x) && EventHasRead(x, w, name, u, c, v, Found(cfg)) && m.clientReady
    requires PushAsks(x, v, c.secret, q) && Unreadable(x, q)
    ensures var s := Reconcile(x, w, m, name);
            && Retried(s) && Told(x, v, s, CertSyncFailed(Classify(ErrorAt(x, q, 0))), None)
            && NothingWritten(v, s.w)
  {
    UnreadableEndsPush(x, v, m, c.secret, Some(cfg), q);
    var p := SyncCertSecret(x, v, m, c.secret, Some(cfg));
    assert p == PushCertSecret(x, v, m, c.secret, Some(cfg));
    EventFailureIsTold(x, w, m, name, u, c, v, cfg);
    PushFailsSilently(x, v, m, c.secret, cfg, q);
    hide Reconcile, SyncCertSecret, PushCertSecret, Told, EventHasRead, PushAsks, Unreadable, Retried;
    var s := Reconcile(x, w, m, name);
    EventEndsWithRecord(x, w, m, name, u, c, v, cfg);
    ToldAfter(x, v, p.w, s, CertSyncFailed(Classify(p.result.error)), None);
  }

  lemma PushFailsSilently(x: Setup, w: World, m: Memory, secret: Secret, cfg: Copy, q: World)
    requires PushAsks(x, w, secret, q) && Unreadable(x, q)
    ensures var p := PushCertSecret(x, w, m, secret, Some(cfg));
            p.result == Failure(ErrorAt(x, q, 0)) && NothingWritten(w, p.w) && Free(w, p.w, Failing)
  {
    UnreadableEndsPush(x, w, m, secret, Some(cfg), q);
    PollProbes(x, w, 0, None);
    assert After(x, q, 1) == Tick(x, After(x, q, 0)) == Tick(x, q);
    TickProbes(x, q);
    PushCertSecretFree(x, w, m, secret, Some(cfg), Failing);
    hide Tick, Poll, CertPEMBundle, PushCertSecret, Unreadable, ErrorAt, Free;
  }

  /** After the push there is only the record of the failure. */
  lemma EventEndsWithRecord(
    x: Setup, w: World, m: Memory, name: string, u: World, c: Copy, v: World, cfg: Copy)
    requires ConfigSecretIsDedicated(x) && EventHasRead(x, w, name, u, c, v, Found(cfg))
    requires var p := SyncCertSecret(x, v, m, c.secret, Some(cfg));
             p.result.Failure? && NothingWritten(v, p.w)
    ensures NothingWritten(v, Reconcile(x, w, m, name).w)
  {
    EventUnfolds(x, w, m, name, u, c, v, Found(cfg));
    hide SyncCertSecret, Get, CertEvent, Reconcile, ConfigPhase, EventHasRead, Patch;
    var p := SyncCertSecret(x, v, m, c.secret, Some(cfg));
    var d := p.state.value;
    var st := CertSyncFailed(Classify(p.result.error));
    RecordOnly(x, p.w, d, FailureAnnotations(d.secret.ann, x.env(p.w.clock), st, None));
  }

  lemma RecordOnly(x: Setup, w: World, c: Copy, ann: Annotations)
    ensures NothingWritten(w, Patch(x, w, c, ann, RecordFailure).0)
  {
    TickProbes(x, w);
    PatchEnds(x, w, c, ann, RecordFailure);
    hide Tick, Patch, Overlay;
  }

  // ---------------------------------------------------------------- what a push leaves behind

  /** Of the records, only that of `name` is new. */
  ghost predicate RecordsFor(before: Records, after: Records, name: string, bundle: Bytes) {
    && RecordedHash(after, name, bundle)
    && forall n :: n != name ==> (n in after <==> n in before) && (n in after ==> after[n] == before[n])
  }

  lemma RecordedLocally(c: Copy, name: string, entry: CertEntry)
    ensures RecordsFor(RecordsIn(c.secret.ann), RecordsIn(WithRecord(c, name, entry)), name, entry.hash)
  {
  }

  /** On the server the records become those of the patched copy, if the two agreed before. */
  lemma RecordsReachServer(w: World, c: Copy, ann: Annotations, purpose: Purpose)
    requires Tracks(w, c, CertSync) && Latest(w.log, c.secret.name) == Some(c.rv)
    ensures var u := Commit(w, c, ann, purpose);
            var now := Latest(u.log, c.secret.name).value;
            && RecordsIn(u.log[now].secret.ann) == RecordsIn(ann)
            && CurrentAnn(u.log, c.secret.name) == u.log[now].secret.ann
  {
    var server := w.log[c.rv].secret.ann;
    assert Lookup(Overlay(server, c.secret.ann, ann), CertSync) == Lookup(ann, CertSync);
    CommittedAnnotations(w, c, ann, purpose);
    hide Overlay, Commit;
  }

  lemma PatchedRecords(x: Setup, w: World, c: Copy, ann: Annotations, name: string)
    requires Tracks(w, c, CertSync)
    ensures var (v, d, reply) := Patch(x, w, c, ann, RecordCert(name));
            && RecordsIn(d.secret.ann) == RecordsIn(ann) && d.secret.name == c.secret.name
            && (reply.Committed? ==> RecordsIn(CurrentAnn(v.log, c.secret.name)) == RecordsIn(ann))
  {
    var t := Tick(x, w);
    TickFree(x, w, Posting);
    hide Tick, Commit, Patch, Tracks;
    PatchEnds(x, w, c, ann, RecordCert(name));
    TracksLater(w, t, c, CertSync);
    if Latest(t.log, c.secret.name) == Some(c.rv) {
      RecordsReachServer(t, c, ann, RecordCert(name));
      CommittedName(t, c, ann, RecordCert(name));
    }
  }

  lemma CommittedName(w: World, c: Copy, ann: Annotations, purpose: Purpose)
    requires Latest(w.log, c.secret.name) == Some(c.rv)
    ensures var u := Commit(w, c, ann, purpose); u.log[Latest(u.log, c.secret.name).value].secret.name == c.secret.name
  {
    hide Commit;
  }

  lemma RecordPushRecords(x: Setup, w: World, m: Memory, name: string, bundle: Bytes, c: Copy, changed: bool)
    requires Tracks(w, c, CertSync)
    ensures var p := RecordPush(x, w, m, name, bundle, Some(c), changed);
            && p.m == m
            && (p.result.Success? ==>
                  RecordsFor(RecordsIn(c.secret.ann), RecordsIn(p.state.value.secret.ann), name, bundle))
            && (p.result.Success? && Good(x, w, c) && Undisturbed(x) && !p.w.down ==>
                  RecordedHash(RecordsIn(CurrentAnn(p.w.log, x.secretName)), name, bundle))
  {
    hide Patch, Tracks, Undisturbed, RecordsIn, WithRecord;
    var p := RecordPush(x, w, m, name, bundle, Some(c), changed);
    if changed || !RecordedHash(RecordsIn(c.secret.ann), name, bundle) {
      var entry := CertEntry(bundle, x.env(w.clock).now);
      RecordedLocally(c, name, entry);
      PatchedRecords(x, w, c, WithRecord(c, name, entry), name);
      if Good(x, w, c) && Undisturbed(x) {
        UndisturbedCommits(x, w, c, WithRecord(c, name, entry), RecordCert(name));
      }
    } else if Good(x, w, c) && Undisturbed(x) && !w.down {
      CurrentRecords(x, w, c);
    }
  }

  lemma CurrentRecords(x: Setup, w: World, c: Copy)
    requires Good(x, w, c) && Undisturbed(x) && !w.down && Tracks(w, c, CertSync)
    ensures RecordsIn(CurrentAnn(w.log, x.secretName)) == RecordsIn(c.secret.ann)
  {
    hide Undisturbed;
  }

  predicate NeedsRecord(state: Option<Copy>, name: string, bundle: Bytes, changed: bool) {
    state.Some? && (changed || !RecordedHash(RecordsIn(state.value.secret.ann), name, bundle))
  }

  /** A write conflict of the record is no failure of the push. */
  lemma ConflictIsSwallowed(
    x: Setup, w: World, m: Memory, name: string, bundle: Bytes, state: Option<Copy>, changed: bool)
    ensures var p := RecordPush(x, w, m, name, bundle, state, changed);
            && (p.result.Success? ==> p.result.value == changed)
            && (p.result.Failure? ==> x.env(w.clock).api.Faulty? || p.w.down)
            && (NeedsRecord(state, name, bundle, changed) && PatchLost(x, p.w) ==> p.result.Failure?)
  {
    if state.Some? {
      var c := state.value;
      PatchLostExactlyWhen(x, w, c, WithRecord(c, name, CertEntry(bundle, x.env(w.clock).now)), RecordCert(name));
    }
    hide Patch;
  }

  /**
   A push that succeeds, written or skipped, is remembered, and its record is in the copy that is
   passed on, next to those of other certificates; undisturbed it is on the config Secret.
   */
  lemma PushIsRecorded(x: Setup, w: World, m: Memory, secret: Secret, c: Copy)
    requires Tracks(w, c, CertSync) && PushCertSecret(x, w, m, secret, Some(c)).result.Success?
    ensures CertPEMBundle(secret).Success?
    ensures var p := PushCertSecret(x, w, m, secret, Some(c));
            var b := CertPEMBundle(secret).value;
            && p.m == m.(certHashes := m.certHashes[secret.name := b])
            && RecordsFor(RecordsIn(c.secret.ann), RecordsIn(p.state.value.secret.ann), secret.name, b)
            && (Good(x, w, c) && Undisturbed(x) && !p.w.down ==>
                  RecordedHash(RecordsIn(CurrentAnn(p.w.log, x.secretName)), secret.name, b))
  {
    hide SyncSSLCertificate, RecordPush, CertPEMBundle, NotPushed, Tracks, Good, Undisturbed, Free, RecordsIn,
         RecordsFor, RecordedHash, CurrentAnn;
    NotPushedFails();
    var b := CertPEMBundle(secret).value;
    var previouslySynced := RecordedHash(CertSyncState(Some(c)), secret.name, b)
                            || (secret.name in m.certHashes && m.certHashes[secret.name] == b);
    SyncSSLCertificateFree(x, w, secret.name, b, previouslySynced, Posting);
    SyncSSLCertificateStays(x, w, secret.name, b, previouslySynced);
    var (v, changed) := SyncSSLCertificate(x, w, secret.name, b, previouslySynced);
    FreeGrows(w, v, Posting);
    TracksLater(w, v, c, CertSync);
    if Good(x, w, c) {
      GoodLater(x, w, v, c);
    }
    var n := m.(certHashes := m.certHashes[secret.name := b]);
    RecordPushRecords(x, v, n, secret.name, b, c, changed.value);
  }

  /** A bundle that is remembered, or on record, is not written again while storage reports its metadata. */
  lemma KnownIsNotRewritten(x: Setup, w: World, m: Memory, secret: Secret, state: Option<Copy>, q: World)
    requires PushAsks(x, w, secret, q) && !Unreadable(x, q) && !Missing(x, q, secret.name)
    requires var b := CertPEMBundle(secret).value;
             && !Differs(x.env(q.clock).remote, LeafSerial(x.pem(b)).value, |b|)
             && (RecordedHash(CertSyncState(state), secret.name, b)
                 || (secret.name in m.certHashes && m.certHashes[secret.name] == b))
    ensures var v := PushCertSecret(x, w, m, secret, state).w;
            forall i :: |w.trace| <= i < |v.trace| ==> !v.trace[i].CertWrite?
  {
    var b := CertPEMBundle(secret).value;
    StoredIsKeptExactlyWhen(x, w, secret.name, b, true, q);
    PollProbes(x, w, 0, None);
    assert After(x, q, 1) == Tick(x, After(x, q, 0)) == Tick(x, q);
    TickProbes(x, q);
    var v := SyncSSLCertificate(x, w, secret.name, b, true).0;
    hide Tick, Poll, CertPEMBundle, SyncSSLCertificate, Unreadable, Missing, Differs, After;
    RecordWritesNothing(x, v, m.(certHashes := m.certHashes[secret.name := b]), secret.name, b, state, false);
  }

  lemma RecordWritesNothing(
    x: Setup, w: World, m: Memory, name: string, bundle: Bytes, state: Option<Copy>, changed: bool)
    ensures var v := RecordPush(x, w, m, name, bundle, state, changed).w;
            w.trace <= v.trace && forall i :: |w.trace| <= i < |v.trace| ==> !v.trace[i].CertWrite?
  {
    if state.Some? {
      var c := state.value;
      PatchNoGateway(x, w, c, WithRecord(c, name, CertEntry(bundle, x.env(w.clock).now)), RecordCert(name));
    }
    hide Patch, WithRecord, RecordsIn, RecordedHash;
  }
}
