/** The Dataplane client over whole Reconciles: nothing is sent without one, and only one that was built is kept. */
module ClientLife {
  import opened Prelude
  import opened Errors
  import opened Platform
  import opened Reconciliation
  import opened Verdict
  import opened Reports

  /** Nothing reached the gateway; a certificate may have failed for that. */
  predicate Mute(w: World, v: World) {
    && w.trace <= v.trace
    && forall i :: |w.trace| <= i < |v.trace| ==>
         v.trace[i].OutOfBand? || v.trace[i].Patched? || v.trace[i].CertNotSynced?
  }

  lemma MuteTransitive(w: World, v: World, u: World)
    requires Mute(w, v) && Mute(v, u)
    ensures Mute(w, u)
  {
  }

  /** Every answer from now on is a transport error: no client can be built. */
  ghost predicate NoAnswers(x: Setup) {
    forall k: nat :: x.env(k).reply.NoResponse?
  }

  /** A client is kept once it is there, it is not made up, and without one the gateway is not reached. */
  ghost predicate ClientKept(x: Setup, w: World, m: Memory, v: World, n: Memory) {
    && (m.clientReady ==> n.clientReady)
    && (NoAnswers(x) ==> n.clientReady == m.clientReady)
    && (!n.clientReady ==> Mute(w, v))
  }

  lemma KeptAfter(x: Setup, w: World, m: Memory, v: World, n: Memory, u: World, o: Memory)
    requires ClientKept(x, w, m, v, n) && ClientKept(x, v, n, u, o)
    ensures ClientKept(x, w, m, u, o)
  {
    hide NoAnswers, Mute;
    if !o.clientReady {
      MuteTransitive(w, v, u);
    }
  }

  lemma KeptWhenReady(x: Setup, w: World, m: Memory, v: World, n: Memory)
    requires m.clientReady && n.clientReady
    ensures ClientKept(x, w, m, v, n)
  {
  }

  lemma KeptWhenMute(x: Setup, w: World, m: Memory, v: World, n: Memory)
    requires n.clientReady == m.clientReady && Mute(w, v)
    ensures ClientKept(x, w, m, v, n)
  {
  }

  lemma NothingMute(w: World)
    ensures Mute(w, w)
  {
  }

  // ---------------------------------------------------------------- the parts of a Reconcile

  lemma ClientIsKept(x: Setup, w: World, m: Memory)
    ensures var (v, n, err) := GetOrCreateClient(x, w, m);
            ClientKept(x, w, m, v, n) && n.clientReady == err.None?
  {
    TickNoGateway(x, w);
    hide Tick;
  }

  lemma RetryIsMute(x: Setup, w: World, m: Memory, c: Copy, status: Status)
    ensures var s := Retry(x, w, m, c, status); Mute(w, s.w) && s.m.clientReady == m.clientReady && s.Done?
  {
    PatchNoGateway(x, w, c, FailureAnnotations(c.secret.ann, x.env(w.clock), status, None), RecordFailure);
    hide Patch;
  }

  lemma PushDesiredKeeps(x: Setup, w: World, m: Memory, c: Copy, raw: Bytes)
    ensures var s := PushDesired(x, w, m, c, raw); ClientKept(x, w, m, s.w, s.m)
  {
    hide GetOrCreateClient, EnsureCertSecretsSynced, ValidatePhase, Retry, Mute, ClientKept, Classify;
    var s := PushDesired(x, w, m, c, raw);
    var n := Desire(m, raw);
    NothingMute(w);
    KeptWhenMute(x, w, m, w, n);
    if Lookup(c.secret.ann, LastFailedHash) != Hash(raw) {
      ClientIsKept(x, w, n);
      var (v, o, noClient) := GetOrCreateClient(x, w, n);
      if noClient.Some? {
        RetryIsMute(x, v, o, c, Failed(Classify(noClient.value)));
        KeptWhenMute(x, v, o, s.w, s.m);
      } else {
        CertsKeepClient(x, v, o, c, raw);
        KeptWhenReady(x, v, o, s.w, s.m);
      }
      KeptAfter(x, w, n, v, o, s.w, s.m);
      KeptAfter(x, w, m, w, n, s.w, s.m);
    }
  }

  lemma CertsKeepClient(x: Setup, w: World, m: Memory, c: Copy, raw: Bytes)
    ensures CertsPhase(x, w, m, c, raw).m.clientReady == m.clientReady
  {
    hide EnsureCertSecretsSynced, ValidatePhase, Retry, Classify;
    EnsureKeepsClient(x, w, m, c, 0);
    var p := EnsureCertSecretsSynced(x, w, m, c, 0);
    if p.result.Failure? {
      RetryIsMute(x, p.w, p.m, p.state.value, CertSyncFailed(Classify(p.result.error)));
    } else {
      ValidatePhaseClient(x, p.w, p.m, p.state.value, raw);
    }
  }

  lemma DriftCheckKeeps(x: Setup, w: World, m: Memory, c: Copy, raw: Bytes)
    ensures var s := DriftCheck(x, w, m, c, raw); ClientKept(x, w, m, s.w, s.m)
  {
    hide GetOrCreateClient, ReadLive, Retry, Patch, Mute, ClientKept, Classify;
    var s := DriftCheck(x, w, m, c, raw);
    ClientIsKept(x, w, m);
    var (v, n, noClient) := GetOrCreateClient(x, w, m);
    var (u, live) := ReadLive(x, v);
    if noClient.Some? {
      RetryIsMute(x, v, n, c, Failed(Classify(noClient.value)));
      KeptWhenMute(x, v, n, s.w, s.m);
    } else {
      if live.Failure? {
        RetryIsMute(x, u, n, c, DriftCheckFailed(Classify(live.error)));
      }
      KeptWhenReady(x, v, n, s.w, s.m);
    }
    KeptAfter(x, w, m, v, n, s.w, s.m);
  }

  lemma ConfigPhaseKeeps(x: Setup, w: World, m: Memory, c: Copy)
    ensures var s := ConfigPhase(x, w, m, c); ClientKept(x, w, m, s.w, s.m)
  {
    hide FailWithStatus, DriftCheck, PushDesired, Mute, ClientKept;
    NothingMute(w);
    KeptWhenMute(x, w, m, w, m);
    if x.secretKey !in c.secret.data {
      MissingIsMute(x, w, c);
      KeptWhenMute(x, w, m, FailWithStatus(x, w, c, MissingKey, None).0, m);
    } else {
      var raw := c.secret.data[x.secretKey];
      PushDesiredKeeps(x, w, m, c, raw);
      DriftCheckKeeps(x, w, m, c, raw);
      var d := DriftCheck(x, w, m, c, raw);
      if d.Go? {
        PushDesiredKeeps(x, d.w, d.m, d.c, raw);
        var s := PushDesired(x, d.w, d.m, d.c, raw);
        KeptAfter(x, w, m, d.w, d.m, s.w, s.m);
      }
    }
  }

  lemma MissingIsMute(x: Setup, w: World, c: Copy)
    ensures Mute(w, FailWithStatus(x, w, c, MissingKey, None).0)
  {
    PatchNoGateway(x, w, c, FailureAnnotations(c.secret.ann, x.env(w.clock), MissingKey, None), RecordFailure);
    hide Patch;
  }

  lemma SyncKeeps(x: Setup, w: World, m: Memory, secret: Secret, state: Option<Copy>)
    ensures var p := SyncCertSecret(x, w, m, secret, state);
            ClientKept(x, w, m, p.w, p.m) && (!p.m.clientReady ==> p.result.Failure?)
  {
    hide GetOrCreateClient, PushCertSecret, Mute, ClientKept;
    ClientIsKept(x, w, m);
    var (v, n, err) := GetOrCreateClient(x, w, m);
    var p := SyncCertSecret(x, w, m, secret, state);
    if err.Some? {
      MarkIsMute(v, secret.name);
      KeptWhenMute(x, v, n, p.w, p.m);
    } else {
      PushKeepsClient(x, v, n, secret, state);
      KeptWhenReady(x, v, n, p.w, p.m);
    }
    KeptAfter(x, w, m, v, n, p.w, p.m);
  }

  lemma MarkIsMute(w: World, name: string)
    ensures Mute(w, Note(w, CertNotSynced(w.run, name)))
  {
  }

  lemma CertEventKeeps(x: Setup, w: World, m: Memory, c: Copy)
    ensures var s := CertEvent(x, w, m, c); ClientKept(x, w, m, s.w, s.m)
  {
    hide Get, SyncCertSecret, Retry, Patch, Mute, ClientKept, Classify;
    var s := CertEvent(x, w, m, c);
    var (v, cfg) := ConfigSecretFor(x, w, c);
    ReadIsMute(x, w, c);
    KeptWhenMute(x, w, m, v, m);
    if !cfg.GetFailed? {
      var state := if cfg.Found? then Some(cfg.copy) else None;
      SyncKeeps(x, v, m, c.secret, state);
      var p := SyncCertSecret(x, v, m, c.secret, state);
      if p.result.Failure? && p.state.Some? {
        RetryIsMute(x, p.w, p.m, p.state.value, CertSyncFailed(Classify(p.result.error)));
        KeptWhenMute(x, p.w, p.m, s.w, s.m);
      } else if p.result.Failure? {
        NothingMute(p.w);
        KeptWhenMute(x, p.w, p.m, s.w, s.m);
      } else {
        KeptWhenReady(x, p.w, p.m, s.w, s.m);
      }
      KeptAfter(x, v, m, p.w, p.m, s.w, s.m);
      KeptAfter(x, w, m, v, m, s.w, s.m);
    }
  }

  lemma ReadIsMute(x: Setup, w: World, c: Copy)
    ensures Mute(w, ConfigSecretFor(x, w, c).0)
  {
    TickNoGateway(x, w);
    hide Tick;
  }

  lemma GetIsMute(x: Setup, w: World, name: string)
    ensures Mute(w, Get(x, w, name).0)
  {
    TickNoGateway(x, w);
    hide Tick;
  }

  /**
   Over any Reconcile, in any environment: a client is kept for good, none is kept that was not
   built, and while there is none the gateway is not reached.
   */
  lemma NothingWithoutClient(x: Setup, w: World, m: Memory, name: string)
    ensures var s := Reconcile(x, w, m, name); ClientKept(x, Start(w, name), m, s.w, s.m)
  {
    hide Get, CertEvent, ConfigPhase, Mute, ClientKept;
    var v := Start(w, name);
    var (u, got) := Get(x, v, name);
    NothingMute(v);
    KeptWhenMute(x, v, m, v, m);
    GetIsMute(x, v, name);
    KeptWhenMute(x, v, m, u, m);
    if got.Found? {
      var c := got.copy;
      var s := Reconcile(x, w, m, name);
      ConfigPhaseKeeps(x, u, m, c);
      var t := ConfigPhase(x, u, m, c);
      KeptAfter(x, v, m, u, m, t.w, t.m);
      CertEventKeeps(x, u, m, c);
      var r := CertEvent(x, u, m, c);
      KeptAfter(x, v, m, u, m, r.w, r.m);
      if r.Go? {
        ConfigPhaseKeeps(x, r.w, r.m, r.c);
        var t := ConfigPhase(x, r.w, r.m, r.c);
        KeptAfter(x, v, m, r.w, r.m, t.w, t.m);
      }
    }
  }
}
