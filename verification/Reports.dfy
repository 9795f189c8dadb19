/**
 How every Reconcile that reads the config Secret ends: for each way to fail, that it is stored
 with its class and retried; for each way to stop, that nothing else happens.
 */
module Reports {
  import opened Prelude
  import opened Errors
  import opened Platform
  import opened Reconciliation
  import opened Safety
  import opened Actions
  import opened Steadiness
  import opened Suffix
  import opened ReconcileSafety
  import opened Copies
  import opened Verdict

  // ---------------------------------------------------------------- a Reconcile of the config Secret

  /** The Reconcile of the config Secret has read it as `c`. */
  predicate HasRead(x: Setup, w: World, u: World, c: Copy) {
    Get(x, Start(w, x.secretName), x.secretName) == (u, Found(c))
  }

  lemma ReadIsGood(x: Setup, w: World, m: Memory, u: World, c: Copy)
    requires ConfigSecretIsDedicated(x) && HasRead(x, w, u, c)
    ensures Reconcile(x, w, m, x.secretName) == ConfigPhase(x, u, m, c)
    ensures Good(x, u, c) && Silent(Start(w, x.secretName), u) && Free(Start(w, x.secretName), u, CertFailing)
  {
    var v := Start(w, x.secretName);
    GetSilent(x, v, x.secretName);
    GetFree(x, v, x.secretName, CertFailing);
    GetGood(x, v);
    hide Get, ConfigPhase;
  }

  /** Nothing reached the gateway, and nothing was heard from it. */
  predicate NoGateway(w: World, v: World) {
    w.trace <= v.trace && forall i :: |w.trace| <= i < |v.trace| ==> v.trace[i].OutOfBand? || v.trace[i].Patched?
  }

  lemma {:induction false} InterfereNoGateway(w: World, acts: seq<EnvAct>)
    ensures NoGateway(w, Interfere(w, acts))
    decreases |acts|
  {
    if acts != [] {
      InterfereNoGateway(EnvStep(w, acts[0]), acts[1..]);
    }
  }

  lemma PatchNoGateway(x: Setup, w: World, c: Copy, ann: Annotations, purpose: Purpose)
    ensures NoGateway(w, Patch(x, w, c, ann, purpose).0)
  {
    InterfereNoGateway(w, x.env(w.clock).acts);
    PatchEnds(x, w, c, ann, purpose);
    hide Interfere, Patch, Overlay;
  }

  lemma TickNoGateway(x: Setup, w: World)
    ensures NoGateway(w, Tick(x, w))
  {
    InterfereNoGateway(w, x.env(w.clock).acts);
  }

  // ---------------------------------------------------------------- no configuration to push

  /** A config Secret without its key: reported and looked at again after 30 seconds; the gateway is left alone. */
  lemma MissingKeyIsTold(x: Setup, w: World, m: Memory, u: World, c: Copy)
    requires ConfigSecretIsDedicated(x) && HasRead(x, w, u, c) && x.secretKey !in c.secret.data
    ensures var s := Reconcile(x, w, m, x.secretName);
            && s.Done? && s.m == m && s.out in {Requeue(30, KeyMissing), Errored}
            && Told(x, u, s, MissingKey, None) && NoGateway(u, s.w)
  {
    ReadIsGood(x, w, m, u, c);
    var s := ConfigPhase(x, u, m, c);
    PatchNoGateway(x, u, c, FailureAnnotations(c.secret.ann, x.env(u.clock), MissingKey, None), RecordFailure);
    hide Patch, Good, Told, Reconcile, FailureAnnotations;
    FailWithStatusTold(x, u, m, c, MissingKey, None, s);
  }

  /** Bytes that are stored as refused, and not as applied, are left alone until the next interval. */
  lemma SuppressedIsQuiet(x: Setup, w: World, m: Memory, u: World, c: Copy, raw: Bytes)
    requires ConfigSecretIsDedicated(x) && HasRead(x, w, u, c) && IsDesired(x, c, raw)
    requires Lookup(c.secret.ann, LastFailedHash) == Hash(raw) && Lookup(c.secret.ann, LastAppliedHash) != Hash(raw)
    ensures var s := Reconcile(x, w, m, x.secretName);
            s.Done? && s.w == u && s.out == NEXT_INTERVAL && s.m.lastDesired == Some(raw)
  {
    ReadIsGood(x, w, m, u, c);
    hide Good, Reconcile, HasRead;
  }

  /** Other Secrets, Secrets that are gone, and Secrets that cannot be read: nothing is done about them. */
  lemma OthersAreIgnored(x: Setup, w: World, m: Memory, name: string)
    requires ConfigSecretIsDedicated(x)
    ensures var v := Start(w, name);
            var (u, got) := Get(x, v, name);
            var s := Reconcile(x, w, m, name);
            && (name != x.secretName && name !in x.certs ==> s == Done(v, m, Ignored))
            && ((name == x.secretName || name in x.certs) && got.NotFound? ==> s == Done(u, m, Ignored))
            && ((name == x.secretName || name in x.certs) && got.GetFailed? ==> s == Done(u, m, Errored))
  {
    hide Get, CertEvent, ConfigPhase;
  }

  // ---------------------------------------------------------------- bytes that are not applied yet

  /**
   Bytes that are stored neither as applied nor as refused are pushed: whatever stops them is
   told. Without a client nothing is posted; neither is it after a failed certificate; otherwise
   the last POST decides, and without one the version could not be read or the bytes are empty.
   */
  lemma AttemptIsExplained(x: Setup, w: World, m: Memory, u: World, c: Copy, raw: Bytes)
    requires ConfigSecretIsDedicated(x) && HasRead(x, w, u, c) && IsDesired(x, c, raw)
    requires Lookup(c.secret.ann, LastFailedHash) != Hash(raw) && Lookup(c.secret.ann, LastAppliedHash) != Hash(raw)
    ensures Explained(x, Start(w, x.secretName), Reconcile(x, w, m, x.secretName), raw)
  {
    ReadIsGood(x, w, m, u, c);
    hide Good, PushDesired, DriftCheck, Reconcile, Explained, HasRead;
    PushDesiredExplained(x, u, m, c, raw);
    assert ConfigPhase(x, u, m, c) == PushDesired(x, u, m, c, raw);
    ExplainedAfter(x, Start(w, x.secretName), u, ConfigPhase(x, u, m, c), raw);
  }

  // ---------------------------------------------------------------- bytes that are applied: the drift check

  /** The check fails for want of a client, or of an answer to the live read. */
  ghost predicate ToldCheck(x: Setup, w: World, s: Step, status: Status) {
    Retried(s) && Told(x, w, s, status, None) && NoGateway(w, s.w)
  }

  lemma RetryToldCheck(x: Setup, w: World, m: Memory, c: Copy, status: Status)
    requires Good(x, w, c) && status != Applied
    ensures ToldCheck(x, w, Retry(x, w, m, c, status), status)
  {
    PatchNoGateway(x, w, c, FailureAnnotations(c.secret.ann, x.env(w.clock), status, None), RecordFailure);
    hide Patch, Good, Told, FailureAnnotations;
    RetryTold(x, w, m, c, status);
  }

  /** What is known once the gateway's configuration has been asked for. */
  predicate Asked(x: Setup, u: World, m: Memory, v: World, n: Memory, t: World, live: Result<Bytes, Err>) {
    GetOrCreateClient(x, u, m) == (v, n, None) && ReadLive(x, v) == (t, live)
  }

  /** The unchanged configuration has been read, and it cannot be compared: that is told, and retried. */
  lemma FailedCheckIsTold(x: Setup, w: World, m: Memory, u: World, c: Copy, raw: Bytes)
    requires ConfigSecretIsDedicated(x) && HasRead(x, w, u, c) && IsDesired(x, c, raw)
    requires Lookup(c.secret.ann, LastAppliedHash) == Hash(raw)
    ensures var s := Reconcile(x, w, m, x.secretName);
            var (v, n, noClient) := GetOrCreateClient(x, u, m);
            var (t, live) := ReadLive(x, v);
            && (noClient.Some? ==> ToldCheck(x, v, s, Failed(Classify(noClient.value))))
            && (noClient.None? && live.Failure? ==> ToldCheck(x, t, s, DriftCheckFailed(Classify(live.error))))
  {
    ReadIsGood(x, w, m, u, c);
    var (v, n, noClient) := GetOrCreateClient(x, u, m);
    var (t, live) := ReadLive(x, v);
    ClientStays(x, u, m);
    ReadLiveStays(x, v);
    GoodLater(x, u, v, c);
    GoodLater(x, v, t, c);
    hide Good, PushDesired, Retry, CompareLive, GetOrCreateClient, ReadLive, Reconcile, HasRead, Classify, ToldCheck,
         Free;
    if noClient.Some? {
      RetryToldCheck(x, v, n, c, Failed(Classify(noClient.value)));
      RetryIsDone(x, v, n, c, Failed(Classify(noClient.value)));
    } else if live.Failure? {
      RetryToldCheck(x, t, n, c, DriftCheckFailed(Classify(live.error)));
      RetryIsDone(x, t, n, c, DriftCheckFailed(Classify(live.error)));
    }
  }

  lemma RetryIsDone(x: Setup, w: World, m: Memory, c: Copy, status: Status)
    ensures Retry(x, w, m, c, status).Done?
  {
    hide FailWithStatus;
  }

  /** The baseline, or the applied digest where there is none. */
  predicate ComparesWith(ann: Annotations, v: Value) {
    if LastObservedHash in ann && ann[LastObservedHash] != Empty then v == ann[LastObservedHash]
    else v == Lookup(ann, LastAppliedHash)
  }

  /** What is stored once the live configuration was adopted as the baseline. */
  predicate AdoptionShown(x: Setup, v: World, live: Bytes) {
    Lookup(CurrentAnn(v.log, x.secretName), LastObservedHash) == Hash(live)
  }

  predicate ClearShown(x: Setup, v: World) {
    var ann := CurrentAnn(v.log, x.secretName);
    Lookup(ann, StatusKey) == StatusIs(Applied) && StatusMessage !in ann
  }

  /**
   The unchanged configuration has been read and compared. An open baseline is closed with what
   was read; an equal one, or a drift that is only reported or whose remedy was refused, ends
   here; any other drift leads to the bytes being pushed. Each comparison is counted.
   */
  lemma CheckIsExplained(
    x: Setup, w: World, m: Memory, u: World, c: Copy, raw: Bytes, v: World, n: Memory, t: World, live: Bytes)
    requires ConfigSecretIsDedicated(x) && HasRead(x, w, u, c) && IsDesired(x, c, raw)
    requires Lookup(c.secret.ann, LastAppliedHash) == Hash(raw) && Asked(x, u, m, v, n, t, Success(live))
    ensures var s := Reconcile(x, w, m, x.secretName);
            forall expected :: ComparesWith(c.secret.ann, expected) ==>
              var drift := expected != Hash(live);
              var e := Checked(t.run, raw, live, expected, drift);
              if expected == Pending then
                s.Done? && s.out == NEXT_INTERVAL && NoGateway(t, s.w)
                && (!Free(t, s.w, Booking) ==> AdoptionShown(x, s.w, live))
                && (Undisturbed(x) && !s.w.down ==> AdoptionShown(x, s.w, live) && ClearShown(x, s.w))
              else if !drift then
                s.Done? && s.out == NEXT_INTERVAL && NoGateway(Note(t, e), s.w)
              else if Lookup(c.secret.ann, LastFailedHash) == Hash(raw) || !x.driftRemediate then
                s.Done? && s.out == NEXT_INTERVAL && s.w == Note(t, e)
              else Explained(x, Note(t, e), s, raw)
  {
    ReadIsGood(x, w, m, u, c);
    ClientStays(x, u, m);
    ReadLiveStays(x, v);
    GoodLater(x, u, v, c);
    GoodLater(x, v, t, c);
    hide Good, GetOrCreateClient, ReadLive, Reconcile, HasRead, PushDesired, CompareLive, Explained;
    CompareExplained(x, t, n.(transientFailures := 0), c, raw, live);
  }

  lemma CompareExplained(x: Setup, t: World, m: Memory, c: Copy, raw: Bytes, live: Bytes)
    requires Good(x, t, c) && IsDesired(x, c, raw)
    ensures var d := CompareLive(x, t, m, c, raw, live);
            var s := if d.Done? then d else PushDesired(x, d.w, d.m, d.c, raw);
            forall expected :: ComparesWith(c.secret.ann, expected) ==>
              var drift := expected != Hash(live);
              var e := Checked(t.run, raw, live, expected, drift);
              if expected == Pending then
                s.Done? && s.out == NEXT_INTERVAL && NoGateway(t, s.w)
                && (!Free(t, s.w, Booking) ==> AdoptionShown(x, s.w, live))
                && (Undisturbed(x) && !s.w.down ==> AdoptionShown(x, s.w, live) && ClearShown(x, s.w))
              else if !drift then
                s.Done? && s.out == NEXT_INTERVAL && NoGateway(Note(t, e), s.w)
              else if Lookup(c.secret.ann, LastFailedHash) == Hash(raw) || !x.driftRemediate then
                s.Done? && s.out == NEXT_INTERVAL && s.w == Note(t, e)
              else Explained(x, Note(t, e), s, raw)
  {
    var ann := c.secret.ann;
    var expected := ExpectedLive(ann);
    assert forall v :: ComparesWith(ann, v) ==> v == expected;
    var e := Checked(t.run, raw, live, expected, expected != Hash(live));
    NoteGood(x, t, e, c);
    hide Good, Patch, PushDesired, Explained, Note, AdoptedBaseline, Free;
    if expected == Pending {
      PatchNoGateway(x, t, c, AdoptedBaseline(ann, live), AdoptBaseline(live));
      AdoptionIsStored(x, t, c, live);
    } else if expected == Hash(live) {
      NothingNoGateway(Note(t, e));
      PatchNoGateway(x, Note(t, e), c, ClearedStatus(ann), ClearCheckStatus);
    } else if !(Lookup(ann, LastFailedHash) == Hash(raw) || !x.driftRemediate) {
      PushDesiredExplained(x, Note(t, e), m, c, raw);
    }
  }

  lemma NothingNoGateway(w: World)
    ensures NoGateway(w, w)
  {
  }

  lemma AdoptionIsStored(x: Setup, w: World, c: Copy, live: Bytes)
    requires Good(x, w, c)
    ensures var v := Patch(x, w, c, AdoptedBaseline(c.secret.ann, live), AdoptBaseline(live)).0;
            && (!Free(w, v, Booking) ==> AdoptionShown(x, v, live))
            && (Undisturbed(x) && !v.down ==> AdoptionShown(x, v, live) && ClearShown(x, v))
  {
    var ann := AdoptedBaseline(c.secret.ann, live);
    var t := Tick(x, w);
    assert LastObservedHash in ann && ann[LastObservedHash] == Hash(live);
    assert StatusKey in ann && ann[StatusKey] == StatusIs(Applied) && StatusMessage !in ann;
    hide Tick, Commit, Patch, Undisturbed, AdoptedBaseline, Overlay, Free, Shown;
    TickStays(x, w);
    TickFree(x, w, Booking);
    GoodLater(x, w, t, c);
    PatchEnds(x, w, c, ann, AdoptBaseline(live));
    if Undisturbed(x) {
      UndisturbedCommits(x, w, c, ann, AdoptBaseline(live));
    }
    if Latest(t.log, c.secret.name) == Some(c.rv) {
      SetsKey(t.log[c.rv].secret.ann, c.secret.ann, ann, LastObservedHash);
      if Undisturbed(x) && !t.down {
        StatusFollows(t.log[c.rv].secret.ann, c.secret.ann, ann);
      }
      CommittedAnnotations(t, c, ann, AdoptBaseline(live));
    }
  }
}
