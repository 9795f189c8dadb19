/**
 What the operator's copy of the config Secret says of the stored one, in any environment, and
 so what its last patch leaves there.
 */
module Copies {
  import opened Prelude
  import opened Errors
  import opened Platform
  import opened Dataplane
  import opened Reconciliation
  import opened Safety
  import opened Steadiness
  import opened Actions
  import opened Suffix
  import opened RetrySchedule

  // ---------------------------------------------------------------- assumptions

  predicate LeavesConfig(x: Setup, a: EnvAct) {
    match a
    case Flux(n, _, _) => n != x.secretName
    case Annotate(n, _, _) => n != x.secretName
    case Recreate(n, _, _) => n != x.secretName
    case Tamper(n, _, _) => n != x.secretName
    case _ => true
  }

  /** The API server is healthy, reads are fresh, and nobody else writes the config Secret. */
  ghost predicate Undisturbed(x: Setup) {
    && (forall k: nat :: x.env(k).api.Healthy? && x.env(k).read.Fresh?)
    && (forall k: nat, a :: a in x.env(k).acts ==> LeavesConfig(x, a))
  }

  // ---------------------------------------------------------------- who writes the config Secret

  /** If nobody else writes the config Secret, its current revision is the same in both worlds. */
  ghost predicate Stays(x: Setup, w: World, v: World) {
    && w.log <= v.log && (w.down ==> v.down)
    && (Undisturbed(x) ==> Latest(v.log, x.secretName) == Latest(w.log, x.secretName))
  }

  lemma StaysTransitive(x: Setup, w: World, v: World, u: World)
    requires Stays(x, w, v) && Stays(x, v, u)
    ensures Stays(x, w, u)
  {
    hide Undisturbed;
  }

  lemma SameLogStays(x: Setup, w: World, v: World)
    requires v.log == w.log && (w.down ==> v.down)
    ensures Stays(x, w, v)
  {
  }

  lemma EnvStepStays(x: Setup, w: World, a: EnvAct)
    requires LeavesConfig(x, a)
    ensures var v := EnvStep(w, a); w.log <= v.log && Latest(v.log, x.secretName) == Latest(w.log, x.secretName)
  {
    var v := EnvStep(w, a);
    if |v.log| > |w.log| {
      LatestAfterAppend(w.log, v.log[|w.log|], x.secretName);
    }
  }

  lemma {:induction false} InterfereStays(x: Setup, w: World, acts: seq<EnvAct>)
    requires forall a :: a in acts ==> LeavesConfig(x, a)
    ensures Latest(Interfere(w, acts).log, x.secretName) == Latest(w.log, x.secretName)
    decreases |acts|
  {
    if acts != [] {
      EnvStepStays(x, w, acts[0]);
      InterfereStays(x, EnvStep(w, acts[0]), acts[1..]);
    }
  }

  lemma TickStays(x: Setup, w: World)
    ensures Stays(x, w, Tick(x, w))
  {
    TickFree(x, w, Posting);
    if Undisturbed(x) {
      InterfereStays(x, w, x.env(w.clock).acts);
    }
  }

  /** An action that appends nothing of its own. */
  lemma ActionStays(x: Setup, w: World, v: World)
    requires v.log == Tick(x, w).log && (Tick(x, w).down ==> v.down)
    ensures Stays(x, w, v)
  {
    hide Tick, Stays;
    TickStays(x, w);
    SameLogStays(x, Tick(x, w), v);
    StaysTransitive(x, w, Tick(x, w), v);
  }

  lemma GetStays(x: Setup, w: World, name: string)
    ensures Stays(x, w, Get(x, w, name).0)
  {
    hide Tick;
    ActionStays(x, w, Get(x, w, name).0);
  }

  lemma ReadVersionStays(x: Setup, w: World)
    ensures Stays(x, w, ReadVersion(x, w).0)
  {
    hide Tick;
    ActionStays(x, w, ReadVersion(x, w).0);
  }

  lemma ReadLiveStays(x: Setup, w: World)
    ensures Stays(x, w, ReadLive(x, w).0)
  {
    hide Tick;
    ActionStays(x, w, ReadLive(x, w).0);
  }

  lemma ClientStays(x: Setup, w: World, m: Memory)
    ensures Stays(x, w, GetOrCreateClient(x, w, m).0)
  {
    hide Tick;
    SameLogStays(x, w, w);
    ActionStays(x, w, BuildClient(x, w).0);
  }

  lemma ReadCertificateStays(x: Setup, w: World, file: string)
    ensures Stays(x, w, ReadCertificate(x, w, file).0)
  {
    hide Tick;
    ActionStays(x, w, ReadCertificate(x, w, file).0);
  }

  lemma WriteCertificateStays(x: Setup, w: World, name: string, bundle: Bytes)
    ensures Stays(x, w, WriteCertificate(x, w, name, bundle).0)
  {
    hide Tick;
    ActionStays(x, w, WriteCertificate(x, w, name, bundle).0);
  }

  lemma PostRawStays(x: Setup, w: World, kind: PostKind, raw: Bytes, version: int)
    ensures Stays(x, w, PostRaw(x, w, kind, raw, version).0)
  {
    hide Tick;
    ActionStays(x, w, PostRaw(x, w, kind, raw, version).0);
  }

  lemma {:induction false} PollStays(x: Setup, w: World, polls: nat, last: Option<Err>)
    requires polls <= MAX_POLLS
    ensures Stays(x, w, Poll(x, w, polls, last).0)
    decreases MAX_POLLS - polls
  {
    hide Stays, ReadVersion;
    SameLogStays(x, w, w);
    if !(polls == MAX_POLLS || x.env(w.clock).expired) {
      ReadVersionStays(x, w);
      var (v, version) := ReadVersion(x, w);
      if version.Failure? && x.env(v.clock).cancelled.None? {
        PollStays(x, v, polls + 1, Some(version.error));
        StaysTransitive(x, w, v, Poll(x, v, polls + 1, Some(version.error)).0);
      }
    }
  }

  lemma PostAtVersionStays(x: Setup, w: World, kind: PostKind, raw: Bytes)
    ensures Stays(x, w, PostAtVersion(x, w, kind, raw).0)
  {
    hide Stays, ReadVersion, PostRaw;
    ReadVersionStays(x, w);
    var (v, version) := ReadVersion(x, w);
    if version.Success? {
      PostRawStays(x, v, kind, raw, version.value);
      StaysTransitive(x, w, v, PostRaw(x, v, kind, raw, version.value).0);
    }
  }

  lemma ApplyValidatedStays(x: Setup, w: World, raw: Bytes)
    ensures Stays(x, w, ApplyValidated(x, w, raw).0)
  {
    hide Stays, Poll, PostAtVersion;
    PollStays(x, w, 0, None);
    var (v, err) := WaitForReady(x, w);
    if err.None? {
      PostAtVersionStays(x, v, Apply, raw);
      StaysTransitive(x, w, v, PostAtVersion(x, v, Apply, raw).0);
    }
  }

  lemma ValidateStays(x: Setup, w: World, raw: Bytes)
    ensures Stays(x, w, Validate(x, w, raw).0)
  {
    hide Stays, PostAtVersion;
    SameLogStays(x, w, w);
    PostAtVersionStays(x, w, ValidateOnly, raw);
  }

  lemma SyncSSLCertificateStays(x: Setup, w: World, name: string, bundle: Bytes, previouslySynced: bool)
    ensures Stays(x, w, SyncSSLCertificate(x, w, name, bundle, previouslySynced).0)
  {
    hide Stays, Poll, ReadCertificate, WriteCertificate, Note, MetadataMatches;
    SameLogStays(x, w, w);
    var serial := LeafSerial(x.pem(bundle));
    if serial.Success? {
      PollStays(x, w, 0, None);
      var (v, notReady) := WaitForReady(x, w);
      if notReady.None? {
        ReadCertificateStays(x, v, StorageName(name));
        var (u, remote) := ReadCertificate(x, v, StorageName(name));
        StaysTransitive(x, w, v, u);
        if remote.Success? {
          NoteStays(x, u, CertSkipped(u.run, name, bundle, serial.value, remote.value));
          StaysTransitive(x, w, u, Note(u, CertSkipped(u.run, name, bundle, serial.value, remote.value)));
        }
        WriteCertificateStays(x, u, name, bundle);
        StaysTransitive(x, w, u, WriteCertificate(x, u, name, bundle).0);
      }
    }
  }

  lemma NoteStays(x: Setup, w: World, e: Event)
    ensures Stays(x, w, Note(w, e))
  {
    SameLogStays(x, w, Note(w, e));
  }

  // ---------------------------------------------------------------- what a copy shows

  /**
   What the copy shows under `k`, its revision shows too. The exceptions are the records of
   certificates and a status that was only cleared locally; both may be ahead of the server.
   */
  predicate Shown(c: Annotations, server: Annotations, k: Key) {
    k in c && k != CertSync && !(k.StatusKey? && c[k] == StatusIs(Applied)) ==> k in server && server[k] == c[k]
  }

  ghost predicate Leads(w: World, c: Copy) {
    && c.rv < |w.log| && w.log[c.rv].secret.name == c.secret.name && w.log[c.rv].secret.data == c.secret.data
    && forall k :: Shown(c.secret.ann, w.log[c.rv].secret.ann, k)
  }

  predicate SameStatus(a: Annotations, b: Annotations) {
    !Touched(StatusKey, a, b) && !Touched(StatusMessage, a, b)
  }

  /** A copy of the config Secret; undisturbed it is current, and no status is ahead of the server. */
  ghost predicate Good(x: Setup, w: World, c: Copy) {
    && Leads(w, c) && c.secret.name == x.secretName
    && (Undisturbed(x) && !w.down ==>
          Latest(w.log, x.secretName) == Some(c.rv) && SameStatus(c.secret.ann, w.log[c.rv].secret.ann))
  }

  lemma GoodLater(x: Setup, w: World, v: World, c: Copy)
    requires Good(x, w, c) && Stays(x, w, v)
    ensures Good(x, v, c)
  {
    hide Undisturbed;
  }

  lemma GetGood(x: Setup, w: World)
    ensures var (v, got) := Get(x, w, x.secretName); got.Found? ==> Good(x, v, got.copy)
  {
    hide Tick;
  }

  /** What the patch changes the copy to: records of certificates, and otherwise only what is taken away or cleared. */
  ghost predicate Lowers(before: Annotations, after: Annotations) {
    forall k :: k in after && k != CertSync && !(k.StatusKey? && after[k] == StatusIs(Applied)) ==>
                  k in before && before[k] == after[k]
  }

  lemma MutatedLeads(w: World, c: Copy, ann: Annotations)
    requires Leads(w, c) && Lowers(c.secret.ann, ann)
    ensures Leads(w, c.(secret := c.secret.(ann := ann)))
  {
    forall k
      ensures Shown(ann, w.log[c.rv].secret.ann, k)
    {
      assert Shown(c.secret.ann, w.log[c.rv].secret.ann, k);
    }
  }

  lemma RefreshedGood(x: Setup, w: World, c: Copy, ann: Annotations, purpose: Purpose)
    requires Good(x, w, c) && Latest(w.log, c.secret.name) == Some(c.rv)
    ensures var u := Commit(w, c, ann, purpose);
            var now := Latest(u.log, c.secret.name).value;
            Good(x, u, Copy(now, u.log[now].secret)) && w.log <= u.log && u.log[now].secret.data == c.secret.data
  {
    var u := Commit(w, c, ann, purpose);
    hide Overlay, Undisturbed, Shown, Touched;
    if |u.log| > |w.log| {
      LatestAfterAppend(w.log, u.log[|w.log|], c.secret.name);
    }
    var now := Latest(u.log, c.secret.name).value;
    CurrentIsGood(x, u, now);
  }

  /** A fresh copy of the current revision. */
  lemma CurrentIsGood(x: Setup, w: World, now: nat)
    requires Latest(w.log, x.secretName) == Some(now)
    ensures Good(x, w, Copy(now, w.log[now].secret))
  {
    hide Undisturbed;
  }

  /** A copy that goes on being used after a patch. */
  lemma PatchGood(x: Setup, w: World, c: Copy, ann: Annotations, purpose: Purpose)
    requires Good(x, w, c) && Lowers(c.secret.ann, ann)
    ensures var (v, d, _) := Patch(x, w, c, ann, purpose);
            && Good(x, v, d) && w.log <= v.log && d.secret.data == c.secret.data && (w.down ==> v.down)
  {
    var mutated := c.(secret := c.secret.(ann := ann));
    hide Tick, Commit, Patch, Undisturbed;
    TickStays(x, w);
    var t := Tick(x, w);
    GoodLater(x, w, t, c);
    MutatedLeads(t, c, ann);
    PatchEnds(x, w, c, ann, purpose);
    if Undisturbed(x) {
      UndisturbedCommits(x, w, c, ann, purpose);
    }
    if Latest(t.log, c.secret.name) == Some(c.rv) {
      RefreshedGood(x, t, c, ann, purpose);
      assert Leads(Commit(t, c, ann, purpose), mutated);
    }
  }

  /** Undisturbed, a patch of a good copy commits unless the process dies. */
  lemma UndisturbedCommits(x: Setup, w: World, c: Copy, ann: Annotations, purpose: Purpose)
    requires Good(x, w, c) && Undisturbed(x)
    ensures var (v, d, reply) := Patch(x, w, c, ann, purpose); reply.Committed? || v.down
  {
    TickStays(x, w);
    GoodLater(x, w, Tick(x, w), c);
    hide Tick, Commit;
  }

  // ---------------------------------------------------------------- through a Reconcile

  /** The copy handed on is good, and holds the same configuration. */
  ghost predicate GoodOn(x: Setup, w: World, c: Copy, d: Copy) {
    Good(x, w, d) && d.secret.data == c.secret.data
  }

  lemma NoteGood(x: Setup, w: World, e: Event, c: Copy)
    requires Good(x, w, c)
    ensures Good(x, Note(w, e), c)
  {
    NoteStays(x, w, e);
    GoodLater(x, w, Note(w, e), c);
  }

  lemma RecordPushGood(x: Setup, w: World, m: Memory, name: string, bundle: Bytes, c: Copy, changed: bool)
    requires Good(x, w, c)
    ensures var p := RecordPush(x, w, m, name, bundle, Some(c), changed); GoodOn(x, p.w, c, p.state.value)
  {
    hide Patch, Good, Note;
    if changed || !RecordedHash(CertSyncState(Some(c)), name, bundle) {
      var ann := WithRecord(c, name, CertEntry(bundle, x.env(w.clock).now));
      PatchGood(x, w, c, ann, RecordCert(name));
      var (v, d, _) := Patch(x, w, c, ann, RecordCert(name));
      NoteGood(x, v, CertSynced(v.run, name), d);
      NoteGood(x, v, CertNotSynced(v.run, name), d);
    } else {
      NoteGood(x, w, CertSynced(w.run, name), c);
    }
  }

  lemma PushCertSecretGood(x: Setup, w: World, m: Memory, secret: Secret, c: Copy)
    requires Good(x, w, c)
    ensures var p := PushCertSecret(x, w, m, secret, Some(c)); GoodOn(x, p.w, c, p.state.value)
  {
    hide Good, SyncSSLCertificate, RecordPush, CertPEMBundle, Note;
    NoteGood(x, w, CertNotSynced(w.run, secret.name), c);
    var bundle := CertPEMBundle(secret);
    if bundle.Success? {
      var b := bundle.value;
      var previouslySynced := RecordedHash(CertSyncState(Some(c)), secret.name, b)
                              || (secret.name in m.certHashes && m.certHashes[secret.name] == b);
      SyncSSLCertificateStays(x, w, secret.name, b, previouslySynced);
      var (v, changed) := SyncSSLCertificate(x, w, secret.name, b, previouslySynced);
      GoodLater(x, w, v, c);
      NoteGood(x, v, CertNotSynced(v.run, secret.name), c);
      if changed.Success? {
        RecordPushGood(x, v, m.(certHashes := m.certHashes[secret.name := b]), secret.name, b, c, changed.value);
      }
    }
  }

  lemma {:induction false} EnsureGood(x: Setup, w: World, m: Memory, c: Copy, i: nat)
    requires Good(x, w, c) && i <= |x.certs|
    ensures var p := EnsureCertSecretsSynced(x, w, m, c, i); GoodOn(x, p.w, c, p.state.value)
    decreases |x.certs| - i
  {
    hide Good, Get, PushCertSecret, Note;
    if i < |x.certs| {
      GetStays(x, w, x.certs[i]);
      var (v, got) := Get(x, w, x.certs[i]);
      GoodLater(x, w, v, c);
      NoteGood(x, v, CertNotSynced(v.run, x.certs[i]), c);
      if got.Found? {
        PushCertSecretGood(x, v, m, got.copy.secret, c);
        var p := PushCertSecret(x, v, m, got.copy.secret, Some(c));
        if p.result.Success? {
          EnsureGood(x, p.w, p.m, p.state.value, i + 1);
        }
      }
    }
  }

  lemma SyncCertSecretGood(x: Setup, w: World, m: Memory, secret: Secret, c: Copy)
    requires Good(x, w, c)
    ensures var p := SyncCertSecret(x, w, m, secret, Some(c)); p.state.Some? && GoodOn(x, p.w, c, p.state.value)
  {
    hide Good, GetOrCreateClient, PushCertSecret, Note;
    ClientStays(x, w, m);
    var (v, n, err) := GetOrCreateClient(x, w, m);
    GoodLater(x, w, v, c);
    if err.Some? {
      NoteGood(x, v, CertNotSynced(v.run, secret.name), c);
    } else {
      PushCertSecretGood(x, v, n, secret, c);
    }
  }

  lemma SyncStateSame(x: Setup, w: World, m: Memory, secret: Secret, state: Option<Copy>)
    ensures SyncCertSecret(x, w, m, secret, state).state.Some? == state.Some?
  {
    hide GetOrCreateClient, PushCertSecret, Note;
  }

  lemma UnsuppressedGood(x: Setup, w: World, c: Copy)
    requires Good(x, w, c)
    ensures Good(x, w, Unsuppressed(c))
  {
    var d := Unsuppressed(c);
    assert Lowers(c.secret.ann, d.secret.ann);
    MutatedLeads(w, c, d.secret.ann);
    assert d == c.(secret := c.secret.(ann := d.secret.ann));
    hide Undisturbed;
  }

  lemma AfterCertPushGood(x: Setup, w: World, m: Memory, c: Copy)
    requires Good(x, w, c)
    ensures var s := AfterCertPush(x, w, m, c); s.Go? && GoodOn(x, s.w, c, s.c)
  {
    var ann := ClearedStatus(c.secret.ann);
    assert Lowers(c.secret.ann, ann);
    hide Good, Patch, Lowers, ClearedStatus;
    UnsuppressedGood(x, w, c);
    PatchGood(x, w, c, ann, ClearCertStatus);
    var (v, d, _) := Patch(x, w, c, ann, ClearCertStatus);
    UnsuppressedGood(x, v, d);
  }

  /** The copy of the config Secret that a certificate event hands on. */
  lemma CertEventGood(x: Setup, w: World, m: Memory, c: Copy)
    requires ConfigSecretIsDedicated(x) && c.secret.name in x.certs
    ensures var s := CertEvent(x, w, m, c); s.Go? ==> Good(x, s.w, s.c)
  {
    hide Good, Get, SyncCertSecret, AfterCertPush, FailWithStatus;
    var (v, cfg) := ConfigSecretFor(x, w, c);
    GetGood(x, w);
    SyncStateSame(x, v, m, c.secret, if cfg.Found? then Some(cfg.copy) else None);
    if cfg.Found? {
      SyncCertSecretGood(x, v, m, c.secret, cfg.copy);
      var p := SyncCertSecret(x, v, m, c.secret, Some(cfg.copy));
      AfterCertPushGood(x, p.w, p.m, p.state.value);
    }
  }

  lemma DriftCheckGood(x: Setup, w: World, m: Memory, c: Copy, raw: Bytes)
    requires Good(x, w, c) && DriftCheck(x, w, m, c, raw).Go?
    ensures var s := DriftCheck(x, w, m, c, raw); s.c == c && Good(x, s.w, c)
  {
    hide Good, GetOrCreateClient, ReadLive, Patch, FailWithStatus;
    ClientStays(x, w, m);
    var v := GetOrCreateClient(x, w, m).0;
    ReadLiveStays(x, v);
    var (u, live) := ReadLive(x, v);
    GoodLater(x, w, v, c);
    GoodLater(x, v, u, c);
    var expected := ExpectedLive(c.secret.ann);
    NoteGood(x, u, Checked(u.run, raw, live.value, expected, Hash(live.value) != expected), c);
  }

  // ---------------------------------------------------------------- the last patch

  /** What is stored after a failure was recorded; a rejection also names the bytes, which the Secret still holds. */
  predicate FailureShown(x: Setup, w: World, status: Status, failed: Option<Bytes>) {
    var ann := CurrentAnn(w.log, x.secretName);
    && Lookup(ann, StatusKey) == StatusIs(status) && StatusMessage in ann && LastUpdateTime in ann
    && (failed.Some? ==> Lookup(ann, LastFailedHash) == Hash(failed.value) && CurrentHolds(x, w, failed.value))
  }

  /** The last action, a patch, was neither acknowledged nor refused. */
  predicate PatchLost(x: Setup, v: World) {
    v.down || (v.clock > 0 && x.env(v.clock - 1).api.Faulty?)
  }

  /**
   The failure is stored if its patch commits, and that commits unless somebody or something
   interferes. Only a patch without an answer is an error; a write conflict is none.
   */
  ghost predicate Told(x: Setup, w: World, s: Step, status: Status, failed: Option<Bytes>) {
    && w.log <= s.w.log
    && (Errs(s) <==> PatchLost(x, s.w))
    && (!Free(w, s.w, Failing) ==> FailureShown(x, s.w, status, failed))
    && (Undisturbed(x) && !s.w.down ==> FailureShown(x, s.w, status, failed) && !Errs(s))
  }

  lemma ToldAfter(x: Setup, w: World, v: World, s: Step, status: Status, failed: Option<Bytes>)
    requires Free(w, v, Failing) && Told(x, v, s, status, failed)
    ensures Told(x, w, s, status, failed)
  {
    if Free(v, s.w, Failing) {
      FreeTransitive(w, v, s.w, Failing);
    }
    hide Undisturbed, FailureShown;
  }

  /** A key that the patch sets reads as set afterwards, whether or not it was part of the difference. */
  lemma SetsKey(server: Annotations, before: Annotations, after: Annotations, k: Key)
    requires Shown(before, server, k) && k != CertSync && k in after
    requires k.StatusKey? ==> after[k] != StatusIs(Applied)
    ensures var merged := Overlay(server, before, after); k in merged && merged[k] == after[k]
  {
  }

  lemma CommitShows(x: Setup, w: World, c: Copy, it: Item, status: Status, failed: Option<Bytes>)
    requires Good(x, w, c) && Latest(w.log, c.secret.name) == Some(c.rv) && status != Applied
    requires failed.Some? ==> x.secretKey in c.secret.data && c.secret.data[x.secretKey] == failed.value
    ensures var ann := FailureAnnotations(c.secret.ann, it, status, failed);
            FailureShown(x, Commit(w, c, ann, RecordFailure), status, failed)
  {
    var ann := FailureAnnotations(c.secret.ann, it, status, failed);
    var server := w.log[c.rv].secret.ann;
    assert StatusKey in ann && ann[StatusKey] == StatusIs(status) && StatusMessage in ann && LastUpdateTime in ann;
    assert failed.Some? ==> LastFailedHash in ann && ann[LastFailedHash] == Hash(failed.value);
    hide FailureAnnotations, Overlay, Undisturbed, Commit, Shown;
    SetsKey(server, c.secret.ann, ann, StatusKey);
    SetsKey(server, c.secret.ann, ann, StatusMessage);
    SetsKey(server, c.secret.ann, ann, LastUpdateTime);
    if failed.Some? {
      SetsKey(server, c.secret.ann, ann, LastFailedHash);
    }
    CommittedAnnotations(w, c, ann, RecordFailure);
    RefreshedGood(x, w, c, ann, RecordFailure);
  }

  lemma PatchLostExactlyWhen(x: Setup, w: World, c: Copy, ann: Annotations, purpose: Purpose)
    ensures var (v, _, reply) := Patch(x, w, c, ann, purpose);
            v.clock == w.clock + 1 && (reply.PatchFailed? <==> PatchLost(x, v))
  {
    TickClock(x, w);
    hide Tick, Overlay;
  }

  lemma FailWithStatusTold(
    x: Setup, w: World, m: Memory, c: Copy, status: Status, failed: Option<Bytes>, s: Step)
    requires Good(x, w, c) && status != Applied
    requires failed.Some? ==> x.secretKey in c.secret.data && c.secret.data[x.secretKey] == failed.value
    requires var (v, _, recorded) := FailWithStatus(x, w, c, status, failed);
             s.w == v && (Errs(s) <==> !recorded)
    ensures Told(x, w, s, status, failed)
  {
    hide Tick, Commit, Patch, Undisturbed, FailureShown, Free, FailureAnnotations;
    var ann := FailureAnnotations(c.secret.ann, x.env(w.clock), status, failed);
    TickStays(x, w);
    TickFree(x, w, Failing);
    var t := Tick(x, w);
    GoodLater(x, w, t, c);
    PatchLostExactlyWhen(x, w, c, ann, RecordFailure);
    PatchEnds(x, w, c, ann, RecordFailure);
    if Latest(t.log, c.secret.name) == Some(c.rv) {
      CommitShows(x, t, c, x.env(w.clock), status, failed);
      RefreshedGood(x, t, c, ann, RecordFailure);
    }
    if Undisturbed(x) {
      UndisturbedCommits(x, w, c, ann, RecordFailure);
      hide Good;
    }
  }
}
