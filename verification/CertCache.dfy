/**
 The certificate cache: the record on the config Secret, its mirror in memory, and the
 gateway's storage. What every action keeps when no record of an accepted push is lost.
 */
module CertCache {
  import opened Prelude
  import opened Errors
  import opened Platform
  import opened Dataplane
  import opened Reconciliation
  import opened Safety
  import opened Steadiness

  // ---------------------------------------------------------------- the history so far

  predicate AcceptedPush(e: Event) {
    e.CertWrite? && Ok(e.reply)
  }

  /** The Secret whose accepted push has not reached the record on the config Secret, if any. */
  function Unsaved(t: seq<Event>): Option<string> {
    if |t| == 0 then None
    else
      var e, past := t[|t| - 1], t[..|t| - 1];
      if AcceptedPush(e) then Some(e.name)
      else if RecordsCert(e) then None
      else Unsaved(past)
  }

  predicate RecordsCert(e: Event) {
    e.Patched? && e.purpose.RecordCert?
  }

  /** The mark of a failed push is no act of the operator. */
  predicate Acts(e: Event) {
    Numbered(e) && !e.CertNotSynced?
  }

  /** The record of every accepted push was committed before the operator did anything else. */
  predicate Kept(t: seq<Event>) {
    |t| == 0 ||
    var e, past := t[|t| - 1], t[..|t| - 1];
    Kept(past) && (Acts(e) && !RecordsCert(e) ==> Unsaved(past).None?)
  }

  lemma CertSnoc(t: seq<Event>, e: Event)
    ensures Unsaved(t + [e]) ==
            if AcceptedPush(e) then Some(e.name) else if RecordsCert(e) then None else Unsaved(t)
    ensures Kept(t + [e]) <==> Kept(t) && (Acts(e) && !RecordsCert(e) ==> Unsaved(t).None?)
  {
    assert (t + [e])[..|t|] == t;
  }

  // ---------------------------------------------------------------- assumptions

  predicate WritesStorage(a: EnvAct) {
    a.StorageWrite? || a.StorageDelete?
  }

  ghost predicate StorageIsOurs(x: Setup) {
    && ConfigSecretIsDedicated(x) && Polite(x) && NoStaleReads(x)
    && (forall k: nat, a :: a in x.env(k).acts ==> !WritesStorage(a))
    && (forall k: nat :: !Ok(x.env(k).reply) ==> !x.env(k).lands)
  }

  // ---------------------------------------------------------------- the invariant

  function Recorded(x: Setup, w: World): Records {
    RecordsIn(CurrentAnn(w.log, x.secretName))
  }

  /** Storage holds `bundle` for the Secret of that name. */
  predicate Stores(g: Gateway, name: string, bundle: Bytes) {
    StorageName(name) in g.storage && g.storage[StorageName(name)] == bundle
  }

  ghost predicate RecordsAgree(g: Gateway, r: Records) {
    forall n :: n in r ==> Stores(g, n, r[n].hash)
  }

  ghost predicate MemoryAgrees(g: Gateway, m: Memory) {
    forall n :: n in m.certHashes ==> Stores(g, n, m.certHashes[n])
  }

  ghost predicate Cached(x: Setup, w: World, m: Memory) {
    Kept(w.trace) ==> (Unsaved(w.trace).None? ==> RecordsAgree(w.gw, Recorded(x, w))) && MemoryAgrees(w.gw, m)
  }

  ghost predicate SubRecords(r: Records, s: Records) {
    forall n :: n in r ==> n in s && s[n] == r[n]
  }

  /** The operator's copy agrees with storage, and lacks nothing the server has while every push is recorded. */
  ghost predicate CopyCached(x: Setup, w: World, c: Copy) {
    && c.secret.name == x.secretName && c.rv < |w.log|
    && (Kept(w.trace) ==>
          && RecordsAgree(w.gw, RecordsIn(c.secret.ann))
          && (Unsaved(w.trace).None? ==> SubRecords(RecordsIn(w.log[c.rv].secret.ann), RecordsIn(c.secret.ann))))
  }

  /** Nothing about certificates happened; a recreated Secret may have lost its record. */
  ghost predicate Rests(x: Setup, w: World, v: World) {
    && w.log <= v.log && (Kept(v.trace) ==> Kept(w.trace)) && Unsaved(v.trace) == Unsaved(w.trace)
    && v.gw.storage == w.gw.storage
    && (Recorded(x, v) == Recorded(x, w) || Recorded(x, v) == map[])
  }

  lemma RestsTransitive(x: Setup, w: World, v: World, u: World)
    requires Rests(x, w, v) && Rests(x, v, u)
    ensures Rests(x, w, u)
  {
  }

  lemma CachedRests(x: Setup, w: World, v: World, m: Memory)
    requires Cached(x, w, m) && Rests(x, w, v)
    ensures Cached(x, v, m)
  {
  }

  lemma CopyRests(x: Setup, w: World, v: World, c: Copy)
    requires CopyCached(x, w, c) && Rests(x, w, v)
    ensures CopyCached(x, v, c)
  {
  }

  // ---------------------------------------------------------------- actions without certificates

  lemma AppendRests(x: Setup, w: World, r: Revision)
    requires r.secret.name == x.secretName ==> RecordsIn(r.secret.ann) in {Recorded(x, w), map[]}
    ensures Rests(x, w, w.(log := w.log + [r]))
  {
    LatestAfterAppend(w.log, r, x.secretName);
  }

  lemma EnvStepRests(x: Setup, w: World, a: EnvAct)
    requires !a.Tamper? && !WritesStorage(a)
    ensures Rests(x, w, EnvStep(w, a))
  {
    var v := EnvStep(w, a);
    if |v.trace| > |w.trace| {
      CertSnoc(w.trace, v.trace[|w.trace|]);
    } else if |v.log| > |w.log| {
      hide Rests;
      AppendRests(x, w, v.log[|w.log|]);
    }
  }

  lemma {:induction false} InterfereRests(x: Setup, w: World, acts: seq<EnvAct>)
    requires forall a :: a in acts ==> !a.Tamper? && !WritesStorage(a)
    ensures Rests(x, w, Interfere(w, acts))
    decreases |acts|
  {
    if acts != [] {
      var v := EnvStep(w, acts[0]);
      EnvStepRests(x, w, acts[0]);
      InterfereRests(x, v, acts[1..]);
      RestsTransitive(x, w, v, Interfere(v, acts[1..]));
    }
  }

  lemma TickRests(x: Setup, w: World)
    requires StorageIsOurs(x)
    ensures Rests(x, w, Tick(x, w))
  {
    InterfereRests(x, w, x.env(w.clock).acts);
  }

  predicate NotAboutCerts(e: Event) {
    !e.Begin? && !AcceptedPush(e) && !RecordsCert(e)
  }

  lemma NoteRests(x: Setup, w: World, e: Event)
    requires NotAboutCerts(e)
    ensures Rests(x, w, Note(w, e))
  {
    CertSnoc(w.trace, e);
  }

  lemma TickNoteRests(x: Setup, w: World, e: Event)
    requires StorageIsOurs(x) && NotAboutCerts(e)
    ensures Rests(x, w, Note(Tick(x, w), e)) && Rests(x, w, Tick(x, w))
  {
    hide Rests, StorageIsOurs, Note, Tick;
    TickRests(x, w);
    NoteRests(x, Tick(x, w), e);
    RestsTransitive(x, w, Tick(x, w), Note(Tick(x, w), e));
  }

  lemma ReadVersionRests(x: Setup, w: World)
    requires StorageIsOurs(x)
    ensures Rests(x, w, ReadVersion(x, w).0)
  {
    hide Rests, StorageIsOurs;
    TickNoteRests(x, w, VersionRead(Tick(x, w).run, Tick(x, w).gw.version));
  }

  lemma ReadLiveRests(x: Setup, w: World)
    requires StorageIsOurs(x)
    ensures Rests(x, w, ReadLive(x, w).0)
  {
    hide Rests, StorageIsOurs;
    TickNoteRests(x, w, LiveRead(Tick(x, w).run, Tick(x, w).gw.live));
  }

  lemma LiveIsApart(x: Setup, w: World, g: Gateway)
    requires g.storage == w.gw.storage
    ensures Rests(x, w, w.(gw := g))
  {
  }

  lemma PostRawRests(x: Setup, w: World, kind: PostKind, raw: Bytes, version: int)
    requires StorageIsOurs(x)
    ensures Rests(x, w, PostRaw(x, w, kind, raw, version).0)
  {
    hide Rests, StorageIsOurs, Tick;
    TickRests(x, w);
    var it, v := x.env(w.clock), Tick(x, w);
    var stale := x.versionLocked && version != v.gw.version;
    var reply := if stale then Response(409) else it.reply;
    var stored := kind.Apply? && (Ok(reply) || (it.lands && !stale));
    var u := if stored then v.(gw := v.gw.(live := x.norm(raw), version := v.gw.version + 1)) else v;
    LiveIsApart(x, v, u.gw);
    assert u == v.(gw := u.gw);
    var e := Post(u.run, kind, raw, reply, stored);
    NoteRests(x, u, e);
    RestsTransitive(x, w, v, u);
    RestsTransitive(x, w, u, Note(u, e));
  }

  lemma RestsSelf(x: Setup, w: World)
    ensures Rests(x, w, w)
  {
  }

  lemma {:induction false} PollRests(x: Setup, w: World, polls: nat, last: Option<Err>)
    requires StorageIsOurs(x) && polls <= MAX_POLLS
    ensures Rests(x, w, Poll(x, w, polls, last).0)
    decreases MAX_POLLS - polls
  {
    hide Rests, StorageIsOurs, ReadVersion;
    RestsSelf(x, w);
    if !(polls == MAX_POLLS || x.env(w.clock).expired) {
      ReadVersionRests(x, w);
      var (v, version) := ReadVersion(x, w);
      if version.Failure? && x.env(v.clock).cancelled.None? {
        PollRests(x, v, polls + 1, Some(version.error));
        RestsTransitive(x, w, v, Poll(x, v, polls + 1, Some(version.error)).0);
      }
    }
  }

  lemma PostAtVersionRests(x: Setup, w: World, kind: PostKind, raw: Bytes)
    requires StorageIsOurs(x)
    ensures Rests(x, w, PostAtVersion(x, w, kind, raw).0)
  {
    hide Rests, StorageIsOurs, ReadVersion, PostRaw;
    ReadVersionRests(x, w);
    var (v, version) := ReadVersion(x, w);
    if version.Success? {
      PostRawRests(x, v, kind, raw, version.value);
      RestsTransitive(x, w, v, PostRaw(x, v, kind, raw, version.value).0);
    }
  }

  lemma ApplyValidatedRests(x: Setup, w: World, raw: Bytes)
    requires StorageIsOurs(x)
    ensures Rests(x, w, ApplyValidated(x, w, raw).0)
  {
    hide Rests, StorageIsOurs, Poll, PostAtVersion;
    PollRests(x, w, 0, None);
    var v := WaitForReady(x, w).0;
    PostAtVersionRests(x, v, Apply, raw);
    RestsTransitive(x, w, v, PostAtVersion(x, v, Apply, raw).0);
  }

  lemma OverlayKeeps(server: Annotations, before: Annotations, after: Annotations, k: Key)
    requires !Touched(k, before, after)
    ensures Lookup(Overlay(server, before, after), k) == Lookup(server, k)
  {
  }

  lemma CommitRests(x: Setup, w: World, c: Copy, ann: Annotations, purpose: Purpose)
    requires Latest(w.log, c.secret.name) == Some(c.rv) && !Touched(CertSync, c.secret.ann, ann) && !purpose.RecordCert?
    ensures Rests(x, w, Commit(w, c, ann, purpose))
  {
    var u := Commit(w, c, ann, purpose);
    var v := w.(log := u.log);
    var e := u.trace[|w.trace|];
    OverlayKeeps(w.log[c.rv].secret.ann, c.secret.ann, ann, CertSync);
    assert |u.log| > |w.log| ==> u.log == w.log + [u.log[|w.log|]];
    assert u == v.(trace := v.trace + [e]) && NotAboutCerts(e);
    hide Rests, Overlay, Touched, Commit;
    RestsSelf(x, w);
    if |u.log| > |w.log| {
      AppendRests(x, w, u.log[|w.log|]);
    }
    CertEventRests(x, v, e);
    RestsTransitive(x, w, v, u);
  }

  lemma CertEventRests(x: Setup, w: World, e: Event)
    requires NotAboutCerts(e)
    ensures Rests(x, w, w.(trace := w.trace + [e]))
  {
    CertSnoc(w.trace, e);
  }

  lemma PatchRests(x: Setup, w: World, c: Copy, ann: Annotations, purpose: Purpose)
    requires StorageIsOurs(x) && !Touched(CertSync, c.secret.ann, ann) && !purpose.RecordCert?
    ensures Rests(x, w, Patch(x, w, c, ann, purpose).0)
  {
    hide Rests, StorageIsOurs, Tick, Commit;
    TickRests(x, w);
    var v := Tick(x, w);
    if Latest(v.log, c.secret.name) == Some(c.rv) {
      CommitRests(x, v, c, ann, purpose);
      RestsTransitive(x, w, v, Commit(v, c, ann, purpose));
    }
  }

  lemma GetOrCreateClientRests(x: Setup, w: World, m: Memory)
    requires StorageIsOurs(x)
    ensures Rests(x, w, GetOrCreateClient(x, w, m).0)
  {
    RestsSelf(x, w);
    TickRests(x, w);
  }

  lemma FailWithStatusRests(x: Setup, w: World, c: Copy, status: Status, failed: Option<Bytes>)
    requires StorageIsOurs(x)
    ensures Rests(x, w, FailWithStatus(x, w, c, status, failed).0)
  {
    hide Rests, StorageIsOurs, Patch;
    PatchRests(x, w, c, FailureAnnotations(c.secret.ann, x.env(w.clock), status, failed), RecordFailure);
  }

  // ---------------------------------------------------------------- the phases without certificates

  /** A phase that leaves the certificates alone, and the hashes remembered for them. */
  ghost predicate StepRests(x: Setup, w: World, m: Memory, c: Copy, s: Step) {
    Rests(x, w, s.w) && s.m.certHashes == m.certHashes && (s.Go? ==> s.c == c)
  }

  lemma RetryRests(x: Setup, w: World, m: Memory, c: Copy, status: Status)
    requires StorageIsOurs(x)
    ensures StepRests(x, w, m, c, Retry(x, w, m, c, status))
  {
    hide Rests, StorageIsOurs, FailWithStatus;
    FailWithStatusRests(x, w, c, status, None);
  }

  lemma RejectRests(x: Setup, w: World, m: Memory, c: Copy, raw: Bytes)
    requires StorageIsOurs(x)
    ensures StepRests(x, w, m, c, Reject(x, w, m, c, raw))
  {
    hide Rests, StorageIsOurs, FailWithStatus;
    FailWithStatusRests(x, w, c, Failed(ConfigRejected), Some(raw));
  }

  lemma CompareLiveRests(x: Setup, w: World, m: Memory, c: Copy, raw: Bytes, live: Bytes)
    requires StorageIsOurs(x)
    ensures StepRests(x, w, m, c, CompareLive(x, w, m, c, raw, live))
  {
    hide Rests, StorageIsOurs, Patch, Note;
    var ann := c.secret.ann;
    var expected := ExpectedLive(ann);
    var e := Checked(w.run, raw, live, expected, Hash(live) != expected);
    NoteRests(x, w, e);
    PatchRests(x, w, c, AdoptedBaseline(ann, live), AdoptBaseline(live));
    PatchRests(x, Note(w, e), c, ClearedStatus(ann), ClearCheckStatus);
    RestsTransitive(x, w, Note(w, e), Patch(x, Note(w, e), c, ClearedStatus(ann), ClearCheckStatus).0);
  }

  lemma DriftCheckRests(x: Setup, w: World, m: Memory, c: Copy, raw: Bytes)
    requires StorageIsOurs(x)
    ensures StepRests(x, w, m, c, DriftCheck(x, w, m, c, raw))
  {
    hide Rests, StorageIsOurs, Retry, CompareLive, ReadLive, BuildClient;
    var (v, n, noClient) := GetOrCreateClient(x, w, m);
    GetOrCreateClientRests(x, w, m);
    if noClient.Some? {
      RetryRests(x, v, n, c, Failed(Classify(noClient.value)));
      RestsTransitive(x, w, v, DriftCheck(x, w, m, c, raw).w);
    } else {
      ReadLiveRests(x, v);
      var (u, live) := ReadLive(x, v);
      RestsTransitive(x, w, v, u);
      if live.Failure? {
        RetryRests(x, u, n, c, DriftCheckFailed(Classify(live.error)));
      } else {
        CompareLiveRests(x, u, n.(transientFailures := 0), c, raw, live.value);
      }
      RestsTransitive(x, w, u, DriftCheck(x, w, m, c, raw).w);
    }
  }

  lemma RecordSuccessRests(x: Setup, w: World, m: Memory, c: Copy, raw: Bytes)
    requires StorageIsOurs(x)
    ensures StepRests(x, w, m, c, RecordSuccess(x, w, m, c, raw))
  {
    hide Rests, StorageIsOurs, Patch, ReadLive;
    ReadLiveRests(x, w);
    var (v, live) := ReadLive(x, w);
    var observed := if live.Success? then Hash(live.value) else Pending;
    var ann := RecordedApply(c.secret.ann, x.env(v.clock), raw, observed);
    PatchRests(x, v, c, ann, RecordApply(raw, observed));
    RestsTransitive(x, w, v, Patch(x, v, c, ann, RecordApply(raw, observed)).0);
  }

  lemma ApplyPhaseRests(x: Setup, w: World, m: Memory, c: Copy, raw: Bytes)
    requires StorageIsOurs(x)
    ensures StepRests(x, w, m, c, ApplyPhase(x, w, m, c, raw))
  {
    hide Rests, StorageIsOurs, ApplyValidated, Retry, Reject, RecordSuccess;
    ApplyValidatedRests(x, w, raw);
    var (v, err) := ApplyValidated(x, w, raw);
    if err.None? {
      RecordSuccessRests(x, v, m.(transientFailures := 0), c, raw);
    } else {
      RejectRests(x, v, m, c, raw);
      RetryRests(x, v, m, c, ApplyFailed(Classify(err.value)));
    }
    RestsTransitive(x, w, v, ApplyPhase(x, w, m, c, raw).w);
  }

  lemma ValidatePhaseRests(x: Setup, w: World, m: Memory, c: Copy, raw: Bytes)
    requires StorageIsOurs(x)
    ensures StepRests(x, w, m, c, ValidatePhase(x, w, m, c, raw))
  {
    hide Rests, StorageIsOurs, PostAtVersion, Retry, Reject, ApplyPhase;
    RestsSelf(x, w);
    PostAtVersionRests(x, w, ValidateOnly, raw);
    var (v, err) := Validate(x, w, raw);
    ApplyPhaseRests(x, v, m, c, raw);
    if err.Some? {
      RejectRests(x, v, m, c, raw);
      RetryRests(x, v, m, c, Failed(Classify(err.value)));
    }
    RestsTransitive(x, w, v, ValidatePhase(x, w, m, c, raw).w);
  }
}
