/** Recording, adopting and checking a baseline keep the book, and so do whole Reconciles and runs. */
module Bookkeeping {
  import opened Prelude
  import opened Errors
  import opened Platform
  import opened Dataplane
  import opened Reconciliation
  import opened Safety
  import opened Actions
  import opened Steadiness
  import opened History
  import opened Tracking
  import opened Ledger

  // ---------------------------------------------------------------- certificates

  ghost predicate PushSafe(x: Setup, w: World, state: Option<Copy>, p: Push) {
    && Safe(x, w, p.w)
    && (state.Some? ==> p.state.Some? && Known(x, p.w, p.state.value)
                        && p.state.value.secret.data == state.value.secret.data)
  }

  /** Safe so far, from a book that is kept, with a copy that is known. */
  ghost predicate Ready(x: Setup, w: World, state: Option<Copy>) {
    Assumed(x) && Book(x, w) && (state.Some? ==> Known(x, w, state.value))
  }

  lemma ReadyLater(x: Setup, w: World, v: World, state: Option<Copy>)
    requires Ready(x, w, state) && Safe(x, w, v)
    ensures Ready(x, v, state)
  {
    hide Safe, Known, Book;
    SafeBook(x, w, v);
    if state.Some? {
      KnownLater(x, w, v, state.value);
    }
  }

  lemma NoteSyncSafe(x: Setup, w: World, state: Option<Copy>, e: Event)
    requires Ready(x, w, state) && Bare(e)
    ensures Safe(x, w, Note(w, e)) && Ready(x, Note(w, e), state)
  {
    hide Safe, Ready, Note;
    NoteBareSafe(x, w, e);
    ReadyLater(x, w, Note(w, e), state);
  }

  lemma NotPushedSafe(x: Setup, w: World, m: Memory, state: Option<Copy>, name: string, err: Err)
    requires Ready(x, w, state)
    ensures PushSafe(x, w, state, NotPushed(w, m, state, name, err))
  {
    hide Safe, Known, Book, Note;
    NoteSyncSafe(x, w, state, CertNotSynced(w.run, name));
  }

  lemma PushSafeAfter(x: Setup, w: World, v: World, state: Option<Copy>, p: Push)
    requires Safe(x, w, v) && PushSafe(x, v, state, p)
    ensures PushSafe(x, w, state, p)
  {
    SafeTransitive(x, w, v, p.w);
  }

  lemma RecordPushSafe(
    x: Setup, w: World, m: Memory, name: string, bundle: Bytes, state: Option<Copy>, changed: bool)
    requires Ready(x, w, state)
    ensures PushSafe(x, w, state, RecordPush(x, w, m, name, bundle, state, changed))
  {
    hide Safe, Known, Book, Patch, Note, Assumed;
    if state.Some? && (changed || !RecordedHash(CertSyncState(state), name, bundle)) {
      var c := state.value;
      var ann := WithRecord(c, name, CertEntry(bundle, x.env(w.clock).now));
      PatchSafe(x, w, c, ann, RecordCert(name));
      var (v, d, reply) := Patch(x, w, c, ann, RecordCert(name));
      SafeBook(x, w, v);
      NoteSyncSafe(x, v, Some(d), CertSynced(v.run, name));
      NoteSyncSafe(x, v, Some(d), CertNotSynced(v.run, name));
      SafeTransitive(x, w, v, Note(v, CertSynced(v.run, name)));
      SafeTransitive(x, w, v, Note(v, CertNotSynced(v.run, name)));
    } else {
      NoteSyncSafe(x, w, state, CertSynced(w.run, name));
    }
  }

  lemma PushCertSecretSafe(x: Setup, w: World, m: Memory, secret: Secret, state: Option<Copy>)
    requires Ready(x, w, state)
    ensures PushSafe(x, w, state, PushCertSecret(x, w, m, secret, state))
  {
    assert Assumed(x);
    hide PushSafe, Ready, Safe, SyncSSLCertificate, RecordPush, CertPEMBundle, NotPushed, Assumed;
    var bundle := CertPEMBundle(secret);
    if bundle.Failure? {
      NotPushedSafe(x, w, m, state, secret.name, bundle.error);
    } else {
      var b := bundle.value;
      var previouslySynced := RecordedHash(CertSyncState(state), secret.name, b)
                              || (secret.name in m.certHashes && m.certHashes[secret.name] == b);
      SyncSSLCertificateSafe(x, w, secret.name, b, previouslySynced);
      var (v, changed) := SyncSSLCertificate(x, w, secret.name, b, previouslySynced);
      ReadyLater(x, w, v, state);
      var p := PushCertSecret(x, w, m, secret, state);
      if changed.Success? {
        RecordPushSafe(x, v, m.(certHashes := m.certHashes[secret.name := b]), secret.name, b, state, changed.value);
      } else {
        NotPushedSafe(x, v, m, state, secret.name, changed.error);
      }
      PushSafeAfter(x, w, v, state, p);
    }
  }

  lemma PushedIsReady(x: Setup, w: World, state: Option<Copy>, p: Push)
    requires Ready(x, w, state) && PushSafe(x, w, state, p)
    ensures state.Some? ==> p.state.Some? && Ready(x, p.w, p.state)
    ensures Safe(x, w, p.w) && (state.Some? ==> p.state.value.secret.data == state.value.secret.data)
  {
    hide Safe, Known, Book;
    SafeBook(x, w, p.w);
  }

  lemma {:induction false} EnsureSafe(x: Setup, w: World, m: Memory, c: Copy, i: nat)
    requires Ready(x, w, Some(c)) && i <= |x.certs|
    ensures PushSafe(x, w, Some(c), EnsureCertSecretsSynced(x, w, m, c, i))
    decreases |x.certs| - i
  {
    assert Assumed(x) && Book(x, w);
    hide PushSafe, Ready, Safe, Get, PushCertSecret, Assumed, NotPushed, Book, EnsureCertSecretsSynced;
    EnsureUnfolds(x, w, m, c, i);
    if i == |x.certs| {
      SelfPushSafe(x, w, m, c);
    } else {
      GetSafe(x, w, x.certs[i]);
      var (v, got) := Get(x, w, x.certs[i]);
      ReadyLater(x, w, v, Some(c));
      var p := EnsureCertSecretsSynced(x, w, m, c, i);
      if !got.Found? {
        NotPushedSafe(x, v, m, Some(c), x.certs[i], Context(PLAIN, Leaf(Opaque, PLAIN)));
      } else {
        PushCertSecretSafe(x, v, m, got.copy.secret, Some(c));
        var q := PushCertSecret(x, v, m, got.copy.secret, Some(c));
        PushedIsReady(x, v, Some(c), q);
        if q.result.Success? {
          EnsureSafe(x, q.w, q.m, q.state.value, i + 1);
          PushThenRest(x, v, c, q, p);
        } else {
          SamePush(x, v, c, q, p);
        }
      }
      PushSafeAfter(x, w, v, Some(c), p);
    }
  }

  lemma EnsureUnfolds(x: Setup, w: World, m: Memory, c: Copy, i: nat)
    requires i <= |x.certs|
    ensures var p := EnsureCertSecretsSynced(x, w, m, c, i);
            if i == |x.certs| then p == Push(w, m, Some(c), Success(true))
            else
              var (v, got) := Get(x, w, x.certs[i]);
              if !got.Found? then p == NotPushed(v, m, Some(c), x.certs[i], Context(PLAIN, Leaf(Opaque, PLAIN)))
              else
                var q := PushCertSecret(x, v, m, got.copy.secret, Some(c));
                if q.result.Success? then p == EnsureCertSecretsSynced(x, q.w, q.m, q.state.value, i + 1)
                else p.w == q.w && p.state == q.state
  {
    hide Get, PushCertSecret, NotPushed;
  }

  lemma SelfPushSafe(x: Setup, w: World, m: Memory, c: Copy)
    requires Ready(x, w, Some(c))
    ensures PushSafe(x, w, Some(c), Push(w, m, Some(c), Success(true)))
  {
    SafeSelf(x, w);
  }

  lemma PushThenRest(x: Setup, w: World, c: Copy, q: Push, p: Push)
    requires PushSafe(x, w, Some(c), q) && q.state.Some? && PushSafe(x, q.w, q.state, p)
    ensures PushSafe(x, w, Some(c), p)
  {
    SafeTransitive(x, w, q.w, p.w);
  }

  lemma SamePush(x: Setup, w: World, c: Copy, q: Push, p: Push)
    requires PushSafe(x, w, Some(c), q) && p.w == q.w && p.state == q.state
    ensures PushSafe(x, w, Some(c), p)
  {
  }

  // ---------------------------------------------------------------- status patches

  lemma FailWithStatusSafe(x: Setup, w: World, c: Copy, status: Status, failed: Option<Bytes>)
    requires Ready(x, w, Some(c))
    ensures Book(x, FailWithStatus(x, w, c, status, failed).0)
  {
    var ann := FailureAnnotations(c.secret.ann, x.env(w.clock), status, failed);
    assert SameBaseline(c.secret.ann, ann);
    hide Safe, Book, Assumed, Known, Patch, SameBaseline;
    PatchSafe(x, w, c, ann, RecordFailure);
    SafeBook(x, w, Patch(x, w, c, ann, RecordFailure).0);
  }

  lemma RetrySafe(x: Setup, w: World, m: Memory, c: Copy, status: Status)
    requires Ready(x, w, Some(c))
    ensures Book(x, Retry(x, w, m, c, status).w) && Retry(x, w, m, c, status).Done?
  {
    hide Book, Ready, FailWithStatus;
    FailWithStatusSafe(x, w, c, status, None);
  }

  lemma RejectSafe(x: Setup, w: World, m: Memory, c: Copy, raw: Bytes)
    requires Ready(x, w, Some(c))
    ensures Book(x, Reject(x, w, m, c, raw).w) && Reject(x, w, m, c, raw).Done?
  {
    hide Book, Ready, FailWithStatus;
    FailWithStatusSafe(x, w, c, Failed(ConfigRejected), Some(raw));
  }

  // ---------------------------------------------------------------- entering a baseline

  lemma MergedBaseline(w: World, c: Copy, ann: Annotations)
    requires Tracks(w, c, LastAppliedHash) && Tracks(w, c, LastObservedHash)
    ensures SameBaseline(ann, Overlay(w.log[c.rv].secret.ann, c.secret.ann, ann))
  {
  }

  /** Committing a record puts the applied hash and the baseline it names on the server. */
  lemma RecordReachesServer(x: Setup, w: World, c: Copy, ann: Annotations, purpose: Purpose)
    requires Tracks(w, c, LastAppliedHash) && Tracks(w, c, LastObservedHash) && c.secret.name == x.secretName
    requires Latest(w.log, c.secret.name) == Some(c.rv)
    ensures var u := Commit(w, c, ann, purpose);
            var now := CurrentAnn(u.log, x.secretName);
            && SameBaseline(ann, now) && u.gw == w.gw && w.log <= u.log
            && (exists index: nat :: index < |u.log| && u.log[index].secret.ann == now
                                && u.trace == w.trace + [Patched(w.run, c.rv, index, purpose)])
            && forall i :: |w.log| <= i < |u.log| ==> u.log[i].secret.ann == now
  {
    hide Overlay, SameBaseline;
    var u := Commit(w, c, ann, purpose);
    var server := w.log[c.rv].secret;
    var merged := Overlay(server.ann, c.secret.ann, ann);
    MergedBaseline(w, c, ann);
    hide Tracks;
    CommittedAnnotations(w, c, ann, purpose);
    if merged != server.ann {
      assert u.log == w.log + [Revision(server.(ann := merged), true)];
      LatestAfterAppend(w.log, u.log[|w.log|], x.secretName);
      assert u.trace == w.trace + [Patched(w.run, c.rv, |w.log|, purpose)];
    } else {
      assert u.trace == w.trace + [Patched(w.run, c.rv, c.rv, purpose)];
    }
  }

  lemma SameBaselineShows(a: Annotations, b: Annotations, raw: Bytes, v: Value)
    requires SameBaseline(a, b) && Shows(a, raw, v)
    ensures Shows(b, raw, v) && (LastAppliedHash in a <==> LastAppliedHash in b)
  {
  }

  /** A justified entry, shown by the current revision, keeps the book. */
  lemma EntryKeepsBook(x: Setup, w: World, u: World, e: Event, raw: Bytes, v: Value)
    requires Book(x, w) && w.log <= u.log && u.trace == w.trace + [e] && u.gw == w.gw
    requires e.Patched? && (RecordsApply(e) || AdoptsBaseline(e)) && (v == Pending || v.Hash?)
    requires NoLostRecord(w.trace) ==> Entry(x, u.log, u.trace, |w.trace|)
    requires NoLostRecord(w.trace) ==> !Unrecorded(u.trace) && LastAccepted(u.trace) == Some(raw) && Noted(u.trace) == v
    requires var now := CurrentAnn(u.log, x.secretName);
             && Shows(now, raw, v) && LastAppliedHash in now
             && forall i :: |w.log| <= i < |u.log| ==> u.log[i].secret.ann == now
    ensures Book(x, u)
  {
    Snoc(w.trace, e);
    ServedSnoc(x.norm, w.trace, e);
    var now := CurrentAnn(u.log, x.secretName);
    assert u.trace[..|u.trace|] == u.trace;
    if NoLostRecord(w.trace) {
      assert ShowsAt(u.trace, |u.trace|, now);
    }
    hide Entry, Noted, LastAccepted, Unrecorded, Served, NoLostRecord, ShowsAt;
    BookStep(x, w, u);
  }

  lemma ReadForSnoc(t: seq<Event>, e: Event, run: nat, live: Bytes)
    requires ReadFor(t, |t|, run, live)
    ensures ReadFor(t + [e], |t|, run, live)
  {
    ReadForLater(t, t + [e], |t|, run, live);
  }

  /** Recording the apply that is owed. */
  lemma RecordCommitBooked(x: Setup, w: World, c: Copy, ann: Annotations, raw: Bytes, observed: Value)
    requires Owed(x, w, raw) && Tracks(w, c, LastAppliedHash) && Tracks(w, c, LastObservedHash)
    requires c.secret.name == x.secretName && Latest(w.log, c.secret.name) == Some(c.rv)
    requires Shows(ann, raw, observed) && LastAppliedHash in ann
    requires observed == Pending || (observed.Hash? && ReadFor(w.trace, |w.trace|, w.run, observed.of))
    ensures Book(x, Commit(w, c, ann, RecordApply(raw, observed)))
  {
    var purpose := RecordApply(raw, observed);
    var u := Commit(w, c, ann, purpose);
    hide Commit, Tracks, SameBaseline, Shows, ReadFor, Book;
    RecordReachesServer(x, w, c, ann, purpose);
    var now := CurrentAnn(u.log, x.secretName);
    SameBaselineShows(ann, now, raw, observed);
    var index: nat :| index < |u.log| && u.log[index].secret.ann == now
                 && u.trace == w.trace + [Patched(w.run, c.rv, index, purpose)];
    var e := Patched(w.run, c.rv, index, purpose);
    Snoc(w.trace, e);
    assert u.trace[..|w.trace|] == w.trace;
    if observed.Hash? {
      ReadForSnoc(w.trace, e, w.run, observed.of);
    }
    assert Entry(x, u.log, u.trace, |w.trace|);
    hide Entry, Noted, LastAccepted, Unrecorded;
    EntryKeepsBook(x, w, u, e, raw, observed);
  }

  /** No apply is waiting to be recorded: true from the start of a Reconcile until it applies. */
  ghost predicate Tidy(w: World) {
    NoLostRecord(w.trace) ==> !Unrecorded(w.trace)
  }

  lemma TidyLater(x: Setup, w: World, v: World)
    requires Tidy(w) && Safe(x, w, v)
    ensures Tidy(v)
  {
    FreeIsPlain(w, v);
    PlainStretch(w.trace, v.trace);
  }

  /** Adopting a baseline for an apply whose baseline is pending. */
  lemma AdoptCommitBooked(x: Setup, w: World, c: Copy, ann: Annotations, raw: Bytes, live: Bytes)
    requires Book(x, w) && Tidy(w) && Tracks(w, c, LastAppliedHash) && Tracks(w, c, LastObservedHash)
    requires c.secret.name == x.secretName && Latest(w.log, c.secret.name) == Some(c.rv)
    requires Shows(c.secret.ann, raw, Pending) && Shows(ann, raw, Hash(live)) && LastAppliedHash in ann
    requires ReadFor(w.trace, |w.trace|, w.run, live)
    ensures Book(x, Commit(w, c, ann, AdoptBaseline(live)))
  {
    hide Commit, Tracks, SameBaseline, Shows, ReadFor, Book, Entry, Noted, LastAccepted, Unrecorded, RecordAt,
         Latest;
    var purpose := AdoptBaseline(live);
    var u := Commit(w, c, ann, purpose);
    if NoLostRecord(w.trace) {
      PendingOnRecord(x, w, c, raw);
    }
    RecordReachesServer(x, w, c, ann, purpose);
    var now := CurrentAnn(u.log, x.secretName);
    SameBaselineShows(ann, now, raw, Hash(live));
    var index: nat :| index < |u.log| && u.log[index].secret.ann == now
                 && u.trace == w.trace + [Patched(w.run, c.rv, index, purpose)];
    var e := Patched(w.run, c.rv, index, purpose);
    Snoc(w.trace, e);
    assert w.trace[..|w.trace|] == w.trace;
    ReadForSnoc(w.trace, e, w.run, live);
    if NoLostRecord(w.trace) {
      AdoptEntry(x, u.log, w.trace, e, raw);
    }
    EntryKeepsBook(x, w, u, e, raw, Hash(live));
  }

  lemma AdoptEntry(x: Setup, log: Log, t: seq<Event>, e: Event, raw: Bytes)
    requires AdoptsBaseline(e) && RecordAt(t, |t|, raw, Pending) && ReadFor(t + [e], |t|, e.run, e.purpose.live)
    requires e.index < |log| && Shows(log[e.index].secret.ann, raw, Hash(e.purpose.live))
    ensures Entry(x, log, t + [e], |t|)
    ensures LastAccepted(t) == Some(raw) && !Unrecorded(t)
  {
    assert (t + [e])[..|t|] == t && t[..|t|] == t;
    RecordAtLater(t, t + [e], |t|, raw, Pending);
  }

  lemma PendingOnRecord(x: Setup, w: World, c: Copy, raw: Bytes)
    requires Book(x, w) && Tidy(w) && Tracks(w, c, LastAppliedHash) && Tracks(w, c, LastObservedHash)
    requires c.secret.name == x.secretName && Latest(w.log, c.secret.name) == Some(c.rv)
    requires Shows(c.secret.ann, raw, Pending) && NoLostRecord(w.trace)
    ensures RecordAt(w.trace, |w.trace|, raw, Pending)
  {
    assert ShownNow(w.trace, CurrentAnn(w.log, x.secretName));
  }

  /** The last read stays the one a patch rests on, whatever others do before it is committed. */
  lemma ReadIsFor(x: Setup, w: World, v: World, live: Bytes)
    requires JustReadLive(w, live) && Safe(x, w, v) && !v.down && !w.down
    ensures ReadFor(v.trace, |v.trace|, v.run, live)
  {
    FreeIsPlain(w, v);
    var j := |w.trace| - 1;
    assert v.trace[j] == LiveRead(v.run, live) && v.trace[..|v.trace|] == v.trace;
    assert Plain(v.trace[..|v.trace|], j);
  }

  lemma TickDown(x: Setup, w: World)
    ensures w.down ==> Tick(x, w).down
  {
  }

  // ---------------------------------------------------------------- recording an apply

  lemma RecordPatchBooked(x: Setup, w: World, c: Copy, ann: Annotations, raw: Bytes, observed: Value)
    requires Assumed(x) && Owed(x, w, raw) && Shows(ann, raw, observed) && LastAppliedHash in ann
    requires Tracks(w, c, LastAppliedHash) && Tracks(w, c, LastObservedHash) && c.secret.name == x.secretName
    requires observed == Pending || (observed.Hash? && JustReadLive(w, observed.of))
    ensures Book(x, Patch(x, w, c, ann, RecordApply(raw, observed)).0)
  {
    hide Safe, Assumed, Owed, Tick, Commit, Patch, Shows, Tracks, ReadFor, JustReadLive;
    PatchEnds(x, w, c, ann, RecordApply(raw, observed));
    TickSafe(x, w);
    TickDown(x, w);
    var v := Tick(x, w);
    OwedLater(x, w, v, raw);
    OwedIsBook(x, v, raw);
    SafeGrowsLog(x, w, v);
    TracksLater(w, v, c, LastAppliedHash);
    TracksLater(w, v, c, LastObservedHash);
    if !v.down && Latest(v.log, c.secret.name) == Some(c.rv) {
      if observed.Hash? {
        ReadIsFor(x, w, v, observed.of);
      }
      RecordCommitBooked(x, v, c, ann, raw, observed);
    }
  }

  lemma OwedIsBook(x: Setup, w: World, raw: Bytes)
    requires Owed(x, w, raw)
    ensures Book(x, w)
  {
  }

  lemma SafeGrowsLog(x: Setup, w: World, v: World)
    requires Safe(x, w, v)
    ensures w.log <= v.log
  {
  }

  lemma RecordSuccessSafe(x: Setup, w: World, m: Memory, c: Copy, raw: Bytes)
    requires Assumed(x) && Owed(x, w, raw)
    requires Tracks(w, c, LastAppliedHash) && Tracks(w, c, LastObservedHash) && c.secret.name == x.secretName
    ensures Book(x, RecordSuccess(x, w, m, c, raw).w) && RecordSuccess(x, w, m, c, raw).Done?
  {
    hide Safe, Assumed, Owed, ReadLive, Patch, RecordedApply, Tracks, JustReadLive, Book;
    var (v, live) := ReadLive(x, w);
    ReadLiveSafe(x, w);
    OwedLater(x, w, v, raw);
    SafeGrowsLog(x, w, v);
    TracksLater(w, v, c, LastAppliedHash);
    TracksLater(w, v, c, LastObservedHash);
    var observed := if live.Success? then Hash(live.value) else Pending;
    var ann := RecordedApply(c.secret.ann, x.env(v.clock), raw, observed);
    RecordedFacts(c.secret.ann, x.env(v.clock), raw, observed);
    RecordPatchBooked(x, v, c, ann, raw, observed);
  }

  // ---------------------------------------------------------------- the drift check

  lemma AdoptSafe(x: Setup, w: World, c: Copy, raw: Bytes, live: Bytes)
    requires Ready(x, w, Some(c)) && Tidy(w) && JustReadLive(w, live) && Shows(c.secret.ann, raw, Pending)
    ensures Book(x, Patch(x, w, c, AdoptedBaseline(c.secret.ann, live), AdoptBaseline(live)).0)
  {
    var ann := AdoptedBaseline(c.secret.ann, live);
    assert Shows(ann, raw, Hash(live)) && LastAppliedHash in ann;
    assert Tracks(w, c, LastAppliedHash) && Tracks(w, c, LastObservedHash) && c.secret.name == x.secretName;
    hide Safe, Assumed, Book, Tick, Commit, Patch, Shows, Tracks, ReadFor, JustReadLive, AdoptedBaseline, Tidy;
    PatchEnds(x, w, c, ann, AdoptBaseline(live));
    TickSafe(x, w);
    TickDown(x, w);
    var v := Tick(x, w);
    SafeBook(x, w, v);
    TidyLater(x, w, v);
    TracksLater(w, v, c, LastAppliedHash);
    TracksLater(w, v, c, LastObservedHash);
    if !v.down && Latest(v.log, c.secret.name) == Some(c.rv) {
      ReadIsFor(x, w, v, live);
      AdoptCommitBooked(x, v, c, ann, raw, live);
    }
  }

  /** The copy's record is that of some moment, and of now if it was read fresh. */
  lemma KnownRecord(x: Setup, w: World, c: Copy, raw: Bytes)
    requires Known(x, w, c) && Tidy(w) && NoLostRecord(w.trace) && Lookup(c.secret.ann, LastAppliedHash) == Hash(raw)
    ensures var v := Lookup(c.secret.ann, LastObservedHash);
            && (exists n :: RecordAt(w.trace, n, raw, v))
            && (NoStaleReads(x) ==> RecordAt(w.trace, |w.trace|, raw, v))
  {
    var n :| ShowsAt(w.trace, n, c.secret.ann);
    assert RecordAt(w.trace, n, raw, Lookup(c.secret.ann, LastObservedHash));
  }

  lemma NoteCheckedSafe(x: Setup, w: World, c: Copy, raw: Bytes, live: Bytes)
    requires Ready(x, w, Some(c)) && Tidy(w) && JustReadLive(w, live)
    requires Lookup(c.secret.ann, LastAppliedHash) == Hash(raw) && ExpectedLive(c.secret.ann) != Pending
    ensures var expected := ExpectedLive(c.secret.ann);
            Safe(x, w, Note(w, Checked(w.run, raw, live, expected, Hash(live) != expected)))
  {
    var expected := ExpectedLive(c.secret.ann);
    var e := Checked(w.run, raw, live, expected, Hash(live) != expected);
    var t := w.trace + [e];
    if w.down {
      SafeSelf(x, w);
    } else {
      if NoLostRecord(w.trace) {
        KnownRecord(x, w, c, raw);
        var v := Lookup(c.secret.ann, LastObservedHash);
        var n :| RecordAt(w.trace, n, raw, v);
        RecordAtLater(w.trace, t, n, raw, v);
        if NoStaleReads(x) {
          RecordAtLater(w.trace, t, |w.trace|, raw, v);
        }
        assert expected == v && v.Hash?;
        assert t[|w.trace| - 1] == w.trace[|w.trace| - 1];
        hide RecordAt, NoStaleReads;
        assert Entry(x, w.log, t, |w.trace|);
      }
      hide Entry, Book;
      NoteSafe(x, w, e);
    }
  }

  ghost predicate StepSafe(x: Setup, w: World, s: Step) {
    Book(x, s.w) && (s.Go? ==> Safe(x, w, s.w) && Ready(x, s.w, Some(s.c)))
  }

  lemma CompareLiveSafe(x: Setup, w: World, m: Memory, c: Copy, raw: Bytes, live: Bytes)
    requires Ready(x, w, Some(c)) && Tidy(w) && JustReadLive(w, live)
    requires Lookup(c.secret.ann, LastAppliedHash) == Hash(raw)
    ensures StepSafe(x, w, CompareLive(x, w, m, c, raw, live))
  {
    var ann := c.secret.ann;
    var expected := ExpectedLive(ann);
    if expected == Pending {
      hide Book, Ready, Patch, JustReadLive, Tidy;
      AdoptSafe(x, w, c, raw, live);
    } else {
      var v := Note(w, Checked(w.run, raw, live, expected, Hash(live) != expected));
      NoteCheckedSafe(x, w, c, raw, live);
      ReadyLater(x, w, v, Some(c));
      ReadyIsBook(x, v, c);
      assert SameBaseline(ann, ClearedStatus(ann));
      hide Safe, Assumed, Patch, Note, Book, Known, JustReadLive, Tidy, SameBaseline;
      PatchSafe(x, v, c, ClearedStatus(ann), ClearCheckStatus);
      SafeBook(x, v, Patch(x, v, c, ClearedStatus(ann), ClearCheckStatus).0);
    }
  }

  lemma ReadyIsBook(x: Setup, w: World, c: Copy)
    requires Ready(x, w, Some(c))
    ensures Assumed(x) && Book(x, w) && Known(x, w, c)
  {
  }

  lemma DriftCheckSafe(x: Setup, w: World, m: Memory, c: Copy, raw: Bytes)
    requires Ready(x, w, Some(c)) && Tidy(w) && Lookup(c.secret.ann, LastAppliedHash) == Hash(raw)
    ensures StepSafe(x, w, DriftCheck(x, w, m, c, raw))
  {
    ReadyIsBook(x, w, c);
    hide Safe, Ready, Tidy, Book, Assumed, Known, JustReadLive, GetOrCreateClient, ReadLive, Retry, CompareLive;
    var s := DriftCheck(x, w, m, c, raw);
    var (v, n, noClient) := GetOrCreateClient(x, w, m);
    GetOrCreateClientSafe(x, w, m);
    ReadyLater(x, w, v, Some(c));
    if noClient.Some? {
      RetrySafe(x, v, n, c, Failed(Classify(noClient.value)));
    } else {
      var (u, live) := ReadLive(x, v);
      ReadLiveSafe(x, v);
      ReadyLater(x, v, u, Some(c));
      SafeTransitive(x, w, v, u);
      TidyLater(x, w, u);
      if live.Failure? {
        RetrySafe(x, u, n, c, DriftCheckFailed(Classify(live.error)));
      } else {
        CompareLiveSafe(x, u, n.(transientFailures := 0), c, raw, live.value);
        if s.Go? {
          SafeTransitive(x, w, u, s.w);
        }
      }
    }
  }

  // ---------------------------------------------------------------- validate and apply

  lemma ApplyPhaseSafe(x: Setup, w: World, m: Memory, c: Copy, raw: Bytes)
    requires Ready(x, w, Some(c))
    ensures Book(x, ApplyPhase(x, w, m, c, raw).w) && ApplyPhase(x, w, m, c, raw).Done?
  {
    ReadyIsBook(x, w, c);
    KnownTracks(x, w, c);
    hide Safe, Ready, Book, Assumed, Known, Owed, Tracks, ApplyValidated, Retry, Reject, RecordSuccess;
    ApplyValidatedSafe(x, w, raw);
    var (v, err) := ApplyValidated(x, w, raw);
    if err.None? {
      TracksLater(w, v, c, LastAppliedHash);
      TracksLater(w, v, c, LastObservedHash);
      RecordSuccessSafe(x, v, m.(transientFailures := 0), c, raw);
    } else {
      ReadyLater(x, w, v, Some(c));
      RejectSafe(x, v, m, c, raw);
      RetrySafe(x, v, m, c, ApplyFailed(Classify(err.value)));
    }
  }

  lemma KnownTracks(x: Setup, w: World, c: Copy)
    requires Known(x, w, c)
    ensures Tracks(w, c, LastAppliedHash) && Tracks(w, c, LastObservedHash) && c.secret.name == x.secretName
  {
  }

  lemma ValidatePhaseSafe(x: Setup, w: World, m: Memory, c: Copy, raw: Bytes)
    requires Ready(x, w, Some(c))
    ensures Book(x, ValidatePhase(x, w, m, c, raw).w) && ValidatePhase(x, w, m, c, raw).Done?
  {
    ReadyIsBook(x, w, c);
    hide Safe, Ready, Book, Assumed, Known, PostAtVersion, Retry, Reject, ApplyPhase;
    SafeSelf(x, w);
    PostAtVersionSafe(x, w, ValidateOnly, raw);
    var (v, err) := Validate(x, w, raw);
    ReadyLater(x, w, v, Some(c));
    ApplyPhaseSafe(x, v, m, c, raw);
    if err.Some? {
      RejectSafe(x, v, m, c, raw);
      RetrySafe(x, v, m, c, Failed(Classify(err.value)));
    }
  }

  lemma PushDesiredSafe(x: Setup, w: World, m: Memory, c: Copy, raw: Bytes)
    requires Ready(x, w, Some(c))
    ensures Book(x, PushDesired(x, w, m, c, raw).w) && PushDesired(x, w, m, c, raw).Done?
  {
    ReadyIsBook(x, w, c);
    hide Safe, Ready, Book, Assumed, Known, GetOrCreateClient, EnsureCertSecretsSynced, Retry, ValidatePhase, PushSafe;
    var n := Desire(m, raw);
    GetOrCreateClientSafe(x, w, n);
    var (v, o, noClient) := GetOrCreateClient(x, w, n);
    ReadyLater(x, w, v, Some(c));
    if noClient.Some? {
      RetrySafe(x, v, o, c, Failed(Classify(noClient.value)));
    } else {
      EnsureSafe(x, v, o, c, 0);
      var p := EnsureCertSecretsSynced(x, v, o, c, 0);
      PushedIsReady(x, v, Some(c), p);
      if p.result.Failure? {
        RetrySafe(x, p.w, p.m, p.state.value, CertSyncFailed(Classify(p.result.error)));
      } else {
        ValidatePhaseSafe(x, p.w, p.m, p.state.value, raw);
      }
    }
  }

  lemma ConfigPhaseSafe(x: Setup, w: World, m: Memory, c: Copy)
    requires Ready(x, w, Some(c)) && Tidy(w)
    ensures Book(x, ConfigPhase(x, w, m, c).w)
  {
    ReadyIsBook(x, w, c);
    hide Safe, Ready, Book, Assumed, Known, Tidy, FailWithStatus, DriftCheck, PushDesired;
    if x.secretKey !in c.secret.data {
      FailWithStatusSafe(x, w, c, MissingKey, None);
    } else {
      var raw := c.secret.data[x.secretKey];
      if Lookup(c.secret.ann, LastAppliedHash) != Hash(raw) {
        PushDesiredSafe(x, w, m, c, raw);
      } else {
        DriftCheckSafe(x, w, m, c, raw);
        var s := DriftCheck(x, w, m, c, raw);
        if s.Go? {
          PushDesiredSafe(x, s.w, s.m, s.c, raw);
        }
      }
    }
  }

  // ---------------------------------------------------------------- certificate events

  lemma AfterCertPushSafe(x: Setup, w: World, m: Memory, c: Copy)
    requires Ready(x, w, Some(c))
    ensures var s := AfterCertPush(x, w, m, c); s.Go? && Safe(x, w, s.w) && Ready(x, s.w, Some(s.c))
  {
    ReadyIsBook(x, w, c);
    SafeSelf(x, w);
    hide Safe, Book, Assumed, Known, Patch, SameBaseline;
    if CertStatus(c.secret.ann) {
      ClearedBaseline(c.secret.ann);
      PatchSafe(x, w, c, ClearedStatus(c.secret.ann), ClearCertStatus);
      var (v, d, _) := Patch(x, w, c, ClearedStatus(c.secret.ann), ClearCertStatus);
      SafeBook(x, w, v);
      ClearedBaseline(d.secret.ann);
      SameBaselineKnown(x, v, d, d.secret.ann - {LastFailedHash});
    } else {
      ClearedBaseline(c.secret.ann);
      SameBaselineKnown(x, w, c, c.secret.ann - {LastFailedHash});
    }
  }

  lemma ClearedBaseline(ann: Annotations)
    ensures SameBaseline(ann, ClearedStatus(ann)) && SameBaseline(ann, ann - {LastFailedHash})
  {
  }

  lemma SyncCertSecretSafe(x: Setup, w: World, m: Memory, secret: Secret, state: Option<Copy>)
    requires Ready(x, w, state)
    ensures PushSafe(x, w, state, SyncCertSecret(x, w, m, secret, state))
  {
    assert Assumed(x);
    hide PushSafe, Ready, Safe, GetOrCreateClient, PushCertSecret, NotPushed, Assumed;
    GetOrCreateClientSafe(x, w, m);
    var (v, n, err) := GetOrCreateClient(x, w, m);
    ReadyLater(x, w, v, state);
    if err.Some? {
      NotPushedSafe(x, v, n, state, secret.name, err.value);
    } else {
      PushCertSecretSafe(x, v, n, secret, state);
    }
    PushSafeAfter(x, w, v, state, SyncCertSecret(x, w, m, secret, state));
  }

  lemma CertFailedSafe(x: Setup, p: Push)
    requires Ready(x, p.w, p.state) && p.result.Failure?
    ensures var s := CertFailed(x, p.w, p.m, p.state, p.result.error); Book(x, s.w) && s.Done?
  {
    hide Book, Known, Assumed, Retry;
    if p.state.Some? {
      RetrySafe(x, p.w, p.m, p.state.value, CertSyncFailed(Classify(p.result.error)));
    }
  }

  lemma NoStateReady(x: Setup, w: World, state: Option<Copy>, p: Push)
    requires Ready(x, w, state) && PushSafe(x, w, state, p) && p.state.Some? == state.Some?
    ensures Ready(x, p.w, p.state) && Safe(x, w, p.w)
  {
    hide Safe, Known, Book;
    SafeBook(x, w, p.w);
  }

  lemma CertEventSafe(x: Setup, w: World, m: Memory, c: Copy)
    requires Assumed(x) && Book(x, w) && Tidy(w) && c.secret.name != x.secretName
    ensures var s := CertEvent(x, w, m, c);
            Book(x, s.w) && (s.Go? ==> Tidy(s.w) && Ready(x, s.w, Some(s.c)))
  {
    var s := CertEvent(x, w, m, c);
    var (v, cfg) := ConfigSecretFor(x, w, c);
    assert ConfigSecretFor(x, w, c) == Get(x, w, x.secretName);
    GetSafe(x, w, x.secretName);
    SafeBook(x, w, v);
    TidyLater(x, w, v);
    var state := if cfg.Found? then Some(cfg.copy) else None;
    assert Ready(x, v, state);
    hide Safe, Ready, Book, Assumed, Known, Tidy, Get, CertFailed, AfterCertPush, SyncCertSecret, PushSafe;
    if !cfg.GetFailed? {
      SyncCertSecretSafe(x, v, m, c.secret, state);
      var p := SyncCertSecret(x, v, m, c.secret, state);
      SameStateSync(x, v, m, c.secret, state);
      NoStateReady(x, v, state, p);
      TidyLater(x, v, p.w);
      ReadyBook(x, p.w, p.state);
      if p.result.Failure? {
        CertFailedSafe(x, p);
      } else if p.state.Some? {
        AfterCertPushSafe(x, p.w, p.m, p.state.value);
        var t := AfterCertPush(x, p.w, p.m, p.state.value);
        TidyLater(x, p.w, t.w);
        ReadyBook(x, t.w, Some(t.c));
      }
    }
  }

  lemma SameStateSync(x: Setup, w: World, m: Memory, secret: Secret, state: Option<Copy>)
    ensures SyncCertSecret(x, w, m, secret, state).state.Some? == state.Some?
  {
  }

  lemma ReadyBook(x: Setup, w: World, state: Option<Copy>)
    requires Ready(x, w, state)
    ensures Book(x, w)
  {
  }

  // ---------------------------------------------------------------- Reconcile and runs

  lemma StartBooked(x: Setup, w: World, name: string)
    requires Book(x, w)
    ensures Book(x, Start(w, name)) && Tidy(Start(w, name))
  {
    var e := Begin(w.run + 1, name);
    var v := Start(w, name);
    hide Entry, Noted, LastAccepted, Unrecorded, ShownNow, ShownOnce, Served, NoLostRecord;
    Snoc(w.trace, e);
    ServedSnoc(x.norm, w.trace, e);
    if NoLostRecord(v.trace) {
      BegunShown(w.trace, e, CurrentAnn(w.log, x.secretName));
    }
    BookStep(x, w, v);
  }

  lemma BegunShown(t: seq<Event>, e: Event, ann: Annotations)
    requires e.Begin? && NoLostRecord(t + [e]) && ShownNow(t, ann)
    ensures ShownNow(t + [e], ann)
  {
    Snoc(t, e);
    assert t[..|t|] == t && (t + [e])[..|t + [e]|] == t + [e];
    hide Noted, LastAccepted, Unrecorded, NoLostRecord;
  }

  lemma ReconcileSafe(x: Setup, w: World, m: Memory, name: string)
    requires Assumed(x) && Book(x, w)
    ensures Book(x, Reconcile(x, w, m, name).w)
  {
    assert ConfigSecretIsDedicated(x);
    var v := Start(w, name);
    StartBooked(x, w, name);
    GetSafe(x, v, name);
    var (u, got) := Get(x, v, name);
    SafeBook(x, v, u);
    TidyLater(x, v, u);
    assert got.Found? ==> got.copy.secret.name == name;
    hide Safe, Assumed, Known, Book, Tidy, Get, CertEvent, ConfigPhase;
    if got.Found? && (name == x.secretName || name in x.certs) {
      if name in x.certs {
        CertEventSafe(x, u, m, got.copy);
        var s := CertEvent(x, u, m, got.copy);
        if s.Go? {
          ConfigPhaseSafe(x, s.w, s.m, s.c);
        }
      } else {
        ConfigPhaseSafe(x, u, m, got.copy);
      }
    }
  }

  /** Any run keeps the book. */
  lemma {:induction false} RunKeepsBook(x: Setup, w: World, m: Memory, ts: seq<Trigger>)
    requires Assumed(x) && Book(x, w)
    ensures Book(x, Run(x, w, m, ts).0)
    decreases |ts|
  {
    hide Reconcile;
    if ts != [] {
      if ts[0].Reconciled? {
        ReconcileSafe(x, w, m, ts[0].name);
      }
      var (v, n) := Trip(x, w, m, ts[0]);
      RunKeepsBook(x, v, n, ts[1..]);
    }
  }
}
