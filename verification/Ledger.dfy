/**
 The book kept on the config Secret: what each baseline was read from, and which accepted
 apply each record belongs to. Every action keeps it.
 */
module Ledger {
  import opened Prelude
  import opened Errors
  import opened Platform
  import opened Dataplane
  import opened Reconciliation
  import opened Safety
  import opened Actions
  import opened Steadiness
  import opened History
  import opened Suffix
  import opened Tracking

  // ---------------------------------------------------------------- assumptions

  /** A write that is answered with an error changed nothing. */
  ghost predicate RefusedWritesChangeNothing(x: Setup) {
    forall k: nat :: !Ok(x.env(k).reply) ==> !x.env(k).lands
  }

  ghost predicate Assumed(x: Setup) {
    ConfigSecretIsDedicated(x) && Polite(x) && RefusedWritesChangeNothing(x)
  }

  // ---------------------------------------------------------------- the book

  /** After `n` events the last accepted apply was that of `raw`, it was recorded, and its baseline was `v`. */
  predicate RecordAt(t: seq<Event>, n: nat, raw: Bytes, v: Value) {
    && n <= |t| && !Unrecorded(t[..n]) && LastAccepted(t[..n]) == Some(raw)
    && Noted(t[..n]) == v && (v == Pending || v.Hash?)
  }

  predicate ShowsAt(t: seq<Event>, n: nat, ann: Annotations) {
    var v := Lookup(ann, LastAppliedHash);
    v.Hash? && RecordAt(t, n, v.of, Lookup(ann, LastObservedHash))
  }

  /** Annotations that show an apply show it as it was on record at some moment. */
  ghost predicate ShownOnce(t: seq<Event>, ann: Annotations) {
    if LastAppliedHash in ann then exists n :: ShowsAt(t, n, ann) else LastObservedHash !in ann
  }

  /** Unless an apply is waiting to be recorded, they show what is on record now. */
  predicate ShownNow(t: seq<Event>, ann: Annotations) {
    LastAppliedHash in ann && !Unrecorded(t) ==> ShowsAt(t, |t|, ann)
  }

  /** The digest recorded at `i` is of what this Reconcile read, and nothing was booked in between. */
  ghost predicate ReadFor(t: seq<Event>, i: nat, run: nat, live: Bytes) {
    exists j :: 0 <= j < i <= |t| && t[j] == LiveRead(run, live) && Plain(t[..i], j)
  }

  predicate Shows(ann: Annotations, raw: Bytes, v: Value) {
    Lookup(ann, LastAppliedHash) == Hash(raw) && Lookup(ann, LastObservedHash) == v
  }

  ghost predicate Entry(x: Setup, log: Log, t: seq<Event>, i: nat)
    requires i < |t|
  {
    match t[i]
    case LiveRead(_, live) => Served(x.norm, t[..i]) in {None, Some(live)}
    case Post(_, kind, _, reply, stored) => stored <==> kind.Apply? && Ok(reply)
    case Checked(run, applied, live, expected, drift) =>
      && (drift <==> Hash(live) != expected) && expected.Hash?
      && i > 0 && t[i - 1] == LiveRead(run, live)
      && (exists n: nat :: n <= i && RecordAt(t, n, applied, expected))
      && (NoStaleReads(x) ==> RecordAt(t, i, applied, expected))
    case Patched(run, _, index, AdoptBaseline(live)) =>
      && ReadFor(t, i, run, live)
      && LastAccepted(t[..i]).Some? && RecordAt(t, i, LastAccepted(t[..i]).value, Pending)
      && index < |log| && Shows(log[index].secret.ann, LastAccepted(t[..i]).value, Hash(live))
    case Patched(run, _, index, RecordApply(raw, observed)) =>
      && (observed == Pending || (observed.Hash? && ReadFor(t, i, run, observed.of)))
      && Unrecorded(t[..i]) && LastAccepted(t[..i]) == Some(raw)
      && index < |log| && Shows(log[index].secret.ann, raw, observed)
    case _ => true
  }

  ghost predicate Book(x: Setup, w: World) {
    && Served(x.norm, w.trace) in {None, Some(w.gw.live)}
    && (NoLostRecord(w.trace) ==>
          && (forall i :: 0 <= i < |w.trace| ==> Entry(x, w.log, w.trace, i))
          && (forall i :: 0 <= i < |w.log| ==> ShownOnce(w.trace, w.log[i].secret.ann))
          && ShownNow(w.trace, CurrentAnn(w.log, x.secretName)))
  }

  // ---------------------------------------------------------------- stability

  lemma RecordAtLater(t: seq<Event>, u: seq<Event>, n: nat, raw: Bytes, v: Value)
    requires t <= u && RecordAt(t, n, raw, v)
    ensures RecordAt(u, n, raw, v)
  {
    assert u[..n] == t[..n];
  }

  lemma ShownOnceLater(t: seq<Event>, u: seq<Event>, ann: Annotations)
    requires t <= u && ShownOnce(t, ann)
    ensures ShownOnce(u, ann)
  {
    if LastAppliedHash in ann {
      var n :| ShowsAt(t, n, ann);
      RecordAtLater(t, u, n, Lookup(ann, LastAppliedHash).of, Lookup(ann, LastObservedHash));
      assert ShowsAt(u, n, ann);
    }
  }

  /** Over a stretch without bookkeeping, what is on record stays. */
  lemma ShownNowLater(t: seq<Event>, u: seq<Event>, ann: Annotations)
    requires t <= u && Plain(u, |t|) && ShownNow(t, ann)
    ensures ShownNow(u, ann)
  {
    PlainStretch(t, u);
    assert t[..|t|] == t && u[..|u|] == u;
  }

  lemma ReadForLater(t: seq<Event>, u: seq<Event>, i: nat, run: nat, live: Bytes)
    requires t <= u && ReadFor(t, i, run, live)
    ensures ReadFor(u, i, run, live)
  {
    var j :| 0 <= j < i <= |t| && t[j] == LiveRead(run, live) && Plain(t[..i], j);
    assert u[..i] == t[..i] && u[j] == t[j];
  }

  lemma EntryLater(x: Setup, log: Log, t: seq<Event>, log': Log, u: seq<Event>, i: nat)
    requires log <= log' && t <= u && i < |t| && Entry(x, log, t, i)
    ensures Entry(x, log', u, i)
  {
    assert u[i] == t[i] && u[..i] == t[..i];
    match t[i]
    case Checked(run, applied, live, expected, drift) =>
      var n: nat :| n <= i && RecordAt(t, n, applied, expected);
      RecordAtLater(t, u, n, applied, expected);
    case Patched(run, _, index, AdoptBaseline(live)) =>
      ReadForLater(t, u, i, run, live);
    case Patched(run, _, index, RecordApply(raw, observed)) =>
      if observed.Hash? {
        ReadForLater(t, u, i, run, observed.of);
      }
    case _ =>
  }

  lemma NoLostRecordBefore(t: seq<Event>, u: seq<Event>)
    requires t <= u && NoLostRecord(u)
    ensures NoLostRecord(t)
  {
    PrefixKept(u, |t|);
    assert u[..|t|] == t;
  }

  /** Only what a step adds has to be judged. */
  lemma BookStep(x: Setup, w: World, v: World)
    requires Book(x, w) && w.log <= v.log && w.trace <= v.trace
    requires Served(x.norm, v.trace) in {None, Some(v.gw.live)}
    requires NoLostRecord(v.trace) ==>
               && (forall i :: |w.trace| <= i < |v.trace| ==> Entry(x, v.log, v.trace, i))
               && (forall i :: |w.log| <= i < |v.log| ==> ShownOnce(v.trace, v.log[i].secret.ann))
               && ShownNow(v.trace, CurrentAnn(v.log, x.secretName))
    ensures Book(x, v)
  {
    if NoLostRecord(v.trace) {
      NoLostRecordBefore(w.trace, v.trace);
      forall i | 0 <= i < |v.trace|
        ensures Entry(x, v.log, v.trace, i)
      {
        if i < |w.trace| {
          EntryLater(x, w.log, w.trace, v.log, v.trace, i);
        }
      }
      forall i | 0 <= i < |v.log|
        ensures ShownOnce(v.trace, v.log[i].secret.ann)
      {
        if i < |w.log| {
          ShownOnceLater(w.trace, v.trace, w.log[i].secret.ann);
        }
      }
    }
  }

  // ---------------------------------------------------------------- steps that book nothing

  ghost predicate Safe(x: Setup, w: World, v: World) {
    Free(w, v, Booking) && (Book(x, w) ==> Book(x, v))
  }

  lemma SafeTransitive(x: Setup, w: World, v: World, u: World)
    requires Safe(x, w, v) && Safe(x, v, u)
    ensures Safe(x, w, u)
  {
    FreeTransitive(w, v, u, Booking);
  }

  lemma SafeSelf(x: Setup, w: World)
    ensures Safe(x, w, w)
  {
  }

  lemma SafeBook(x: Setup, w: World, v: World)
    requires Safe(x, w, v) && Book(x, w)
    ensures Book(x, v) && w.log <= v.log && w.trace <= v.trace
  {
  }

  lemma FreeIsPlain(w: World, v: World)
    requires Free(w, v, Booking)
    ensures Plain(v.trace, |w.trace|)
  {
    forall i | |w.trace| <= i < |v.trace|
      ensures !Books(v.trace[i])
    {
      assert !Of(v.trace[i], Booking);
    }
  }

  /** A revision that shows of the book what the current one shows. */
  lemma AppendSafe(x: Setup, w: World, v: World, r: Revision)
    requires v == w.(log := w.log + [r])
    requires NoLostRecord(w.trace) && Book(x, w) ==> ShownOnce(w.trace, r.secret.ann)
    requires NoLostRecord(w.trace) && Book(x, w) && r.secret.name == x.secretName ==> ShownNow(w.trace, r.secret.ann)
    ensures Safe(x, w, v)
  {
    LatestAfterAppend(w.log, r, x.secretName);
    if Book(x, w) {
      BookStep(x, w, v);
    }
  }

  predicate SameBaseline(a: Annotations, b: Annotations) {
    !Touched(LastAppliedHash, a, b) && !Touched(LastObservedHash, a, b)
  }

  lemma SameBaselineShown(t: seq<Event>, a: Annotations, b: Annotations)
    requires SameBaseline(a, b)
    ensures ShownOnce(t, a) ==> ShownOnce(t, b)
    ensures ShownNow(t, a) ==> ShownNow(t, b)
  {
    if ShownOnce(t, a) && LastAppliedHash in a {
      var n :| ShowsAt(t, n, a);
      assert ShowsAt(t, n, b);
    }
  }

  lemma CurrentShown(x: Setup, w: World, name: string)
    requires Book(x, w) && NoLostRecord(w.trace)
    ensures ShownOnce(w.trace, CurrentAnn(w.log, name))
  {
    var l := Latest(w.log, name);
    if l.Some? {
      assert ShownOnce(w.trace, w.log[l.value].secret.ann);
    }
  }

  lemma NoteSafe(x: Setup, w: World, e: Event)
    requires !Books(e) && !e.OutOfBand? && (e.Post? ==> !e.stored)
    requires Book(x, w) && NoLostRecord(w.trace) ==> Entry(x, w.log, w.trace + [e], |w.trace|)
    ensures Safe(x, w, Note(w, e))
  {
    var v := Note(w, e);
    if !w.down && Book(x, w) {
      Snoc(w.trace, e);
      ServedSnoc(x.norm, w.trace, e);
      if NoLostRecord(w.trace) {
        ShownNowLater(w.trace, v.trace, CurrentAnn(w.log, x.secretName));
      }
      hide Entry, Noted, LastAccepted, Unrecorded, ShownNow, ShownOnce, Served, NoLostRecord;
      BookStep(x, w, v);
    }
  }

  /** Most events have no entry to justify. */
  predicate Bare(e: Event) {
    !Books(e) && !e.OutOfBand? && !e.Post? && !e.LiveRead? && !e.Checked?
  }

  lemma NoteBareSafe(x: Setup, w: World, e: Event)
    requires Bare(e)
    ensures Safe(x, w, Note(w, e))
  {
    hide Safe, Note, Book;
    NoteSafe(x, w, e);
  }

  // ---------------------------------------------------------------- the environment

  lemma OutOfBandSafe(x: Setup, w: World, raw: Bytes, version: int)
    ensures var v := w.(gw := w.gw.(live := raw, version := version), trace := w.trace + [OutOfBand(raw)]);
            Safe(x, w, v)
  {
    var e := OutOfBand(raw);
    var v := w.(gw := w.gw.(live := raw, version := version), trace := w.trace + [e]);
    Snoc(w.trace, e);
    ServedSnoc(x.norm, w.trace, e);
    if Book(x, w) {
      if NoLostRecord(w.trace) {
        ShownNowLater(w.trace, v.trace, CurrentAnn(w.log, x.secretName));
      }
      hide Entry, Noted, LastAccepted, Unrecorded, ShownNow, ShownOnce, Served, NoLostRecord;
      BookStep(x, w, v);
    }
  }

  /** What Flux and annotators write shows the operator's keys as they were; a recreated Secret shows none. */
  lemma AppendedBaseline(w: World, a: EnvAct)
    requires !a.Tamper? && |EnvStep(w, a).log| > |w.log|
    ensures var v := EnvStep(w, a);
            var r := v.log[|w.log|];
            && v == w.(log := w.log + [r])
            && (SameBaseline(CurrentAnn(w.log, r.secret.name), r.secret.ann) || r.secret.ann == map[])
  {
  }

  lemma EnvStepSafe(x: Setup, w: World, a: EnvAct)
    requires !a.Tamper?
    ensures Safe(x, w, EnvStep(w, a))
  {
    var v := EnvStep(w, a);
    if a.GatewayWrite? {
      OutOfBandSafe(x, w, a.raw, w.gw.version + 1);
    } else if a.Reimage? {
      OutOfBandSafe(x, w, a.raw, a.version);
    } else if |v.log| > |w.log| {
      AppendedBaseline(w, a);
      var r := v.log[|w.log|];
      hide EnvStep, ShownOnce, ShownNow;
      if Book(x, w) && NoLostRecord(w.trace) {
        CurrentShown(x, w, r.secret.name);
        if r.secret.ann == map[] {
          EmptyShown(w.trace);
        } else {
          SameBaselineShown(w.trace, CurrentAnn(w.log, r.secret.name), r.secret.ann);
        }
      }
      AppendSafe(x, w, v, r);
    } else {
      hide Book;
      SameBook(x, w, v);
    }
  }

  lemma EmptyShown(t: seq<Event>)
    ensures ShownOnce(t, map[]) && ShownNow(t, map[])
  {
  }

  lemma SameBook(x: Setup, w: World, v: World)
    requires v.log == w.log && v.trace == w.trace && v.run == w.run && v.gw.live == w.gw.live
    requires w.down ==> v.down
    ensures Safe(x, w, v)
  {
  }

  lemma {:induction false} InterfereSafe(x: Setup, w: World, acts: seq<EnvAct>)
    requires forall a :: a in acts ==> !a.Tamper?
    ensures Safe(x, w, Interfere(w, acts))
    decreases |acts|
  {
    hide Safe, EnvStep;
    SafeSelf(x, w);
    if acts != [] {
      var v := EnvStep(w, acts[0]);
      EnvStepSafe(x, w, acts[0]);
      InterfereSafe(x, v, acts[1..]);
      SafeTransitive(x, w, v, Interfere(v, acts[1..]));
    }
  }

  lemma TickSafe(x: Setup, w: World)
    requires Assumed(x)
    ensures Safe(x, w, Tick(x, w))
  {
    InterfereSafe(x, w, x.env(w.clock).acts);
    var v := Interfere(w, x.env(w.clock).acts);
    hide Interfere, Safe;
    InterfereDown(w, x.env(w.clock).acts);
    SameBook(x, v, Tick(x, w));
    SafeTransitive(x, w, v, Tick(x, w));
  }

  lemma TickNoteSafe(x: Setup, w: World, e: Event)
    requires Assumed(x) && Bare(e)
    ensures Safe(x, w, Tick(x, w)) && Safe(x, w, Note(Tick(x, w), e))
  {
    hide Safe, Tick, Note, Assumed;
    TickSafe(x, w);
    NoteBareSafe(x, Tick(x, w), e);
    SafeTransitive(x, w, Tick(x, w), Note(Tick(x, w), e));
  }

  // ---------------------------------------------------------------- gateway actions

  lemma ReadVersionSafe(x: Setup, w: World)
    requires Assumed(x)
    ensures Safe(x, w, ReadVersion(x, w).0)
  {
    hide Safe, Tick, Assumed, Note;
    var v := Tick(x, w);
    TickNoteSafe(x, w, VersionRead(v.run, v.gw.version));
  }

  /** What was read last, and by this Reconcile. */
  ghost predicate JustReadLive(w: World, live: Bytes) {
    w.down || (w.trace != [] && w.trace[|w.trace| - 1] == LiveRead(w.run, live))
  }

  lemma ReadLiveSafe(x: Setup, w: World)
    requires Assumed(x)
    ensures var (v, live) := ReadLive(x, w); Safe(x, w, v) && (live.Success? ==> JustReadLive(v, live.value))
  {
    TickSafe(x, w);
    var v := Tick(x, w);
    var e := LiveRead(v.run, v.gw.live);
    if Book(x, v) {
      ServedSnoc(x.norm, v.trace, e);
      assert (v.trace + [e])[..|v.trace|] == v.trace;
    }
    hide Safe, Tick, Book, Served;
    NoteSafe(x, v, e);
    SafeTransitive(x, w, v, Note(v, e));
  }

  lemma WriteCertificateSafe(x: Setup, w: World, name: string, bundle: Bytes)
    requires Assumed(x)
    ensures Safe(x, w, WriteCertificate(x, w, name, bundle).0)
  {
    hide Safe, Tick, Assumed;
    var it, v := x.env(w.clock), Tick(x, w);
    TickSafe(x, w);
    var u := if Ok(it.reply) || it.lands
             then v.(gw := v.gw.(storage := v.gw.storage[StorageName(name) := bundle])) else v;
    SameBook(x, v, u);
    var e := CertWrite(u.run, name, bundle, it.reply);
    NoteBareSafe(x, u, e);
    SafeTransitive(x, w, v, u);
    SafeTransitive(x, w, u, Note(u, e));
  }

  /** An apply of `raw` was accepted and waits to be recorded. */
  ghost predicate Owed(x: Setup, w: World, raw: Bytes) {
    Book(x, w) && Unrecorded(w.trace) && LastAccepted(w.trace) == Some(raw)
  }

  lemma OwedLater(x: Setup, w: World, v: World, raw: Bytes)
    requires Owed(x, w, raw) && Safe(x, w, v)
    ensures Owed(x, v, raw)
  {
    FreeIsPlain(w, v);
    PlainStretch(w.trace, v.trace);
  }

  lemma AcceptedIsOwed(x: Setup, w: World, run: nat, raw: Bytes, reply: Reply)
    requires Book(x, w) && Ok(reply) && !w.down
    ensures var e := Post(run, Apply, raw, reply, true);
            Owed(x, Note(w.(gw := w.gw.(live := x.norm(raw), version := w.gw.version + 1)), e), raw)
  {
    var e := Post(run, Apply, raw, reply, true);
    var v := Note(w.(gw := w.gw.(live := x.norm(raw), version := w.gw.version + 1)), e);
    Snoc(w.trace, e);
    ServedSnoc(x.norm, w.trace, e);
    hide Noted, LastAccepted, Unrecorded, ShownOnce, Served, NoLostRecord;
    BookStep(x, w, v);
  }

  lemma PostRawSafe(x: Setup, w: World, kind: PostKind, raw: Bytes, version: int)
    requires Assumed(x) && Book(x, w)
    ensures var (v, err) := PostRaw(x, w, kind, raw, version);
            && w.log <= v.log
            && (kind.ValidateOnly? || err.Some? ==> Safe(x, w, v))
            && (kind.Apply? && err.None? ==> Owed(x, v, raw))
  {
    var it, v := x.env(w.clock), Tick(x, w);
    assert !Ok(it.reply) ==> !it.lands;
    TickSafe(x, w);
    SafeBook(x, w, v);
    hide Safe, Book, Assumed, Owed, Tick;
    var stale := x.versionLocked && version != v.gw.version;
    var reply := if stale then Response(409) else it.reply;
    var stored := kind.Apply? && (Ok(reply) || (it.lands && !stale));
    var e := Post(v.run, kind, raw, reply, stored);
    if !v.down {
      if stored {
        AcceptedIsOwed(x, v, v.run, raw, reply);
      } else {
        NoteSafe(x, v, e);
        SafeTransitive(x, w, v, Note(v, e));
      }
    }
  }

  // ---------------------------------------------------------------- the client's sequences

  lemma {:induction false} PollSafe(x: Setup, w: World, polls: nat, last: Option<Err>)
    requires Assumed(x) && polls <= MAX_POLLS
    ensures Safe(x, w, Poll(x, w, polls, last).0)
    decreases MAX_POLLS - polls
  {
    hide Safe, Assumed, ReadVersion;
    SafeSelf(x, w);
    if !(polls == MAX_POLLS || x.env(w.clock).expired) {
      var (v, version) := ReadVersion(x, w);
      ReadVersionSafe(x, w);
      if version.Failure? && x.env(v.clock).cancelled.None? {
        PollSafe(x, v, polls + 1, Some(version.error));
        SafeTransitive(x, w, v, Poll(x, v, polls + 1, Some(version.error)).0);
      }
    }
  }

  lemma PostAtVersionSafe(x: Setup, w: World, kind: PostKind, raw: Bytes)
    requires Assumed(x) && Book(x, w)
    ensures var (v, err) := PostAtVersion(x, w, kind, raw);
            && w.log <= v.log
            && (kind.ValidateOnly? || err.Some? ==> Safe(x, w, v))
            && (kind.Apply? && err.None? ==> Owed(x, v, raw))
  {
    hide Safe, Book, Assumed, Owed, ReadVersion, PostRaw;
    var (v, version) := ReadVersion(x, w);
    ReadVersionSafe(x, w);
    SafeBook(x, w, v);
    if version.Success? {
      PostRawSafe(x, v, kind, raw, version.value);
      var u := PostRaw(x, v, kind, raw, version.value).0;
      if kind.ValidateOnly? || PostAtVersion(x, w, kind, raw).1.Some? {
        SafeTransitive(x, w, v, u);
      }
    }
  }

  lemma ApplyValidatedSafe(x: Setup, w: World, raw: Bytes)
    requires Assumed(x) && Book(x, w)
    ensures var (v, err) := ApplyValidated(x, w, raw);
            w.log <= v.log && (if err.Some? then Safe(x, w, v) else Owed(x, v, raw))
  {
    hide Safe, Book, Assumed, Owed, Poll, PostAtVersion;
    PollSafe(x, w, 0, None);
    var (v, err) := WaitForReady(x, w);
    SafeBook(x, w, v);
    if err.None? {
      PostAtVersionSafe(x, v, Apply, raw);
      var (u, refused) := PostAtVersion(x, v, Apply, raw);
      if refused.Some? {
        SafeTransitive(x, w, v, u);
      }
    }
  }

  lemma SyncSSLCertificateSafe(x: Setup, w: World, name: string, bundle: Bytes, previouslySynced: bool)
    requires Assumed(x)
    ensures Safe(x, w, SyncSSLCertificate(x, w, name, bundle, previouslySynced).0)
  {
    hide Safe, Assumed, Poll, Tick, WriteCertificate, Note;
    SafeSelf(x, w);
    var serial := LeafSerial(x.pem(bundle));
    if serial.Success? {
      PollSafe(x, w, 0, None);
      var (v, notReady) := WaitForReady(x, w);
      if notReady.None? {
        TickSafe(x, v);
        var (u, remote) := ReadCertificate(x, v, StorageName(name));
        SafeTransitive(x, w, v, u);
        if remote.Success? && MetadataMatches(remote.value, serial.value, |bundle|) && previouslySynced {
          var e := CertSkipped(u.run, name, bundle, serial.value, remote.value);
          NoteBareSafe(x, u, e);
          SafeTransitive(x, w, u, Note(u, e));
        } else {
          WriteCertificateSafe(x, u, name, bundle);
          SafeTransitive(x, w, u, WriteCertificate(x, u, name, bundle).0);
        }
      }
    }
  }

  lemma GetOrCreateClientSafe(x: Setup, w: World, m: Memory)
    requires Assumed(x)
    ensures Safe(x, w, GetOrCreateClient(x, w, m).0)
  {
    hide Safe, Tick, Assumed;
    SafeSelf(x, w);
    TickSafe(x, w);
  }

  // ---------------------------------------------------------------- copies

  /** The copy agrees with its revision on the record, and shows it as the book does. */
  ghost predicate Known(x: Setup, w: World, c: Copy) {
    && Tracks(w, c, LastAppliedHash) && Tracks(w, c, LastObservedHash) && c.secret.name == x.secretName
    && (NoLostRecord(w.trace) ==>
          ShownOnce(w.trace, c.secret.ann) && (NoStaleReads(x) ==> ShownNow(w.trace, c.secret.ann)))
  }

  lemma KnownLater(x: Setup, w: World, v: World, c: Copy)
    requires Known(x, w, c) && Safe(x, w, v)
    ensures Known(x, v, c)
  {
    FreeIsPlain(w, v);
    PlainStretch(w.trace, v.trace);
    TracksLater(w, v, c, LastAppliedHash);
    TracksLater(w, v, c, LastObservedHash);
    if NoLostRecord(v.trace) {
      ShownOnceLater(w.trace, v.trace, c.secret.ann);
      if NoStaleReads(x) {
        ShownNowLater(w.trace, v.trace, c.secret.ann);
      }
    }
  }

  lemma GetSafe(x: Setup, w: World, name: string)
    requires Assumed(x) && Book(x, w)
    ensures var (v, got) := Get(x, w, name);
            Safe(x, w, v) && (got.Found? && name == x.secretName ==> Known(x, v, got.copy))
  {
    TickSafe(x, w);
    var (v, got) := Get(x, w, name);
    SafeBook(x, w, v);
    if got.Found? && name == x.secretName {
      GetTracks(x, w, name, LastAppliedHash);
      GetTracks(x, w, name, LastObservedHash);
      var c := got.copy;
      if NoLostRecord(v.trace) {
        assert ShownOnce(v.trace, v.log[c.rv].secret.ann);
        if NoStaleReads(x) {
          assert x.env(w.clock).read.Fresh?;
          assert c.secret.ann == CurrentAnn(v.log, x.secretName);
        }
      }
    }
  }

  // ---------------------------------------------------------------- patches that book nothing

  predicate PlainPurpose(p: Purpose) {
    !p.RecordApply? && !p.AdoptBaseline?
  }

  lemma CommitSafe(x: Setup, w: World, c: Copy, ann: Annotations, purpose: Purpose)
    requires Latest(w.log, c.secret.name) == Some(c.rv)
    requires SameBaseline(c.secret.ann, ann) && PlainPurpose(purpose)
    ensures Safe(x, w, Commit(w, c, ann, purpose))
  {
    MergeKeepsBaseline(w.log[c.rv].secret.ann, c.secret.ann, ann);
    hide Overlay, Safe, Book, SameBaseline, Latest, PlainPurpose;
    var u := Commit(w, c, ann, purpose);
    var e := u.trace[|w.trace|];
    var server := w.log[c.rv].secret;
    var merged := Overlay(server.ann, c.secret.ann, ann);
    var v := w.(log := u.log);
    assert u == v.(trace := v.trace + [e]) && e == Patched(w.run, c.rv, e.index, purpose);
    hide Commit;
    if merged != server.ann {
      MergedSafe(x, w, v, c.rv, merged);
    } else {
      SafeSelf(x, w);
    }
    NoteBareSafe(x, v.(down := false), e);
    DownIsApart(x, v, e);
    SafeTransitive(x, w, v, u);
  }

  lemma MergeKeepsBaseline(server: Annotations, before: Annotations, after: Annotations)
    requires SameBaseline(before, after)
    ensures SameBaseline(server, Overlay(server, before, after))
  {
  }

  /** A revision with the current one's baseline, appended by the operator. */
  lemma MergedSafe(x: Setup, w: World, v: World, rv: nat, merged: Annotations)
    requires rv < |w.log| && Latest(w.log, w.log[rv].secret.name) == Some(rv)
    requires SameBaseline(w.log[rv].secret.ann, merged)
    requires v == w.(log := w.log + [Revision(w.log[rv].secret.(ann := merged), true)])
    ensures Safe(x, w, v)
  {
    var server := w.log[rv].secret;
    hide Safe, Book, SameBaseline, ShownOnce, ShownNow;
    if Book(x, w) && NoLostRecord(w.trace) {
      CurrentShown(x, w, server.name);
      CurrentShownNow(x, w);
      SameBaselineShown(w.trace, server.ann, merged);
    }
    AppendSafe(x, w, v, Revision(server.(ann := merged), true));
  }

  lemma CurrentShownNow(x: Setup, w: World)
    requires Book(x, w) && NoLostRecord(w.trace)
    ensures ShownNow(w.trace, CurrentAnn(w.log, x.secretName))
  {
  }

  lemma DownIsApart(x: Setup, v: World, e: Event)
    requires Safe(x, v.(down := false), Note(v.(down := false), e))
    ensures Safe(x, v, v.(trace := v.trace + [e]))
  {
  }

  /** A committed patch hands back the current revision. */
  lemma CommittedIsKnown(x: Setup, w: World, c: Copy, ann: Annotations, purpose: Purpose)
    requires Latest(w.log, c.secret.name) == Some(c.rv) && Known(x, w, c) && SameBaseline(c.secret.ann, ann)
    requires Book(x, Commit(w, c, ann, purpose))
    ensures var u := Commit(w, c, ann, purpose);
            var now := Latest(u.log, c.secret.name).value;
            Known(x, u, Copy(now, u.log[now].secret))
  {
    CommitTracks(w, c, ann, purpose, LastAppliedHash);
    CommitTracks(w, c, ann, purpose, LastObservedHash);
    var u := Commit(w, c, ann, purpose);
    hide Commit;
    if NoLostRecord(u.trace) {
      CurrentShown(x, u, x.secretName);
    }
  }

  lemma SameBaselineKnown(x: Setup, w: World, c: Copy, ann: Annotations)
    requires Known(x, w, c) && SameBaseline(c.secret.ann, ann)
    ensures Known(x, w, c.(secret := c.secret.(ann := ann)))
  {
    SameBaselineShown(w.trace, c.secret.ann, ann);
  }

  lemma PatchSafe(x: Setup, w: World, c: Copy, ann: Annotations, purpose: Purpose)
    requires Assumed(x) && Book(x, w) && Known(x, w, c)
    requires SameBaseline(c.secret.ann, ann) && PlainPurpose(purpose)
    ensures var (v, d, _) := Patch(x, w, c, ann, purpose);
            Safe(x, w, v) && Known(x, v, d) && d.secret.data == c.secret.data
  {
    PatchTracks(x, w, c, ann, purpose, LastAppliedHash);
    SameBaselineKnown(x, w, c, ann);
    hide Tick, Safe, Known, Book, Patch, Commit, Assumed, SameBaseline, Tracks;
    PatchEnds(x, w, c, ann, purpose);
    TickSafe(x, w);
    var v := Tick(x, w);
    var mutated := c.(secret := c.secret.(ann := ann));
    SafeBook(x, w, v);
    KnownLater(x, w, v, c);
    KnownLater(x, w, v, mutated);
    if Latest(v.log, c.secret.name) == Some(c.rv) {
      var u := Commit(v, c, ann, purpose);
      CommitSafe(x, v, c, ann, purpose);
      SafeBook(x, v, u);
      CommittedIsKnown(x, v, c, ann, purpose);
      SafeTransitive(x, w, v, u);
      KnownLater(x, v, u, mutated);
    }
  }
}
