/**
 The invariant of every interleaving: what each recorded event was preceded by, and
 what every stored revision of a Secret rests on. One pass over Reconcile proves it.
 */
module Safety {
  import opened Prelude
  import opened Platform
  import opened Dataplane
  import opened Reconciliation

  // ---------------------------------------------------------------- assumptions on others

  /** Other actors leave the operator's own annotation keys alone. */
  ghost predicate Polite(x: Setup) {
    forall k: nat, a :: a in x.env(k).acts ==> !a.Tamper?
  }

  /** The gateway's version counter is never set back. */
  ghost predicate NoReimage(x: Setup) {
    forall k: nat, a :: a in x.env(k).acts ==> !a.Reimage?
  }

  predicate ConfigSecretIsDedicated(x: Setup) {
    x.secretName != "" && x.secretName !in x.certs
  }

  // ---------------------------------------------------------------- what happened before

  predicate PostOk(e: Event, kind: PostKind, raw: Bytes) {
    e.Post? && e.kind == kind && e.raw == raw && Ok(e.reply)
  }

  /** The gateway examined the bytes and refused them. */
  predicate PostRefused(e: Event, raw: Bytes) {
    e.Post? && e.raw == raw && (e.reply == Response(400) || e.reply == Response(422))
  }

  ghost predicate ValidatedIn(t: seq<Event>, i: nat, run: nat, raw: Bytes) {
    exists j :: 0 <= j < i <= |t| && PostOk(t[j], ValidateOnly, raw) && t[j].run == run
  }

  ghost predicate AppliedIn(t: seq<Event>, i: nat, run: nat, raw: Bytes) {
    exists j :: 0 <= j < i <= |t| && PostOk(t[j], Apply, raw) && t[j].run == run
  }

  ghost predicate RefusedIn(t: seq<Event>, i: nat, run: nat, raw: Bytes) {
    raw == "" || exists j :: 0 <= j < i <= |t| && PostRefused(t[j], raw) && t[j].run == run
  }

  ghost predicate EverApplied(t: seq<Event>, raw: Bytes) {
    exists j :: 0 <= j < |t| && PostOk(t[j], Apply, raw)
  }

  ghost predicate EverRefused(t: seq<Event>, raw: Bytes) {
    raw == "" || exists j :: 0 <= j < |t| && PostRefused(t[j], raw)
  }

  ghost predicate SyncedIn(t: seq<Event>, i: nat, run: nat, name: string) {
    exists j :: 0 <= j < i <= |t| && t[j] == CertSynced(run, name)
  }

  /** Storage took a bundle of this Secret, or was found to hold it. */
  predicate Delivers(e: Event, name: string) {
    || (e.CertWrite? && e.name == name && Ok(e.reply))
    || (e.CertSkipped? && e.name == name)
  }

  ghost predicate DeliveredIn(t: seq<Event>, i: nat, run: nat, name: string) {
    exists j :: 0 <= j < i <= |t| && Delivers(t[j], name) && t[j].run == run
  }

  ghost predicate AllSyncedIn(x: Setup, t: seq<Event>, i: nat, run: nat) {
    forall n :: n in x.certs ==> SyncedIn(t, i, run, n)
  }

  predicate PushAccepted(e: Event, name: string, bundle: Bytes) {
    e.CertWrite? && e.name == name && e.bundle == bundle && Ok(e.reply)
  }

  /** Storage accepted exactly this bundle under this name. */
  ghost predicate Pushed(t: seq<Event>, i: nat, name: string, bundle: Bytes) {
    exists j :: 0 <= j < i <= |t| && PushAccepted(t[j], name, bundle)
  }

  ghost predicate ReadIn(t: seq<Event>, i: nat, run: nat, live: Bytes) {
    exists j :: 0 <= j < i <= |t| && t[j] == LiveRead(run, live)
  }

  /** The version was read in this Reconcile and nobody else has written the gateway since. */
  ghost predicate VersionCurrent(t: seq<Event>, i: nat, run: nat) {
    exists j :: 0 <= j < i <= |t| && t[j].VersionRead? && t[j].run == run
                && forall k :: j < k < i ==> !t[k].OutOfBand?
  }

  // ---------------------------------------------------------------- the law of one event

  /** Key `k` holds a value in `after` that it did not hold in `before`. */
  predicate Sets(before: Annotations, after: Annotations, k: Key) {
    k in after && Touched(k, before, after)
  }

  /** `v` is the digest of the configuration the Secret holds. */
  predicate IsDesiredHash(x: Setup, s: Secret, v: Value) {
    x.secretKey in s.data && v == Hash(s.data[x.secretKey])
  }

  /** A hash stamped on Secret `s` is that of the bytes it holds, which the gateway answered for in this Reconcile. */
  ghost predicate AppliedStamp(x: Setup, t: seq<Event>, i: nat, run: nat, before: Annotations, s: Secret) {
    Sets(before, s.ann, LastAppliedHash) ==>
      IsDesiredHash(x, s, s.ann[LastAppliedHash]) && AppliedIn(t, i, run, s.data[x.secretKey])
  }

  ghost predicate FailedStamp(x: Setup, t: seq<Event>, i: nat, run: nat, before: Annotations, s: Secret) {
    Sets(before, s.ann, LastFailedHash) ==>
      IsDesiredHash(x, s, s.ann[LastFailedHash]) && RefusedIn(t, i, run, s.data[x.secretKey])
  }

  /** A new baseline is pending or was read from the gateway in this Reconcile. */
  ghost predicate ObservedStamp(t: seq<Event>, i: nat, run: nat, before: Annotations, s: Secret) {
    Sets(before, s.ann, LastObservedHash) ==>
      var v := s.ann[LastObservedHash];
      v == Pending || (v.Hash? && ReadIn(t, i, run, v.of))
  }

  ghost predicate Stamps(x: Setup, t: seq<Event>, i: nat, run: nat, before: Annotations, s: Secret) {
    && AppliedStamp(x, t, i, run, before, s)
    && FailedStamp(x, t, i, run, before, s)
    && ObservedStamp(t, i, run, before, s)
  }

  ghost predicate PatchLaw(x: Setup, log: Log, t: seq<Event>, i: nat, e: Event)
    requires e.Patched?
  {
    && e.base <= e.index < |log|
    && log[e.base].secret.name == log[e.index].secret.name
    && (forall k :: e.base < k < e.index ==> log[k].secret.name != log[e.index].secret.name)
    && Stamps(x, t, i, e.run, log[e.base].secret.ann, log[e.index].secret)
  }

  predicate Numbered(e: Event) {
    !e.OutOfBand?
  }

  ghost predicate Law(x: Setup, log: Log, t: seq<Event>, i: nat)
    requires i < |t|
  {
    match t[i]
    case Post(run, ValidateOnly, raw, reply, stored) => AllSyncedIn(x, t, i, run) && !stored
    case Post(run, Apply, raw, reply, stored) =>
      && ValidatedIn(t, i, run, raw)
      && (Ok(reply) ==> stored)
      && (x.versionLocked && NoReimage(x) && stored ==> VersionCurrent(t, i, run))
    case CertSynced(run, name) => DeliveredIn(t, i, run, name)
    case CertSkipped(run, name, bundle, serial, remote) =>
      MetadataMatches(remote, serial, |bundle|) && (Polite(x) ==> Pushed(t, i, name, bundle))
    case Patched(_, _, _, _) => PatchLaw(x, log, t, i, t[i])
    case _ => true
  }

  // ---------------------------------------------------------------- the law of one revision

  /** What Flux, VSO and other actors own: data, labels and every annotation not under the operator's keys. */
  ghost predicate SameForeign(a: Annotations, b: Annotations) {
    forall k: Key :: k.ForeignKey? || k.OtherOperatorKey? ==> !Touched(k, a, b)
  }

  ghost predicate SameForOthers(a: Secret, b: Secret) {
    a.name == b.name && a.data == b.data && a.labels == b.labels && SameForeign(a.ann, b.ann)
  }

  lemma SameSelf(s: Secret)
    ensures SameForOthers(s, s)
  {
  }

  /** An operator revision directly follows a revision that others see as the same. */
  ghost predicate OwnRevision(x: Setup, log: Log, i: nat)
    requires i < |log|
  {
    log[i].byOperator ==>
      && (ConfigSecretIsDedicated(x) ==> log[i].secret.name == x.secretName)
      && exists b :: 0 <= b < i && SameForOthers(log[b].secret, log[i].secret)
                     && forall k :: b < k < i ==> log[k].secret.name != log[i].secret.name
  }

  ghost predicate Evidence(t: seq<Event>, ann: Annotations) {
    && (LastFailedHash in ann ==> ann[LastFailedHash].Hash? && EverRefused(t, ann[LastFailedHash].of))
    && (LastAppliedHash in ann ==> ann[LastAppliedHash].Hash? && EverApplied(t, ann[LastAppliedHash].of))
    && (CertSync in ann ==>
          ann[CertSync].CertState?
          && forall n :: n in ann[CertSync].certs ==> Pushed(t, |t|, n, ann[CertSync].certs[n].hash))
  }

  predicate StatusConsistent(ann: Annotations) {
    StatusMessage in ann <==> StatusKey in ann && ann[StatusKey] != StatusIs(Applied)
  }

  /** The stored status says that the configuration is applied, but no apply is on record. */
  predicate Hollow(ann: Annotations) {
    Lookup(ann, StatusKey) == StatusIs(Applied) && LastAppliedHash !in ann
  }

  predicate HollowSince(log: Log, from: nat, i: nat) {
    && from <= i < |log| && log[from].secret.name == log[i].secret.name
    && forall k :: from <= k <= i && log[k].secret.name == log[i].secret.name ==> Hollow(log[k].secret.ann)
  }

  /** A patch that cleared the status of a failed certificate sync, after a push in the same Reconcile. */
  ghost predicate Recovers(x: Setup, w: World, j: nat) {
    && j < |w.trace|
    && var e := w.trace[j];
    && e.Patched? && e.purpose.ClearCertStatus? && e.base < e.index < |w.log|
    && (exists cause :: Lookup(w.log[e.base].secret.ann, StatusKey) == StatusIs(CertSyncFailed(cause)))
    && exists n :: n in x.certs && SyncedIn(w.trace, j, e.run, n)
  }

  ghost predicate Recovered(x: Setup, w: World, i: nat) {
    exists j :: 0 <= j < |w.trace| && Recovers(x, w, j) && HollowSince(w.log, w.trace[j].index, i)
  }

  /** Events come in the order of their Reconciles, and each Reconcile begins after all earlier ones. */
  ghost predicate InOrder(t: seq<Event>, i: nat)
    requires i < |t|
  {
    Numbered(t[i]) ==>
      forall j :: 0 <= j < i && Numbered(t[j]) ==> t[j].run <= t[i].run && (t[i].Begin? ==> t[j].run < t[i].run)
  }

  /** Every operator revision is the outcome of a committed patch. */
  ghost predicate Announced(w: World, i: nat)
    requires i < |w.log|
  {
    w.log[i].byOperator ==> exists j :: 0 <= j < |w.trace| && w.trace[j].Patched? && w.trace[j].index == i
  }

  ghost predicate Inv(x: Setup, w: World) {
    && (forall i :: 0 <= i < |w.trace| ==> Law(x, w.log, w.trace, i))
    && (forall i :: 0 <= i < |w.trace| ==> InOrder(w.trace, i))
    && (forall i :: 0 <= i < |w.trace| && Numbered(w.trace[i]) ==> w.trace[i].run <= w.run)
    && (forall i :: 0 <= i < |w.log| ==> OwnRevision(x, w.log, i))
    && (forall i :: 0 <= i < |w.log| ==> Announced(w, i))
    && (Polite(x) ==> forall i :: 0 <= i < |w.log| ==> RevisionGood(x, w, i))
  }

  ghost predicate RevisionGood(x: Setup, w: World, i: nat)
    requires i < |w.log|
  {
    && Evidence(w.trace, w.log[i].secret.ann) && StatusConsistent(w.log[i].secret.ann)
    && (Hollow(w.log[i].secret.ann) ==> Recovered(x, w, i))
  }

  /** `v` is a later world of the same Reconcile. */
  ghost predicate Later(w: World, v: World) {
    w.log <= v.log && w.trace <= v.trace && w.run == v.run && (w.down ==> v.down)
  }

  // ---------------------------------------------------------------- stability

  /** Stamps depend on the past only. */
  lemma StampsStable(x: Setup, t: seq<Event>, t': seq<Event>, i: nat, i': nat, run: nat, before: Annotations, s: Secret)
    requires i <= i' && i <= |t| && t[..i] <= t' && i' <= |t'| && Stamps(x, t, i, run, before, s)
    ensures Stamps(x, t', i', run, before, s)
  {
  }

  lemma LawStable(x: Setup, log: Log, t: seq<Event>, log': Log, t': seq<Event>, i: nat)
    requires log <= log' && t <= t' && i < |t| && Law(x, log, t, i)
    ensures Law(x, log', t', i)
  {
  }

  lemma EvidenceStable(t: seq<Event>, t': seq<Event>, ann: Annotations)
    requires t <= t' && Evidence(t, ann)
    ensures Evidence(t', ann)
  {
  }

  lemma PushedStable(t: seq<Event>, t': seq<Event>, name: string, bundle: Bytes)
    requires t <= t' && Pushed(t, |t|, name, bundle)
    ensures Pushed(t', |t'|, name, bundle)
  {
    var j :| 0 <= j < |t| && PushAccepted(t[j], name, bundle);
    assert PushAccepted(t'[j], name, bundle);
  }

  lemma RecoveredStable(x: Setup, w: World, v: World, i: nat)
    requires w.log <= v.log && w.trace <= v.trace && Recovered(x, w, i)
    ensures Recovered(x, v, i)
  {
    hide HollowSince;
    var j :| 0 <= j < |w.trace| && Recovers(x, w, j) && HollowSince(w.log, w.trace[j].index, i);
    RecoversStable(x, w, v, j);
    HollowStable(w.log, v.log, w.trace[j].index, i);
  }

  lemma RecoversStable(x: Setup, w: World, v: World, j: nat)
    requires w.log <= v.log && w.trace <= v.trace && Recovers(x, w, j)
    ensures Recovers(x, v, j)
  {
    hide CertStatus;
    var run := w.trace[j].run;
    var n :| n in x.certs && SyncedIn(w.trace, j, run, n);
    var k :| 0 <= k < j && w.trace[k] == CertSynced(run, n);
    assert v.trace[k] == CertSynced(run, n);
    assert SyncedIn(v.trace, j, run, n);
  }

  lemma HollowStable(log: Log, log': Log, from: nat, i: nat)
    requires log <= log' && HollowSince(log, from, i)
    ensures HollowSince(log', from, i)
  {
    hide Hollow;
  }

  /** A hollow revision on top of another one of its Secret. */
  lemma RecoveredNext(x: Setup, w: World, l: nat, i: nat)
    requires l < i < |w.log| && w.log[l].secret.name == w.log[i].secret.name && Hollow(w.log[i].secret.ann)
    requires forall k :: l < k < i ==> w.log[k].secret.name != w.log[i].secret.name
    requires Recovered(x, w, l)
    ensures Recovered(x, w, i)
  {
    hide Hollow, CertStatus, SyncedIn;
    var j :| 0 <= j < |w.trace| && Recovers(x, w, j) && HollowSince(w.log, w.trace[j].index, l);
    assert HollowSince(w.log, w.trace[j].index, i);
  }

  /** Only what a step adds has to be judged. */
  lemma InvStep(x: Setup, w: World, v: World)
    requires Inv(x, w) && w.log <= v.log && w.trace <= v.trace && w.run <= v.run
    requires forall i :: |w.trace| <= i < |v.trace| ==> Law(x, v.log, v.trace, i)
    requires forall i :: |w.trace| <= i < |v.trace| && Numbered(v.trace[i]) ==>
               v.trace[i].run == v.run && (v.trace[i].Begin? ==> i == |w.trace| && w.run < v.run)
    requires forall i :: |w.log| <= i < |v.log| ==> OwnRevision(x, v.log, i) && Announced(v, i)
    requires Polite(x) ==> forall i :: |w.log| <= i < |v.log| ==> RevisionGood(x, v, i)
    ensures Inv(x, v)
  {
    forall i | 0 <= i < |v.trace|
      ensures Law(x, v.log, v.trace, i)
    {
      if i < |w.trace| {
        LawStable(x, w.log, w.trace, v.log, v.trace, i);
      }
    }
    forall i | 0 <= i < |v.trace|
      ensures InOrder(v.trace, i)
    {
      if i < |w.trace| {
        assert InOrder(w.trace, i);
      }
    }
    forall i | 0 <= i < |v.log|
      ensures OwnRevision(x, v.log, i)
    {
      if i < |w.log| {
        OwnRevisionStable(x, w.log, v.log, i);
      }
    }
    forall i | 0 <= i < |v.log|
      ensures Announced(v, i)
    {
      if i < |w.log| {
        AnnouncedStable(w, v, i);
      }
    }
    if Polite(x) {
      forall i | 0 <= i < |v.log|
        ensures RevisionGood(x, v, i)
      {
        if i < |w.log| {
          assert RevisionGood(x, w, i);
          EvidenceStable(w.trace, v.trace, w.log[i].secret.ann);
          if Hollow(w.log[i].secret.ann) {
            RecoveredStable(x, w, v, i);
          }
        }
      }
    }
  }

  lemma AnnouncedStable(w: World, v: World, i: nat)
    requires w.log <= v.log && w.trace <= v.trace && i < |w.log| && Announced(w, i)
    ensures Announced(v, i)
  {
    if w.log[i].byOperator {
      var j :| 0 <= j < |w.trace| && w.trace[j].Patched? && w.trace[j].index == i;
      assert v.trace[j] == w.trace[j];
    }
  }

  lemma OwnRevisionStable(x: Setup, log: Log, log': Log, i: nat)
    requires log <= log' && i < |log| && OwnRevision(x, log, i)
    ensures OwnRevision(x, log', i)
  {
    if log[i].byOperator {
      var b :| 0 <= b < i && SameForOthers(log[b].secret, log[i].secret)
               && forall k :: b < k < i ==> log[k].secret.name != log[i].secret.name;
      assert log'[b] == log[b] && log'[i] == log[i];
      assert forall k :: b < k < i ==> log'[k] == log[k];
    }
  }

  // ---------------------------------------------------------------- the environment

  lemma EnvStepKeeps(x: Setup, w: World, a: EnvAct)
    requires Inv(x, w) && (Polite(x) ==> !a.Tamper?)
    ensures Inv(x, EnvStep(w, a)) && Later(w, EnvStep(w, a))
  {
    var v := EnvStep(w, a);
    if Polite(x) {
      forall i | |w.log| <= i < |v.log|
        ensures RevisionGood(x, v, i)
      {
        AppendedGood(x, w, a, i);
      }
    }
    hide RevisionGood;
    InvStep(x, w, v);
  }

  /** Of the operator's keys, a revision by somebody else carries those of the one before it, or none. */
  ghost predicate Inherits(ann: Annotations, before: Annotations) {
    ann == map[] || forall k: Key :: !k.ForeignKey? ==> !Touched(k, ann, before)
  }

  lemma AppendedInherits(w: World, a: EnvAct)
    requires !a.Tamper? && |EnvStep(w, a).log| > |w.log|
    ensures var v := EnvStep(w, a);
            var s := v.log[|w.log|].secret;
            && w.log <= v.log && |v.log| == |w.log| + 1 && w.trace <= v.trace
            && Inherits(s.ann, CurrentAnn(w.log, s.name))
  {
  }

  /** So it rests on what the other one rests on. */
  lemma InheritsGood(t: seq<Event>, ann: Annotations, before: Annotations)
    requires Inherits(ann, before) && Evidence(t, before) && StatusConsistent(before)
    ensures Evidence(t, ann) && StatusConsistent(ann) && (Hollow(ann) ==> Hollow(before))
  {
    if ann != map[] {
      assert !Touched(LastAppliedHash, ann, before) && !Touched(LastFailedHash, ann, before);
      assert !Touched(StatusKey, ann, before) && !Touched(StatusMessage, ann, before);
      assert !Touched(CertSync, ann, before);
    }
  }

  lemma AppendedGood(x: Setup, w: World, a: EnvAct, i: nat)
    requires Inv(x, w) && Polite(x) && !a.Tamper? && |w.log| <= i < |EnvStep(w, a).log|
    ensures RevisionGood(x, EnvStep(w, a), i)
  {
    hide *;
    var v := EnvStep(w, a);
    AppendedInherits(w, a);
    var s := v.log[i].secret;
    CurrentGood(x, w, s.name);
    InheritsGood(w.trace, s.ann, CurrentAnn(w.log, s.name));
    EvidenceStable(w.trace, v.trace, s.ann);
    if Hollow(s.ann) {
      var l := Latest(w.log, s.name).value;
      RecoveredStable(x, w, v, l);
      RecoveredNext(x, v, l, i);
    }
    GoodIf(x, v, i);
  }

  lemma GoodIf(x: Setup, w: World, i: nat)
    requires i < |w.log| && Evidence(w.trace, w.log[i].secret.ann) && StatusConsistent(w.log[i].secret.ann)
    requires Hollow(w.log[i].secret.ann) ==> Recovered(x, w, i)
    ensures RevisionGood(x, w, i)
  {
  }

  lemma CurrentGood(x: Setup, w: World, name: string)
    requires Inv(x, w) && Polite(x)
    ensures var ann, l := CurrentAnn(w.log, name), Latest(w.log, name);
            && Evidence(w.trace, ann) && StatusConsistent(ann)
            && (Hollow(ann) ==> l.Some? && Recovered(x, w, l.value))
  {
    var l := Latest(w.log, name);
    if l.Some? {
      assert RevisionGood(x, w, l.value);
    }
    hide Inv, Recovered;
  }

  lemma {:induction false} InterfereKeeps(x: Setup, w: World, acts: seq<EnvAct>)
    requires Inv(x, w) && (Polite(x) ==> forall a :: a in acts ==> !a.Tamper?)
    ensures Inv(x, Interfere(w, acts)) && Later(w, Interfere(w, acts))
    decreases |acts|
  {
    if acts != [] {
      EnvStepKeeps(x, w, acts[0]);
      InterfereKeeps(x, EnvStep(w, acts[0]), acts[1..]);
    }
  }

  lemma TickKeeps(x: Setup, w: World)
    requires Inv(x, w)
    ensures Inv(x, Tick(x, w)) && Later(w, Tick(x, w))
  {
    var it := x.env(w.clock);
    InterfereKeeps(x, w, it.acts);
    var u := Interfere(w, it.acts);
    InvStep(x, u, Tick(x, w));
  }

  lemma NoteKeeps(x: Setup, w: World, e: Event)
    requires Inv(x, w) && Numbered(e) && !e.Begin? && e.run == w.run
    requires Law(x, w.log, w.trace + [e], |w.trace|)
    ensures Inv(x, Note(w, e)) && Later(w, Note(w, e))
  {
    InvStep(x, w, Note(w, e));
  }
}
