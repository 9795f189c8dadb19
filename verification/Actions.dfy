/** Each atomic action of the operator keeps the invariant. */
module Actions {
  import opened Prelude
  import opened Errors
  import opened Platform
  import opened Dataplane
  import opened Reconciliation
  import opened Safety

  // ---------------------------------------------------------------- local copies

  /** The status keys a copy carries agree with the server's, or were overwritten by a failed clearing patch. */
  predicate StatusRelated(local: Annotations, server: Annotations) {
    || (!Touched(StatusKey, local, server) && !Touched(StatusMessage, local, server))
    || (Lookup(local, StatusKey) == StatusIs(Applied) && StatusMessage !in local)
  }

  /** An in-memory copy is a revision of the store up to local changes of the operator's own keys. */
  ghost predicate CopyOk(x: Setup, w: World, c: Copy) {
    && c.rv < |w.log|
    && SameForOthers(w.log[c.rv].secret, c.secret)
    && (Polite(x) ==>
          && Evidence(w.trace, c.secret.ann) && StatusRelated(c.secret.ann, w.log[c.rv].secret.ann)
          && (LastAppliedHash in c.secret.ann ==> LastAppliedHash in w.log[c.rv].secret.ann))
  }

  ghost predicate MemoryOk(x: Setup, w: World, m: Memory) {
    Polite(x) ==> forall n :: n in m.certHashes ==> Pushed(w.trace, |w.trace|, n, m.certHashes[n])
  }

  lemma CopyLater(x: Setup, w: World, v: World, c: Copy)
    requires CopyOk(x, w, c) && Later(w, v)
    ensures CopyOk(x, v, c)
  {
  }

  lemma MemoryLater(x: Setup, w: World, v: World, m: Memory)
    requires MemoryOk(x, w, m) && Later(w, v)
    ensures MemoryOk(x, v, m)
  {
  }

  lemma GetKeeps(x: Setup, w: World, name: string)
    requires Inv(x, w)
    ensures var (v, got) := Get(x, w, name);
            && Inv(x, v) && Later(w, v)
            && (got.Found? ==> CopyOk(x, v, got.copy) && got.copy.secret.name == name)
  {
    TickKeeps(x, w);
    var (v, got) := Get(x, w, name);
    if got.Found? && Polite(x) {
      assert RevisionGood(x, v, got.copy.rv);
    }
  }

  // ---------------------------------------------------------------- patches

  /** What the operator may change in its copy: its own keys, each backed by what this Reconcile saw. */
  ghost predicate Justified(x: Setup, w: World, c: Copy, ann: Annotations) {
    var s := c.secret;
    && SameForeign(s.ann, ann)
    && (ConfigSecretIsDedicated(x) ==> s.name == x.secretName)
    && Stamps(x, w.trace, |w.trace|, w.run, s.ann, s.(ann := ann))
    && (Touched(CertSync, s.ann, ann) && CertSync in ann && Polite(x) ==>
          Evidence(w.trace, map[CertSync := ann[CertSync]]))
    && StatusShape(s.ann, ann)
  }

  predicate StatusShape(before: Annotations, after: Annotations) {
    || (!Touched(StatusKey, before, after) && !Touched(StatusMessage, before, after))
    || (StatusKey in after && after[StatusKey].StatusIs? && after[StatusKey].status != Applied
        && StatusMessage in after)
    || (StatusKey in after && after[StatusKey] == StatusIs(Applied) && StatusMessage !in after)
  }

  /** Status Applied is only set with an applied hash beside it, or to clear that of a failed certificate sync. */
  ghost predicate Backs(x: Setup, w: World, c: Copy, ann: Annotations, purpose: Purpose) {
    && (LastAppliedHash in c.secret.ann ==> LastAppliedHash in ann)
    && (Touched(StatusKey, c.secret.ann, ann) && Hollow(ann) && !w.down ==>
          purpose.ClearCertStatus? && CertStatus(c.secret.ann) && SomeSynced(x, w))
  }

  ghost predicate SomeSynced(x: Setup, w: World) {
    exists n :: n in x.certs && SyncedIn(w.trace, |w.trace|, w.run, n)
  }

  lemma SomeSyncedLater(x: Setup, w: World, v: World)
    requires SomeSynced(x, w) && Later(w, v)
    ensures SomeSynced(x, v)
  {
    var n :| n in x.certs && SyncedIn(w.trace, |w.trace|, w.run, n);
    assert SyncedIn(v.trace, |v.trace|, v.run, n);
  }

  lemma BacksLater(x: Setup, w: World, v: World, c: Copy, ann: Annotations, purpose: Purpose)
    requires Backs(x, w, c, ann, purpose) && Later(w, v)
    ensures Backs(x, v, c, ann, purpose)
  {
    if SomeSynced(x, w) {
      SomeSyncedLater(x, w, v);
    }
  }

  /** The first hollow revision of a stretch. */
  lemma RecoveryStarts(x: Setup, u: World, j: nat, n: string)
    requires j < |u.trace| && u.trace[j].Patched? && u.trace[j].purpose.ClearCertStatus?
    requires u.trace[j].base < u.trace[j].index < |u.log| && CertStatus(u.log[u.trace[j].base].secret.ann)
    requires Hollow(u.log[u.trace[j].index].secret.ann)
    requires n in x.certs && SyncedIn(u.trace, j, u.trace[j].run, n)
    ensures Recovered(x, u, u.trace[j].index)
  {
    assert Recovers(x, u, j) && HollowSince(u.log, u.trace[j].index, u.trace[j].index);
  }

  /** If the merged annotations are hollow, then those of the server were, or the patch made them so. */
  lemma HollowMerge(x: Setup, w: World, c: Copy, ann: Annotations, purpose: Purpose)
    requires CopyOk(x, w, c) && Polite(x) && Backs(x, w, c, ann, purpose) && !w.down
    ensures var server := w.log[c.rv].secret.ann;
            Hollow(Overlay(server, c.secret.ann, ann)) ==>
              || Hollow(server)
              || (purpose.ClearCertStatus? && CertStatus(server) && SomeSynced(x, w))
  {
  }

  lemma JustifiedLater(x: Setup, w: World, v: World, c: Copy, ann: Annotations)
    requires Justified(x, w, c, ann) && Later(w, v)
    ensures Justified(x, v, c, ann)
  {
  }

  /** The annotations after a justified patch rest on evidence, because both maps did. */
  lemma MergedEvidence(x: Setup, w: World, c: Copy, ann: Annotations)
    requires Inv(x, w) && CopyOk(x, w, c) && Justified(x, w, c, ann) && Polite(x)
    ensures var merged := Overlay(w.log[c.rv].secret.ann, c.secret.ann, ann);
            Evidence(w.trace, merged) && StatusConsistent(merged)
  {
    var server := w.log[c.rv].secret.ann;
    var merged := Overlay(server, c.secret.ann, ann);
    assert RevisionGood(x, w, c.rv);
    if CertSync in merged {
      if Touched(CertSync, c.secret.ann, ann) {
        assert Evidence(w.trace, map[CertSync := ann[CertSync]]);
        assert merged[CertSync] == map[CertSync := ann[CertSync]][CertSync];
      } else {
        assert merged[CertSync] == server[CertSync];
      }
    }
  }

  /** What a patch stamps in the operator's copy is what it stamps on the server. */
  lemma StampsReachServer(x: Setup, t: seq<Event>, i: nat, run: nat, local: Secret, ann: Annotations, server: Secret)
    requires Stamps(x, t, i, run, local.ann, local.(ann := ann)) && server.data == local.data
    ensures Stamps(x, t, i, run, server.ann, server.(ann := Overlay(server.ann, local.ann, ann)))
  {
  }

  lemma CommitLaw(x: Setup, w: World, c: Copy, ann: Annotations, purpose: Purpose)
    requires CopyOk(x, w, c) && Justified(x, w, c, ann)
    requires Latest(w.log, c.secret.name) == Some(c.rv)
    ensures var u := Commit(w, c, ann, purpose);
            Law(x, u.log, u.trace, |w.trace|)
  {
    var u := Commit(w, c, ann, purpose);
    var server := w.log[c.rv].secret;
    var merged := Overlay(server.ann, c.secret.ann, ann);
    StampsReachServer(x, w.trace, |w.trace|, w.run, c.secret, ann, server);
    assert w.trace[..|w.trace|] == w.trace;
    StampsStable(x, w.trace, u.trace, |w.trace|, |w.trace|, w.run, server.ann, server.(ann := merged));
    assert server.(ann := server.ann) == server;
  }

  lemma CommitRevision(x: Setup, w: World, c: Copy, ann: Annotations, purpose: Purpose)
    requires CopyOk(x, w, c) && Justified(x, w, c, ann)
    requires Latest(w.log, c.secret.name) == Some(c.rv)
    ensures var u := Commit(w, c, ann, purpose);
            var now := Latest(u.log, c.secret.name).value;
            && ((u.log == w.log && now == c.rv) || (|u.log| == |w.log| + 1 && now == |w.log|))
            && u.log[now].secret == w.log[c.rv].secret.(ann := Overlay(w.log[c.rv].secret.ann, c.secret.ann, ann))
            && SameForOthers(w.log[c.rv].secret, u.log[now].secret)
            && (forall i :: |w.log| <= i < |u.log| ==> i == now && OwnRevision(x, u.log, i) && Announced(u, i))
  {
    var server := w.log[c.rv].secret;
    var merged := Overlay(server.ann, c.secret.ann, ann);
    assert SameForOthers(server, server.(ann := merged));
    assert server.(ann := server.ann) == server;
    assert ConfigSecretIsDedicated(x) ==> server.name == x.secretName;
    hide Overlay, SameForOthers, Justified, CopyOk;
    if merged != server.ann {
      AppendedIsOwn(x, w.log, c.rv, server.(ann := merged));
      var u := Commit(w, c, ann, purpose);
      assert u.trace[|w.trace|].index == |w.log|;
    }
  }

  /** A revision appended by the operator on top of the current one. */
  lemma AppendedIsOwn(x: Setup, log: Log, base: nat, s: Secret)
    requires Latest(log, s.name) == Some(base) && SameForOthers(log[base].secret, s)
    requires ConfigSecretIsDedicated(x) ==> s.name == x.secretName
    ensures var after := log + [Revision(s, true)];
            Latest(after, s.name) == Some(|log|) && OwnRevision(x, after, |log|)
  {
    var after := log + [Revision(s, true)];
    assert after[..|log|] == log;
    assert after[base] == log[base] && forall k :: base < k < |log| ==> after[k].secret.name != s.name;
  }

  /** Adding one lawful event and at most one good revision keeps the invariant. */
  lemma OneStepKeeps(x: Setup, w: World, u: World, now: nat)
    requires Inv(x, w) && Later(w, u) && now < |u.log|
    requires |u.trace| == |w.trace| + 1 && Law(x, u.log, u.trace, |w.trace|)
    requires Numbered(u.trace[|w.trace|]) ==> u.trace[|w.trace|].run == u.run && !u.trace[|w.trace|].Begin?
    requires forall i :: |w.log| <= i < |u.log| ==> i == now && OwnRevision(x, u.log, i) && Announced(u, i)
    requires Polite(x) ==> RevisionGood(x, u, now)
    ensures Inv(x, u)
  {
    if Polite(x) {
      forall i | |w.log| <= i < |u.log|
        ensures RevisionGood(x, u, i)
      {
        assert OwnRevision(x, u.log, i);
      }
    }
    InvStep(x, w, u);
  }

  lemma CommitRecovers(x: Setup, w: World, c: Copy, ann: Annotations, purpose: Purpose)
    requires Inv(x, w) && Polite(x) && CopyOk(x, w, c) && Backs(x, w, c, ann, purpose) && !w.down
    requires Latest(w.log, c.secret.name) == Some(c.rv)
    ensures var u := Commit(w, c, ann, purpose);
            var now := Latest(u.log, c.secret.name).value;
            Hollow(u.log[now].secret.ann) ==> Recovered(x, u, now)
  {
    var server := w.log[c.rv].secret.ann;
    HollowMerge(x, w, c, ann, purpose);
    assert RevisionGood(x, w, c.rv);
    hide Overlay, CopyOk, Backs, Inv, Recovered, Hollow, CertStatus, RevisionGood, SomeSynced;
    if Overlay(server, c.secret.ann, ann) != server {
      AppendRecovers(x, w, c, ann, purpose);
    } else if Hollow(server) {
      RecoveredStable(x, w, Commit(w, c, ann, purpose), c.rv);
    }
  }

  lemma AppendRecovers(x: Setup, w: World, c: Copy, ann: Annotations, purpose: Purpose)
    requires Latest(w.log, c.secret.name) == Some(c.rv)
    requires var server := w.log[c.rv].secret.ann;
             var merged := Overlay(server, c.secret.ann, ann);
             && merged != server && (Hollow(server) ==> Recovered(x, w, c.rv))
             && (Hollow(merged) && !Hollow(server) ==>
                   purpose.ClearCertStatus? && CertStatus(server) && SomeSynced(x, w))
    ensures var u := Commit(w, c, ann, purpose);
            var now := Latest(u.log, c.secret.name).value;
            Hollow(u.log[now].secret.ann) ==> Recovered(x, u, now)
  {
    hide Overlay, Recovered, Hollow, CertStatus;
    var u := Commit(w, c, ann, purpose);
    assert u.log[..|w.log|] == w.log;
    if Hollow(u.log[|w.log|].secret.ann) && Hollow(w.log[c.rv].secret.ann) {
      RecoveredStable(x, w, u, c.rv);
      RecoveredNext(x, u, c.rv, |w.log|);
    } else if Hollow(u.log[|w.log|].secret.ann) {
      var n :| n in x.certs && SyncedIn(w.trace, |w.trace|, w.run, n);
      var k :| 0 <= k < |w.trace| && w.trace[k] == CertSynced(w.run, n);
      assert u.trace[k] == CertSynced(w.run, n);
      RecoveryStarts(x, u, |w.trace|, n);
    }
  }

  lemma CommitKeeps(x: Setup, w: World, c: Copy, ann: Annotations, purpose: Purpose)
    requires Inv(x, w) && CopyOk(x, w, c) && Justified(x, w, c, ann) && Backs(x, w, c, ann, purpose) && !w.down
    requires Latest(w.log, c.secret.name) == Some(c.rv)
    ensures Inv(x, Commit(w, c, ann, purpose)) && Later(w, Commit(w, c, ann, purpose))
  {
    var u := Commit(w, c, ann, purpose);
    var now := Latest(u.log, c.secret.name).value;
    CommitLaw(x, w, c, ann, purpose);
    CommitRevision(x, w, c, ann, purpose);
    if Polite(x) {
      MergedEvidence(x, w, c, ann);
      EvidenceStable(w.trace, u.trace, u.log[now].secret.ann);
      if Hollow(u.log[now].secret.ann) {
        CommitRecovers(x, w, c, ann, purpose);
      }
      assert RevisionGood(x, u, now);
    }
    OneStepKeeps(x, w, u, now);
  }

  lemma RefreshedCopy(x: Setup, w: World, u: World, c: Copy)
    requires Inv(x, u) && CopyOk(x, w, c) && Latest(u.log, c.secret.name).Some?
    requires SameForOthers(w.log[c.rv].secret, u.log[Latest(u.log, c.secret.name).value].secret)
    ensures var now := Latest(u.log, c.secret.name).value;
            CopyOk(x, u, Copy(now, u.log[now].secret)) && SameForOthers(c.secret, u.log[now].secret)
  {
    if Polite(x) {
      assert RevisionGood(x, u, Latest(u.log, c.secret.name).value);
    }
  }

  /** The four ways a patch can end. */
  lemma PatchEnds(x: Setup, w: World, c: Copy, ann: Annotations, purpose: Purpose)
    ensures var (u, d, reply) := Patch(x, w, c, ann, purpose);
            var v := Tick(x, w);
            var mutated := c.(secret := c.secret.(ann := ann));
            var unlocked := !v.down && Latest(v.log, c.secret.name) == Some(c.rv);
            || (u == v && d == mutated && !reply.Committed?)
            || (unlocked && u == Commit(v, c, ann, purpose) && d == mutated && reply.PatchFailed?)
            || (unlocked && u == Commit(v, c, ann, purpose) && reply.Committed?
                && var now := Latest(u.log, c.secret.name).value; d == Copy(now, u.log[now].secret))
  {
  }

  lemma PatchKeeps(x: Setup, w: World, c: Copy, ann: Annotations, purpose: Purpose)
    requires Inv(x, w) && CopyOk(x, w, c) && Justified(x, w, c, ann) && Backs(x, w, c, ann, purpose)
    ensures var (v, d, reply) := Patch(x, w, c, ann, purpose);
            && Inv(x, v) && Later(w, v)
            && SameForOthers(c.secret, d.secret)
            && (reply.Committed? ==> CopyOk(x, v, d))
            && (!reply.Committed? ==> d == c.(secret := c.secret.(ann := ann)))
  {
    assert SameForOthers(c.secret, c.secret.(ann := ann));
    hide Patch, Tick, Commit, Inv, CopyOk, Justified, SameForOthers, Backs;
    TickKeeps(x, w);
    PatchEnds(x, w, c, ann, purpose);
    var v := Tick(x, w);
    CopyLater(x, w, v, c);
    JustifiedLater(x, w, v, c, ann);
    BacksLater(x, w, v, c, ann, purpose);
    if !v.down && Latest(v.log, c.secret.name) == Some(c.rv) {
      CommitKeeps(x, v, c, ann, purpose);
      CommitRevision(x, v, c, ann, purpose);
      RefreshedCopy(x, v, Commit(v, c, ann, purpose), c);
    }
  }

  // ---------------------------------------------------------------- gateway actions

  /** A gateway that is never re-imaged only counts up, and every out-of-band write counts. */
  lemma {:induction false} VersionCountsWrites(w: World, acts: seq<EnvAct>)
    requires forall a :: a in acts ==> !a.Reimage?
    ensures var v := Interfere(w, acts);
            && w.trace <= v.trace && w.gw.version <= v.gw.version
            && (v.gw.version == w.gw.version ==> v.trace == w.trace)
    decreases |acts|
  {
    if acts != [] {
      VersionCountsWrites(EnvStep(w, acts[0]), acts[1..]);
    }
  }

  lemma ReadVersionKeeps(x: Setup, w: World)
    requires Inv(x, w)
    ensures var (v, version) := ReadVersion(x, w);
            && Inv(x, v) && Later(w, v)
            && (version.Success? ==> !v.down && version.value == v.gw.version
                                     && |v.trace| > 0 && v.trace[|v.trace| - 1] == VersionRead(v.run, v.gw.version))
            && (version.Failure? ==> version.error.VersionCheckError? && !IsLocalRejection(version.error))
  {
    TickKeeps(x, w);
    var v := Tick(x, w);
    NoteKeeps(x, v, VersionRead(v.run, v.gw.version));
  }

  lemma ReadLiveKeeps(x: Setup, w: World)
    requires Inv(x, w)
    ensures var (v, live) := ReadLive(x, w);
            && Inv(x, v) && Later(w, v)
            && (live.Success? ==> ReadIn(v.trace, |v.trace|, v.run, live.value))
  {
    TickKeeps(x, w);
    var v := Tick(x, w);
    var e := LiveRead(v.run, v.gw.live);
    NoteKeeps(x, v, e);
    var (u, live) := ReadLive(x, w);
    if live.Success? {
      assert u.trace[|v.trace|] == e;
    }
  }

  lemma ReadCertificateKeeps(x: Setup, w: World, file: string)
    requires Inv(x, w)
    ensures Inv(x, ReadCertificate(x, w, file).0) && Later(w, ReadCertificate(x, w, file).0)
  {
    TickKeeps(x, w);
  }

  lemma BuildClientKeeps(x: Setup, w: World)
    requires Inv(x, w)
    ensures Inv(x, BuildClient(x, w).0) && Later(w, BuildClient(x, w).0)
  {
    TickKeeps(x, w);
  }

  lemma WriteCertificateKeeps(x: Setup, w: World, name: string, bundle: Bytes)
    requires Inv(x, w)
    ensures var (v, err) := WriteCertificate(x, w, name, bundle);
            && Inv(x, v) && Later(w, v)
            && (err.None? ==> Pushed(v.trace, |v.trace|, name, bundle))
  {
    TickKeeps(x, w);
    var it, v := x.env(w.clock), Tick(x, w);
    var u := if Ok(it.reply) || it.lands
             then v.(gw := v.gw.(storage := v.gw.storage[StorageName(name) := bundle])) else v;
    InvStep(x, v, u);
    var e := CertWrite(u.run, name, bundle, it.reply);
    NoteKeeps(x, u, e);
    var (t, err) := WriteCertificate(x, w, name, bundle);
    if err.None? {
      assert PushAccepted(t.trace[|u.trace|], name, bundle);
    }
  }

  /** What must be known before a raw-config POST may be sent. */
  ghost predicate MayPost(x: Setup, w: World, kind: PostKind, raw: Bytes) {
    w.down ||
    match kind
    case ValidateOnly => AllSyncedIn(x, w.trace, |w.trace|, w.run)
    case Apply => ValidatedIn(w.trace, |w.trace|, w.run, raw)
  }

  lemma MayPostLater(x: Setup, w: World, v: World, kind: PostKind, raw: Bytes)
    requires MayPost(x, w, kind, raw) && Later(w, v)
    ensures MayPost(x, v, kind, raw)
  {
  }

  /** The version the POST carries was read by the last event of the trace. */
  ghost predicate JustRead(w: World, version: int) {
    |w.trace| > 0 && version == w.gw.version && w.trace[|w.trace| - 1] == VersionRead(w.run, version)
  }

  lemma AcceptedVersionIsCurrent(x: Setup, w: World, version: int)
    requires JustRead(w, version) && NoReimage(x) && Tick(x, w).gw.version == version
    ensures var v := Tick(x, w); VersionCurrent(v.trace, |v.trace|, w.run)
  {
    VersionCountsWrites(w, x.env(w.clock).acts);
    var v := Tick(x, w);
    assert v.trace[|v.trace| - 1].VersionRead?;
  }

  lemma PostRawKeeps(x: Setup, w: World, kind: PostKind, raw: Bytes, version: int)
    requires Inv(x, w) && MayPost(x, w, kind, raw) && JustRead(w, version)
    ensures var (v, err) := PostRaw(x, w, kind, raw, version);
            && Inv(x, v) && Later(w, v)
            && (err.None? && kind.ValidateOnly? ==> ValidatedIn(v.trace, |v.trace|, v.run, raw))
            && (err.None? && kind.Apply? ==> AppliedIn(v.trace, |v.trace|, v.run, raw))
            && (err.Some? && Classify(err.value) == ConfigRejected ==> RefusedIn(v.trace, |v.trace|, v.run, raw))
  {
    TickKeeps(x, w);
    var it, v := x.env(w.clock), Tick(x, w);
    MayPostLater(x, w, v, kind, raw);
    if x.versionLocked && NoReimage(x) && version == v.gw.version {
      AcceptedVersionIsCurrent(x, w, version);
    }
    DeadIsNoVerdict();
    hide Inv, Tick, MayPost, VersionCurrent, ValidatedIn, AppliedIn, RefusedIn, JustRead, Classify, ErrorOf;
    if !v.down {
      var reply, stored, gw := PostAnswered(x, w, kind, raw, version);
      hide PostRaw;
      AnswerKeeps(x, v, kind, raw, reply, stored, gw);
    }
  }

  lemma PostAnswered(x: Setup, w: World, kind: PostKind, raw: Bytes, version: int)
    returns (reply: Reply, stored: bool, gw: Gateway)
    requires !Tick(x, w).down
    ensures var v := Tick(x, w);
            && PostRaw(x, w, kind, raw, version)
               == (Note(v.(gw := gw), Post(v.run, kind, raw, reply, stored)),
                   if Ok(reply) then None else Some(ErrorOf(reply)))
            && (if kind.Apply? then Ok(reply) ==> stored else !stored)
            && (x.versionLocked && stored ==> version == v.gw.version)
  {
    hide Tick, ErrorOf;
    var it, v := x.env(w.clock), Tick(x, w);
    var stale := x.versionLocked && version != v.gw.version;
    reply := if stale then Response(409) else it.reply;
    stored := kind.Apply? && (Ok(reply) || (it.lands && !stale));
    gw := if stored then v.gw.(live := x.norm(raw), version := v.gw.version + 1) else v.gw;
  }

  lemma DeadIsNoVerdict()
    ensures Classify(DEAD) != ConfigRejected
  {
  }

  /** The gateway's state may change with a POST; what is recorded is the POST and its answer. */
  lemma AnswerKeeps(x: Setup, v: World, kind: PostKind, raw: Bytes, reply: Reply, stored: bool, gw: Gateway)
    requires Inv(x, v) && !v.down && MayPost(x, v, kind, raw)
    requires if kind.Apply? then Ok(reply) ==> stored else !stored
    requires x.versionLocked && NoReimage(x) && stored ==> VersionCurrent(v.trace, |v.trace|, v.run)
    ensures var t := Note(v.(gw := gw), Post(v.run, kind, raw, reply, stored));
            && Inv(x, t) && Later(v, t)
            && (Ok(reply) && kind.ValidateOnly? ==> ValidatedIn(t.trace, |t.trace|, t.run, raw))
            && (Ok(reply) && kind.Apply? ==> AppliedIn(t.trace, |t.trace|, t.run, raw))
            && (Classify(ErrorOf(reply)) == ConfigRejected ==> RefusedIn(t.trace, |t.trace|, t.run, raw))
  {
    var u, e := v.(gw := gw), Post(v.run, kind, raw, reply, stored);
    InvStep(x, v, u);
    PostLawHolds(x, u, e);
    NoteKeeps(x, u, e);
    hide Inv, Law;
    assert Note(u, e).trace[|u.trace|] == e;
    RejectedOnlyByStatus(reply);
  }

  lemma PostLawHolds(x: Setup, u: World, e: Event)
    requires e.Post? && e.run == u.run && MayPost(x, u, e.kind, e.raw) && !u.down
    requires if e.kind.Apply? then Ok(e.reply) ==> e.stored else !e.stored
    requires x.versionLocked && NoReimage(x) && e.stored ==> VersionCurrent(u.trace, |u.trace|, u.run)
    ensures Law(x, u.log, u.trace + [e], |u.trace|)
  {
    var t := u.trace + [e];
    if e.kind.ValidateOnly? {
      forall n | n in x.certs
        ensures SyncedIn(t, |u.trace|, u.run, n)
      {
        assert SyncedIn(u.trace, |u.trace|, u.run, n);
        var j :| 0 <= j < |u.trace| && u.trace[j] == CertSynced(u.run, n);
        assert t[j] == CertSynced(u.run, n);
      }
    } else {
      var j :| 0 <= j < |u.trace| && PostOk(u.trace[j], ValidateOnly, e.raw) && u.trace[j].run == u.run;
      assert PostOk(t[j], ValidateOnly, e.raw);
      if x.versionLocked && NoReimage(x) && e.stored {
        var j :| 0 <= j < |u.trace| && u.trace[j].VersionRead? && u.trace[j].run == u.run
                 && forall k :: j < k < |u.trace| ==> !u.trace[k].OutOfBand?;
        assert t[j].VersionRead?;
      }
    }
  }

  lemma RejectedOnlyByStatus(reply: Reply)
    ensures Classify(ErrorOf(reply)) == ConfigRejected ==> reply == Response(400) || reply == Response(422)
  {
  }
}
