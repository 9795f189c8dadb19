/** Reconcile keeps the invariant, whatever happens between its actions. */
module Protocol {
  import opened Prelude
  import opened Errors
  import opened Platform
  import opened Dataplane
  import opened Reconciliation
  import opened Safety
  import opened Actions

  lemma ContextNeverRejects(words: Words, e: Err)
    ensures Classify(Context(words, e)) == ConfigRejected <==> Classify(e) == ConfigRejected
  {
  }

  lemma LeafNeverRejects()
    ensures forall k :: Classify(Leaf(k, PLAIN)) != ConfigRejected
  {
  }

  lemma VersionFailureNeverRejects(e: Err)
    requires e.VersionCheckError? && !IsLocalRejection(e)
    ensures Classify(e) != ConfigRejected
  {
  }

  // ---------------------------------------------------------------- the client's sequences

  lemma {:induction false} PollKeeps(x: Setup, w: World, polls: nat, last: Option<Err>)
    requires Inv(x, w) && polls <= MAX_POLLS
    requires last.Some? ==> Classify(last.value) != ConfigRejected
    ensures var (v, err) := Poll(x, w, polls, last);
            && Inv(x, v) && Later(w, v)
            && (err.Some? ==> Classify(err.value) != ConfigRejected)
    decreases MAX_POLLS - polls
  {
    hide Inv, Classify, ReadVersion;
    LeafNeverRejects();
    if !(polls == MAX_POLLS || x.env(w.clock).expired) {
      ReadVersionKeeps(x, w);
      var (v, version) := ReadVersion(x, w);
      if version.Failure? && x.env(v.clock).cancelled.None? {
        VersionFailureNeverRejects(version.error);
        PollKeeps(x, v, polls + 1, Some(version.error));
      }
    }
  }

  lemma PostAtVersionKeeps(x: Setup, w: World, kind: PostKind, raw: Bytes)
    requires Inv(x, w) && MayPost(x, w, kind, raw)
    ensures var (v, err) := PostAtVersion(x, w, kind, raw);
            && Inv(x, v) && Later(w, v)
            && (err.None? && kind.ValidateOnly? ==> ValidatedIn(v.trace, |v.trace|, v.run, raw))
            && (err.None? && kind.Apply? ==> AppliedIn(v.trace, |v.trace|, v.run, raw))
            && (err.Some? && Classify(err.value) == ConfigRejected ==> RefusedIn(v.trace, |v.trace|, v.run, raw))
  {
    ReadVersionKeeps(x, w);
    var (v, version) := ReadVersion(x, w);
    if version.Success? {
      MayPostLater(x, w, v, kind, raw);
      PostRawKeeps(x, v, kind, raw, version.value);
    }
  }

  lemma ApplyValidatedKeeps(x: Setup, w: World, raw: Bytes)
    requires Inv(x, w) && ValidatedIn(w.trace, |w.trace|, w.run, raw)
    ensures var (v, err) := ApplyValidated(x, w, raw);
            && Inv(x, v) && Later(w, v)
            && (err.None? ==> AppliedIn(v.trace, |v.trace|, v.run, raw))
            && (err.Some? && Classify(err.value) == ConfigRejected ==> RefusedIn(v.trace, |v.trace|, v.run, raw))
  {
    PollKeeps(x, w, 0, None);
    var (v, err) := WaitForReady(x, w);
    if err.Some? {
      ContextNeverRejects(PLAIN, err.value);
    } else {
      MayPostLater(x, w, v, Apply, raw);
      PostAtVersionKeeps(x, v, Apply, raw);
    }
  }

  lemma NoteSkipped(x: Setup, w: World, name: string, bundle: Bytes, serial: string, remote: Remote)
    requires Inv(x, w) && MetadataMatches(remote, serial, |bundle|)
    requires Polite(x) ==> Pushed(w.trace, |w.trace|, name, bundle)
    ensures var v := Note(w, CertSkipped(w.run, name, bundle, serial, remote));
            && Inv(x, v) && Later(w, v)
            && (Polite(x) ==> Pushed(v.trace, |v.trace|, name, bundle))
            && Handled(v, name)
  {
    var e := CertSkipped(w.run, name, bundle, serial, remote);
    if Polite(x) {
      PushedStable(w.trace, w.trace + [e], name, bundle);
    }
    NoteKeeps(x, w, e);
    if !w.down {
      assert Delivers(Note(w, e).trace[|w.trace|], name);
    }
  }

  /** This Reconcile delivered the Secret's bundle, or its process is gone. */
  ghost predicate Handled(w: World, name: string) {
    w.down || DeliveredIn(w.trace, |w.trace|, w.run, name)
  }

  lemma HandledLater(w: World, v: World, name: string)
    requires Handled(w, name) && Later(w, v)
    ensures Handled(v, name)
  {
    if !v.down {
      var j :| 0 <= j < |w.trace| && Delivers(w.trace[j], name) && w.trace[j].run == w.run;
      assert Delivers(v.trace[j], name);
    }
  }

  lemma AcceptedIsHandled(x: Setup, w: World, name: string, bundle: Bytes)
    requires WriteCertificate(x, w, name, bundle).1.None?
    ensures Handled(WriteCertificate(x, w, name, bundle).0, name)
  {
    var (t, err) := WriteCertificate(x, w, name, bundle);
    assert Delivers(t.trace[|t.trace| - 1], name);
  }

  /** Exactly this bundle reached storage before: by this write, or by the one a skip relies on. */
  lemma SyncSSLCertificateKeeps(x: Setup, w: World, name: string, bundle: Bytes, previouslySynced: bool)
    requires Inv(x, w)
    requires previouslySynced && Polite(x) ==> Pushed(w.trace, |w.trace|, name, bundle)
    ensures var (v, changed) := SyncSSLCertificate(x, w, name, bundle, previouslySynced);
            && Inv(x, v) && Later(w, v)
            && (changed.Success? && Polite(x) ==> Pushed(v.trace, |v.trace|, name, bundle))
            && (changed.Success? ==> Handled(v, name))
  {
    hide Inv, Tick, Poll, Handled;
    var serial := LeafSerial(x.pem(bundle));
    if serial.Success? {
      PollKeeps(x, w, 0, None);
      var (v, notReady) := WaitForReady(x, w);
      if notReady.None? {
        ReadCertificateKeeps(x, v, StorageName(name));
        var (u, remote) := ReadCertificate(x, v, StorageName(name));
        if remote.Success? && MetadataMatches(remote.value, serial.value, |bundle|) && previouslySynced {
          if Polite(x) {
            PushedStable(w.trace, u.trace, name, bundle);
          }
          NoteSkipped(x, u, name, bundle, serial.value, remote.value);
        } else {
          WriteCertificateKeeps(x, u, name, bundle);
          if WriteCertificate(x, u, name, bundle).1.None? {
            AcceptedIsHandled(x, u, name, bundle);
          }
        }
      }
    }
  }

  // ---------------------------------------------------------------- certificates

  ghost predicate Target(x: Setup, c: Copy) {
    ConfigSecretIsDedicated(x) ==> c.secret.name == x.secretName
  }

  /** What every part of Reconcile hands on. */
  ghost predicate Good(x: Setup, w0: World, w: World, m: Memory) {
    Inv(x, w) && Later(w0, w) && MemoryOk(x, w, m)
  }

  /** A failed push only leaves its mark. */
  lemma NotPushedKeeps(x: Setup, w: World, m: Memory, state: Option<Copy>, name: string, err: Err)
    requires Inv(x, w) && MemoryOk(x, w, m) && (state.Some? ==> CopyOk(x, w, state.value))
    ensures var p := NotPushed(w, m, state, name, err);
            && Good(x, w, p.w, p.m) && p.state == state && p.m == m && p.result.Failure?
            && (state.Some? ==> CopyOk(x, p.w, state.value))
  {
    hide Inv, CopyOk, MemoryOk;
    var e := CertNotSynced(w.run, name);
    NoteMarkKeeps(x, w, e);
    MemoryLater(x, w, Note(w, e), m);
    if state.Some? {
      CopyLater(x, w, Note(w, e), state.value);
    }
  }

  lemma NoteMarkKeeps(x: Setup, w: World, e: Event)
    requires Inv(x, w) && e.CertNotSynced? && e.run == w.run
    ensures Inv(x, Note(w, e)) && Later(w, Note(w, e))
  {
    NoteKeeps(x, w, e);
  }

  lemma NoteSynced(x: Setup, w: World, name: string)
    requires Inv(x, w) && Handled(w, name)
    ensures var v := Note(w, CertSynced(w.run, name));
            Inv(x, v) && Later(w, v) && (v.down || SyncedIn(v.trace, |v.trace|, v.run, name))
  {
    var e := CertSynced(w.run, name);
    if w.down {
      assert Note(w, e) == w;
    } else {
      SyncedLaw(x, w, name);
      NoteKeeps(x, w, e);
      assert Note(w, e).trace[|w.trace|] == e;
    }
  }

  lemma SyncedLaw(x: Setup, w: World, name: string)
    requires DeliveredIn(w.trace, |w.trace|, w.run, name)
    ensures Law(x, w.log, w.trace + [CertSynced(w.run, name)], |w.trace|)
  {
    var t := w.trace + [CertSynced(w.run, name)];
    var j :| 0 <= j < |w.trace| && Delivers(w.trace[j], name) && w.trace[j].run == w.run;
    assert Delivers(t[j], name);
  }

  lemma CertRecordsHaveEvidence(x: Setup, w: World, c: Copy, name: string, entry: CertEntry)
    requires CopyOk(x, w, c) && (Polite(x) ==> Pushed(w.trace, |w.trace|, name, entry.hash))
    ensures var records := CertSyncState(Some(c))[name := entry];
            Polite(x) ==> Evidence(w.trace, map[CertSync := CertState(records)])
                          && Evidence(w.trace, c.secret.ann[CertSync := CertState(records)])
  {
  }

  /** The copy with its new record is as good as before, and the record may be sent. */
  lemma CertRecordIsJustified(x: Setup, w: World, c: Copy, name: string, entry: CertEntry)
    requires CopyOk(x, w, c) && Target(x, c) && (Polite(x) ==> Pushed(w.trace, |w.trace|, name, entry.hash))
    ensures var ann := WithRecord(c, name, entry);
            Justified(x, w, c, ann) && CopyOk(x, w, c.(secret := c.secret.(ann := ann)))
  {
    CertRecordsHaveEvidence(x, w, c, name, entry);
  }

  lemma RecordPushKeeps(x: Setup, w: World, m: Memory, name: string, bundle: Bytes, state: Option<Copy>, changed: bool)
    requires Inv(x, w) && MemoryOk(x, w, m) && Handled(w, name)
    requires Polite(x) ==> Pushed(w.trace, |w.trace|, name, bundle)
    requires state.Some? ==> CopyOk(x, w, state.value) && Target(x, state.value)
    ensures var p := RecordPush(x, w, m, name, bundle, state, changed);
            && Good(x, w, p.w, p.m)
            && (state.Some? ==>
                  CopyOk(x, p.w, p.state.value) && SameForOthers(state.value.secret, p.state.value.secret))
            && (p.result.Success? ==> p.w.down || SyncedIn(p.w.trace, |p.w.trace|, p.w.run, name))
  {
    hide Inv, CopyOk, MemoryOk, Patch, Note, SyncedIn, Pushed, Target, SameForOthers, Justified, Handled;
    var p := RecordPush(x, w, m, name, bundle, state, changed);
    if state.Some? && (changed || !RecordedHash(CertSyncState(state), name, bundle)) {
      var c := state.value;
      var entry := CertEntry(bundle, x.env(w.clock).now);
      var ann := WithRecord(c, name, entry);
      CertRecordIsJustified(x, w, c, name, entry);
      PatchKeeps(x, w, c, ann, RecordCert(name));
      var (v, d, reply) := Patch(x, w, c, ann, RecordCert(name));
      if !reply.Committed? {
        CopyLater(x, w, v, d);
      }
      MemoryLater(x, w, v, m);
      if reply.PatchFailed? {
        NotPushedKeeps(x, v, m, Some(d), name, Context(PLAIN, Leaf(Opaque, PLAIN)));
      } else {
        HandledLater(w, v, name);
        NoteSynced(x, v, name);
        CopyLater(x, v, p.w, d);
        MemoryLater(x, v, p.w, m);
      }
    } else {
      NoteSynced(x, w, name);
      MemoryLater(x, w, p.w, m);
      if state.Some? {
        CopyLater(x, w, p.w, state.value);
        SameSelf(state.value.secret);
      }
    }
  }

  predicate PreviouslySynced(m: Memory, name: string, state: Option<Copy>, bundle: Bytes) {
    RecordedHash(CertSyncState(state), name, bundle) || (name in m.certHashes && m.certHashes[name] == bundle)
  }

  lemma PreviouslySyncedWasPushed(x: Setup, w: World, m: Memory, name: string, state: Option<Copy>, bundle: Bytes)
    requires MemoryOk(x, w, m) && (state.Some? ==> CopyOk(x, w, state.value))
    requires PreviouslySynced(m, name, state, bundle) && Polite(x)
    ensures Pushed(w.trace, |w.trace|, name, bundle)
  {
  }

  lemma Remembered(x: Setup, w: World, m: Memory, name: string, bundle: Bytes)
    requires MemoryOk(x, w, m) && (Polite(x) ==> Pushed(w.trace, |w.trace|, name, bundle))
    ensures MemoryOk(x, w, m.(certHashes := m.certHashes[name := bundle]))
  {
  }

  lemma PushCertSecretKeeps(x: Setup, w: World, m: Memory, secret: Secret, state: Option<Copy>)
    requires Inv(x, w) && MemoryOk(x, w, m)
    requires state.Some? ==> CopyOk(x, w, state.value) && Target(x, state.value)
    ensures var p := PushCertSecret(x, w, m, secret, state);
            && Good(x, w, p.w, p.m)
            && (state.Some? ==>
                  CopyOk(x, p.w, p.state.value) && SameForOthers(state.value.secret, p.state.value.secret))
            && (p.result.Success? ==> p.w.down || SyncedIn(p.w.trace, |p.w.trace|, p.w.run, secret.name))
  {
    hide Inv, CopyOk, MemoryOk, Pushed, SyncSSLCertificate, RecordPush, SyncedIn, CertPEMBundle, NotPushed, Handled;
    var bundle := CertPEMBundle(secret);
    if state.Some? {
      SameSelf(state.value.secret);
    }
    if bundle.Failure? {
      NotPushedKeeps(x, w, m, state, secret.name, bundle.error);
    }
    if bundle.Success? {
      var b := bundle.value;
      var previouslySynced := PreviouslySynced(m, secret.name, state, b);
      if previouslySynced && Polite(x) {
        PreviouslySyncedWasPushed(x, w, m, secret.name, state, b);
      }
      SyncSSLCertificateKeeps(x, w, secret.name, b, previouslySynced);
      var (v, changed) := SyncSSLCertificate(x, w, secret.name, b, previouslySynced);
      MemoryLater(x, w, v, m);
      if state.Some? {
        CopyLater(x, w, v, state.value);
      }
      if changed.Success? {
        var n := m.(certHashes := m.certHashes[secret.name := b]);
        Remembered(x, v, m, secret.name, b);
        RecordPushKeeps(x, v, n, secret.name, b, state, changed.value);
      } else {
        NotPushedKeeps(x, v, m, state, secret.name, changed.error);
      }
    }
  }

  lemma {:induction false} EnsureCertSecretsSyncedKeeps(x: Setup, w: World, m: Memory, c: Copy, i: nat)
    requires Inv(x, w) && MemoryOk(x, w, m) && CopyOk(x, w, c) && Target(x, c) && i <= |x.certs|
    ensures var p := EnsureCertSecretsSynced(x, w, m, c, i);
            && Good(x, w, p.w, p.m)
            && CopyOk(x, p.w, p.state.value) && SameForOthers(c.secret, p.state.value.secret)
            && (p.result.Success? ==>
                  p.w.down || forall j :: i <= j < |x.certs| ==> SyncedIn(p.w.trace, |p.w.trace|, p.w.run, x.certs[j]))
    decreases |x.certs| - i
  {
    hide Inv, CopyOk, MemoryOk, SyncedIn, Get, PushCertSecret, NotPushed;
    SameSelf(c.secret);
    if i < |x.certs| {
      GetKeeps(x, w, x.certs[i]);
      var (v, got) := Get(x, w, x.certs[i]);
      MemoryLater(x, w, v, m);
      CopyLater(x, w, v, c);
      if !got.Found? {
        NotPushedKeeps(x, v, m, Some(c), x.certs[i], Context(PLAIN, Leaf(Opaque, PLAIN)));
      } else {
        PushCertSecretKeeps(x, v, m, got.copy.secret, Some(c));
        var p := PushCertSecret(x, v, m, got.copy.secret, Some(c));
        if p.result.Success? {
          EnsureCertSecretsSyncedKeeps(x, p.w, p.m, p.state.value, i + 1);
          var q := EnsureCertSecretsSynced(x, p.w, p.m, p.state.value, i + 1);
          if q.result.Success? && !q.w.down {
            SyncedLater(p.w, q.w, x.certs[i]);
          }
        }
      }
    }
  }

  lemma SyncedLater(w: World, v: World, name: string)
    requires Later(w, v) && SyncedIn(w.trace, |w.trace|, w.run, name)
    ensures SyncedIn(v.trace, |v.trace|, v.run, name)
  {
  }
}
