/** The certificate records agree with the gateway's storage, in every run in which no record is lost. */
module CertAgreement {
  import opened Prelude
  import opened Errors
  import opened Platform
  import opened Dataplane
  import opened Reconciliation
  import opened Safety
  import opened Actions
  import opened Steadiness
  import opened Theorems
  import opened CertCache

  // ---------------------------------------------------------------- writing storage

  lemma StorageNameInjective(a: string, b: string)
    requires StorageName(a) == StorageName(b)
    ensures a == b
  {
    assert a == StorageName(a)[..|StorageName(a)| - 4];
    assert b == StorageName(b)[..|StorageName(b)| - 4];
  }

  /** Storage as it was, except that it now holds `bundle` for `name`. */
  ghost predicate Wrote(g: Gateway, h: Gateway, name: string, bundle: Bytes) {
    h.storage == g.storage[StorageName(name) := bundle]
  }

  lemma OthersStillStored(g: Gateway, h: Gateway, name: string, bundle: Bytes, n: string, b: Bytes)
    requires Wrote(g, h, name, bundle) && n != name && Stores(g, n, b)
    ensures Stores(h, n, b)
  {
    if StorageName(n) == StorageName(name) {
      StorageNameInjective(n, name);
    }
  }

  /** Overwriting the entry of the written name makes the records agree again. */
  lemma RecordsAgreeAfterWrite(g: Gateway, h: Gateway, name: string, bundle: Bytes, r: Records, at: nat)
    requires Wrote(g, h, name, bundle) && RecordsAgree(g, r)
    ensures RecordsAgree(h, r[name := CertEntry(bundle, at)])
  {
    forall n | n in r && n != name
      ensures Stores(h, n, r[n].hash)
    {
      OthersStillStored(g, h, name, bundle, n, r[n].hash);
    }
  }

  lemma MemoryAgreesAfterWrite(g: Gateway, h: Gateway, name: string, bundle: Bytes, m: Memory)
    requires Wrote(g, h, name, bundle) && MemoryAgrees(g, m)
    ensures MemoryAgrees(h, m.(certHashes := m.certHashes[name := bundle]))
  {
    forall n | n in m.certHashes && n != name
      ensures Stores(h, n, m.certHashes[n])
    {
      OthersStillStored(g, h, name, bundle, n, m.certHashes[n]);
    }
  }

  // ---------------------------------------------------------------- one push

  /** After a push that reported success: storage holds the bundle, by an accepted write or as it already was. */
  ghost predicate PushedAs(x: Setup, w: World, v: World, name: string, bundle: Bytes, changed: bool) {
    && w.log <= v.log && (Kept(v.trace) ==> Kept(w.trace))
    && (Recorded(x, v) == Recorded(x, w) || Recorded(x, v) == map[])
    && (if changed
        then Unsaved(v.trace) == Some(name) && Wrote(w.gw, v.gw, name, bundle)
            && (Kept(v.trace) ==> Unsaved(w.trace).None?)
        else Unsaved(v.trace) == Unsaved(w.trace) && v.gw.storage == w.gw.storage)
  }

  lemma WriteCertificatePushes(x: Setup, w: World, name: string, bundle: Bytes)
    requires StorageIsOurs(x)
    ensures var (v, err) := WriteCertificate(x, w, name, bundle);
            if err.None? then PushedAs(x, w, v, name, bundle, true) else Rests(x, w, v)
  {
    var it, v := x.env(w.clock), Tick(x, w);
    assert !Ok(it.reply) ==> !it.lands;
    TickRests(x, w);
    hide StorageIsOurs, Tick;
    var u := if Ok(it.reply) || it.lands
             then v.(gw := v.gw.(storage := v.gw.storage[StorageName(name) := bundle])) else v;
    var e := CertWrite(u.run, name, bundle, it.reply);
    CertSnoc(u.trace, e);
  }

  lemma PushedAfterRest(x: Setup, w: World, v: World, u: World, name: string, bundle: Bytes, changed: bool)
    requires Rests(x, w, v) && PushedAs(x, v, u, name, bundle, changed)
    ensures PushedAs(x, w, u, name, bundle, changed)
  {
  }

  lemma SyncSSLCertificatePushes(x: Setup, w: World, name: string, bundle: Bytes, previouslySynced: bool)
    requires StorageIsOurs(x)
    ensures var (v, changed) := SyncSSLCertificate(x, w, name, bundle, previouslySynced);
            && (changed.Failure? ==> Rests(x, w, v))
            && (changed.Success? ==> PushedAs(x, w, v, name, bundle, changed.value))
            && (changed == Success(false) ==> previouslySynced)
  {
    RestsSelf(x, w);
    var serial := LeafSerial(x.pem(bundle));
    if serial.Success? {
      hide Rests, PushedAs, StorageIsOurs, Poll, Tick, WriteCertificate;
      PollRests(x, w, 0, None);
      var (v, notReady) := WaitForReady(x, w);
      if notReady.None? {
        TickRests(x, v);
        var (u, remote) := ReadCertificate(x, v, StorageName(name));
        RestsTransitive(x, w, v, u);
        if remote.Success? && MetadataMatches(remote.value, serial.value, |bundle|) && previouslySynced {
          var e := CertSkipped(u.run, name, bundle, serial.value, remote.value);
          NoteRests(x, u, e);
          RestsTransitive(x, w, u, Note(u, e));
          RestIsUnchangedPush(x, w, Note(u, e), name, bundle);
        } else {
          WriteCertificatePushes(x, u, name, bundle);
          var (t, err) := WriteCertificate(x, u, name, bundle);
          if err.None? {
            PushedAfterRest(x, w, u, t, name, bundle, true);
          } else {
            RestsTransitive(x, w, u, t);
          }
        }
      }
    }
  }

  lemma RestIsUnchangedPush(x: Setup, w: World, v: World, name: string, bundle: Bytes)
    requires Rests(x, w, v)
    ensures PushedAs(x, w, v, name, bundle, false)
  {
  }

  // ---------------------------------------------------------------- recording it

  /** Between an accepted write and its record: memory knows, the records of the copy are those from before. */
  ghost predicate Between(x: Setup, w: World, m: Memory, c: Option<Copy>, name: string, bundle: Bytes, changed: bool) {
    && (c.Some? ==> c.value.secret.name == x.secretName && c.value.rv < |w.log|)
    && (Kept(w.trace) ==>
          && MemoryAgrees(w.gw, m) && Stores(w.gw, name, bundle)
          && (Unsaved(w.trace).None? ==> !changed && RecordsAgree(w.gw, Recorded(x, w)))
          && (c.Some? ==>
                var r := RecordsIn(c.value.secret.ann);
                && (forall at :: RecordsAgree(w.gw, r[name := CertEntry(bundle, at)]))
                && (changed || Unsaved(w.trace).None? ==>
                      SubRecords(RecordsIn(w.log[c.value.rv].secret.ann), r))
                && (!changed ==> RecordsAgree(w.gw, r))))
  }

  lemma BetweenAfterPush(
    x: Setup, w: World, v: World, m: Memory, c: Option<Copy>, name: string, bundle: Bytes, changed: bool)
    requires Cached(x, w, m) && (c.Some? ==> CopyCached(x, w, c.value)) && PushedAs(x, w, v, name, bundle, changed)
    requires !changed && Kept(w.trace) ==> Stores(w.gw, name, bundle)
    ensures Between(x, v, m.(certHashes := m.certHashes[name := bundle]), c, name, bundle, changed)
  {
    if Kept(v.trace) {
      if changed {
        MemoryAgreesAfterWrite(w.gw, v.gw, name, bundle, m);
        if c.Some? {
          forall at
            ensures RecordsAgree(v.gw, RecordsIn(c.value.secret.ann)[name := CertEntry(bundle, at)])
          {
            RecordsAgreeAfterWrite(w.gw, v.gw, name, bundle, RecordsIn(c.value.secret.ann), at);
          }
        }
      } else {
        assert MemoryAgrees(v.gw, m.(certHashes := m.certHashes[name := bundle]));
      }
    }
  }

  lemma BetweenRests(
    x: Setup, w: World, v: World, m: Memory, c: Option<Copy>, name: string, bundle: Bytes, changed: bool)
    requires Between(x, w, m, c, name, bundle, changed) && Rests(x, w, v)
    ensures Between(x, v, m, c, name, bundle, changed)
  {
  }

  /** The committed record is the one written to the copy, and it agrees with storage. */
  lemma RecordCommitCached(x: Setup, w: World, m: Memory, c: Copy, name: string, bundle: Bytes, changed: bool, at: nat)
    requires Between(x, w, m, Some(c), name, bundle, changed) && Latest(w.log, c.secret.name) == Some(c.rv)
    requires changed || !RecordedHash(RecordsIn(c.secret.ann), name, bundle)
    ensures var u := Commit(w, c, WithRecord(c, name, CertEntry(bundle, at)), RecordCert(name));
            var now := Latest(u.log, x.secretName).value;
            && Cached(x, u, m) && CopyCached(x, u, Copy(now, u.log[now].secret))
            && u.gw == w.gw && (Kept(u.trace) ==> Kept(w.trace)) && w.log <= u.log
  {
    var ann := WithRecord(c, name, CertEntry(bundle, at));
    var u := Commit(w, c, ann, RecordCert(name));
    var e := u.trace[|w.trace|];
    assert u.trace == w.trace + [e];
    CertSnoc(w.trace, e);
    var server := w.log[c.rv].secret;
    var merged := Overlay(server.ann, c.secret.ann, ann);
    if Kept(u.trace) {
      RecordReaches(server.ann, c.secret.ann, ann, name, bundle, at);
      assert RecordsAgree(w.gw, RecordsIn(c.secret.ann)[name := CertEntry(bundle, at)]);
      assert RecordsAgree(w.gw, RecordsIn(merged));
    }
    hide Overlay, Touched;
    if |u.log| > |w.log| {
      LatestAfterAppend(w.log, u.log[|w.log|], x.secretName);
    }
  }

  /** Either the patch touches the record, or the server has nothing more than what was to be written. */
  lemma RecordReaches(
    server: Annotations, before: Annotations, after: Annotations, name: string, bundle: Bytes, at: nat)
    requires after == before[CertSync := CertState(RecordsIn(before)[name := CertEntry(bundle, at)])]
    requires SubRecords(RecordsIn(server), RecordsIn(before)) || !RecordedHash(RecordsIn(before), name, bundle)
    ensures SubRecords(RecordsIn(Overlay(server, before, after)), RecordsIn(after))
  {
    if !Touched(CertSync, before, after) {
      assert RecordsIn(before) == RecordsIn(after);
      assert name in RecordsIn(after) && RecordsIn(after)[name].hash == bundle;
    }
  }

  /** A patch that did not commit leaves the copy with the record it was to write. */
  lemma UncommittedCopyCached(
    x: Setup, w: World, m: Memory, c: Copy, name: string, bundle: Bytes, changed: bool, at: nat)
    requires Between(x, w, m, Some(c), name, bundle, changed)
    requires changed || !RecordedHash(RecordsIn(c.secret.ann), name, bundle)
    ensures Cached(x, w, m)
            && CopyCached(x, w, c.(secret := c.secret.(ann := WithRecord(c, name, CertEntry(bundle, at)))))
  {
    if Kept(w.trace) {
      var r := RecordsIn(c.secret.ann);
      assert RecordsAgree(w.gw, r[name := CertEntry(bundle, at)]);
      if Unsaved(w.trace).None? {
        assert name !in r;
      }
    }
  }

  lemma UnchangedCached(x: Setup, w: World, m: Memory, c: Option<Copy>, name: string, bundle: Bytes)
    requires Between(x, w, m, c, name, bundle, false)
    ensures Cached(x, w, m) && (c.Some? ==> CopyCached(x, w, c.value))
  {
  }

  lemma UnrecordedCached(x: Setup, w: World, m: Memory, name: string, bundle: Bytes, changed: bool)
    requires Between(x, w, m, None, name, bundle, changed)
    ensures Cached(x, w, m)
  {
  }

  // ---------------------------------------------------------------- the push as a whole

  /** What a push leaves behind; on success storage holds the bundle of this Secret. */
  ghost predicate PushCached(x: Setup, w: World, state: Option<Copy>, p: Push)
    requires state.Some? ==> p.state.Some?
  {
    && Cached(x, p.w, p.m) && w.log <= p.w.log && (Kept(p.w.trace) ==> Kept(w.trace))
    && (state.Some? && p.result.Success? ==> CopyCached(x, p.w, p.state.value))
  }

  lemma BetweenStores(x: Setup, w: World, m: Memory, c: Option<Copy>, name: string, bundle: Bytes, changed: bool)
    requires Between(x, w, m, c, name, bundle, changed)
    ensures Kept(w.trace) ==> Stores(w.gw, name, bundle)
    ensures c.Some? ==> c.value.secret.name == x.secretName
  {
  }

  lemma RecordPatchCached(x: Setup, w: World, m: Memory, c: Copy, name: string, bundle: Bytes, changed: bool)
    requires StorageIsOurs(x) && Between(x, w, m, Some(c), name, bundle, changed)
    requires changed || !RecordedHash(RecordsIn(c.secret.ann), name, bundle)
    ensures var ann := WithRecord(c, name, CertEntry(bundle, x.env(w.clock).now));
            var (u, d, reply) := Patch(x, w, c, ann, RecordCert(name));
            && Cached(x, u, m) && w.log <= u.log && (Kept(u.trace) ==> Kept(w.trace) && Stores(u.gw, name, bundle))
            && u.gw.storage == w.gw.storage
            && (!reply.PatchFailed? ==> CopyCached(x, u, d))
  {
    var at := x.env(w.clock).now;
    var ann := WithRecord(c, name, CertEntry(bundle, at));
    var v := Tick(x, w);
    hide Rests, Between, CopyCached, Cached, Tick, Commit, Stores, Patch, StorageIsOurs;
    PatchEnds(x, w, c, ann, RecordCert(name));
    TickRests(x, w);
    RestsGrows(x, w, v);
    BetweenRests(x, w, v, m, Some(c), name, bundle, changed);
    BetweenStores(x, v, m, Some(c), name, bundle, changed);
    UncommittedCopyCached(x, v, m, c, name, bundle, changed, at);
    if Latest(v.log, c.secret.name) == Some(c.rv) {
      RecordCommitCached(x, v, m, c, name, bundle, changed, at);
    }
  }

  lemma RecordPushCached(x: Setup, w: World, m: Memory, name: string, bundle: Bytes, state: Option<Copy>, changed: bool)
    requires StorageIsOurs(x) && Between(x, w, m, state, name, bundle, changed)
    ensures var p := RecordPush(x, w, m, name, bundle, state, changed);
            && PushCached(x, w, state, p) && (Kept(p.w.trace) ==> Stores(p.w.gw, name, bundle)) && p.m == m
            && p.w.gw.storage == w.gw.storage
  {
    hide Rests, Between, CopyCached, Cached, Patch, Stores, Note, StorageIsOurs;
    if state.Some? && (changed || !RecordedHash(CertSyncState(state), name, bundle)) {
      var c := state.value;
      assert CertSyncState(state) == RecordsIn(c.secret.ann);
      RecordPatchCached(x, w, m, c, name, bundle, changed);
      var (u, d, reply) := Patch(x, w, c, WithRecord(c, name, CertEntry(bundle, x.env(w.clock).now)), RecordCert(name));
      if reply.PatchFailed? {
        MarkedPush(x, u, m, name);
      } else {
        NotedPush(x, u, m, Some(d), name);
      }
    } else {
      BetweenStores(x, w, m, state, name, bundle, changed);
      if !changed {
        UnchangedCached(x, w, m, state, name, bundle);
      } else {
        UnrecordedCached(x, w, m, name, bundle, changed);
      }
      NotedPush(x, w, m, state, name);
    }
  }

  lemma NotedPush(x: Setup, w: World, m: Memory, state: Option<Copy>, name: string)
    requires Cached(x, w, m) && (state.Some? ==> CopyCached(x, w, state.value))
    ensures var v := Note(w, CertSynced(w.run, name));
            && w.log <= v.log && v.gw == w.gw && (Kept(v.trace) ==> Kept(w.trace))
            && Cached(x, v, m) && (state.Some? ==> CopyCached(x, v, state.value))
  {
    CertSnoc(w.trace, CertSynced(w.run, name));
  }

  /** The mark of a failed push. */
  lemma MarkedPush(x: Setup, w: World, m: Memory, name: string)
    requires Cached(x, w, m)
    ensures var v := Note(w, CertNotSynced(w.run, name));
            && w.log <= v.log && v.gw == w.gw && (Kept(v.trace) ==> Kept(w.trace)) && Cached(x, v, m) && Rests(x, w, v)
  {
    NoteRests(x, w, CertNotSynced(w.run, name));
  }

  lemma RecordedHashIsStored(x: Setup, w: World, m: Memory, name: string, state: Option<Copy>, bundle: Bytes)
    requires Cached(x, w, m) && (state.Some? ==> CopyCached(x, w, state.value)) && Kept(w.trace)
    requires RecordedHash(CertSyncState(state), name, bundle) || (name in m.certHashes && m.certHashes[name] == bundle)
    ensures Stores(w.gw, name, bundle)
  {
  }

  lemma PushCertSecretCached(x: Setup, w: World, m: Memory, secret: Secret, state: Option<Copy>)
    requires StorageIsOurs(x) && Cached(x, w, m) && (state.Some? ==> CopyCached(x, w, state.value))
    ensures var p := PushCertSecret(x, w, m, secret, state);
            && PushCached(x, w, state, p)
            && (p.result.Success? && Kept(p.w.trace) ==>
                  CertPEMBundle(secret).Success? && Stores(p.w.gw, secret.name, CertPEMBundle(secret).value))
            && (forall n, b :: n != secret.name && Stores(w.gw, n, b) ==> Stores(p.w.gw, n, b))
  {
    var bundle := CertPEMBundle(secret);
    if bundle.Failure? {
      MarkedPush(x, w, m, secret.name);
    } else {
      hide SyncSSLCertificate, RecordPush, CertPEMBundle, StorageIsOurs, PushCached, Cached, CopyCached, Kept, Stores,
           Note;
      var b := bundle.value;
      var previouslySynced := RecordedHash(CertSyncState(state), secret.name, b)
                              || (secret.name in m.certHashes && m.certHashes[secret.name] == b);
      var (v, changed) := SyncSSLCertificate(x, w, secret.name, b, previouslySynced);
      if changed.Failure? {
        FailedSyncCached(x, w, m, secret.name, b, previouslySynced, state);
      } else {
        SyncThenRecordCached(x, w, m, secret.name, b, state);
      }
    }
  }

  lemma FailedSyncCached(
    x: Setup, w: World, m: Memory, name: string, b: Bytes, previouslySynced: bool, state: Option<Copy>)
    requires StorageIsOurs(x) && Cached(x, w, m) && (state.Some? ==> CopyCached(x, w, state.value))
    requires SyncSSLCertificate(x, w, name, b, previouslySynced).1.Failure?
    ensures var (v, changed) := SyncSSLCertificate(x, w, name, b, previouslySynced);
            && PushCached(x, w, state, NotPushed(v, m, state, name, changed.error))
            && forall n, c :: n != name && Stores(w.gw, n, c) ==>
                 Stores(NotPushed(v, m, state, name, changed.error).w.gw, n, c)
  {
    hide Note, SyncSSLCertificate, Rests, Cached, CopyCached, Stores;
    SyncSSLCertificatePushes(x, w, name, b, previouslySynced);
    var v := SyncSSLCertificate(x, w, name, b, previouslySynced).0;
    CachedRests(x, w, v, m);
    RestsGrows(x, w, v);
    MarkedPush(x, v, m, name);
    RestStores(x, w, v);
  }

  lemma SyncThenRecordCached(x: Setup, w: World, m: Memory, name: string, b: Bytes, state: Option<Copy>)
    requires StorageIsOurs(x) && Cached(x, w, m) && (state.Some? ==> CopyCached(x, w, state.value))
    requires var previouslySynced := RecordedHash(CertSyncState(state), name, b)
                                     || (name in m.certHashes && m.certHashes[name] == b);
             SyncSSLCertificate(x, w, name, b, previouslySynced).1.Success?
    ensures var previouslySynced := RecordedHash(CertSyncState(state), name, b)
                                    || (name in m.certHashes && m.certHashes[name] == b);
            var (v, changed) := SyncSSLCertificate(x, w, name, b, previouslySynced);
            var p := RecordPush(x, v, m.(certHashes := m.certHashes[name := b]), name, b, state, changed.value);
            && PushCached(x, w, state, p)
            && (p.result.Success? && Kept(p.w.trace) ==> Stores(p.w.gw, name, b))
            && (forall n, c :: n != name && Stores(w.gw, n, c) ==> Stores(p.w.gw, n, c))
  {
    var previouslySynced := RecordedHash(CertSyncState(state), name, b)
                            || (name in m.certHashes && m.certHashes[name] == b);
    hide Note, SyncSSLCertificate, RecordPush, Rests, PushedAs, Between, Cached, CopyCached, Stores;
    SyncSSLCertificatePushes(x, w, name, b, previouslySynced);
    var (v, changed) := SyncSSLCertificate(x, w, name, b, previouslySynced);
    if !changed.value && Kept(w.trace) {
      RecordedHashIsStored(x, w, m, name, state, b);
    }
    PushedGrows(x, w, v, name, b, changed.value);
    BetweenAfterPush(x, w, v, m, state, name, b, changed.value);
    RecordPushCached(x, v, m.(certHashes := m.certHashes[name := b]), name, b, state, changed.value);
  }

  lemma RestsGrows(x: Setup, w: World, v: World)
    requires Rests(x, w, v)
    ensures w.log <= v.log && (Kept(v.trace) ==> Kept(w.trace)) && v.gw.storage == w.gw.storage
  {
  }

  lemma PushedGrows(x: Setup, w: World, v: World, name: string, bundle: Bytes, changed: bool)
    requires PushedAs(x, w, v, name, bundle, changed)
    ensures w.log <= v.log && (Kept(v.trace) ==> Kept(w.trace))
    ensures forall n, b :: n != name && Stores(w.gw, n, b) ==> Stores(v.gw, n, b)
  {
    if changed {
      forall n, b | n != name && Stores(w.gw, n, b)
        ensures Stores(v.gw, n, b)
      {
        OthersStillStored(w.gw, v.gw, name, bundle, n, b);
      }
    }
  }

  lemma RestStores(x: Setup, w: World, v: World)
    requires Rests(x, w, v)
    ensures forall n, b :: Stores(w.gw, n, b) ==> Stores(v.gw, n, b)
  {
  }

  // ---------------------------------------------------------------- every listed certificate

  /** Revision `i` of a Secret was its current one when the log had `since` entries, or is newer. */
  ghost predicate CurrentSince(log: Log, i: nat, since: nat)
    requires i < |log|
  {
    forall k :: i < k < since && k < |log| ==> log[k].secret.name != log[i].secret.name
  }

  /** Storage holds, under this name, the bundle of a revision of the Secret that was current at `since` or later. */
  ghost predicate StoredFromSecret(w: World, name: string, since: nat) {
    exists i :: 0 <= i < |w.log| && w.log[i].secret.name == name && StoresBundle(w, w.log[i].secret)
                && CurrentSince(w.log, i, since)
  }

  predicate StoresBundle(w: World, s: Secret) {
    var bundle := CertPEMBundle(s);
    bundle.Success? && Stores(w.gw, s.name, bundle.value)
  }

  /** A later push replaces a bundle only by that of a revision of the same Secret. */
  lemma StoredFromSecretStays(w: World, v: World, pushed: string, name: string, since: nat)
    requires StoredFromSecret(w, name, since) && w.log <= v.log && since <= |w.log|
    requires forall n, b :: n != pushed && Stores(w.gw, n, b) ==> Stores(v.gw, n, b)
    requires StoredFromSecret(v, pushed, since)
    ensures StoredFromSecret(v, name, since)
  {
    if name != pushed {
      var i :| 0 <= i < |w.log| && w.log[i].secret.name == name && StoresBundle(w, w.log[i].secret)
               && CurrentSince(w.log, i, since);
      assert StoresBundle(v, v.log[i].secret) && CurrentSince(v.log, i, since);
    }
  }

  lemma StoredFromSecretRests(x: Setup, w: World, v: World, name: string, since: nat)
    requires StoredFromSecret(w, name, since) && Rests(x, w, v) && since <= |w.log|
    ensures StoredFromSecret(v, name, since)
  {
    var i :| 0 <= i < |w.log| && w.log[i].secret.name == name && StoresBundle(w, w.log[i].secret)
               && CurrentSince(w.log, i, since);
    assert StoresBundle(v, v.log[i].secret) && CurrentSince(v.log, i, since);
  }

  ghost predicate AllStored(x: Setup, w: World, i: nat, since: nat)
    requires i <= |x.certs|
  {
    forall j :: 0 <= j < i ==> StoredFromSecret(w, x.certs[j], since)
  }

  lemma GetCert(x: Setup, w: World, name: string)
    requires StorageIsOurs(x)
    ensures var (v, got) := Get(x, w, name);
            && Rests(x, w, v)
            && (got.Found? ==> got.copy.rv < |v.log| && v.log[got.copy.rv].secret == got.copy.secret
                               && got.copy.secret.name == name
                               && CurrentSince(v.log, got.copy.rv, |v.log|))
  {
    TickRests(x, w);
  }

  /** After a sync of all listed Secrets that succeeded, storage holds the assembled bundle of each. */
  lemma {:induction false} EnsureCertSecretsSyncedCached(x: Setup, w: World, m: Memory, c: Copy, i: nat, since: nat)
    requires StorageIsOurs(x) && Cached(x, w, m) && CopyCached(x, w, c) && i <= |x.certs| && since <= |w.log|
    requires Kept(w.trace) ==> AllStored(x, w, i, since)
    ensures var p := EnsureCertSecretsSynced(x, w, m, c, i);
            && PushCached(x, w, Some(c), p)
            && (p.result.Success? && Kept(p.w.trace) ==> AllStored(x, p.w, |x.certs|, since))
    decreases |x.certs| - i
  {
    hide Get, PushCertSecret, Cached, CopyCached, StorageIsOurs, Rests, StoredFromSecret, CurrentSince;
    if i < |x.certs| {
      var name := x.certs[i];
      GetCert(x, w, name);
      var (v, got) := Get(x, w, name);
      RestsGrows(x, w, v);
      CachedRests(x, w, v, m);
      CopyRests(x, w, v, c);
      if !got.Found? {
        MarkedPush(x, v, m, name);
      } else {
        PushCertSecretCached(x, v, m, got.copy.secret, Some(c));
        var p := PushCertSecret(x, v, m, got.copy.secret, Some(c));
        if p.result.Success? {
          if Kept(p.w.trace) {
            StoredNow(v.log, p.w, got.copy, since);
            forall j | 0 <= j < i
              ensures StoredFromSecret(p.w, x.certs[j], since)
            {
              StoredFromSecretRests(x, w, v, x.certs[j], since);
              StoredFromSecretStays(v, p.w, name, x.certs[j], since);
            }
          }
          EnsureCertSecretsSyncedCached(x, p.w, p.m, p.state.value, i + 1, since);
        }
      }
    }
  }

  lemma StoredNow(read: Log, w: World, c: Copy, since: nat)
    requires c.rv < |read| && read[c.rv].secret == c.secret && CurrentSince(read, c.rv, |read|)
    requires read <= w.log && since <= |read| && StoresBundle(w, c.secret)
    ensures StoredFromSecret(w, c.secret.name, since)
  {
    assert w.log[c.rv].secret == c.secret && CurrentSince(w.log, c.rv, since);
  }

  // ---------------------------------------------------------------- Reconcile and runs

  /** No record is outstanding: true from the start of a Reconcile until it pushes. */
  ghost predicate NothingUnsaved(w: World) {
    Kept(w.trace) ==> Unsaved(w.trace).None?
  }

  lemma GetConfig(x: Setup, w: World, m: Memory)
    requires StorageIsOurs(x) && Cached(x, w, m) && NothingUnsaved(w)
    ensures var (v, got) := Get(x, w, x.secretName);
            && Rests(x, w, v) && Cached(x, v, m)
            && (got.Found? ==> CopyCached(x, v, got.copy))
  {
    TickRests(x, w);
    CachedRests(x, w, Get(x, w, x.secretName).0, m);
    var (v, got) := Get(x, w, x.secretName);
    if got.Found? {
      assert x.env(w.clock).read.Fresh?;
      assert got.copy.secret.ann == CurrentAnn(v.log, x.secretName);
    }
  }

  lemma PhaseCached(x: Setup, w: World, m: Memory, c: Copy, s: Step)
    requires Cached(x, w, m) && CopyCached(x, w, c) && StepRests(x, w, m, c, s)
    ensures Cached(x, s.w, s.m) && (s.Go? ==> CopyCached(x, s.w, s.c))
  {
    CachedRests(x, w, s.w, m);
    CopyRests(x, w, s.w, c);
  }

  lemma PushDesiredCached(x: Setup, w: World, m: Memory, c: Copy, raw: Bytes)
    requires StorageIsOurs(x) && Cached(x, w, m) && CopyCached(x, w, c)
    ensures Cached(x, PushDesired(x, w, m, c, raw).w, PushDesired(x, w, m, c, raw).m)
  {
    hide Cached, CopyCached, StorageIsOurs, Rests, GetOrCreateClient, EnsureCertSecretsSynced, Retry, ValidatePhase;
    var n := Desire(m, raw);
    SameHashes(x, w, m, n);
    ClientCached(x, w, m, n, c);
    var (v, o, noClient) := GetOrCreateClient(x, w, n);
    if noClient.Some? {
      RetryRests(x, v, o, c, Failed(Classify(noClient.value)));
      PhaseCached(x, v, o, c, Retry(x, v, o, c, Failed(Classify(noClient.value))));
    } else {
      EnsureCertSecretsSyncedCached(x, v, o, c, 0, |v.log|);
      var p := EnsureCertSecretsSynced(x, v, o, c, 0);
      var d := p.state.value;
      if p.result.Failure? {
        RetryRests(x, p.w, p.m, d, CertSyncFailed(Classify(p.result.error)));
        OnlyMemoryCached(x, p.w, p.m, d, Retry(x, p.w, p.m, d, CertSyncFailed(Classify(p.result.error))));
      } else {
        ValidatePhaseRests(x, p.w, p.m, d, raw);
        PhaseCached(x, p.w, p.m, d, ValidatePhase(x, p.w, p.m, d, raw));
      }
    }
  }

  lemma SameHashes(x: Setup, w: World, m: Memory, n: Memory)
    requires Cached(x, w, m) && n.certHashes == m.certHashes
    ensures Cached(x, w, n)
  {
  }

  lemma OnlyMemoryCached(x: Setup, w: World, m: Memory, c: Copy, s: Step)
    requires Cached(x, w, m) && StepRests(x, w, m, c, s)
    ensures Cached(x, s.w, s.m)
  {
    CachedRests(x, w, s.w, m);
  }

  lemma ClientCached(x: Setup, w: World, m: Memory, n: Memory, c: Copy)
    requires StorageIsOurs(x) && Cached(x, w, m) && CopyCached(x, w, c) && n.certHashes == m.certHashes
    ensures var (v, o, _) := GetOrCreateClient(x, w, n); Cached(x, v, o) && CopyCached(x, v, c)
  {
    GetOrCreateClientRests(x, w, n);
    var v := GetOrCreateClient(x, w, n).0;
    CachedRests(x, w, v, m);
    CopyRests(x, w, v, c);
  }

  lemma ConfigPhaseCached(x: Setup, w: World, m: Memory, c: Copy)
    requires StorageIsOurs(x) && Cached(x, w, m) && CopyCached(x, w, c)
    ensures Cached(x, ConfigPhase(x, w, m, c).w, ConfigPhase(x, w, m, c).m)
  {
    hide Cached, CopyCached, StorageIsOurs, Rests, FailWithStatus, DriftCheck, PushDesired;
    if x.secretKey !in c.secret.data {
      FailWithStatusRests(x, w, c, MissingKey, None);
      CachedRests(x, w, FailWithStatus(x, w, c, MissingKey, None).0, m);
    } else {
      var raw := c.secret.data[x.secretKey];
      DriftCheckRests(x, w, m, c, raw);
      var s := DriftCheck(x, w, m, c, raw);
      PhaseCached(x, w, m, c, s);
      PushDesiredCached(x, w, m, c, raw);
      if s.Go? {
        PushDesiredCached(x, s.w, s.m, s.c, raw);
      }
    }
  }

  lemma LocalChangeCached(x: Setup, w: World, c: Copy, ann: Annotations)
    requires CopyCached(x, w, c) && !Touched(CertSync, c.secret.ann, ann)
    ensures CopyCached(x, w, c.(secret := c.secret.(ann := ann)))
  {
  }

  /** Clearing a stale status refreshes the copy, which then shows the server's record. */
  lemma ClearedCached(x: Setup, w: World, m: Memory, c: Copy)
    requires StorageIsOurs(x) && Cached(x, w, m) && CopyCached(x, w, c)
    ensures var (v, d, _) := Patch(x, w, c, ClearedStatus(c.secret.ann), ClearCertStatus);
            Cached(x, v, m) && CopyCached(x, v, d)
  {
    var ann := ClearedStatus(c.secret.ann);
    assert c.secret.name == x.secretName && !Touched(CertSync, c.secret.ann, ann);
    hide StorageIsOurs, Cached, CopyCached, Rests, Patch, Tick, Commit, ClearedStatus, Touched;
    var (v, d, reply) := Patch(x, w, c, ann, ClearCertStatus);
    PatchRests(x, w, c, ann, ClearCertStatus);
    CachedRests(x, w, v, m);
    CopyRests(x, w, v, c);
    PatchEnds(x, w, c, ann, ClearCertStatus);
    if reply.Committed? {
      RefreshedCopyCached(x, w, v, d, m, c, ann);
    } else {
      LocalChangeCached(x, v, c, ann);
    }
  }

  lemma AfterCertPushCached(x: Setup, w: World, m: Memory, c: Copy)
    requires StorageIsOurs(x) && Cached(x, w, m) && CopyCached(x, w, c)
    ensures var s := AfterCertPush(x, w, m, c); s.Go? && Cached(x, s.w, s.m) && CopyCached(x, s.w, s.c)
  {
    hide StorageIsOurs, Cached, CopyCached, Patch, CertStatus, ClearedStatus;
    if CertStatus(c.secret.ann) {
      ClearedCached(x, w, m, c);
      var (v, d, _) := Patch(x, w, c, ClearedStatus(c.secret.ann), ClearCertStatus);
      LocalChangeCached(x, v, d, d.secret.ann - {LastFailedHash});
    } else {
      LocalChangeCached(x, w, c, c.secret.ann - {LastFailedHash});
    }
  }

  lemma RefreshedCopyCached(x: Setup, w: World, v: World, d: Copy, m: Memory, c: Copy, ann: Annotations)
    requires Patch(x, w, c, ann, ClearCertStatus) == (v, d, Committed)
    requires Cached(x, v, m) && c.secret.name == x.secretName
    ensures CopyCached(x, v, d)
  {
    var u := Tick(x, w);
    assert v == Commit(u, c, ann, ClearCertStatus);
    assert v.trace == u.trace + [v.trace[|u.trace|]];
    CertSnoc(u.trace, v.trace[|u.trace|]);
  }

  lemma CertEventCached(x: Setup, w: World, m: Memory, c: Copy)
    requires StorageIsOurs(x) && Cached(x, w, m) && NothingUnsaved(w) && c.secret.name != x.secretName
    ensures var s := CertEvent(x, w, m, c);
            Cached(x, s.w, s.m) && (s.Go? ==> CopyCached(x, s.w, s.c))
  {
    assert ConfigSecretFor(x, w, c) == Get(x, w, x.secretName);
    hide Cached, CopyCached, StorageIsOurs, Get, CertFailed, AfterCertPush, SyncCertSecret, NothingUnsaved, Rests;
    GetConfig(x, w, m);
    var (v, cfg) := ConfigSecretFor(x, w, c);
    if !cfg.GetFailed? {
      var state := if cfg.Found? then Some(cfg.copy) else None;
      SyncCertSecretCached(x, v, m, c.secret, state);
      SyncedEventCached(x, SyncCertSecret(x, v, m, c.secret, state));
    }
  }

  lemma SyncCertSecretCached(x: Setup, w: World, m: Memory, secret: Secret, state: Option<Copy>)
    requires StorageIsOurs(x) && Cached(x, w, m) && (state.Some? ==> CopyCached(x, w, state.value))
    ensures var p := SyncCertSecret(x, w, m, secret, state);
            && Cached(x, p.w, p.m) && p.state.Some? == state.Some?
            && (p.result.Success? && p.state.Some? ==> CopyCached(x, p.w, p.state.value))
  {
    hide Cached, CopyCached, StorageIsOurs, Rests, PushCertSecret, GetOrCreateClient, Note;
    GetOrCreateClientRests(x, w, m);
    ClientMemory(x, w, m);
    var (v, n, err) := GetOrCreateClient(x, w, m);
    if state.Some? {
      CopyRests(x, w, v, state.value);
    }
    if err.Some? {
      MarkedPush(x, v, n, secret.name);
    } else {
      PushCertSecretCached(x, v, n, secret, state);
    }
  }

  lemma RetryIsDone(x: Setup, w: World, m: Memory, c: Copy, status: Status)
    ensures Retry(x, w, m, c, status).Done?
  {
    hide Patch;
  }

  /** What a certificate event does with the outcome of its push. */
  lemma SyncedEventCached(x: Setup, p: Push)
    requires StorageIsOurs(x) && Cached(x, p.w, p.m)
    requires p.result.Success? && p.state.Some? ==> CopyCached(x, p.w, p.state.value)
    ensures p.result.Success? && p.state.Some? ==>
              var s := AfterCertPush(x, p.w, p.m, p.state.value);
              s.Go? && Cached(x, s.w, s.m) && CopyCached(x, s.w, s.c)
    ensures p.result.Failure? ==>
              var s := CertFailed(x, p.w, p.m, p.state, p.result.error); s.Done? && Cached(x, s.w, s.m)
  {
    hide Cached, CopyCached, StorageIsOurs, Rests, Retry, AfterCertPush;
    if p.result.Failure? {
      if p.state.Some? {
        var status := CertSyncFailed(Classify(p.result.error));
        RetryRests(x, p.w, p.m, p.state.value, status);
        RetryIsDone(x, p.w, p.m, p.state.value, status);
        OnlyMemoryCached(x, p.w, p.m, p.state.value, Retry(x, p.w, p.m, p.state.value, status));
      } else {
        SameHashes(x, p.w, p.m, p.m.(transientFailures := p.m.transientFailures + 1));
      }
    } else if p.state.Some? {
      AfterCertPushCached(x, p.w, p.m, p.state.value);
    }
  }

  lemma ClientMemory(x: Setup, w: World, m: Memory)
    requires StorageIsOurs(x) && Cached(x, w, m)
    ensures Cached(x, GetOrCreateClient(x, w, m).0, GetOrCreateClient(x, w, m).1)
  {
    GetOrCreateClientRests(x, w, m);
    CachedRests(x, w, GetOrCreateClient(x, w, m).0, m);
  }

  lemma StartCached(x: Setup, w: World, m: Memory, name: string)
    requires Cached(x, w, m)
    ensures Cached(x, Start(w, name), m) && NothingUnsaved(Start(w, name))
  {
    CertSnoc(w.trace, Begin(w.run + 1, name));
  }

  lemma NothingUnsavedRests(x: Setup, w: World, v: World)
    requires NothingUnsaved(w) && Rests(x, w, v)
    ensures NothingUnsaved(v)
  {
  }

  lemma ReconcileCached(x: Setup, w: World, m: Memory, name: string)
    requires StorageIsOurs(x) && Cached(x, w, m)
    ensures Cached(x, Reconcile(x, w, m, name).w, Reconcile(x, w, m, name).m)
  {
    assert ConfigSecretIsDedicated(x);
    hide Cached, CopyCached, StorageIsOurs, Rests, Get, CertEvent, ConfigPhase, NothingUnsaved;
    StartCached(x, w, m, name);
    var v := Start(w, name);
    GetCert(x, v, name);
    var (u, got) := Get(x, v, name);
    CachedRests(x, v, u, m);
    NothingUnsavedRests(x, v, u);
    if got.Found? {
      if name in x.certs {
        CertEventCached(x, u, m, got.copy);
        var s := CertEvent(x, u, m, got.copy);
        if s.Go? {
          ConfigPhaseCached(x, s.w, s.m, s.c);
        }
      } else if name == x.secretName {
        GetConfig(x, v, m);
        ConfigPhaseCached(x, u, m, got.copy);
      }
    }
  }

  lemma {:induction false} RunCached(x: Setup, w: World, m: Memory, ts: seq<Trigger>)
    requires StorageIsOurs(x) && Cached(x, w, m)
    ensures Cached(x, Run(x, w, m, ts).0, Run(x, w, m, ts).1)
    decreases |ts|
  {
    if ts != [] {
      if ts[0].Reconciled? {
        ReconcileCached(x, w, m, ts[0].name);
      }
      var (v, n) := Trip(x, w, m, ts[0]);
      RunCached(x, v, n, ts[1..]);
    }
  }

  // ---------------------------------------------------------------- the theorem

  /**
   Across restarts, skips and failed pushes: if every accepted push is recorded before the
   operator does anything else, then every hash on the config Secret and in memory is that
   of the stored bytes.
   */
  lemma RecordsAgreeWithStorage(x: Setup, w0: World, ts: seq<Trigger>)
    requires StorageIsOurs(x) && Untouched(w0)
    ensures var (w, m) := Run(x, w0, FRESH, ts);
            Kept(w.trace) ==>
              && (Unsaved(w.trace).None? ==>
                    forall n :: n in Recorded(x, w) ==> Stores(w.gw, n, Recorded(x, w)[n].hash))
              && (forall n :: n in m.certHashes ==> Stores(w.gw, n, m.certHashes[n]))
  {
    assert Recorded(x, w0) == map[];
    RunCached(x, w0, FRESH, ts);
  }

  /**
   And a sync of all listed Secrets that reports success leaves storage holding, for each, the
   bundle assembled from the revision current when the sync began or from a newer one.
   */
  lemma SuccessfulSyncFillsStorage(x: Setup, w: World, m: Memory, c: Copy)
    requires StorageIsOurs(x) && Cached(x, w, m) && CopyCached(x, w, c)
    ensures var p := EnsureCertSecretsSynced(x, w, m, c, 0);
            p.result.Success? && Kept(p.w.trace) ==>
              forall j :: 0 <= j < |x.certs| ==> StoredFromSecret(p.w, x.certs[j], |w.log|)
  {
    hide StoredFromSecret, EnsureCertSecretsSynced, Cached, CopyCached, StorageIsOurs;
    EnsureCertSecretsSyncedCached(x, w, m, c, 0, |w.log|);
  }

  /** Where a Reconcile of `name` has come to when it has its config Secret: at once, or after a certificate event. */
  function BeforeConfig(x: Setup, w: World, m: Memory, name: string, c: Copy): Step {
    if name in x.certs then CertEvent(x, w, m, c) else Go(w, m, c)
  }

  /** And when it is about to push the bytes that Secret holds. */
  function BeforePush(x: Setup, w: World, m: Memory, c: Copy, raw: Bytes): Step {
    if Lookup(c.secret.ann, LastAppliedHash) == Hash(raw) then DriftCheck(x, w, m, c, raw) else Go(w, m, c)
  }

  lemma BeforeConfigCached(x: Setup, w: World, m: Memory, name: string)
    requires StorageIsOurs(x) && Cached(x, w, m) && (name == x.secretName || name in x.certs)
    ensures var (u, got) := Get(x, Start(w, name), name);
            got.Found? ==>
              var s := BeforeConfig(x, u, m, name, got.copy); s.Go? ==> Cached(x, s.w, s.m) && CopyCached(x, s.w, s.c)
  {
    assert ConfigSecretIsDedicated(x);
    hide Cached, CopyCached, StorageIsOurs, Rests, Get, CertEvent, NothingUnsaved;
    StartCached(x, w, m, name);
    var v := Start(w, name);
    GetCert(x, v, name);
    var (u, got) := Get(x, v, name);
    CachedRests(x, v, u, m);
    NothingUnsavedRests(x, v, u);
    if got.Found? {
      if name in x.certs {
        CertEventCached(x, u, m, got.copy);
      } else {
        GetConfig(x, v, m);
      }
    }
  }

  lemma BeforePushCached(x: Setup, w: World, m: Memory, c: Copy, raw: Bytes)
    requires StorageIsOurs(x) && Cached(x, w, m) && CopyCached(x, w, c) && BeforePush(x, w, m, c, raw).Go?
    ensures var s := BeforePush(x, w, m, c, raw);
            var (v, n, _) := GetOrCreateClient(x, s.w, Desire(s.m, raw)); Cached(x, v, n) && CopyCached(x, v, s.c)
  {
    hide Cached, CopyCached, StorageIsOurs, Rests, DriftCheck, GetOrCreateClient;
    DriftCheckRests(x, w, m, c, raw);
    var s := BeforePush(x, w, m, c, raw);
    if Lookup(c.secret.ann, LastAppliedHash) == Hash(raw) {
      PhaseCached(x, w, m, c, s);
    }
    SameHashes(x, s.w, s.m, Desire(s.m, raw));
    ClientCached(x, s.w, s.m, Desire(s.m, raw), s.c);
  }

  /**
   In particular after any run: when the next Reconcile, of the config Secret or of a
   certificate Secret, reaches its certificate sync and that reports success, every listed
   bundle is stored, written or skipped.
   */
  lemma SyncInARunFillsStorage(x: Setup, w0: World, ts: seq<Trigger>, name: string, raw: Bytes)
    requires StorageIsOurs(x) && Untouched(w0) && (name == x.secretName || name in x.certs)
    ensures var (w, m) := Run(x, w0, FRESH, ts);
            var (u, got) := Get(x, Start(w, name), name);
            got.Found? ==>
              var r := BeforeConfig(x, u, m, name, got.copy);
              r.Go? ==>
                var s := BeforePush(x, r.w, r.m, r.c, raw);
                s.Go? ==>
                  var (v, n, _) := GetOrCreateClient(x, s.w, Desire(s.m, raw));
                  var p := EnsureCertSecretsSynced(x, v, n, s.c, 0);
                  p.result.Success? && Kept(p.w.trace) ==>
                    forall j :: 0 <= j < |x.certs| ==> StoredFromSecret(p.w, x.certs[j], |v.log|)
  {
    assert Recorded(x, w0) == map[];
    hide Cached, CopyCached, StorageIsOurs, Untouched, Rests, Run, Get, GetOrCreateClient, BeforeConfig, BeforePush,
         StoredFromSecret, EnsureCertSecretsSynced;
    RunCached(x, w0, FRESH, ts);
    var (w, m) := Run(x, w0, FRESH, ts);
    BeforeConfigCached(x, w, m, name);
    var (u, got) := Get(x, Start(w, name), name);
    if got.Found? {
      var r := BeforeConfig(x, u, m, name, got.copy);
      if r.Go? {
        var s := BeforePush(x, r.w, r.m, r.c, raw);
        if s.Go? {
          BeforePushCached(x, r.w, r.m, r.c, raw);
          var (v, n, _) := GetOrCreateClient(x, s.w, Desire(s.m, raw));
          SuccessfulSyncFillsStorage(x, v, n, s.c);
        }
      }
    }
  }
}
