/** A calm environment with exceptions, and what each step of a Reconcile does in it: the kit for concrete runs. */
module Calm {
  import opened Prelude
  import opened Errors
  import opened Platform
  import opened Dataplane
  import opened Reconciliation
  import opened Steadiness

  // ---------------------------------------------------------------- actions

  /** Nobody interferes and everything is answered well. */
  const CALM := Item([], false, Fresh, Healthy, Response(200), false, Remote("1", 0), false, None, "", 0)

  /** One PEM file is one certificate, whatever it holds; the gateway stores configurations as they are. */
  function CalmExcept(certs: seq<string>, special: map<nat, Item>): Setup {
    Setup("cfg", "haproxy.cfg", certs, true, true, (b: Bytes) => b, (b: Bytes) => [Block(true, Some("1"))],
          k => if k in special then special[k] else CALM)
  }

  /** One certificate, and nothing that rewrites what it is sent. */
  ghost predicate OneCertificate(x: Setup) {
    && x.certs == ["tls"] && x.secretName == "cfg" && x.secretKey == "haproxy.cfg"
    && x.norm("new") == "new" && x.pem == CalmExcept([], map[]).pem
  }

  predicate CalmFor(x: Setup, from: nat, until: nat) {
    forall k :: from <= k < until ==> x.env(k) == CALM
  }

  lemma CalmTick(x: Setup, w: World)
    requires x.env(w.clock) == CALM
    ensures Tick(x, w) == w.(clock := w.clock + 1)
  {
  }

  lemma CalmVersion(x: Setup, w: World)
    requires x.env(w.clock) == CALM && !w.down
    ensures ReadVersion(x, w)
            == (Note(w, VersionRead(w.run, w.gw.version)).(clock := w.clock + 1), Success(w.gw.version))
  {
    CalmTick(x, w);
  }

  lemma CalmWait(x: Setup, w: World)
    requires x.env(w.clock) == CALM && !w.down
    ensures WaitForReady(x, w) == (Note(w, VersionRead(w.run, w.gw.version)).(clock := w.clock + 1), None)
  {
    CalmVersion(x, w);
  }

  lemma CalmPost(x: Setup, w: World, kind: PostKind, raw: Bytes)
    requires x.env(w.clock) == CALM && !w.down && x.norm(raw) == raw
    ensures var (v, err) := PostRaw(x, w, kind, raw, w.gw.version);
            && err.None? && !v.down && v.log == w.log && v.clock == w.clock + 1 && v.run == w.run
            && v.gw == (if kind.Apply? then w.gw.(live := raw, version := w.gw.version + 1) else w.gw)
            && v.trace == w.trace + [Post(w.run, kind, raw, Response(200), kind.Apply?)]
  {
    CalmTick(x, w);
  }

  lemma CalmApply(x: Setup, w: World, raw: Bytes)
    requires x.env(w.clock) == CALM == x.env(w.clock + 1) == x.env(w.clock + 2) && !w.down && x.norm(raw) == raw
    ensures var (v, err) := ApplyValidated(x, w, raw);
            && err.None? && !v.down && v.log == w.log && v.clock == w.clock + 3 && v.run == w.run
            && v.gw == w.gw.(live := raw, version := w.gw.version + 1)
            && v.trace == w.trace + [VersionRead(w.run, w.gw.version), VersionRead(w.run, w.gw.version),
                                     Post(w.run, Apply, raw, Response(200), true)]
  {
    hide PostRaw;
    CalmWait(x, w);
    var v := WaitForReady(x, w).0;
    CalmVersion(x, v);
    CalmPost(x, ReadVersion(x, v).0, Apply, raw);
  }

  lemma CalmValidate(x: Setup, w: World, raw: Bytes)
    requires x.env(w.clock) == CALM == x.env(w.clock + 1) && !w.down && x.norm(raw) == raw && raw != ""
    ensures var (v, err) := Validate(x, w, raw);
            && err.None? && !v.down && v.log == w.log && v.clock == w.clock + 2 && v.run == w.run && v.gw == w.gw
            && v.trace == w.trace + [VersionRead(w.run, w.gw.version),
                                     Post(w.run, ValidateOnly, raw, Response(200), false)]
  {
    hide PostRaw;
    CalmVersion(x, w);
    CalmPost(x, ReadVersion(x, w).0, ValidateOnly, raw);
  }

  lemma CalmGet(x: Setup, w: World, name: string)
    requires x.env(w.clock) == CALM && !w.down && Latest(w.log, name).Some?
    ensures var l := Latest(w.log, name).value;
            Get(x, w, name) == (w.(clock := w.clock + 1), Found(Copy(l, w.log[l].secret)))
  {
    CalmTick(x, w);
  }

  lemma CalmPatch(x: Setup, w: World, c: Copy, ann: Annotations, purpose: Purpose)
    requires x.env(w.clock) == CALM && !w.down && Latest(w.log, c.secret.name) == Some(c.rv)
    ensures var (v, d, reply) := Patch(x, w, c, ann, purpose);
            && reply == Committed && !v.down && v.clock == w.clock + 1 && v.run == w.run && v.gw == w.gw
            && (exists index: nat :: v.trace == w.trace + [Patched(w.run, c.rv, index, purpose)])
            && w.log <= v.log && (forall n :: n != c.secret.name ==> Latest(v.log, n) == Latest(w.log, n))
            && Latest(v.log, c.secret.name) == Some(d.rv) && v.log[d.rv].secret == d.secret
            && d.secret == w.log[c.rv].secret.(ann := Overlay(w.log[c.rv].secret.ann, c.secret.ann, ann))
  {
    CalmTick(x, w);
    hide Tick, Patch, Overlay;
    QuietPatch(x, w, c, ann, purpose);
  }

  lemma CalmReadLive(x: Setup, w: World)
    requires x.env(w.clock) == CALM && !w.down
    ensures ReadLive(x, w) == (Note(w, LiveRead(w.run, w.gw.live)).(clock := w.clock + 1), Success(w.gw.live))
  {
    CalmTick(x, w);
  }

  lemma OverlaySelf(before: Annotations, after: Annotations)
    ensures Overlay(before, before, after) == after
  {
  }

  const NO_CLIENT := Context(PLAIN, Leaf(Opaque, PLAIN))

  lemma NoClient(x: Setup, w: World)
    requires x.env(w.clock) == CALM.(reply := NoResponse(Opaque, PLAIN)) && !w.down
    ensures GetOrCreateClient(x, w, FRESH) == (w.(clock := w.clock + 1), FRESH, Some(NO_CLIENT))
    ensures Classify(NO_CLIENT) == UnknownError
  {
    assert Tick(x, w) == w.(clock := w.clock + 1);
  }

  // ---------------------------------------------------------------- one configuration

  const NEW_CONFIG := Secret("cfg", map["haproxy.cfg" := "new"], map[], map[])

  const UNTOUCHED := World([Revision(NEW_CONFIG, false)], Gateway("", 1, map[]), [], 0, 0, false)

  predicate Holding(w: World, clock: nat, live: Bytes, observed: Value) {
    && !w.down && w.clock == clock && w.gw.live == live
    && var l := Latest(w.log, "cfg");
    && l.Some? && w.log[l.value].secret.name == "cfg" && w.log[l.value].secret.data == NEW_CONFIG.data
    && var ann := w.log[l.value].secret.ann;
    && Lookup(ann, LastAppliedHash) == Hash("new") && Lookup(ann, LastObservedHash) == observed
  }

  /** With a ready gateway and no certificates, the desired bytes are applied and only the record remains to be made. */
  lemma CalmPushDesired(x: Setup, w: World, m: Memory, c: Copy, raw: Bytes) returns (b: World, n: Memory)
    requires x.certs == [] && forall k :: w.clock <= k < w.clock + 6 ==> x.env(k) == CALM
    requires !w.down && x.norm(raw) == raw && raw != "" && !m.clientReady
    requires Lookup(c.secret.ann, LastFailedHash) != Hash(raw)
    ensures PushDesired(x, w, m, c, raw) == RecordSuccess(x, b, n, c, raw)
    ensures b.log == w.log && b.run == w.run && b.clock == w.clock + 6 && !b.down
    ensures b.gw == w.gw.(live := raw, version := w.gw.version + 1) && n.clientReady
    ensures var read := VersionRead(w.run, w.gw.version);
            b.trace == w.trace + [read, Post(w.run, ValidateOnly, raw, Response(200), false),
                                  read, read, Post(w.run, Apply, raw, Response(200), true)]
  {
    CalmTick(x, w);
    var u := w.(clock := w.clock + 1);
    var o := Desire(m, raw).(clientReady := true);
    assert GetOrCreateClient(x, w, Desire(m, raw)) == (u, o, None);
    CalmValidate(x, u, raw);
    var a := Validate(x, u, raw).0;
    CalmApply(x, a, raw);
    hide Validate, ApplyValidated, RecordSuccess, GetOrCreateClient;
    b, n := ApplyValidated(x, a, raw).0, o.(transientFailures := 0);
    assert EnsureCertSecretsSynced(x, u, o, c, 0) == Push(u, o, Some(c), Success(true));
  }

  /** An accepted apply is recorded with what was read back, or with a pending baseline. */
  lemma RecordedAs(x: Setup, w: World, v: World, live: Result<Bytes, Err>, m: Memory, c: Copy, raw: Bytes)
    requires ReadLive(x, w) == (v, live) && x.env(v.clock) == CALM && !v.down && v.log == w.log && v.gw == w.gw
    requires Latest(w.log, c.secret.name) == Some(c.rv) && w.log[c.rv].secret == c.secret
    ensures var s := RecordSuccess(x, w, m, c, raw);
            var observed := if live.Success? then Hash(live.value) else Pending;
            && s.Done? && s.m == m && !s.w.down && s.w.clock == v.clock + 1 && s.w.gw == w.gw && s.w.run == v.run
            && (exists index: nat :: s.w.trace == v.trace + [Patched(v.run, c.rv, index, RecordApply(raw, observed))])
            && var l := Latest(s.w.log, c.secret.name);
            && l.Some? && s.w.log[l.value].secret.name == c.secret.name && s.w.log[l.value].secret.data == c.secret.data
            && var ann := s.w.log[l.value].secret.ann;
            && Lookup(ann, LastAppliedHash) == Hash(raw) && Lookup(ann, LastObservedHash) == observed
  {
    var observed := if live.Success? then Hash(live.value) else Pending;
    var ann := RecordedApply(c.secret.ann, CALM, raw, observed);
    OverlaySelf(c.secret.ann, ann);
    assert Lookup(ann, LastAppliedHash) == Hash(raw) && Lookup(ann, LastObservedHash) == observed;
    hide ReadLive, Patch, Overlay, RecordedApply, Tick;
    CalmPatch(x, v, c, ann, RecordApply(raw, observed));
  }

  /** A config-triggered Reconcile that finds bytes not yet applied pushes them. */
  lemma ReconcilePushes(x: Setup, w: World, m: Memory, u: World, c: Copy, raw: Bytes)
    requires x.certs == [] && x.secretName == "cfg" && Get(x, Start(w, "cfg"), "cfg") == (u, Found(c))
             && c.secret.name == "cfg"
    requires x.secretKey in c.secret.data && c.secret.data[x.secretKey] == raw
    requires Lookup(c.secret.ann, LastAppliedHash) != Hash(raw)
    ensures Reconcile(x, w, m, "cfg") == PushDesired(x, u, m, c, raw)
  {
    hide Get, PushDesired, DriftCheck;
  }

  /** One that finds them applied, and the gateway readable, compares. */
  lemma ReconcileCompares(x: Setup, w: World, m: Memory, u: World, t: World, c: Copy, raw: Bytes, live: Bytes)
    requires x.certs == [] && x.secretName == "cfg" && Get(x, Start(w, "cfg"), "cfg") == (u, Found(c))
             && c.secret.name == "cfg"
    requires x.secretKey in c.secret.data && c.secret.data[x.secretKey] == raw
    requires Lookup(c.secret.ann, LastAppliedHash) == Hash(raw) && m.clientReady
    requires ReadLive(x, u) == (t, Success(live)) && CompareLive(x, t, m.(transientFailures := 0), c, raw, live).Done?
    ensures Reconcile(x, w, m, "cfg") == CompareLive(x, t, m.(transientFailures := 0), c, raw, live)
  {
    hide Get, CompareLive, ReadLive, PushDesired;
  }

  lemma OverwrittenBefore(x: Setup, w: World, raw: Bytes)
    requires x.env(w.clock) == CALM.(acts := [GatewayWrite(raw)])
    ensures Tick(x, w) == EnvStep(w, GatewayWrite(raw)).(clock := w.clock + 1)
  {
    var acts := x.env(w.clock).acts;
    assert acts[0] == GatewayWrite(raw) && acts[1..] == [] && !x.env(w.clock).kill;
    assert Interfere(w, acts) == EnvStep(w, GatewayWrite(raw));
  }

  // ---------------------------------------------------------------- one certificate

  const BUNDLE: Bytes := "C\nK\n"

  const TLS_SECRET := Secret("tls", map["tls.crt" := "C", "tls.key" := "K"], map[], map[])

  const BEGINNING := World([Revision(TLS_SECRET, false), Revision(NEW_CONFIG, false)],
                           Gateway("", 1, map[]), [], 0, 0, false)

  function ConfigCopy(w: World): Copy
    requires Latest(w.log, "cfg").Some?
  {
    var l := Latest(w.log, "cfg").value;
    Copy(l, w.log[l].secret)
  }

  lemma BundleOfSecret()
    ensures CertPEMBundle(TLS_SECRET) == Success(BUNDLE)
  {
    assert TrimLeft("C") == "C" == TrimRight("C") && TrimLeft("K") == "K" == TrimRight("K");
    assert TrimSpace("C") == "C" && TrimSpace("K") == "K" && TrimSpace("") == "";
    assert DataOf(TLS_SECRET, "tls.crt") == "C" && DataOf(TLS_SECRET, "ca.crt") == ""
           && DataOf(TLS_SECRET, "tls.key") == "K";
    assert "C" + "\n" + "" + "K" + "\n" == BUNDLE;
  }

  /** Storage, record and metadata agree: the push is skipped. */
  lemma CalmPushSkips(x: Setup, w: World, m: Memory, c: Copy)
    requires x.env(w.clock) == CALM == x.env(w.clock + 1) && !w.down && x.pem == CalmExcept([], map[]).pem
    requires "tls.pem" in w.gw.storage && RecordedHash(CertSyncState(Some(c)), "tls", BUNDLE)
    ensures var p := PushCertSecret(x, w, m, TLS_SECRET, Some(c));
            && p.result == Success(false) && p.state == Some(c)
            && p.m == m.(certHashes := m.certHashes["tls" := BUNDLE])
            && !p.w.down && p.w.log == w.log && p.w.gw == w.gw && p.w.clock == w.clock + 2 && p.w.run == w.run
            && p.w.trace == w.trace + [VersionRead(w.run, w.gw.version),
                                       CertSkipped(w.run, "tls", BUNDLE, "1", CALM.remote),
                                       CertSynced(w.run, "tls")]
  {
    BundleOfSecret();
    hide CertPEMBundle;
    CalmWait(x, w);
    var v := WaitForReady(x, w).0;
    hide WaitForReady;
    CalmTick(x, v);
    assert StorageName("tls") == "tls.pem";
    assert LeafSerial(x.pem(BUNDLE)) == Success("1");
    assert ReadCertificate(x, v, "tls.pem") == (v.(clock := v.clock + 1), Success(CALM.remote));
    assert SyncSSLCertificate(x, w, "tls", BUNDLE, true).1 == Success(false);
  }

  lemma CertReconcileGoesOn(x: Setup, w: World, m: Memory, name: string, u: World, c: Copy)
    requires name in x.certs && Get(x, Start(w, name), name) == (u, Found(c)) && CertEvent(x, u, m, c).Go?
    ensures var s := CertEvent(x, u, m, c); Reconcile(x, w, m, name) == ConfigPhase(x, s.w, s.m, s.c)
  {
    hide Get, CertEvent, ConfigPhase;
  }

  // ---------------------------------------------------------------- short runs

  lemma RunOne(x: Setup, w: World, m: Memory, t: Trigger)
    ensures Run(x, w, m, [t]) == Trip(x, w, m, t)
  {
  }

  lemma RunTwo(x: Setup, w: World, m: Memory, t: Trigger, u: Trigger)
    ensures var (v, n) := Trip(x, w, m, t); Run(x, w, m, [t, u]) == Trip(x, v, n, u)
  {
    var (v, n) := Trip(x, w, m, t);
    assert [t, u][1..] == [u];
    RunOne(x, v, n, u);
  }
}
