/**
 What the stored hashes keep the operator from doing, over any number of
 config-triggered Reconciles: no apply of suppressed bytes, none while only alerting,
 and none as long as nobody else writes the gateway.
 */
module Steadiness {
  import opened Prelude
  import opened Errors
  import opened Platform
  import opened Reconciliation

  // ---------------------------------------------------------------- assumptions

  /** Whatever others do, the config Secret keeps the desired bytes and the operator's annotations. */
  predicate KeepsDesired(x: Setup, a: EnvAct, raw: Bytes) {
    match a
    case Flux(n, data, _) => n == x.secretName ==> x.secretKey in data && data[x.secretKey] == raw
    case Recreate(n, _, _) => n != x.secretName
    case Tamper(n, _, _) => n != x.secretName
    case _ => true
  }

  ghost predicate DesiredStays(x: Setup, raw: Bytes) {
    forall k: nat, a :: a in x.env(k).acts ==> KeepsDesired(x, a, raw)
  }

  ghost predicate NoStaleReads(x: Setup) {
    forall k: nat :: !x.env(k).read.Stale?
  }

  /** From that time on, no read serves a revision older than the `n`-th. */
  ghost predicate ReadsFrom(x: Setup, clock: nat, n: nat) {
    forall k: nat :: clock <= k && x.env(k).read.Stale? ==> n <= x.env(k).read.index
  }

  /** A stored hash that decides what is applied next. */
  predicate Decides(k: Key) {
    k.LastAppliedHash? || k.LastFailedHash? || k.LastObservedHash?
  }

  predicate WritesGateway(a: EnvAct) {
    a.GatewayWrite? || a.Reimage?
  }

  ghost predicate NoOutOfBandWrites(x: Setup) {
    forall k: nat, a :: a in x.env(k).acts ==> !WritesGateway(a)
  }

  predicate ConfigTriggers(x: Setup, ts: seq<Trigger>) {
    forall i :: 0 <= i < |ts| ==> ts[i] == Restarted || ts[i] == Reconciled(x.secretName)
  }

  // ---------------------------------------------------------------- what is kept

  predicate CurrentHolds(x: Setup, w: World, raw: Bytes) {
    var l := Latest(w.log, x.secretName);
    l.Some? && x.secretKey in w.log[l.value].secret.data && w.log[l.value].secret.data[x.secretKey] == raw
  }

  /** What annotation `k` of the config Secret reads now. */
  function Reads(x: Setup, w: World, k: Key): Value {
    Lookup(CurrentAnn(w.log, x.secretName), k)
  }

  ghost predicate NoPostBetween(w: World, u: World) {
    w.trace <= u.trace && forall i :: |w.trace| <= i < |u.trace| ==> !u.trace[i].Post?
  }

  /** The Secret holds the bytes `raw`, and annotation `k` reads `v`. */
  predicate Carries(x: Setup, s: Secret, raw: Bytes, k: Key, v: Value) {
    x.secretKey in s.data && s.data[x.secretKey] == raw && Lookup(s.ann, k) == v
  }

  /** So does every revision of the config Secret from the `n`-th on. */
  ghost predicate CarriesFrom(x: Setup, log: Log, n: nat, raw: Bytes, k: Key, v: Value) {
    forall j :: n <= j < |log| && log[j].secret.name == x.secretName ==> Carries(x, log[j].secret, raw, k, v)
  }

  /**
   From `w` to `u` nothing was posted, and annotation `k` of the Secret that holds `raw` stayed
   on every revision.
   */
  ghost predicate Keeps(x: Setup, w: World, u: World, raw: Bytes, k: Key) {
    && NoPostBetween(w, u) && w.log <= u.log && w.clock <= u.clock
    && (CurrentHolds(x, w, raw) ==>
          && CurrentHolds(x, u, raw) && Reads(x, u, k) == Reads(x, w, k)
          && CarriesFrom(x, u.log, |w.log|, raw, k, Reads(x, w, k)))
  }

  /** Every key but a foreign one starts with "haproxy.operator/". */
  predicate OperatorKey(k: Key) {
    !k.ForeignKey?
  }

  lemma LatestAfterAppend(log: Log, r: Revision, name: string)
    ensures Latest(log + [r], name) == if r.secret.name == name then Some(|log|) else Latest(log, name)
  {
    assert (log + [r])[..|log|] == log;
  }

  /** A new revision keeps what is read if it is of another Secret, or agrees. */
  lemma AppendPins(x: Setup, w: World, u: World, r: Revision, raw: Bytes, k: Key)
    requires u.log == w.log + [r] && NoPostBetween(w, u) && w.clock <= u.clock
    requires r.secret.name == x.secretName && CurrentHolds(x, w, raw) ==>
               && x.secretKey in r.secret.data && r.secret.data[x.secretKey] == raw
               && Lookup(r.secret.ann, k) == Reads(x, w, k)
    ensures Keeps(x, w, u, raw, k)
  {
    LatestAfterAppend(w.log, r, x.secretName);
  }

  /** The revision that a step of others adds, if it is one of the config Secret. */
  lemma AppendedHolds(x: Setup, w: World, a: EnvAct, raw: Bytes, k: Key)
    requires KeepsDesired(x, a, raw) && OperatorKey(k) && |EnvStep(w, a).log| > |w.log|
    ensures var u := EnvStep(w, a);
            var r := u.log[|w.log|];
            && u.log == w.log + [r] && NoPostBetween(w, u) && w.clock <= u.clock
            && (r.secret.name == x.secretName && CurrentHolds(x, w, raw) ==>
                  && x.secretKey in r.secret.data && r.secret.data[x.secretKey] == raw
                  && Lookup(r.secret.ann, k) == Reads(x, w, k))
  {
  }

  lemma SameLogPins(x: Setup, w: World, u: World, raw: Bytes, k: Key)
    requires u.log == w.log && NoPostBetween(w, u) && w.clock <= u.clock
    ensures Keeps(x, w, u, raw, k)
  {
  }

  lemma EnvStepLeavesLive(w: World, a: EnvAct)
    requires !WritesGateway(a)
    ensures EnvStep(w, a).gw.live == w.gw.live
  {
  }

  lemma {:induction false} InterferePins(x: Setup, w: World, acts: seq<EnvAct>, raw: Bytes, k: Key)
    requires OperatorKey(k) && forall a :: a in acts ==> KeepsDesired(x, a, raw)
    ensures Keeps(x, w, Interfere(w, acts), raw, k)
    ensures (forall a :: a in acts ==> !WritesGateway(a)) ==> Interfere(w, acts).gw.live == w.gw.live
    decreases |acts|
  {
    if acts != [] {
      var u := EnvStep(w, acts[0]);
      if |u.log| > |w.log| {
        AppendedHolds(x, w, acts[0], raw, k);
        AppendPins(x, w, u, u.log[|w.log|], raw, k);
      } else {
        SameLogPins(x, w, u, raw, k);
      }
      if !WritesGateway(acts[0]) {
        EnvStepLeavesLive(w, acts[0]);
      }
      hide Keeps, EnvStep;
      InterferePins(x, u, acts[1..], raw, k);
      KeepsTransitive(x, w, u, Interfere(u, acts[1..]), raw, k);
    }
  }

  lemma TickPins(x: Setup, w: World, raw: Bytes, k: Key)
    requires DesiredStays(x, raw) && OperatorKey(k)
    ensures Keeps(x, w, Tick(x, w), raw, k)
    ensures NoOutOfBandWrites(x) ==> Tick(x, w).gw.live == w.gw.live
  {
    InterferePins(x, w, x.env(w.clock).acts, raw, k);
  }

  lemma NotePins(x: Setup, w: World, e: Event, raw: Bytes, k: Key)
    requires !e.Post?
    ensures Keeps(x, w, Note(w, e), raw, k) && Note(w, e).gw == w.gw
  {
  }

  lemma KeepsTransitive(x: Setup, w: World, v: World, u: World, raw: Bytes, k: Key)
    requires Keeps(x, w, v, raw, k) && Keeps(x, v, u, raw, k)
    ensures Keeps(x, w, u, raw, k)
  {
  }

  lemma CommitPins(x: Setup, w: World, c: Copy, ann: Annotations, purpose: Purpose, raw: Bytes, k: Key)
    requires Latest(w.log, c.secret.name) == Some(c.rv) && !Touched(k, c.secret.ann, ann)
    ensures Keeps(x, w, Commit(w, c, ann, purpose), raw, k) && Commit(w, c, ann, purpose).gw == w.gw
  {
    hide Overlay, Touched, Keeps;
    var u := Commit(w, c, ann, purpose);
    var server := w.log[c.rv].secret;
    var merged := Overlay(server.ann, c.secret.ann, ann);
    UntouchedStays(server.ann, c.secret.ann, ann, k);
    if |u.log| > |w.log| {
      assert u.log == w.log + [Revision(server.(ann := merged), true)];
      AppendPins(x, w, u, u.log[|w.log|], raw, k);
    } else {
      SameLogPins(x, w, u, raw, k);
    }
  }

  lemma UntouchedStays(server: Annotations, before: Annotations, after: Annotations, k: Key)
    requires !Touched(k, before, after)
    ensures Lookup(Overlay(server, before, after), k) == Lookup(server, k)
  {
  }

  /** The annotations of the patched Secret after a commit. */
  lemma CommittedAnnotations(w: World, c: Copy, ann: Annotations, purpose: Purpose)
    requires Latest(w.log, c.secret.name) == Some(c.rv)
    ensures var u := Commit(w, c, ann, purpose);
            && w.log <= u.log && u.gw == w.gw && NoPostBetween(w, u)
            && CurrentAnn(u.log, c.secret.name) == Overlay(w.log[c.rv].secret.ann, c.secret.ann, ann)
  {
    var u := Commit(w, c, ann, purpose);
    var server := w.log[c.rv].secret;
    var merged := Overlay(server.ann, c.secret.ann, ann);
    hide Overlay;
    if merged != server.ann {
      assert u.log == w.log + [Revision(server.(ann := merged), true)];
      LatestAfterAppend(w.log, u.log[|w.log|], c.secret.name);
    }
  }

  /** A patch that nothing gets in the way of commits. */
  lemma QuietPatch(x: Setup, w: World, c: Copy, ann: Annotations, purpose: Purpose)
    requires Tick(x, w) == w.(clock := w.clock + 1) && x.env(w.clock).api.Healthy? && !w.down
    requires Latest(w.log, c.secret.name) == Some(c.rv)
    ensures var (v, d, reply) := Patch(x, w, c, ann, purpose);
            && reply == Committed && !v.down && v.clock == w.clock + 1 && v.run == w.run && v.gw == w.gw
            && (exists index: nat :: v.trace == w.trace + [Patched(w.run, c.rv, index, purpose)])
            && w.log <= v.log && (forall n :: n != c.secret.name ==> Latest(v.log, n) == Latest(w.log, n))
            && Latest(v.log, c.secret.name) == Some(d.rv) && v.log[d.rv].secret == d.secret
            && d.secret == w.log[c.rv].secret.(ann := Overlay(w.log[c.rv].secret.ann, c.secret.ann, ann))
  {
    var t := w.(clock := w.clock + 1);
    hide Overlay, Tick;
    var u := Commit(t, c, ann, purpose);
    var index := u.trace[|w.trace|].index;
    assert u.trace == w.trace + [Patched(w.run, c.rv, index, purpose)];
    if |u.log| > |t.log| {
      forall n: string
        ensures Latest(u.log, n) == if n == c.secret.name then Some(|t.log|) else Latest(t.log, n)
      {
        LatestAfterAppend(t.log, u.log[|t.log|], n);
      }
    }
  }

  lemma PatchPins(x: Setup, w: World, c: Copy, ann: Annotations, purpose: Purpose, raw: Bytes, k: Key)
    requires DesiredStays(x, raw) && OperatorKey(k) && !Touched(k, c.secret.ann, ann)
    ensures Keeps(x, w, Patch(x, w, c, ann, purpose).0, raw, k)
    ensures NoOutOfBandWrites(x) ==> Patch(x, w, c, ann, purpose).0.gw.live == w.gw.live
  {
    hide Keeps, Tick, Commit;
    TickPins(x, w, raw, k);
    var v := Tick(x, w);
    if Latest(v.log, c.secret.name) == Some(c.rv) {
      CommitPins(x, v, c, ann, purpose, raw, k);
      KeepsTransitive(x, w, v, Commit(v, c, ann, purpose), raw, k);
    }
  }

  // ---------------------------------------------------------------- reads

  /** A fresh read of a pinned Secret returns what is pinned. */
  lemma GetPins(x: Setup, w: World, raw: Bytes, k: Key)
    requires DesiredStays(x, raw) && NoStaleReads(x) && OperatorKey(k)
    ensures var (v, got) := Get(x, w, x.secretName);
            && Keeps(x, w, v, raw, k)
            && (NoOutOfBandWrites(x) ==> v.gw.live == w.gw.live)
            && (got.Found? ==>
                  got.copy.secret.name == x.secretName
                  && (CurrentHolds(x, v, raw) ==>
                        got.copy.secret.data == v.log[Latest(v.log, x.secretName).value].secret.data)
                  && got.copy.secret.ann == CurrentAnn(v.log, x.secretName))
  {
    TickPins(x, w, raw, k);
  }

  lemma ReadLivePins(x: Setup, w: World, raw: Bytes, k: Key)
    requires DesiredStays(x, raw) && OperatorKey(k)
    ensures var (v, live) := ReadLive(x, w);
            && Keeps(x, w, v, raw, k)
            && (NoOutOfBandWrites(x) ==> v.gw.live == w.gw.live)
            && (live.Success? ==> live.value == v.gw.live)
  {
    TickPins(x, w, raw, k);
    NotePins(x, Tick(x, w), LiveRead(Tick(x, w).run, Tick(x, w).gw.live), raw, k);
  }

  lemma GetOrCreateClientPins(x: Setup, w: World, m: Memory, raw: Bytes, k: Key)
    requires DesiredStays(x, raw) && OperatorKey(k)
    ensures Keeps(x, w, GetOrCreateClient(x, w, m).0, raw, k)
    ensures NoOutOfBandWrites(x) ==> GetOrCreateClient(x, w, m).0.gw.live == w.gw.live
  {
    TickPins(x, w, raw, k);
  }

  lemma RetryPins(x: Setup, w: World, m: Memory, c: Copy, status: Status, raw: Bytes, k: Key)
    requires DesiredStays(x, raw) && Decides(k)
    ensures Retry(x, w, m, c, status).Done? && Keeps(x, w, Retry(x, w, m, c, status).w, raw, k)
    ensures NoOutOfBandWrites(x) ==> Retry(x, w, m, c, status).w.gw.live == w.gw.live
  {
    hide Keeps, Patch;
    PatchPins(x, w, c, FailureAnnotations(c.secret.ann, x.env(w.clock), status, None), RecordFailure, raw, k);
  }

  // ---------------------------------------------------------------- the drift check

  /** Why a completed drift check ends the Reconcile instead of going on to apply. */
  predicate StopsHere(x: Setup, c: Copy, raw: Bytes, live: Bytes) {
    || Lookup(c.secret.ann, LastFailedHash) == Hash(raw)
    || !x.driftRemediate
    || ExpectedLive(c.secret.ann) in {Pending, Hash(live)}
  }

  lemma CompareLivePins(x: Setup, w: World, m: Memory, c: Copy, raw: Bytes, live: Bytes, k: Key)
    requires DesiredStays(x, raw) && (k.LastAppliedHash? || k.LastFailedHash?)
    requires StopsHere(x, c, raw, live)
    ensures var s := CompareLive(x, w, m, c, raw, live); s.Done? && Keeps(x, w, s.w, raw, k)
  {
    hide Keeps, Patch, Note;
    var ann := c.secret.ann;
    var expected := ExpectedLive(ann);
    if expected == Pending {
      PatchPins(x, w, c, AdoptedBaseline(ann, live), AdoptBaseline(live), raw, k);
    } else {
      var e := Checked(w.run, raw, live, expected, Hash(live) != expected);
      NotePins(x, w, e, raw, k);
      PatchPins(x, Note(w, e), c, ClearedStatus(ann), ClearCheckStatus, raw, k);
      KeepsTransitive(x, w, Note(w, e), Patch(x, Note(w, e), c, ClearedStatus(ann), ClearCheckStatus).0, raw, k);
    }
  }

  lemma DriftCheckPins(x: Setup, w: World, m: Memory, c: Copy, raw: Bytes, k: Key)
    requires DesiredStays(x, raw) && (k.LastAppliedHash? || k.LastFailedHash?)
    requires (forall live :: StopsHere(x, c, raw, live)) || (NoOutOfBandWrites(x) && StopsHere(x, c, raw, w.gw.live))
    ensures var s := DriftCheck(x, w, m, c, raw); s.Done? && Keeps(x, w, s.w, raw, k)
  {
    hide Keeps, Retry, CompareLive, GetOrCreateClient, ReadLive, StopsHere;
    GetOrCreateClientPins(x, w, m, raw, k);
    var (v, n, noClient) := GetOrCreateClient(x, w, m);
    if noClient.Some? {
      RetryPins(x, v, n, c, Failed(Classify(noClient.value)), raw, k);
      KeepsTransitive(x, w, v, DriftCheck(x, w, m, c, raw).w, raw, k);
    } else {
      ReadLivePins(x, v, raw, k);
      var (u, live) := ReadLive(x, v);
      KeepsTransitive(x, w, v, u, raw, k);
      if live.Failure? {
        RetryPins(x, u, n, c, DriftCheckFailed(Classify(live.error)), raw, k);
      } else {
        CompareLivePins(x, u, n.(transientFailures := 0), c, raw, live.value, k);
      }
      KeepsTransitive(x, w, u, DriftCheck(x, w, m, c, raw).w, raw, k);
    }
  }
}
