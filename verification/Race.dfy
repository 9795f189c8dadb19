/** An apply that loses a race against another writer of the gateway. */
module Race {
  import opened Prelude
  import opened Errors
  import opened Platform
  import opened Dataplane
  import opened Reconciliation
  import opened Steadiness
  import opened Actions
  import Backoff

  /** Between the version read of this apply and its POST, another write bumped the version of a locking gateway. */
  predicate LosesRace(x: Setup, w: World) {
    var (v, notReady) := WaitForReady(x, w);
    var (u, version) := ReadVersion(x, v);
    var before := Tick(x, u);
    x.versionLocked && notReady.None? && version.Success? && !before.down && before.gw.version != version.value
  }

  /** What the gateway holds when the losing POST reaches it. */
  function AtPost(x: Setup, w: World): World {
    Tick(x, ReadVersion(x, WaitForReady(x, w).0).0)
  }

  lemma LosingPost(x: Setup, w: World, raw: Bytes)
    requires LosesRace(x, w)
    ensures var (v, err) := ApplyValidated(x, w, raw);
            && err == Some(APIError(409)) && v.gw == AtPost(x, w).gw && v.log == AtPost(x, w).log
            && v.trace == AtPost(x, w).trace + [Post(v.run, Apply, raw, Response(409), false)]
  {
    hide Poll, Tick;
  }

  lemma TickAppends(x: Setup, w: World)
    ensures w.log <= Tick(x, w).log
    ensures forall i :: |w.log| <= i < |Tick(x, w).log| ==> !Tick(x, w).log[i].byOperator
  {
    InterfereAppends(w, x.env(w.clock).acts);
  }

  lemma {:induction false} InterfereAppends(w: World, acts: seq<EnvAct>)
    ensures var v := Interfere(w, acts);
            w.log <= v.log && forall i :: |w.log| <= i < |v.log| ==> !v.log[i].byOperator
    decreases |acts|
  {
    if acts != [] {
      InterfereAppends(EnvStep(w, acts[0]), acts[1..]);
    }
  }

  /**
   Every revision of the operator in `v` that is not in `w` keeps annotation `k` of the revision `c`
   was read from.
   */
  ghost predicate OwnWritesKeep(w: World, v: World, c: Copy, k: Key) {
    && w.log <= v.log
    && forall i :: |w.log| <= i < |v.log| && v.log[i].byOperator ==>
         c.rv < i && v.log[c.rv].secret.name == v.log[i].secret.name
         && !Touched(k, v.log[c.rv].secret.ann, v.log[i].secret.ann)
  }

  lemma CommitKeepsUntouched(v: World, c: Copy, ann: Annotations, purpose: Purpose, k: Key)
    requires Latest(v.log, c.secret.name) == Some(c.rv) && !Touched(k, c.secret.ann, ann)
    ensures OwnWritesKeep(v, Commit(v, c, ann, purpose), c, k)
  {
  }

  lemma PatchKeepsUntouched(x: Setup, w: World, c: Copy, ann: Annotations, purpose: Purpose, k: Key)
    requires !Touched(k, c.secret.ann, ann)
    ensures OwnWritesKeep(w, Patch(x, w, c, ann, purpose).0, c, k)
  {
    TickAppends(x, w);
    PatchEnds(x, w, c, ann, purpose);
    var v := Tick(x, w);
    hide Tick, Patch, Commit;
    if Latest(v.log, c.secret.name) == Some(c.rv) {
      CommitKeepsUntouched(v, c, ann, purpose, k);
    }
  }

  /**
   A losing apply stores nothing, is recorded as a transient conflict, is retried after the
   backoff, and leaves the hashes that decide what is applied next as they were.
   */
  lemma LosingApplyIsTransient(x: Setup, w: World, m: Memory, c: Copy, raw: Bytes)
    requires LosesRace(x, w)
    ensures var s := ApplyPhase(x, w, m, c, raw);
            && s.Done? && s == Retry(x, ApplyValidated(x, w, raw).0, m, c, ApplyFailed(ConflictError))
            && (s.out == Errored || s.out == Requeue(Backoff.ForFailure(m.transientFailures + 1), TransientFailure))
            && ApplyValidated(x, w, raw).0.gw == AtPost(x, w).gw
    ensures forall k :: Decides(k) ==>
              OwnWritesKeep(ApplyValidated(x, w, raw).0, ApplyPhase(x, w, m, c, raw).w, c, k)
  {
    LosingPost(x, w, raw);
    var (v, err) := ApplyValidated(x, w, raw);
    var ann := FailureAnnotations(c.secret.ann, x.env(v.clock), ApplyFailed(ConflictError), None);
    hide ApplyValidated, Patch, LosesRace, AtPost, OwnWritesKeep;
    forall k | Decides(k)
      ensures OwnWritesKeep(v, ApplyPhase(x, w, m, c, raw).w, c, k)
    {
      PatchKeepsUntouched(x, v, c, ann, RecordFailure, k);
    }
  }
}
