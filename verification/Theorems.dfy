/**
 What holds in every run: any triggers, any interleaving with other writers, stale
 reads, lost replies, write conflicts, killed and restarted processes.
 */
module Theorems {
  import opened Platform
  import opened Reconciliation
  import opened Safety
  import opened ReconcileSafety

  /** Before the operator has ever run: none of its keys on any Secret. */
  predicate Untouched(w: World) {
    && w.trace == [] && w.run == 0 && !w.down
    && forall i :: 0 <= i < |w.log| ==>
         !w.log[i].byOperator && forall k :: k in w.log[i].secret.ann ==> k.ForeignKey?
  }

  ghost predicate Reachable(x: Setup, w: World) {
    exists w0, ts :: Untouched(w0) && w == Run(x, w0, FRESH, ts).0
  }

  lemma ReachableInv(x: Setup, w: World)
    requires Reachable(x, w)
    ensures Inv(x, w)
  {
    var w0, ts :| Untouched(w0) && w == Run(x, w0, FRESH, ts).0;
    forall i | 0 <= i < |w0.log|
      ensures RevisionGood(x, w0, i)
    {
    }
    RunKeeps(x, w0, FRESH, ts);
  }

  // ---------------------------------------------------------------- the durable memory is truthful

  /** A committed patch that sets last-applied-hash puts it on bytes the gateway accepted in that Reconcile. */
  lemma AppliedStampIsTrue(x: Setup, w: World, i: nat)
    requires Reachable(x, w) && i < |w.trace| && w.trace[i].Patched?
    ensures var e := w.trace[i];
            && e.base <= e.index < |w.log|
            && var b, a := w.log[e.base].secret, w.log[e.index].secret;
            Sets(b.ann, a.ann, LastAppliedHash) ==>
              && x.secretKey in a.data && a.ann[LastAppliedHash] == Hash(a.data[x.secretKey])
              && exists j :: 0 <= j < i && PostOk(w.trace[j], Apply, a.data[x.secretKey]) && w.trace[j].run == e.run
  {
    ReachableInv(x, w);
    assert Law(x, w.log, w.trace, i);
  }

  /** A committed patch that sets last-failed-hash puts it on bytes refused in that Reconcile, or on no bytes at all. */
  lemma FailedStampIsTrue(x: Setup, w: World, i: nat)
    requires Reachable(x, w) && i < |w.trace| && w.trace[i].Patched?
    ensures var e := w.trace[i];
            && e.base <= e.index < |w.log|
            && var b, a := w.log[e.base].secret, w.log[e.index].secret;
            Sets(b.ann, a.ann, LastFailedHash) ==>
              && x.secretKey in a.data && a.ann[LastFailedHash] == Hash(a.data[x.secretKey])
              && (a.data[x.secretKey] == ""
                  || exists j :: 0 <= j < i && PostRefused(w.trace[j], a.data[x.secretKey]) && w.trace[j].run == e.run)
  {
    ReachableInv(x, w);
    assert Law(x, w.log, w.trace, i);
  }

  /** A committed patch that sets last-observed-hash to a digest names bytes the gateway served in that Reconcile. */
  lemma ObservedStampIsTrue(x: Setup, w: World, i: nat)
    requires Reachable(x, w) && i < |w.trace| && w.trace[i].Patched?
    ensures var e := w.trace[i];
            && e.base <= e.index < |w.log|
            && var b, a := w.log[e.base].secret, w.log[e.index].secret;
            Sets(b.ann, a.ann, LastObservedHash) ==>
              a.ann[LastObservedHash] == Pending
              || exists j, live :: 0 <= j < i && w.trace[j] == LiveRead(e.run, live)
                  && a.ann[LastObservedHash] == Hash(live)
  {
    ReachableInv(x, w);
    assert Law(x, w.log, w.trace, i);
  }

  /**
   Every revision the operator wrote is the outcome of one of these patches, and the patch
   compares it with the revision of the Secret directly before it.
   */
  lemma EveryOwnRevisionIsAPatch(x: Setup, w: World, i: nat)
    requires Reachable(x, w) && i < |w.log| && w.log[i].byOperator
    ensures exists j :: 0 <= j < |w.trace| && w.trace[j].Patched? && w.trace[j].index == i
                        && w.trace[j].base <= i && w.log[w.trace[j].base].secret.name == w.log[i].secret.name
                        && forall k :: w.trace[j].base < k < i ==> w.log[k].secret.name != w.log[i].secret.name
  {
    ReachableInv(x, w);
    assert Announced(w, i);
    var j :| 0 <= j < |w.trace| && w.trace[j].Patched? && w.trace[j].index == i;
    assert Law(x, w.log, w.trace, j);
  }

  /** Events with one run number belong to one Reconcile: no other Reconcile begins between them. */
  lemma OneRunIsOneReconcile(x: Setup, w: World, i: nat, j: nat)
    requires Reachable(x, w) && i < j < |w.trace|
    requires Numbered(w.trace[i]) && Numbered(w.trace[j]) && w.trace[i].run == w.trace[j].run
    ensures forall k :: i < k <= j ==> !w.trace[k].Begin?
  {
    ReachableInv(x, w);
    assert InOrder(w.trace, j);
    forall k | i < k <= j
      ensures !w.trace[k].Begin?
    {
      assert InOrder(w.trace, k);
    }
  }

  // ---------------------------------------------------------------- suppression is sound

  /**
   Bytes are only ever suppressed because they are empty or the gateway answered 400 or
   422 to a raw-config POST of exactly these bytes.
   */
  lemma SuppressionIsSound(x: Setup, w: World, i: nat)
    requires Reachable(x, w) && Polite(x) && i < |w.log| && LastFailedHash in w.log[i].secret.ann
    ensures exists raw :: w.log[i].secret.ann[LastFailedHash] == Hash(raw)
                          && (raw == "" || exists j :: 0 <= j < |w.trace| && PostRefused(w.trace[j], raw))
  {
    ReachableInv(x, w);
    assert RevisionGood(x, w, i);
  }

  /** A recorded apply was accepted by the gateway. */
  lemma RecordedApplyHappened(x: Setup, w: World, i: nat)
    requires Reachable(x, w) && Polite(x) && i < |w.log| && LastAppliedHash in w.log[i].secret.ann
    ensures exists raw, j :: w.log[i].secret.ann[LastAppliedHash] == Hash(raw)
                             && 0 <= j < |w.trace| && PostOk(w.trace[j], Apply, raw)
  {
    ReachableInv(x, w);
    assert RevisionGood(x, w, i);
  }

  /** A message accompanies exactly the statuses that report a failure. */
  lemma StatusAlwaysConsistent(x: Setup, w: World, i: nat)
    requires Reachable(x, w) && Polite(x) && i < |w.log|
    ensures StatusConsistent(w.log[i].secret.ann)
  {
    ReachableInv(x, w);
    assert RevisionGood(x, w, i);
  }

  /**
   Status Applied is stored without an applied hash only in the wake of a recovered certificate
   push: the Secret has been in that state ever since a patch that found the status of a failed
   sync stored, and followed a push of a listed certificate in its own Reconcile.
   */
  lemma AppliedStatusIsBacked(x: Setup, w: World, i: nat)
    requires Reachable(x, w) && Polite(x) && i < |w.log|
    requires Lookup(w.log[i].secret.ann, StatusKey) == StatusIs(Applied) && LastAppliedHash !in w.log[i].secret.ann
    ensures exists j :: 0 <= j < |w.trace| && Recovers(x, w, j) && HollowSince(w.log, w.trace[j].index, i)
  {
    ReachableInv(x, w);
    assert RevisionGood(x, w, i);
  }

  // ---------------------------------------------------------------- order

  /**
   Each apply follows a successful validation of the same bytes, and that follows, for every
   listed certificate, a sync in which storage took the bundle or was found to hold it.
   */
  lemma ApplyIsValidatedAndCertified(x: Setup, w: World, i: nat)
    requires Reachable(x, w) && i < |w.trace| && w.trace[i].Post? && w.trace[i].kind.Apply?
    ensures var run := w.trace[i].run;
            exists j :: 0 <= j < i && PostOk(w.trace[j], ValidateOnly, w.trace[i].raw) && w.trace[j].run == run
                        && forall n :: n in x.certs ==> SyncedIn(w.trace, j, run, n) && DeliveredIn(w.trace, j, run, n)
  {
    ReachableInv(x, w);
    var run := w.trace[i].run;
    assert Law(x, w.log, w.trace, i);
    var j :| 0 <= j < i && PostOk(w.trace[j], ValidateOnly, w.trace[i].raw) && w.trace[j].run == run;
    assert Law(x, w.log, w.trace, j);
    forall n | n in x.certs
      ensures DeliveredIn(w.trace, j, run, n)
    {
      assert SyncedIn(w.trace, j, run, n);
      var k :| 0 <= k < j && w.trace[k] == CertSynced(run, n);
      assert Law(x, w.log, w.trace, k);
    }
  }

  /** A Reconcile in which some listed certificate was never synced sends no raw config at all. */
  lemma NoPostWithoutEveryCertificate(x: Setup, w: World, run: nat, name: string)
    requires Reachable(x, w) && name in x.certs
    requires forall j :: 0 <= j < |w.trace| ==> w.trace[j] != CertSynced(run, name)
    ensures forall i :: 0 <= i < |w.trace| && w.trace[i].Post? ==> w.trace[i].run != run
  {
    forall i | 0 <= i < |w.trace| && w.trace[i].Post?
      ensures w.trace[i].run != run
    {
      ReachableInv(x, w);
      assert Law(x, w.log, w.trace, i);
      if w.trace[i].kind.Apply? {
        ApplyIsValidatedAndCertified(x, w, i);
      } else {
        assert AllSyncedIn(x, w.trace, i, w.trace[i].run);
      }
    }
  }

  /** A certificate write is skipped only if storage once accepted this very bundle and its metadata still match. */
  lemma SkipIsJustified(x: Setup, w: World, i: nat)
    requires Reachable(x, w) && Polite(x) && i < |w.trace| && w.trace[i].CertSkipped?
    ensures var e := w.trace[i];
            && (exists j :: 0 <= j < i && PushAccepted(w.trace[j], e.name, e.bundle))
            && e.remote.serial == e.localSerial != "" && e.remote.size in {0, |e.bundle|}
  {
    ReachableInv(x, w);
    assert Law(x, w.log, w.trace, i);
  }

  // ---------------------------------------------------------------- other writers

  /** No apply, however it was answered, overwrites a gateway write it has not seen. */
  lemma NoLostGatewayUpdate(x: Setup, w: World, i: nat)
    requires Reachable(x, w) && x.versionLocked && NoReimage(x)
    requires i < |w.trace| && w.trace[i].Post? && w.trace[i].stored
    ensures exists j :: 0 <= j < i && w.trace[j].VersionRead? && w.trace[j].run == w.trace[i].run
                        && forall k :: j < k < i ==> !w.trace[k].OutOfBand?
  {
    ReachableInv(x, w);
    assert Law(x, w.log, w.trace, i);
  }

  lemma SameForOthersTransitive(a: Secret, b: Secret, c: Secret)
    requires SameForOthers(a, b) && SameForOthers(b, c)
    ensures SameForOthers(a, c)
  {
  }

  /** The revision `j` is the last one of its Secret that somebody else wrote, and `i` still shows it. */
  ghost predicate ShowsForeign(log: Log, j: nat, i: nat)
    requires j <= i < |log|
  {
    && !log[j].byOperator && SameForOthers(log[j].secret, log[i].secret)
    && forall k :: j < k <= i && log[k].secret.name == log[i].secret.name ==> log[k].byOperator
  }

  lemma {:induction false} OwnRevisionsShowForeign(x: Setup, log: Log, i: nat)
    requires i < |log| && forall k :: 0 <= k < |log| ==> OwnRevision(x, log, k)
    ensures exists j :: 0 <= j <= i && ShowsForeign(log, j, i)
    decreases i
  {
    hide SameForeign;
    if log[i].byOperator {
      assert OwnRevision(x, log, i);
      var b :| 0 <= b < i && SameForOthers(log[b].secret, log[i].secret)
               && forall k :: b < k < i ==> log[k].secret.name != log[i].secret.name;
      OwnRevisionsShowForeign(x, log, b);
      var j :| 0 <= j <= b && ShowsForeign(log, j, b);
      SameForOthersTransitive(log[j].secret, log[b].secret, log[i].secret);
      assert ShowsForeign(log, j, i);
    } else {
      SameSelf(log[i].secret);
      assert ShowsForeign(log, i, i);
    }
  }

  /** Whatever the operator writes, others find the Secret as the last of them left it. */
  lemma OthersFindTheirOwnWrites(x: Setup, w: World, i: nat)
    requires Reachable(x, w) && i < |w.log|
    ensures exists j :: 0 <= j <= i && ShowsForeign(w.log, j, i)
  {
    ReachableInv(x, w);
    OwnRevisionsShowForeign(x, w.log, i);
  }

  /** With a dedicated config Secret, the operator writes no other Secret. */
  lemma OnlyTheConfigSecretIsWritten(x: Setup, w: World, i: nat)
    requires Reachable(x, w) && ConfigSecretIsDedicated(x) && i < |w.log| && w.log[i].byOperator
    ensures w.log[i].secret.name == x.secretName
  {
    ReachableInv(x, w);
    assert OwnRevision(x, w.log, i);
  }

  // ---------------------------------------------------------------- what a process forgets

  /** A restart, and the death of the process in a Reconcile, leave nothing of its memory to what follows. */
  lemma RestartForgets(x: Setup, w: World, m: Memory, n: Memory, ts: seq<Trigger>)
    ensures Run(x, w, m, [Restarted] + ts) == Run(x, w, n, [Restarted] + ts)
    ensures forall name :: Reconcile(x, w, m, name).w.down && Reconcile(x, w, m, name).w == Reconcile(x, w, n, name).w
              ==> Run(x, w, m, [Reconciled(name)] + ts) == Run(x, w, n, [Reconciled(name)] + ts)
  {
    hide Reconcile;
    assert ([Restarted] + ts)[1..] == ts;
    forall name | Reconcile(x, w, m, name).w.down && Reconcile(x, w, m, name).w == Reconcile(x, w, n, name).w
      ensures Run(x, w, m, [Reconciled(name)] + ts) == Run(x, w, n, [Reconciled(name)] + ts)
    {
      assert ([Reconciled(name)] + ts)[1..] == ts;
    }
  }
}
