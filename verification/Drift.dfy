/** What the drift baseline is worth: when it is right, and what a completed check then says. */
module Drift {
  import opened Prelude
  import opened Platform
  import opened Reconciliation
  import opened Steadiness
  import opened History
  import opened Ledger
  import opened Bookkeeping
  import opened Theorems

  // ---------------------------------------------------------------- reading a kept book

  ghost predicate Entries(x: Setup, w: World) {
    NoLostRecord(w.trace) && forall i :: 0 <= i < |w.trace| ==> Entry(x, w.log, w.trace, i)
  }

  lemma ReachableBook(x: Setup, w: World)
    requires Assumed(x) && Reachable(x, w)
    ensures Book(x, w)
  {
    var w0, ts :| Untouched(w0) && w == Run(x, w0, FRESH, ts).0;
    assert Book(x, w0);
    hide Book;
    RunKeepsBook(x, w0, FRESH, ts);
  }

  /** The gateway serves the last accepted apply, or what somebody else wrote since. */
  lemma {:induction false} ServedExactly(x: Setup, w: World, n: nat)
    requires Entries(x, w) && n <= |w.trace| && LastAccepted(w.trace[..n]).Some?
    ensures var t := w.trace[..n];
            Served(x.norm, t) ==
            Some(if ForeignSince(t).Some? then ForeignSince(t).value else x.norm(LastAccepted(t).value))
  {
    var past, e := w.trace[..n - 1], w.trace[n - 1];
    assert w.trace[..n] == past + [e];
    Snoc(past, e);
    ServedSnoc(x.norm, past, e);
    assert Entry(x, w.log, w.trace, n - 1);
    if !AcceptedApply(e) {
      ServedExactly(x, w, n - 1);
    }
  }

  /** As long as an apply is unrecorded, or recorded without a baseline, its window is open. */
  lemma {:induction false} OwedIsOpen(x: Setup, w: World, n: nat)
    requires Entries(x, w) && n <= |w.trace|
    ensures Unrecorded(w.trace[..n]) ==> Open(w.trace[..n])
    ensures Noted(w.trace[..n]) == Pending && !Unrecorded(w.trace[..n]) ==> Open(w.trace[..n])
  {
    if n > 0 {
      var past, e := w.trace[..n - 1], w.trace[n - 1];
      assert w.trace[..n] == past + [e];
      Snoc(past, e);
      assert Entry(x, w.log, w.trace, n - 1);
      OwedIsOpen(x, w, n - 1);
    }
  }

  lemma {:induction false} OpenIsUndisturbed(t: seq<Event>)
    requires Undisturbed(t) && Open(t)
    ensures ForeignSince(t) == None
  {
    var past, e := t[..|t| - 1], t[|t| - 1];
    if !AcceptedApply(e) {
      OpenIsUndisturbed(past);
    }
  }

  // ---------------------------------------------------------------- when a baseline is right

  /** The read that gave the baseline entered at `i`: what it returned, and what was on record then. */
  lemma BaselineSource(x: Setup, w: World, i: nat, run: nat, live: Bytes) returns (j: nat)
    requires Entries(x, w) && i < |w.trace| && ReadFor(w.trace, i, run, live) && LastAccepted(w.trace[..i]).Some?
    ensures j < i && w.trace[j] == LiveRead(run, live) && Plain(w.trace[..i], j)
    ensures var t, u := w.trace[..j], w.trace[..i];
            LastAccepted(t) == LastAccepted(u) && Unrecorded(t) == Unrecorded(u) && Noted(t) == Noted(u)
    ensures var raw := LastAccepted(w.trace[..i]).value;
            live == x.norm(raw) <==> ForeignSince(w.trace[..j]) in {None, Some(x.norm(raw))}
  {
    j :| 0 <= j < i && w.trace[j] == LiveRead(run, live) && Plain(w.trace[..i], j);
    var t, u := w.trace[..j], w.trace[..i];
    assert Plain(u, |t|);
    PlainStretch(t, u);
    ServedExactly(x, w, j);
    assert Entry(x, w.log, w.trace, j);
  }

  /** The bytes whose digest a patch enters as a baseline. */
  function Entered(e: Event): Bytes
    requires Closes(e)
  {
    if e.purpose.AdoptBaseline? then e.purpose.live else e.purpose.observed.of
  }

  /**
   In any run in which no record of an apply is lost: a baseline, whether read back or adopted
   later, stands beside the digest of the last accepted bytes, and it is the digest of what
   the gateway makes of them if and only if, when it was read, nobody else had written the
   gateway since that apply, or had last written just that.
   */
  lemma BaselineIsRightExactlyWhen(x: Setup, w: World, i: nat)
    requires Assumed(x) && Reachable(x, w) && NoLostRecord(w.trace)
    requires i < |w.trace| && Closes(w.trace[i])
    ensures var e := w.trace[i];
            && LastAccepted(w.trace[..i]).Some? && e.index < |w.log|
            && var raw, ann := LastAccepted(w.trace[..i]).value, w.log[e.index].secret.ann;
            && Lookup(ann, LastAppliedHash) == Hash(raw)
            && exists j: nat :: j < i && w.trace[j] == LiveRead(e.run, Entered(e)) && Plain(w.trace[..i], j)
                 && LastAccepted(w.trace[..j]) == Some(raw)
                 && (Lookup(ann, LastObservedHash) == Hash(x.norm(raw)) <==>
                     ForeignSince(w.trace[..j]) in {None, Some(x.norm(raw))})
  {
    ReachableBook(x, w);
    assert Entry(x, w.log, w.trace, i);
    var e := w.trace[i];
    var _ := BaselineSource(x, w, i, e.run, Entered(e));
  }

  /** With nobody writing in between, every baseline on record is right. */
  lemma {:induction false} NotedIsRight(x: Setup, w: World, n: nat, raw: Bytes)
    requires Entries(x, w) && Undisturbed(w.trace) && n <= |w.trace|
    requires !Unrecorded(w.trace[..n]) && LastAccepted(w.trace[..n]) == Some(raw) && Noted(w.trace[..n]).Hash?
    ensures Noted(w.trace[..n]) == Hash(x.norm(raw))
  {
    var past, e := w.trace[..n - 1], w.trace[n - 1];
    assert w.trace[..n] == past + [e];
    Snoc(past, e);
    assert Entry(x, w.log, w.trace, n - 1);
    if Closes(e) {
      var j := BaselineSource(x, w, n - 1, e.run, Entered(e));
      OwedIsOpen(x, w, j);
      PrefixKept(w.trace, j);
      OpenIsUndisturbed(w.trace[..j]);
    } else if !RecordsApply(e) {
      NotedIsRight(x, w, n - 1, raw);
    }
  }

  lemma RecordIsRight(x: Setup, w: World, n: nat, raw: Bytes, v: Value)
    requires Entries(x, w) && Undisturbed(w.trace) && RecordAt(w.trace, n, raw, v)
    ensures v in {Pending, Hash(x.norm(raw))}
  {
    if v.Hash? {
      NotedIsRight(x, w, n, raw);
    }
  }

  // ---------------------------------------------------------------- the theorems

  /**
   If nobody else writes the gateway while a baseline is open and no record of an apply is
   lost: every revision that shows an apply shows with it a pending baseline or the digest of
   what the gateway makes of those bytes, and the current one shows the last accepted apply
   unless that is waiting to be recorded.
   */
  lemma BaselineIsRight(x: Setup, w: World)
    requires Assumed(x) && Reachable(x, w) && Fair(w.trace)
    ensures forall i, raw :: 0 <= i < |w.log| && Lookup(w.log[i].secret.ann, LastAppliedHash) == Hash(raw) ==>
              Lookup(w.log[i].secret.ann, LastObservedHash) in {Pending, Hash(x.norm(raw))}
    ensures var ann := CurrentAnn(w.log, x.secretName);
            LastAppliedHash in ann && !Unrecorded(w.trace) ==>
              && LastAccepted(w.trace).Some?
              && var raw := LastAccepted(w.trace).value;
              && ann[LastAppliedHash] == Hash(raw) && Lookup(ann, LastObservedHash) in {Pending, Hash(x.norm(raw))}
  {
    ReachableBook(x, w);
    assert Entries(x, w);
    forall i, raw | 0 <= i < |w.log| && Lookup(w.log[i].secret.ann, LastAppliedHash) == Hash(raw)
      ensures Lookup(w.log[i].secret.ann, LastObservedHash) in {Pending, Hash(x.norm(raw))}
    {
      var ann := w.log[i].secret.ann;
      assert ShownOnce(w.trace, ann);
      var n :| ShowsAt(w.trace, n, ann);
      RecordIsRight(x, w, n, raw, Lookup(ann, LastObservedHash));
    }
    var ann := CurrentAnn(w.log, x.secretName);
    if LastAppliedHash in ann && !Unrecorded(w.trace) {
      assert ShowsAt(w.trace, |w.trace|, ann) && w.trace[..|w.trace|] == w.trace;
      RecordIsRight(x, w, |w.trace|, ann[LastAppliedHash].of, Lookup(ann, LastObservedHash));
    }
  }

  /**
   Under the same hypotheses a completed check compares what the gateway serves with what it
   made of the recorded bytes. With fresh reads these are the bytes of the last accepted apply:
   the check counts drift if and only if the gateway serves anything but norm of them.
   */
  lemma DriftDetectionIsExact(x: Setup, w: World, i: nat)
    requires Assumed(x) && Reachable(x, w) && Fair(w.trace) && i < |w.trace| && w.trace[i].Checked?
    ensures var e := w.trace[i];
            && (e.drift <==> e.live != x.norm(e.applied))
            && i > 0 && w.trace[i - 1] == LiveRead(e.run, e.live) && Served(x.norm, w.trace[..i]) == Some(e.live)
            && (NoStaleReads(x) ==>
                  && LastAccepted(w.trace[..i]) == Some(e.applied)
                  && (e.drift <==> e.live != x.norm(LastAccepted(w.trace[..i]).value)))
  {
    ReachableBook(x, w);
    assert Entries(x, w);
    var e := w.trace[i];
    assert Entry(x, w.log, w.trace, i);
    var n: nat :| n <= i && RecordAt(w.trace, n, e.applied, e.expected);
    RecordIsRight(x, w, n, e.applied, e.expected);
    assert Entry(x, w.log, w.trace, i - 1);
    CheckedIsServed(x, w, i, n);
  }

  /** Something has been applied before a check, so the trace says what the gateway serves. */
  lemma CheckedIsServed(x: Setup, w: World, i: nat, n: nat)
    requires Entries(x, w) && n <= i < |w.trace| && i > 0 && LastAccepted(w.trace[..n]).Some?
    requires w.trace[i - 1].LiveRead?
    ensures Served(x.norm, w.trace[..i]) == Some(w.trace[i - 1].raw)
  {
    var past, e := w.trace[..i - 1], w.trace[i - 1];
    assert w.trace[..i] == past + [e];
    Snoc(past, e);
    ServedSnoc(x.norm, past, e);
    AcceptedStays(w.trace, n, i);
    ServedExactly(x, w, i - 1);
    assert Entry(x, w.log, w.trace, i - 1);
  }

  lemma {:induction false} AcceptedStays(t: seq<Event>, n: nat, i: nat)
    requires n <= i <= |t| && LastAccepted(t[..n]).Some?
    ensures LastAccepted(t[..i]).Some?
    decreases i - n
  {
    if n < i {
      assert t[..n + 1] == t[..n] + [t[n]];
      Snoc(t[..n], t[n]);
      AcceptedStays(t, n + 1, i);
    }
  }
}
