/**
 What the local runner sends, over any events, file changes and answers: it applies nothing that
 the gateway has not just accepted in a validation, and tries as long as it may.
 */
module LocalOrder {
  import opened Prelude
  import opened Errors
  import opened Platform
  import opened Dataplane
  import opened Safety
  import opened Posts
  import opened Suffix
  import opened LocalRun

  // ---------------------------------------------------------------- what was posted

  /** The last POST before this one was an accepted validation of the same bytes, since `from`. */
  ghost predicate JustValidated(t: seq<Event>, from: nat, i: nat)
    requires i < |t| && t[i].Post?
  {
    exists j :: from <= j < i && PostOk(t[j], ValidateOnly, t[i].raw) && t[j].run == t[i].run
                && forall k :: j < k < i ==> !t[k].Post?
  }

  /** From `w` to `v` every apply was validated just before, successfully. */
  ghost predicate ValidatesFirst(w: World, v: World) {
    w.trace <= v.trace
    && forall i :: |w.trace| <= i < |v.trace| && IsApply(v.trace[i]) ==> JustValidated(v.trace, |w.trace|, i)
  }

  lemma FreeValidates(w: World, v: World)
    requires Free(w, v, Posting)
    ensures ValidatesFirst(w, v)
  {
    hide JustValidated;
  }

  lemma ValidatesTransitive(w: World, v: World, u: World)
    requires ValidatesFirst(w, v) && ValidatesFirst(v, u)
    ensures ValidatesFirst(w, u)
  {
    forall i | |w.trace| <= i < |u.trace| && IsApply(u.trace[i])
      ensures JustValidated(u.trace, |w.trace|, i)
    {
      if i < |v.trace| {
        assert JustValidated(v.trace, |w.trace|, i);
      } else {
        assert JustValidated(u.trace, |v.trace|, i);
      }
    }
  }

  // ---------------------------------------------------------------- one call of the client

  /** The two POSTs of one call, the second right after an accepted first. */
  lemma ApplyAfterValidation(w: World, v: World, u: World, t: World, raw: Bytes, err: Option<Err>)
    requires Free(w, v, Posting) && v.run == u.run
    requires PostedLast(v, u, ValidateOnly, raw, None)
    requires PostedLast(u, t, Apply, raw, err) || Free(u, t, Posting)
    ensures ValidatesFirst(w, t)
  {
    var j := |u.trace| - 1;
    assert PostOk(u.trace[j], ValidateOnly, raw);
    forall i | |w.trace| <= i < |t.trace| && IsApply(t.trace[i])
      ensures JustValidated(t.trace, |w.trace|, i)
    {
      assert i == |t.trace| - 1;
      assert PostOk(t.trace[j], ValidateOnly, raw);
    }
  }

  lemma CallValidatesFirst(x: Setup, w: World, raw: Bytes)
    ensures ValidatesFirst(w, ApplyUnvalidated(x, w, raw).0) && ApplyUnvalidated(x, w, raw).0.run == w.run
  {
    hide Poll, PostAtVersion, OnlyOthersWrote, ValidatesFirst;
    PollFree(x, w, 0, None, Posting);
    var (v, notReady) := WaitForReady(x, w);
    if notReady.Some? {
      FreeValidates(w, v);
    } else {
      PostAtVersionLast(x, v, ValidateOnly, raw);
      PostAtVersionFree(x, v, ValidateOnly, raw, Patching);
      var (u, invalid) := ValidateRaw(x, v, raw);
      if invalid.None? {
        PostAtVersionLast(x, u, Apply, raw);
        PostAtVersionFree(x, u, Apply, raw, Patching);
        ApplyAfterValidation(w, v, u, PostAtVersion(x, u, Apply, raw).0, raw, PostAtVersion(x, u, Apply, raw).1);
      } else {
        OneValidation(w, v, u, raw, invalid);
      }
    }
  }

  lemma OneValidation(w: World, v: World, u: World, raw: Bytes, err: Option<Err>)
    requires Free(w, v, Posting) && (PostedLast(v, u, ValidateOnly, raw, err) || Free(v, u, Posting))
    ensures ValidatesFirst(w, u)
  {
    hide JustValidated;
  }

  /**
   A validation that the gateway does not accept ends the call with its error: nothing is
   applied, and the live configuration is what others made of it.
   */
  lemma UnacceptedIsNotApplied(x: Setup, w: World, raw: Bytes, i: nat)
    requires var v := ApplyUnvalidated(x, w, raw).0;
             && |w.trace| <= i < |v.trace| && v.trace[i].Post? && v.trace[i].kind.ValidateOnly?
             && !Ok(v.trace[i].reply)
    ensures var (v, err) := ApplyUnvalidated(x, w, raw);
            && err == Some(Context(PLAIN, ErrorOf(v.trace[i].reply))) && v.trace[i].raw == raw
            && OnlyOthersWrote(w, v)
  {
    hide Poll, PostAtVersion, OnlyOthersWrote;
    PollFree(x, w, 0, None, Posting);
    PollByOthers(x, w, 0, None);
    var (v, notReady) := WaitForReady(x, w);
    if notReady.None? {
      PostAtVersionLast(x, v, ValidateOnly, raw);
      var (u, invalid) := ValidateRaw(x, v, raw);
      OthersTransitive(w, v, u);
      if invalid.None? {
        PostAtVersionLast(x, u, Apply, raw);
      }
    }
  }

  /** A call succeeds if and only if its apply is accepted. */
  lemma CallSucceedsExactlyWhen(x: Setup, w: World, raw: Bytes)
    ensures var (v, err) := ApplyUnvalidated(x, w, raw);
            err.None? <==> exists i :: |w.trace| <= i < |v.trace| && PostOk(v.trace[i], Apply, raw)
  {
    hide Poll, PostAtVersion, OnlyOthersWrote;
    PollFree(x, w, 0, None, Posting);
    var (v, notReady) := WaitForReady(x, w);
    if notReady.None? {
      PostAtVersionLast(x, v, ValidateOnly, raw);
      var (u, invalid) := ValidateRaw(x, v, raw);
      if invalid.None? {
        PostAtVersionLast(x, u, Apply, raw);
        var (t, err) := PostAtVersion(x, u, Apply, raw);
        assert err.None? ==> PostOk(t.trace[|t.trace| - 1], Apply, raw);
      }
    }
  }

  // ---------------------------------------------------------------- the whole runner

  lemma ApplyOnceValidates(d: Desk, s: State)
    ensures ValidatesFirst(s.w, ApplyOnce(d, s).0.w)
  {
    hide ApplyUnvalidated, ValidatesFirst;
    FreeSelf(s.w, Posting);
    FreeValidates(s.w, s.w);
    var file := d.disk(s.loads);
    if file.Success? {
      CallValidatesFirst(d.x, s.w, file.value);
    }
  }

  lemma {:induction false} RetryValidates(d: Desk, s: State, failed: nat, last: Err)
    requires failed <= MAX_ATTEMPTS
    ensures ValidatesFirst(s.w, Retry(d, s, failed, last).0.w)
    decreases MAX_ATTEMPTS - failed
  {
    hide ApplyOnce, ValidatesFirst, Pause;
    FreeSelf(s.w, Posting);
    FreeValidates(s.w, s.w);
    if failed < MAX_ATTEMPTS && !d.ended(s.loads) {
      ApplyOnceValidates(d, s);
      var (t, r) := ApplyOnce(d, s);
      if r.Failure? {
        var u := AfterFailure(d, s, failed);
        RetryValidates(d, u, failed + 1, r.error);
        ValidatesTransitive(s.w, u.w, Retry(d, u, failed + 1, r.error).0.w);
      }
    }
  }

  lemma HandleValidates(d: Desk, s: State, lastHash: Bytes, e: FileEvent)
    ensures ValidatesFirst(s.w, Handle(d, s, lastHash, e).0.w)
  {
    hide Retry, ValidatesFirst;
    FreeSelf(s.w, Posting);
    FreeValidates(s.w, s.w);
    RetryValidates(d, Settle(s), 0, CONTEXT_ENDED);
  }

  /**
   Whatever happens to the file and the gateway meanwhile: the POST before each apply of the
   runner is a validation of the same bytes, accepted in the same call.
   */
  lemma {:induction false} RunnerValidatesFirst(d: Desk, s: State, lastHash: Bytes, events: seq<FileEvent>)
    ensures ValidatesFirst(s.w, HandleAll(d, s, lastHash, events).0.w)
    decreases |events|
  {
    hide Handle, ValidatesFirst;
    FreeSelf(s.w, Posting);
    FreeValidates(s.w, s.w);
    if events != [] {
      HandleValidates(d, s, lastHash, events[0]);
      var (t, h) := Handle(d, s, lastHash, events[0]);
      RunnerValidatesFirst(d, t, h, events[1..]);
      ValidatesTransitive(s.w, t.w, HandleAll(d, t, h, events[1..]).0.w);
    }
  }

  // ---------------------------------------------------------------- how long it tries

  /** What the `k`-th attempt starts from, counted from nought, if all before it failed. */
  function Attempt(d: Desk, s: State, k: nat): State {
    if k == 0 then s else AfterFailure(d, Attempt(d, s, k - 1), k - 1)
  }

  /** The `k`-th attempt is made, and fails. */
  predicate AttemptFails(d: Desk, s: State, k: nat) {
    var t := Attempt(d, s, k);
    !d.ended(t.loads) && ApplyOnce(d, t).1.Failure?
  }

  ghost predicate StillTrying(d: Desk, s: State, k: nat) {
    k <= MAX_ATTEMPTS && forall i :: 0 <= i < k ==> AttemptFails(d, s, i)
  }

  function LastFailure(d: Desk, s: State, k: nat): Err {
    if k == 0 then CONTEXT_ENDED
    else
      var r := ApplyOnce(d, Attempt(d, s, k - 1)).1;
      if r.Failure? then r.error else CONTEXT_ENDED
  }

  lemma {:induction false} RetriesOn(d: Desk, s: State, k: nat)
    requires StillTrying(d, s, k)
    ensures ApplyWithRetry(d, s) == Retry(d, Attempt(d, s, k), k, LastFailure(d, s, k))
    decreases k
  {
    hide ApplyOnce, Pause;
    if k > 0 {
      assert AttemptFails(d, s, k - 1);
      RetriesOn(d, s, k - 1);
    }
  }

  /**
   How the attempts end, whatever they meet: with the first that succeeds; with the context;
   or with the fifth failure and its error. Until then the runner tries again.
   */
  lemma AttemptsEndExactly(d: Desk, s: State, k: nat)
    requires StillTrying(d, s, k)
    ensures var t := Attempt(d, s, k);
            if k == MAX_ATTEMPTS then ApplyWithRetry(d, s) == (t, Failure(LastFailure(d, s, k)))
            else if d.ended(t.loads) then ApplyWithRetry(d, s) == (t, Failure(CONTEXT_ENDED))
            else if ApplyOnce(d, t).1.Success? then ApplyWithRetry(d, s) == ApplyOnce(d, t)
            else StillTrying(d, s, k + 1)
  {
    RetriesOn(d, s, k);
    hide ApplyOnce, Pause, ApplyWithRetry;
  }

  /** An event that leads to no attempt costs nothing unless it is a write to the file; then the pause and one read. */
  lemma IdleEventCosts(d: Desk, s: State, lastHash: Bytes, e: FileEvent)
    requires !TriesToApply(d, s, lastHash, e) && !d.ended(s.loads + 1)
    ensures var (t, h) := Handle(d, s, lastHash, e);
            && h == lastHash && t.w == s.w
            && (if e.Changed? && e.isConfig && e.isWrite then t.slept == s.slept + 150 && t.loads == s.loads + 1
                else t == s)
  {
    hide ApplyWithRetry;
    RetryAttempts(d, Settle(s));
  }

  /** Every event is handled, in turn. */
  lemma {:induction false} EventsInTurn(
    d: Desk, s: State, lastHash: Bytes, events: seq<FileEvent>, e: FileEvent)
    ensures var (t, h) := HandleAll(d, s, lastHash, events);
            HandleAll(d, s, lastHash, events + [e]) == Handle(d, t, h, e)
    decreases |events|
  {
    hide Handle;
    if events == [] {
      assert [e][1..] == [] && [] + [e] == [e];
    } else {
      var (t, h) := Handle(d, s, lastHash, events[0]);
      EventsInTurn(d, t, h, events[1..], e);
      assert (events + [e])[1..] == events[1..] + [e] && (events + [e])[0] == events[0];
    }
  }
}
