/**
 What a Reconcile makes of the gateway's last answer to a raw-config POST, told from the trace:
 the outcome, and what is stored on the config Secret.
 */
module Verdict {
  import opened Prelude
  import opened Errors
  import opened Platform
  import opened Dataplane
  import opened Reconciliation
  import opened Safety
  import opened Actions
  import opened Steadiness
  import opened Tracking
  import opened Suffix
  import opened Posts
  import opened RetrySchedule
  import opened ReconcileSafety
  import opened Copies
  import opened CertOrder
  import opened Clearing
  import opened Suppression

  // ---------------------------------------------------------------- the claim

  /** The gateway examined the bytes and refused them. */
  predicate Refusal(r: Reply) {
    r == Response(400) || r == Response(422)
  }

  /** The last POST sent between `w` and `v`. */
  predicate LastPost(w: World, v: World, i: nat) {
    && |w.trace| <= i < |v.trace| && v.trace[i].Post?
    && forall j :: i < j < |v.trace| ==> !v.trace[j].Post?
  }

  /** A failure that is counted and retried after the backoff, or whose status patch failed. */
  predicate Retried(s: Step) {
    TransientEnd(s) || Errs(s)
  }

  /** What the events since the apply say about the baseline. */
  predicate ReadsSay(t: seq<Event>, i: nat, observed: Value) {
    && (forall j :: i < j < |t| && t[j].LiveRead? ==> observed == Hash(t[j].raw))
    && ((forall j :: i < j < |t| ==> !t[j].LiveRead?) ==> observed == Pending)
  }

  /** The record of an accepted apply names its bytes, and as baseline what was read from the gateway afterwards. */
  ghost predicate RecordStored(x: Setup, v: World, raw: Bytes, i: nat) {
    var ann := CurrentAnn(v.log, x.secretName);
    && CurrentHolds(x, v, raw) && Lookup(ann, LastAppliedHash) == Hash(raw) && LastAppliedTime in ann
    && ReadsSay(v.trace, i, Lookup(ann, LastObservedHash))
  }

  /** The end of a Reconcile whose apply was accepted at `i`. */
  ghost predicate Recorded(x: Setup, w: World, s: Step, raw: Bytes, i: nat) {
    && s.Done? && s.out in {NEXT_INTERVAL, Requeue(30, WriteConflict), Errored}
    && (!Free(w, s.w, Recording) ==> RecordStored(x, s.w, raw, i))
    && (s.out == Errored <==> PatchLost(x, s.w))
    && (s.out != Errored ==> (s.out == NEXT_INTERVAL <==> !Free(w, s.w, Recording)))
    && (Undisturbed(x) && !s.w.down ==>
          && s.out == NEXT_INTERVAL && RecordStored(x, s.w, raw, i)
          && var ann := CurrentAnn(s.w.log, x.secretName);
          Lookup(ann, StatusKey) == StatusIs(Applied) && StatusMessage !in ann)
  }

  /** What the answer `e` to the last POST of a Reconcile leads to. */
  ghost predicate Judged(x: Setup, w: World, s: Step, i: nat)
    requires i < |s.w.trace| && s.w.trace[i].Post?
  {
    var e := s.w.trace[i];
    if Refusal(e.reply) then
      s.Done? && s.out in {NEXT_INTERVAL, Errored} && Told(x, w, s, Failed(ConfigRejected), Some(e.raw))
    else if !Ok(e.reply) then
      var cause := Classify(ErrorOf(e.reply));
      Retried(s) && Told(x, w, s, if e.kind.ValidateOnly? then Failed(cause) else ApplyFailed(cause), None)
    else if e.kind.ValidateOnly? then
      Retried(s) && exists cause :: Transient(cause) && Told(x, w, s, ApplyFailed(cause), None)
    else Recorded(x, w, s, e.raw, i)
  }

  // ---------------------------------------------------------------- answers and classes

  lemma RefusedClass(r: Reply)
    requires !Ok(r)
    ensures Classify(ErrorOf(r)) == ConfigRejected <==> Refusal(r)
  {
    RejectedOnlyByStatus(r);
  }

  lemma ApplyValidatedLast(x: Setup, w: World, raw: Bytes)
    ensures var (v, err) := ApplyValidated(x, w, raw);
            PostedLast(w, v, Apply, raw, err) || (Unjudged(err) && Free(w, v, Posting))
  {
    hide Poll, PostAtVersion, OnlyOthersWrote;
    PollFree(x, w, 0, None, Posting);
    var (v, notReady) := WaitForReady(x, w);
    if notReady.Some? {
      WaitIsNoVerdict(x, w);
    } else {
      hide Free;
      PostAtVersionLast(x, v, Apply, raw);
      var (u, err) := PostAtVersion(x, v, Apply, raw);
      if PostedLast(v, u, Apply, raw, err) {
        PostedBefore(w, v, u, Apply, raw, err);
      } else {
        FreeTransitive(w, v, u, Posting);
      }
    }
  }

  lemma PostedBefore(w: World, v: World, u: World, kind: PostKind, raw: Bytes, err: Option<Err>)
    requires Free(w, v, Posting) && PostedLast(v, u, kind, raw, err)
    ensures PostedLast(w, u, kind, raw, err)
  {
    hide ErrorOf, Ok;
  }

  lemma {:induction false} PollIsNoVerdict(x: Setup, w: World, polls: nat, last: Option<Err>)
    requires polls <= MAX_POLLS && (last.Some? ==> Transient(Classify(last.value)))
    ensures var err := Poll(x, w, polls, last).1; err.Some? ==> Transient(Classify(err.value))
    decreases MAX_POLLS - polls
  {
    NoKindIsAVerdict();
    hide Classify, ReadVersion;
    if !(polls == MAX_POLLS || x.env(w.clock).expired) {
      VersionIsNoVerdict(x, w);
      var (v, version) := ReadVersion(x, w);
      if version.Failure? && x.env(v.clock).cancelled.None? {
        PollIsNoVerdict(x, v, polls + 1, Some(version.error));
      }
    }
  }

  lemma NoKindIsAVerdict()
    ensures forall k: LeafKind :: Transient(Classify(Leaf(k, PLAIN)))
  {
  }

  lemma WaitIsNoVerdict(x: Setup, w: World)
    ensures var err := WaitForReady(x, w).1; err.Some? ==> Transient(Classify(Context(PLAIN, err.value)))
  {
    PollIsNoVerdict(x, w, 0, None);
    hide Poll;
  }

  // ---------------------------------------------------------------- the ends of a Reconcile

  lemma RetryTold(x: Setup, w: World, m: Memory, c: Copy, status: Status)
    requires Good(x, w, c) && status != Applied
    ensures var s := Retry(x, w, m, c, status); Retried(s) && Told(x, w, s, status, None)
  {
    hide FailWithStatus, Good, Told;
    FailWithStatusTold(x, w, m, c, status, None, Retry(x, w, m, c, status));
  }

  lemma RejectTold(x: Setup, w: World, m: Memory, c: Copy, raw: Bytes)
    requires Good(x, w, c) && x.secretKey in c.secret.data && c.secret.data[x.secretKey] == raw
    ensures var s := Reject(x, w, m, c, raw);
            s.Done? && s.out in {NEXT_INTERVAL, Errored} && Told(x, w, s, Failed(ConfigRejected), Some(raw))
  {
    hide FailWithStatus, Good, Told;
    FailWithStatusTold(x, w, m, c, Failed(ConfigRejected), Some(raw), Reject(x, w, m, c, raw));
  }

  // ---------------------------------------------------------------- the record of an apply

  /** What the commit of a record leaves. */
  lemma CommittedRecord(x: Setup, w: World, c: Copy, it: Item, raw: Bytes, observed: Value)
    requires Good(x, w, c) && IsDesired(x, c, raw) && Latest(w.log, c.secret.name) == Some(c.rv)
    ensures var u := Commit(w, c, RecordedApply(c.secret.ann, it, raw, observed), RecordApply(raw, observed));
            var ann := CurrentAnn(u.log, x.secretName);
            && CurrentHolds(x, u, raw) && Lookup(ann, LastAppliedHash) == Hash(raw) && LastAppliedTime in ann
            && Lookup(ann, LastObservedHash) == observed && w.log <= u.log
            && (Undisturbed(x) && !w.down ==> Lookup(ann, StatusKey) == StatusIs(Applied) && StatusMessage !in ann)
  {
    var ann := RecordedApply(c.secret.ann, it, raw, observed);
    var server := w.log[c.rv].secret.ann;
    RecordedFacts(c.secret.ann, it, raw, observed);
    assert LastAppliedTime in ann;
    hide RecordedApply, Undisturbed, Commit, Copies.Shown;
    if Undisturbed(x) && !w.down {
      StatusFollows(server, c.secret.ann, ann);
    }
    hide Overlay;
    SetsKey(server, c.secret.ann, ann, LastAppliedHash);
    SetsKey(server, c.secret.ann, ann, LastObservedHash);
    SetsKey(server, c.secret.ann, ann, LastAppliedTime);
    CommittedAnnotations(w, c, ann, RecordApply(raw, observed));
    RefreshedGood(x, w, c, ann, RecordApply(raw, observed));
  }

  lemma StatusFollows(server: Annotations, before: Annotations, after: Annotations)
    requires SameStatus(before, server)
    ensures SameStatus(Overlay(server, before, after), after)
  {
  }

  /** Between the apply and the patch there is at most the read of the live configuration. */
  lemma RecordSuccessRecorded(x: Setup, w: World, m: Memory, c: Copy, raw: Bytes, i: nat)
    requires Good(x, w, c) && IsDesired(x, c, raw) && i + 1 == |w.trace|
    ensures var s := RecordSuccess(x, w, m, c, raw); Recorded(x, w, s, raw, i) && w.trace <= s.w.trace
  {
    var s := RecordSuccess(x, w, m, c, raw);
    var (v, live) := ReadLive(x, w);
    var observed := if live.Success? then Hash(live.value) else Pending;
    hide ReadLive, Patch, RecordedApply, Good, Free, ReadsSay, Recorded, Tick;
    ReadBack(x, w, observed);
    ReadLiveStays(x, w);
    hide Stays;
    GoodLater(x, w, v, c);
    RecordPatched(x, w, v, c, raw, observed, i, s);
  }

  /** The three ways in which the patch of the record ends. */
  predicate EndsAs(s: Step, u: World, reply: PatchReply) {
    && s.Done? && s.w == u
    && s.out == match reply
                case Committed => NEXT_INTERVAL
                case Conflict => Requeue(30, WriteConflict)
                case PatchFailed => Errored
  }

  lemma RecordPatched(x: Setup, w: World, v: World, c: Copy, raw: Bytes, observed: Value, i: nat, s: Step)
    requires Good(x, v, c) && IsDesired(x, c, raw) && i + 1 == |w.trace|
    requires var t := Tick(x, v); w.trace <= t.trace && Free(w, t, Recording) && ReadsSay(t.trace, i, observed)
    requires var ann := RecordedApply(c.secret.ann, x.env(v.clock), raw, observed);
             var (u, _, reply) := Patch(x, v, c, ann, RecordApply(raw, observed));
             EndsAs(s, u, reply)
    ensures Recorded(x, w, s, raw, i) && w.trace <= s.w.trace
  {
    var ann := RecordedApply(c.secret.ann, x.env(v.clock), raw, observed);
    var purpose := RecordApply(raw, observed);
    var t := Tick(x, v);
    hide Tick, Commit, Patch, RecordedApply, Undisturbed, Good, Stays, PatchLost, RecordStored, ReadsSay, Free;
    TickStays(x, v);
    GoodLater(x, v, t, c);
    PatchEnds(x, v, c, ann, purpose);
    PatchLostExactlyWhen(x, v, c, ann, purpose);
    var (u, _, reply) := Patch(x, v, c, ann, purpose);
    assert s.w == u && (s.out == Errored <==> reply.PatchFailed?);
    if Undisturbed(x) {
      UndisturbedCommits(x, v, c, ann, purpose);
    }
    if !t.down && Latest(t.log, c.secret.name) == Some(c.rv) && s.w == Commit(t, c, ann, purpose) {
      CommittedRecord(x, t, c, x.env(v.clock), raw, observed);
      RecordIsStored(x, w, t, c, ann, raw, observed, i);
    }
  }

  lemma ReadBack(x: Setup, w: World, observed: Value)
    requires var live := ReadLive(x, w).1; observed == if live.Success? then Hash(live.value) else Pending
    ensures var t := Tick(x, ReadLive(x, w).0);
            && w.trace <= t.trace && Free(w, t, Recording)
            && forall i: nat :: i + 1 == |w.trace| ==> ReadsSay(t.trace, i, observed)
  {
    var (v, live) := ReadLive(x, w);
    TickFree(x, w, Resetting);
    TickFree(x, v, Resetting);
    ReadLiveFree(x, w, Recording);
    TickFree(x, v, Recording);
    FreeTransitive(w, v, Tick(x, v), Recording);
    hide Tick;
    if live.Success? {
      assert v.trace[|v.trace| - 1].LiveRead?;
    }
  }

  lemma RecordIsStored(
    x: Setup, w: World, t: World, c: Copy, ann: Annotations, raw: Bytes, observed: Value, i: nat)
    requires Latest(t.log, c.secret.name) == Some(c.rv) && w.trace <= t.trace && i + 1 == |w.trace|
    requires ReadsSay(t.trace, i, observed)
    requires var u := Commit(t, c, ann, RecordApply(raw, observed));
             var now := CurrentAnn(u.log, x.secretName);
             && CurrentHolds(x, u, raw) && Lookup(now, LastAppliedHash) == Hash(raw) && LastAppliedTime in now
             && Lookup(now, LastObservedHash) == observed
    ensures var u := Commit(t, c, ann, RecordApply(raw, observed));
            RecordStored(x, u, raw, i) && !Free(w, u, Recording) && w.trace <= u.trace && u.down == t.down
  {
    var purpose := RecordApply(raw, observed);
    var u := Commit(t, c, ann, purpose);
    hide Overlay, CurrentAnn, Latest, CurrentHolds;
    assert u.trace == t.trace + [u.trace[|t.trace|]] && u.trace[|t.trace|].Patched?;
    assert Of(u.trace[|t.trace|], Recording);
    ReadsSayOn(t.trace, u.trace[|t.trace|], i, observed);
  }

  lemma ReadsSayOn(t: seq<Event>, e: Event, i: nat, observed: Value)
    requires ReadsSay(t, i, observed) && !e.LiveRead? && i < |t|
    ensures ReadsSay(t + [e], i, observed)
  {
    var u := t + [e];
    assert forall j :: 0 <= j < |t| ==> u[j] == t[j];
  }

  // ---------------------------------------------------------------- the phases

  lemma RecordedAfter(x: Setup, w: World, v: World, s: Step, raw: Bytes, i: nat)
    requires Free(w, v, Recording) && Recorded(x, v, s, raw, i)
    requires v.log <= s.w.log && v.trace <= s.w.trace && (v.down ==> s.w.down)
    ensures Recorded(x, w, s, raw, i)
  {
    hide Undisturbed, RecordStored;
    if Free(v, s.w, Recording) && v.run == s.w.run {
      FreeTransitive(w, v, s.w, Recording);
    }
    if Free(w, s.w, Recording) {
      FreeTail(w, v, s.w, Recording);
    }
  }

  lemma FreeTail(w: World, v: World, u: World, k: Kind)
    requires Free(w, u, k) && Free(w, v, k) && v.log <= u.log && v.trace <= u.trace && (v.down ==> u.down)
    ensures Free(v, u, k)
  {
  }

  lemma SamePost(w: World, v: World, u: World, kind: PostKind, raw: Bytes, err: Option<Err>, i: nat)
    requires PostedLast(w, v, kind, raw, err) && Free(v, u, Posting) && LastPost(w, u, i)
    ensures i + 1 == |v.trace| && u.trace[i] == v.trace[i] && u.trace[i].kind == kind && u.trace[i].raw == raw
    ensures err == if Ok(u.trace[i].reply) then None else Some(ErrorOf(u.trace[i].reply))
  {
    hide ErrorOf, Ok;
    var last := |v.trace| - 1;
    assert u.trace[last] == v.trace[last] && u.trace[last].Post?;
  }

  /** No POST was sent: an apply that was not even tried. */
  ghost predicate ToldUnapplied(x: Setup, w: World, s: Step) {
    Retried(s) && exists cause :: Transient(cause) && Told(x, w, s, ApplyFailed(cause), None)
  }

  lemma ApplyPhaseJudged(x: Setup, w: World, m: Memory, c: Copy, raw: Bytes)
    requires Good(x, w, c) && IsDesired(x, c, raw)
    ensures var s := ApplyPhase(x, w, m, c, raw);
            && (Free(w, s.w, Posting) ==> ToldUnapplied(x, w, s))
            && (forall i: nat :: LastPost(w, s.w, i) ==> s.w.trace[i].kind.Apply? && Judged(x, w, s, i))
  {
    var s := ApplyPhase(x, w, m, c, raw);
    var (v, err) := ApplyValidated(x, w, raw);
    ApplyValidatedLast(x, w, raw);
    ApplyValidatedStays(x, w, raw);
    GoodLater(x, w, v, c);
    ApplyValidatedFree(x, w, raw, Failing);
    ApplyValidatedFree(x, w, raw, Recording);
    hide Good, Free, ApplyValidated, RecordSuccess, Retry, Reject, Told, Classify, Undisturbed, Stays;
    if err.Some? {
      FailedApplyJudged(x, w, v, m, c, raw, err.value, s);
    } else {
      AcceptedApplyJudged(x, w, v, m, c, raw, s);
    }
  }

  lemma FailedApplyJudged(
    x: Setup, w: World, v: World, m: Memory, c: Copy, raw: Bytes, err: Err, s: Step)
    requires Good(x, v, c) && IsDesired(x, c, raw) && Free(w, v, Failing)
    requires PostedLast(w, v, Apply, raw, Some(err)) || (Unjudged(Some(err)) && Free(w, v, Posting))
    requires s == if Classify(err) == ConfigRejected then Reject(x, v, m, c, raw)
                  else Retry(x, v, m, c, ApplyFailed(Classify(err)))
    ensures Free(w, s.w, Posting) ==> ToldUnapplied(x, w, s)
    ensures forall i: nat :: LastPost(w, s.w, i) ==> s.w.trace[i].kind.Apply? && Judged(x, w, s, i)
  {
    hide Retry, Reject, Told, Classify, Good, Free;
    RejectTold(x, v, m, c, raw);
    RejectFree(x, v, m, c, raw, Posting);
    RetryTold(x, v, m, c, ApplyFailed(Classify(err)));
    RetryFree(x, v, m, c, ApplyFailed(Classify(err)), Posting);
    var status := if Classify(err) == ConfigRejected then Failed(ConfigRejected) else ApplyFailed(Classify(err));
    ToldAfter(x, w, v, s, status, if Classify(err) == ConfigRejected then Some(raw) else None);
    if PostedLast(w, v, Apply, raw, Some(err)) {
      NotFreeOfPosts(w, v, s.w, Apply, raw, Some(err));
      forall i: nat | LastPost(w, s.w, i)
        ensures s.w.trace[i].kind.Apply? && Judged(x, w, s, i)
      {
        SamePost(w, v, s.w, Apply, raw, Some(err), i);
        RefusedClass(s.w.trace[i].reply);
      }
    } else {
      FreeTransitive(w, v, s.w, Posting);
      NoLastPost(w, s.w);
    }
  }

  lemma NotFreeOfPosts(w: World, v: World, u: World, kind: PostKind, raw: Bytes, err: Option<Err>)
    requires PostedLast(w, v, kind, raw, err) && Free(v, u, Posting)
    ensures !Free(w, u, Posting)
  {
    hide ErrorOf, Ok;
    assert u.trace[|v.trace| - 1] == v.trace[|v.trace| - 1];
    assert Of(u.trace[|v.trace| - 1], Posting);
  }

  lemma NoLastPost(w: World, v: World)
    requires Free(w, v, Posting)
    ensures forall i: nat :: !LastPost(w, v, i)
  {
  }

  lemma AcceptedApplyJudged(x: Setup, w: World, v: World, m: Memory, c: Copy, raw: Bytes, s: Step)
    requires Good(x, v, c) && IsDesired(x, c, raw) && Free(w, v, Recording) && PostedLast(w, v, Apply, raw, None)
    requires s == RecordSuccess(x, v, m.(transientFailures := 0), c, raw)
    ensures !Free(w, s.w, Posting)
    ensures forall i: nat :: LastPost(w, s.w, i) ==> s.w.trace[i].kind.Apply? && Judged(x, w, s, i)
  {
    hide RecordSuccess, Told, Classify, Good, Free, Recorded;
    RecordSuccessFree(x, v, m.(transientFailures := 0), c, raw, Posting);
    FreeGrows(v, s.w, Posting);
    NotFreeOfPosts(w, v, s.w, Apply, raw, None);
    var i := |v.trace| - 1;
    RecordSuccessRecorded(x, v, m.(transientFailures := 0), c, raw, i);
    RecordedAfter(x, w, v, s, raw, i);
    forall j: nat | LastPost(w, s.w, j)
      ensures s.w.trace[j].kind.Apply? && Judged(x, w, s, j)
    {
      SamePost(w, v, s.w, Apply, raw, None, j);
      OkIsNoRefusal(s.w.trace[j].reply);
    }
  }

  lemma OkIsNoRefusal(r: Reply)
    ensures Ok(r) ==> !Refusal(r)
  {
  }

  /** A failure before any POST, or for want of an answer. */
  ghost predicate ToldFailed(x: Setup, w: World, s: Step) {
    Retried(s) && exists cause :: Transient(cause) && Told(x, w, s, Failed(cause), None)
  }

  /** Empty bytes are refused without asking. */
  ghost predicate ToldEmpty(x: Setup, w: World, s: Step) {
    s.Done? && s.out in {NEXT_INTERVAL, Errored} && Told(x, w, s, Failed(ConfigRejected), Some(""))
  }

  /** From the validation on: the last POST decides; without one the bytes are empty, or the version was not read. */
  ghost predicate Decided(x: Setup, w: World, s: Step, raw: Bytes) {
    && w.log <= s.w.log && w.trace <= s.w.trace && (w.down ==> s.w.down)
    && (raw == "" ==> Free(w, s.w, Posting) && ToldEmpty(x, w, s))
    && (raw != "" && Free(w, s.w, Posting) ==> ToldFailed(x, w, s))
    && forall i: nat :: LastPost(w, s.w, i) ==> s.w.trace[i].raw == raw && Judged(x, w, s, i)
  }

  lemma JudgedAfter(x: Setup, w: World, v: World, s: Step, i: nat)
    requires Free(w, v, Failing) && Free(w, v, Recording)
    requires v.log <= s.w.log && v.trace <= s.w.trace && (v.down ==> s.w.down)
    requires i < |s.w.trace| && s.w.trace[i].Post? && Judged(x, v, s, i)
    ensures Judged(x, w, s, i)
  {
    var e := s.w.trace[i];
    var cause := Classify(ErrorOf(e.reply));
    hide Told, Recorded, Free, Classify, ErrorOf, Retried;
    if Refusal(e.reply) {
      ToldAfter(x, w, v, s, Failed(ConfigRejected), Some(e.raw));
    } else if !Ok(e.reply) {
      ToldAfter(x, w, v, s, if e.kind.ValidateOnly? then Failed(cause) else ApplyFailed(cause), None);
    } else if e.kind.ValidateOnly? {
      var c :| Transient(c) && Told(x, v, s, ApplyFailed(c), None);
      ToldAfter(x, w, v, s, ApplyFailed(c), None);
    } else {
      RecordedAfter(x, w, v, s, e.raw, i);
    }
  }

  /** A part of the Reconcile that posts, records and reports nothing. */
  ghost predicate Silent(w: World, v: World) {
    Free(w, v, Posting) && Free(w, v, Failing) && Free(w, v, Recording)
  }

  lemma DecidedAfter(x: Setup, w: World, v: World, s: Step, raw: Bytes)
    requires Silent(w, v) && Decided(x, v, s, raw)
    ensures Decided(x, w, s, raw)
  {
    hide Told, Judged, Retried;
    FreeGrows(w, v, Posting);
    if raw == "" {
      EmptyAfter(x, w, v, s);
    }
    if Free(w, s.w, Posting) {
      FreeTail(w, v, s.w, Posting);
      if raw != "" {
        FailedAfter(x, w, v, s);
      }
    }
    forall i: nat | LastPost(w, s.w, i)
      ensures s.w.trace[i].raw == raw && Judged(x, w, s, i)
    {
      assert LastPost(v, s.w, i);
      JudgedAfter(x, w, v, s, i);
    }
  }

  lemma EmptyAfter(x: Setup, w: World, v: World, s: Step)
    requires Silent(w, v) && Free(v, s.w, Posting) && ToldEmpty(x, v, s)
    ensures Free(w, s.w, Posting) && ToldEmpty(x, w, s)
  {
    hide Told, Free;
    FreeTransitive(w, v, s.w, Posting);
    ToldAfter(x, w, v, s, Failed(ConfigRejected), Some(""));
  }

  lemma FailedAfter(x: Setup, w: World, v: World, s: Step)
    requires Free(w, v, Failing) && ToldFailed(x, v, s)
    ensures ToldFailed(x, w, s)
  {
    hide Told, Free, Retried;
    var cause :| Transient(cause) && Told(x, v, s, Failed(cause), None);
    ToldAfter(x, w, v, s, Failed(cause), None);
  }

  lemma UnappliedAfter(x: Setup, w: World, v: World, s: Step)
    requires Free(w, v, Failing) && ToldUnapplied(x, v, s)
    ensures ToldUnapplied(x, w, s)
  {
    hide Told, Free, Retried;
    var cause :| Transient(cause) && Told(x, v, s, ApplyFailed(cause), None);
    ToldAfter(x, w, v, s, ApplyFailed(cause), None);
  }

  lemma ValidatePhaseDecided(x: Setup, w: World, m: Memory, c: Copy, raw: Bytes)
    requires Good(x, w, c) && IsDesired(x, c, raw)
    ensures Decided(x, w, ValidatePhase(x, w, m, c, raw), raw)
  {
    var s := ValidatePhase(x, w, m, c, raw);
    if raw == "" {
      EmptyIsRejected(x, w, m, c);
    } else {
      var (v, err) := Validate(x, w, raw);
      PostAtVersionLast(x, w, ValidateOnly, raw);
      ValidateStays(x, w, raw);
      GoodLater(x, w, v, c);
      ValidateFree(x, w, raw, Failing);
      ValidateFree(x, w, raw, Recording);
      hide Good, Free, Validate, PostAtVersion, ApplyPhase, Retry, Reject, Told, Classify, Undisturbed, Stays,
           OnlyOthersWrote, Judged, Decided;
      if err.Some? {
        FailedValidationDecided(x, w, v, m, c, raw, err.value, s);
      } else {
        AcceptedValidationDecided(x, w, v, m, c, raw, s);
      }
    }
  }

  lemma EmptyIsRejected(x: Setup, w: World, m: Memory, c: Copy)
    requires Good(x, w, c) && IsDesired(x, c, "")
    ensures Decided(x, w, ValidatePhase(x, w, m, c, ""), "")
  {
    assert ValidatePhase(x, w, m, c, "") == Reject(x, w, m, c, "");
    hide Good, Free, Reject, Told, Undisturbed, ValidatePhase;
    RejectTold(x, w, m, c, "");
    RejectFree(x, w, m, c, "", Posting);
    FreeGrows(w, Reject(x, w, m, c, "").w, Posting);
    NoLastPost(w, Reject(x, w, m, c, "").w);
  }

  lemma FailedValidationDecided(
    x: Setup, w: World, v: World, m: Memory, c: Copy, raw: Bytes, err: Err, s: Step)
    requires Good(x, v, c) && IsDesired(x, c, raw) && Free(w, v, Failing) && raw != ""
    requires PostedLast(w, v, ValidateOnly, raw, Some(err)) || (Unjudged(Some(err)) && Free(w, v, Posting))
    requires s == if Classify(err) == ConfigRejected then Reject(x, v, m, c, raw)
                  else Retry(x, v, m, c, Failed(Classify(err)))
    ensures Decided(x, w, s, raw)
  {
    hide Retry, Reject, Told, Classify, Good, Free;
    RejectTold(x, v, m, c, raw);
    RejectFree(x, v, m, c, raw, Posting);
    RetryTold(x, v, m, c, Failed(Classify(err)));
    RetryFree(x, v, m, c, Failed(Classify(err)), Posting);
    FreeGrows(w, v, Failing);
    FreeGrows(v, s.w, Posting);
    ToldAfter(x, w, v, s, Failed(Classify(err)), if Classify(err) == ConfigRejected then Some(raw) else None);
    if PostedLast(w, v, ValidateOnly, raw, Some(err)) {
      NotFreeOfPosts(w, v, s.w, ValidateOnly, raw, Some(err));
      forall i: nat | LastPost(w, s.w, i)
        ensures s.w.trace[i].raw == raw && Judged(x, w, s, i)
      {
        SamePost(w, v, s.w, ValidateOnly, raw, Some(err), i);
        RefusedClass(s.w.trace[i].reply);
      }
    } else {
      FreeTransitive(w, v, s.w, Posting);
      NoLastPost(w, s.w);
    }
  }

  lemma AcceptedValidationDecided(x: Setup, w: World, v: World, m: Memory, c: Copy, raw: Bytes, s: Step)
    requires Good(x, v, c) && IsDesired(x, c, raw) && Free(w, v, Failing) && Free(w, v, Recording) && raw != ""
    requires PostedLast(w, v, ValidateOnly, raw, None) && s == ApplyPhase(x, v, m, c, raw)
    ensures Decided(x, w, s, raw)
  {
    hide ApplyPhase, Told, Classify, Good, Free, Judged, Retried;
    ApplyPhaseJudged(x, v, m, c, raw);
    ApplyPhaseFree(x, v, m, c, raw, CertFailing);
    FreeGrows(v, s.w, CertFailing);
    FreeGrows(w, v, Failing);
    ValidatedIsPosted(w, v, s.w, raw);
    forall i: nat | LastPost(w, s.w, i)
      ensures s.w.trace[i].raw == raw && Judged(x, w, s, i)
    {
      if Free(v, s.w, Posting) {
        SamePost(w, v, s.w, ValidateOnly, raw, None, i);
        OkIsNoRefusal(s.w.trace[i].reply);
        UnappliedAfter(x, w, v, s);
        JudgedUnapplied(x, w, s, i);
      } else {
        PostedLater(w, v, s.w, i);
        JudgedAfter(x, w, v, s, i);
        assert s.w.trace[i].raw == raw by { ApplyPhasePosts(x, v, m, c, raw, i); }
      }
    }
  }

  lemma JudgedUnapplied(x: Setup, w: World, s: Step, i: nat)
    requires i < |s.w.trace| && s.w.trace[i].Post? && s.w.trace[i].kind.ValidateOnly? && Ok(s.w.trace[i].reply)
    requires ToldUnapplied(x, w, s)
    ensures Judged(x, w, s, i)
  {
    hide Told, Retried;
  }

  lemma ValidatedIsPosted(w: World, v: World, u: World, raw: Bytes)
    requires PostedLast(w, v, ValidateOnly, raw, None) && v.trace <= u.trace
    ensures !Free(w, u, Posting)
  {
    assert u.trace[|v.trace| - 1] == v.trace[|v.trace| - 1];
    assert Of(u.trace[|v.trace| - 1], Posting);
  }

  /** A POST after the one at the end of `v` comes later. */
  lemma PostedLater(w: World, v: World, u: World, i: nat)
    requires LastPost(w, u, i) && v.log <= u.log && v.trace <= u.trace && v.run == u.run && (v.down ==> u.down)
    requires !Free(v, u, Posting)
    ensures LastPost(v, u, i)
  {
  }

  lemma ApplyPhasePosts(x: Setup, w: World, m: Memory, c: Copy, raw: Bytes, i: nat)
    requires LastPost(w, ApplyPhase(x, w, m, c, raw).w, i)
    ensures ApplyPhase(x, w, m, c, raw).w.trace[i].raw == raw
  {
    var s := ApplyPhase(x, w, m, c, raw);
    var (v, err) := ApplyValidated(x, w, raw);
    ApplyValidatedLast(x, w, raw);
    hide ApplyValidated, RecordSuccess, Retry, Reject, Classify, Free;
    if err.Some? {
      RejectFree(x, v, m, c, raw, Posting);
      RetryFree(x, v, m, c, ApplyFailed(Classify(err.value)), Posting);
    } else {
      RecordSuccessFree(x, v, m.(transientFailures := 0), c, raw, Posting);
    }
    if PostedLast(w, v, Apply, raw, err) {
      SamePost(w, v, s.w, Apply, raw, err, i);
    } else {
      FreeTransitive(w, v, s.w, Posting);
      NoLastPost(w, s.w);
    }
  }

  // ---------------------------------------------------------------- from the desired bytes on

  ghost predicate ToldCerts(x: Setup, w: World, s: Step) {
    Retried(s) && exists cause :: Told(x, w, s, CertSyncFailed(cause), None)
  }

  /** Pushing the desired bytes: what the trace shows of it says what is told. */
  ghost predicate Explained(x: Setup, w: World, s: Step, raw: Bytes) {
    && w.log <= s.w.log && w.trace <= s.w.trace && (w.down ==> s.w.down)
    && (!s.w.down ==>
          if !s.m.clientReady then Free(w, s.w, Posting) && ToldFailed(x, w, s)
          else if !Free(w, s.w, CertFailing) then Free(w, s.w, Posting) && ToldCerts(x, w, s)
          else Decided(x, w, s, raw))
  }

  lemma CertsAfter(x: Setup, w: World, v: World, s: Step)
    requires Free(w, v, Failing) && ToldCerts(x, v, s)
    ensures ToldCerts(x, w, s)
  {
    hide Told, Free, Retried;
    var cause :| Told(x, v, s, CertSyncFailed(cause), None);
    ToldAfter(x, w, v, s, CertSyncFailed(cause), None);
  }

  lemma ExplainedAfter(x: Setup, w: World, v: World, s: Step, raw: Bytes)
    requires Silent(w, v) && Free(w, v, CertFailing) && Explained(x, v, s, raw)
    ensures Explained(x, w, s, raw)
  {
    hide ToldFailed, ToldCerts, Decided;
    FreeGrows(w, v, Posting);
    if !s.w.down {
      if !s.m.clientReady {
        FreeTransitive(w, v, s.w, Posting);
        FailedAfter(x, w, v, s);
      } else if !Free(v, s.w, CertFailing) {
        FreeTransitive(w, v, s.w, Posting);
        CertsAfter(x, w, v, s);
        if Free(w, s.w, CertFailing) {
          FreeTail(w, v, s.w, CertFailing);
        }
      } else {
        FreeTransitive(w, v, s.w, CertFailing);
        DecidedAfter(x, w, v, s, raw);
      }
    }
  }

  lemma CertsPhaseExplained(x: Setup, w: World, m: Memory, c: Copy, raw: Bytes)
    requires Good(x, w, c) && IsDesired(x, c, raw) && m.clientReady
    ensures var s := CertsPhase(x, w, m, c, raw); Explained(x, w, s, raw)
  {
    var s := CertsPhase(x, w, m, c, raw);
    EnsureGood(x, w, m, c, 0);
    EnsureFree(x, w, m, c, 0, Posting);
    EnsureFree(x, w, m, c, 0, Failing);
    EnsureFree(x, w, m, c, 0, Recording);
    EnsureFree(x, w, m, c, 0, CertFailing);
    EverySyncFailureIsMarked(x, w, m, c, 0);
    EnsureKeepsClient(x, w, m, c, 0);
    hide Good, Free, EnsureCertSecretsSynced, ValidatePhase, Retry, Classify, Decided, ToldCerts, ToldFailed;
    var p := EnsureCertSecretsSynced(x, w, m, c, 0);
    var d := p.state.value;
    if p.result.Failure? {
      FailedCertsExplained(x, w, p, d, s, raw);
    } else {
      ValidatePhaseDecided(x, p.w, p.m, d, raw);
      ValidatePhaseFree(x, p.w, p.m, d, raw, CertFailing);
      ValidatePhaseClient(x, p.w, p.m, d, raw);
      FreeTransitive(w, p.w, s.w, CertFailing);
      DecidedAfter(x, w, p.w, s, raw);
      DecidedGrows(x, w, s, raw);
    }
  }

  lemma DecidedGrows(x: Setup, w: World, s: Step, raw: Bytes)
    requires Decided(x, w, s, raw)
    ensures w.log <= s.w.log && w.trace <= s.w.trace && (w.down ==> s.w.down)
  {
  }

  lemma FailedCertsExplained(x: Setup, w: World, p: Push, d: Copy, s: Step, raw: Bytes)
    requires Good(x, p.w, d) && p.result.Failure? && Marked(w, p) && Silent(w, p.w) && p.m.clientReady
    requires s == Retry(x, p.w, p.m, d, CertSyncFailed(Classify(p.result.error)))
    ensures Explained(x, w, s, raw)
  {
    var status := CertSyncFailed(Classify(p.result.error));
    RetryTold(x, p.w, p.m, d, status);
    RetryFree(x, p.w, p.m, d, status, Posting);
    RetryFree(x, p.w, p.m, d, status, CertFailing);
    hide Good, Classify, Decided, Told, FailWithStatus;
    FreeTransitive(w, p.w, s.w, Posting);
    ToldAfter(x, w, p.w, s, status, None);
    if !s.w.down {
      var j := |p.w.trace| - 1;
      assert s.w.trace[j] == p.w.trace[j] && Of(s.w.trace[j], CertFailing);
    }
  }

  lemma PushKeepsClient(x: Setup, w: World, m: Memory, secret: Secret, state: Option<Copy>)
    ensures PushCertSecret(x, w, m, secret, state).m.clientReady == m.clientReady
  {
    hide SyncSSLCertificate, Patch, CertPEMBundle, Note;
  }

  lemma {:induction false} EnsureKeepsClient(x: Setup, w: World, m: Memory, c: Copy, i: nat)
    requires i <= |x.certs|
    ensures EnsureCertSecretsSynced(x, w, m, c, i).m.clientReady == m.clientReady
    decreases |x.certs| - i
  {
    hide PushCertSecret, Get;
    if i < |x.certs| {
      var (v, got) := Get(x, w, x.certs[i]);
      if got.Found? {
        PushKeepsClient(x, v, m, got.copy.secret, Some(c));
        var p := PushCertSecret(x, v, m, got.copy.secret, Some(c));
        if p.result.Success? {
          EnsureKeepsClient(x, p.w, p.m, p.state.value, i + 1);
        }
      }
    }
  }

  lemma ValidatePhaseClient(x: Setup, w: World, m: Memory, c: Copy, raw: Bytes)
    ensures ValidatePhase(x, w, m, c, raw).m.clientReady == m.clientReady
  {
    hide Validate, ApplyValidated, FailWithStatus, Patch, ReadLive, Classify;
  }

  /** The client in hand, or its failure told. */
  lemma PushDesiredExplained(x: Setup, w: World, m: Memory, c: Copy, raw: Bytes)
    requires Good(x, w, c) && IsDesired(x, c, raw) && Lookup(c.secret.ann, LastFailedHash) != Hash(raw)
    ensures Explained(x, w, PushDesired(x, w, m, c, raw), raw)
  {
    var s := PushDesired(x, w, m, c, raw);
    var n := Desire(m, raw);
    var (v, o, noClient) := GetOrCreateClient(x, w, n);
    ClientSilent(x, w, n);
    ClientStays(x, w, n);
    GoodLater(x, w, v, c);
    hide Good, Free, GetOrCreateClient, CertsPhase, Retry, Classify, Explained, Desire;
    if noClient.Some? {
      NoClientExplained(x, v, o, c, noClient.value, raw);
    } else {
      CertsPhaseExplained(x, v, o, c, raw);
    }
    ExplainedAfter(x, w, v, s, raw);
  }

  lemma ClientSilent(x: Setup, w: World, m: Memory)
    ensures var (v, n, err) := GetOrCreateClient(x, w, m);
            && Silent(w, v) && Free(w, v, CertFailing) && n.clientReady == err.None?
            && (err.Some? ==> Transient(Classify(err.value)))
  {
    GetOrCreateClientFree(x, w, m, Posting);
    GetOrCreateClientFree(x, w, m, Failing);
    GetOrCreateClientFree(x, w, m, Recording);
    GetOrCreateClientFree(x, w, m, CertFailing);
    BuildIsNoVerdict();
    hide Tick, Classify;
  }

  lemma BuildIsNoVerdict()
    ensures forall words, k: LeafKind :: Transient(Classify(Context(words, Leaf(k, PLAIN))))
    ensures Transient(Classify(DEAD))
  {
    forall words, k: LeafKind
      ensures Transient(Classify(Context(words, Leaf(k, PLAIN))))
    {
      var e := Leaf(k, PLAIN);
      assert !IsLocalRejection(Context(words, e)) && AsVersionCheck(Context(words, e)).None?;
      assert AsAPIError(e).None? && AsAPIError(Context(words, e)).None?;
    }
  }

  lemma NoClientExplained(x: Setup, w: World, m: Memory, c: Copy, err: Err, raw: Bytes)
    requires Good(x, w, c) && !m.clientReady && Transient(Classify(err))
    ensures Explained(x, w, Retry(x, w, m, c, Failed(Classify(err))), raw)
  {
    var status := Failed(Classify(err));
    RetryTold(x, w, m, c, status);
    RetryFree(x, w, m, c, status, Posting);
    FreeGrows(w, Retry(x, w, m, c, status).w, Posting);
    hide Told, Good, Classify, FailWithStatus;
  }

  // ---------------------------------------------------------------- every POST of a Reconcile

  /** Whatever POST came last between the two worlds, it was judged. */
  ghost predicate AllJudged(x: Setup, w: World, s: Step) {
    !s.w.down ==> forall i: nat :: LastPost(w, s.w, i) ==> Judged(x, w, s, i)
  }

  lemma ExplainedIsJudged(x: Setup, w: World, s: Step, raw: Bytes)
    requires Explained(x, w, s, raw)
    ensures AllJudged(x, w, s)
  {
    hide ToldFailed, ToldCerts, Judged;
    if Free(w, s.w, Posting) {
      NoLastPost(w, s.w);
    }
  }

  lemma NoPostIsJudged(x: Setup, w: World, s: Step)
    requires Free(w, s.w, Posting)
    ensures AllJudged(x, w, s)
  {
    hide Judged;
    NoLastPost(w, s.w);
  }

  lemma AllJudgedAfter(x: Setup, w: World, v: World, s: Step)
    requires Silent(w, v) && v.log <= s.w.log && v.trace <= s.w.trace && (v.down ==> s.w.down)
    requires AllJudged(x, v, s)
    ensures AllJudged(x, w, s)
  {
    hide Judged;
    if !s.w.down {
      forall i: nat | LastPost(w, s.w, i)
        ensures Judged(x, w, s, i)
      {
        assert LastPost(v, s.w, i);
        JudgedAfter(x, w, v, s, i);
      }
    }
  }

  lemma PushDesiredJudged(x: Setup, w: World, m: Memory, c: Copy, raw: Bytes)
    requires Good(x, w, c) && IsDesired(x, c, raw)
    ensures var s := PushDesired(x, w, m, c, raw);
            AllJudged(x, w, s) && w.log <= s.w.log && w.trace <= s.w.trace && (w.down ==> s.w.down)
  {
    var s := PushDesired(x, w, m, c, raw);
    if Lookup(c.secret.ann, LastFailedHash) == Hash(raw) {
      FreeSelf(w, Posting);
      NoPostIsJudged(x, w, s);
    } else {
      hide PushDesired, AllJudged;
      PushDesiredExplained(x, w, m, c, raw);
      ExplainedIsJudged(x, w, s, raw);
    }
  }

  lemma UnpatchedIsSilent(w: World, v: World)
    requires Free(w, v, Patching) && Free(w, v, Posting)
    ensures Silent(w, v)
  {
  }

  lemma RemediationIsSilent(x: Setup, w: World, m: Memory, c: Copy, raw: Bytes)
    requires DriftCheck(x, w, m, c, raw).Go?
    ensures Silent(w, DriftCheck(x, w, m, c, raw).w)
  {
    RemediationIsUnpatched(x, w, m, c, raw);
    DriftCheckFree(x, w, m, c, raw, Posting);
    hide DriftCheck, Free;
    UnpatchedIsSilent(w, DriftCheck(x, w, m, c, raw).w);
  }

  lemma ConfigPhaseJudged(x: Setup, w: World, m: Memory, c: Copy)
    requires Good(x, w, c)
    ensures var s := ConfigPhase(x, w, m, c);
            AllJudged(x, w, s) && w.log <= s.w.log && w.trace <= s.w.trace && (w.down ==> s.w.down)
  {
    var s := ConfigPhase(x, w, m, c);
    assert c.secret.name == x.secretName;
    hide FailWithStatus, DriftCheck, PushDesired, Good, Free, AllJudged;
    if x.secretKey !in c.secret.data {
      FailWithStatusFree(x, w, c, MissingKey, None, Posting);
      NoPostIsJudged(x, w, s);
      FreeGrows(w, s.w, Posting);
    } else {
      var raw := c.secret.data[x.secretKey];
      if Lookup(c.secret.ann, LastAppliedHash) == Hash(raw) {
        var d := DriftCheck(x, w, m, c, raw);
        DriftCheckFree(x, w, m, c, raw, Posting);
        FreeGrows(w, d.w, Posting);
        if d.Go? {
          DriftCheckGood(x, w, m, c, raw);
          RemediationIsSilent(x, w, m, c, raw);
          PushDesiredJudged(x, d.w, d.m, c, raw);
          AllJudgedAfter(x, w, d.w, s);
        } else {
          NoPostIsJudged(x, w, s);
        }
      } else {
        PushDesiredJudged(x, w, m, c, raw);
      }
    }
  }

  lemma EventIsSilent(x: Setup, w: World, m: Memory, c: Copy)
    requires CertEvent(x, w, m, c).Go?
    ensures Silent(w, CertEvent(x, w, m, c).w)
  {
    CertEventFreeOf(x, w, m, c, Posting);
    CertEventFreeOf(x, w, m, c, Failing);
    CertEventFreeOf(x, w, m, c, Recording);
  }

  lemma GetSilent(x: Setup, w: World, name: string)
    ensures Silent(w, Get(x, w, name).0)
  {
    GetFree(x, w, name, Posting);
    GetFree(x, w, name, Failing);
    GetFree(x, w, name, Recording);
  }

  /** A Reconcile that hands no copy of the config Secret on posts nothing. */
  lemma EventWithoutPost(x: Setup, w: World, m: Memory, c: Copy)
    requires CertEvent(x, w, m, c).Done?
    ensures AllJudged(x, w, CertEvent(x, w, m, c))
  {
    CertEventFreeOf(x, w, m, c, Posting);
    hide CertEvent, Free;
    NoPostIsJudged(x, w, CertEvent(x, w, m, c));
  }

  /**
   The last POST of any Reconcile, in any environment, decides its end. A refusal (400 or 422) of
   these bytes, validated or applied, is stored with their hash, and is not retried; another bad
   answer is stored as its class and retried; an accepted apply is recorded with its bytes and
   with what was read back. What is to be stored is stored if the patch commits, and it does if
   the API server is healthy and nobody else writes the config Secret.
   */
  lemma LastPostDecides(x: Setup, w: World, m: Memory, name: string, i: nat)
    requires ConfigSecretIsDedicated(x)
    requires var s := Reconcile(x, w, m, name); !s.w.down && LastPost(Start(w, name), s.w, i)
    ensures Judged(x, Start(w, name), Reconcile(x, w, m, name), i)
  {
    var v := Start(w, name);
    var s := Reconcile(x, w, m, name);
    var (u, got) := Get(x, v, name);
    GetSilent(x, v, name);
    FoundName(x, v, name);
    hide Get, CertEvent, ConfigPhase, Free, Good, Judged;
    FreeGrows(v, u, Posting);
    if got.Found? && (name == x.secretName || name in x.certs) {
      var c := got.copy;
      if name in x.certs {
        var r := CertEvent(x, u, m, c);
        CertEventFreeOf(x, u, m, c, Posting);
        FreeGrows(u, r.w, Posting);
        if r.Go? {
          CertEventGood(x, u, m, c);
          EventIsSilent(x, u, m, c);
          ConfigPhaseJudged(x, r.w, r.m, r.c);
          AllJudgedAfter(x, u, r.w, s);
        } else {
          EventWithoutPost(x, u, m, c);
        }
      } else {
        GetGood(x, v);
        ConfigPhaseJudged(x, u, m, c);
      }
      AllJudgedAfter(x, v, u, s);
    } else {
      NoLastPost(v, u);
    }
  }

  /**
   Bytes that were refused, while validating or while applying, are not posted again, once that
   is stored: not by any number of config-triggered Reconciles and restarts.
   */
  lemma RefusedIsNotPostedAgain(
    x: Setup, w: World, m: Memory, name: string, i: nat, ts: seq<Trigger>, raw: Bytes, n: nat)
    requires ConfigSecretIsDedicated(x) && ConfigTriggers(x, ts)
    requires var s := Reconcile(x, w, m, name);
             && !s.w.down && LastPost(Start(w, name), s.w, i) && s.w.trace[i].raw == raw
             && Refusal(s.w.trace[i].reply) && !Free(Start(w, name), s.w, Failing)
             && Latest(s.w.log, x.secretName) == Some(n) && ReadsFrom(x, s.w.clock, n)
    requires DesiredStays(x, raw)
    ensures var s := Reconcile(x, w, m, name);
            var u := Run(x, s.w, s.m, ts).0;
            && Forbids(x, u, raw, LastFailedHash, n)
            && s.w.trace <= u.trace && forall j :: |s.w.trace| <= j < |u.trace| ==> !u.trace[j].Post?
  {
    var s := Reconcile(x, w, m, name);
    hide Reconcile, Run, Free, ReadsFrom, DesiredStays, Undisturbed, ConfigTriggers, CarriesFrom;
    LastPostDecides(x, w, m, name, i);
    ShownForbids(x, s.w, raw, n);
    StoredHashForbidsApply(x, s.w, s.m, ts, raw, LastFailedHash, n);
  }

  lemma ShownForbids(x: Setup, w: World, raw: Bytes, n: nat)
    requires FailureShown(x, w, Failed(ConfigRejected), Some(raw)) && Latest(w.log, x.secretName) == Some(n)
    ensures Forbids(x, w, raw, LastFailedHash, n)
  {
  }
}
