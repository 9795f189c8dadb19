/**
 The local runner as functions: apply a file with bounded retries, then re-apply it whenever a watched
 event finds other bytes in it (internal/local/runner.go).
 */
module LocalRun {
  import opened Prelude
  import opened Errors
  import opened Platform
  import opened Dataplane
  import opened History
  import Backoff

  const MAX_ATTEMPTS: nat := 5
  const INITIAL_BACKOFF: nat := 200
  const DEBOUNCE: nat := 150

  /**
   What the n-th read of the file returns, and whether the context has ended by then: any file changes
   at any time.
   */
  datatype Desk = Desk(x: Setup, disk: nat -> Result<Bytes, Err>, ended: nat -> bool)

  /** `slept` counts milliseconds. */
  datatype State = State(w: World, loads: nat, slept: nat)

  type Reply = Result<Bytes, Err>

  const CONTEXT_ENDED := Leaf(Opaque, PLAIN)

  // ---------------------------------------------------------------- one apply

  /** Read the file and apply what was read; on success the bytes stand for their hash. */
  function ApplyOnce(d: Desk, s: State): (State, Reply) {
    var file := d.disk(s.loads);
    var t := s.(loads := s.loads + 1);
    if file.Failure? then (t, file)
    else
      var (v, err) := ApplyUnvalidated(d.x, s.w, file.value);
      (t.(w := v), if err.Some? then Failure(err.value) else file)
  }

  /** The attempts left after `failed` of them failed, the last with `last`. */
  function Retry(d: Desk, s: State, failed: nat, last: Err): (State, Reply)
    requires failed <= MAX_ATTEMPTS
    decreases MAX_ATTEMPTS - failed
  {
    if failed == MAX_ATTEMPTS then (s, Failure(last))
    else if d.ended(s.loads) then (s, Failure(CONTEXT_ENDED))
    else
      var (t, r) := ApplyOnce(d, s);
      if r.Success? then (t, r)
      else
        Retry(d, t.(slept := t.slept + Pause(failed)), failed + 1, r.error)
  }

  /** The sleep after the attempt that `failed` others failed before; none after the last. */
  function Pause(failed: nat): nat {
    if failed + 1 < MAX_ATTEMPTS then INITIAL_BACKOFF * Backoff.Pow2(failed) else 0
  }

  function ApplyWithRetry(d: Desk, s: State): (State, Reply) {
    Retry(d, s, 0, CONTEXT_ENDED)
  }

  // ---------------------------------------------------------------- events

  datatype FileEvent =
    | WatcherError
    | Changed(isConfig: bool, isWrite: bool)

  /** The bytes that an event finds in the file, after the editor had time to finish. */
  function Settle(s: State): State {
    s.(slept := s.slept + DEBOUNCE, loads := s.loads + 1)
  }

  function Handle(d: Desk, s: State, lastHash: Bytes, e: FileEvent): (State, Bytes) {
    if e.WatcherError? || !e.isConfig || !e.isWrite then (s, lastHash)
    else
      var seen := d.disk(s.loads);
      if seen.Failure? || seen.value == lastHash then (Settle(s), lastHash)
      else
        var (t, r) := ApplyWithRetry(d, Settle(s));
        (t, if r.Success? then r.value else lastHash)
  }

  function HandleAll(d: Desk, s: State, lastHash: Bytes, events: seq<FileEvent>): (State, Bytes)
    decreases |events|
  {
    if events == [] then (s, lastHash)
    else
      var (t, h) := Handle(d, s, lastHash, events[0]);
      HandleAll(d, t, h, events[1..])
  }

  // ---------------------------------------------------------------- what was applied last

  /** From `w` to `v` no apply of ours was accepted. */
  predicate Same(w: World, v: World) {
    LastAccepted(v.trace) == LastAccepted(w.trace)
  }

  lemma {:induction false} InterfereSame(w: World, acts: seq<EnvAct>)
    ensures Same(w, Interfere(w, acts))
    decreases |acts|
  {
    if acts != [] {
      var v := EnvStep(w, acts[0]);
      if |v.trace| > |w.trace| {
        Snoc(w.trace, v.trace[|w.trace|]);
      }
      InterfereSame(v, acts[1..]);
    }
  }

  lemma TickSame(x: Setup, w: World)
    ensures Same(w, Tick(x, w))
  {
    InterfereSame(w, x.env(w.clock).acts);
  }

  lemma ReadVersionSame(x: Setup, w: World)
    ensures Same(w, ReadVersion(x, w).0)
  {
    TickSame(x, w);
    var v := Tick(x, w);
    Snoc(v.trace, VersionRead(v.run, v.gw.version));
  }

  lemma PostRawAccepts(x: Setup, w: World, kind: PostKind, raw: Bytes, version: int)
    ensures var (v, err) := PostRaw(x, w, kind, raw, version);
            LastAccepted(v.trace) == if err.None? && kind.Apply? then Some(raw) else LastAccepted(w.trace)
  {
    TickSame(x, w);
    var v := Tick(x, w);
    hide Tick;
    var stale := x.versionLocked && version != v.gw.version;
    var reply := if stale then Response(409) else x.env(w.clock).reply;
    var stored := kind.Apply? && (Ok(reply) || (x.env(w.clock).lands && !stale));
    Snoc(v.trace, Post(v.run, kind, raw, reply, stored));
  }

  lemma PostAtVersionAccepts(x: Setup, w: World, kind: PostKind, raw: Bytes)
    ensures var (v, err) := PostAtVersion(x, w, kind, raw);
            LastAccepted(v.trace) == if err.None? && kind.Apply? then Some(raw) else LastAccepted(w.trace)
  {
    hide ReadVersion, PostRaw, LastAccepted;
    ReadVersionSame(x, w);
    var (v, version) := ReadVersion(x, w);
    if version.Success? {
      PostRawAccepts(x, v, kind, raw, version.value);
    }
  }

  lemma {:induction false} PollSame(x: Setup, w: World, polls: nat, last: Option<Err>)
    requires polls <= MAX_POLLS
    ensures Same(w, Poll(x, w, polls, last).0)
    decreases MAX_POLLS - polls
  {
    if polls < MAX_POLLS && !x.env(w.clock).expired {
      ReadVersionSame(x, w);
      hide ReadVersion;
      var (v, version) := ReadVersion(x, w);
      if version.Failure? {
        PollSame(x, v, polls + 1, Some(version.error));
      }
    }
  }

  lemma ApplyUnvalidatedAccepts(x: Setup, w: World, raw: Bytes)
    ensures var (v, err) := ApplyUnvalidated(x, w, raw);
            LastAccepted(v.trace) == if err.None? then Some(raw) else LastAccepted(w.trace)
  {
    hide Poll, PostAtVersion, LastAccepted;
    PollSame(x, w, 0, None);
    var (v, notReady) := WaitForReady(x, w);
    if notReady.None? {
      PostAtVersionAccepts(x, v, ValidateOnly, raw);
      PostAtVersionAccepts(x, ValidateRaw(x, v, raw).0, Apply, raw);
    }
  }

  // ---------------------------------------------------------------- bounded retries

  /** After `k` failed attempts the runner has slept 200 * (2^k - 1) ms, with no sleep after the fifth. */
  function SleptAfter(k: nat): nat {
    INITIAL_BACKOFF * (Backoff.Pow2(if k < MAX_ATTEMPTS then k else MAX_ATTEMPTS - 1) - 1)
  }

  lemma SleptAtMost(k: nat)
    requires k <= MAX_ATTEMPTS
    ensures 0 <= SleptAfter(k) <= 3000 && SleptAfter(0) == 0
  {
    Backoff.Pow2Monotone(if k < MAX_ATTEMPTS then k else MAX_ATTEMPTS - 1, 4);
    assert Backoff.Pow2(4) == 16;
  }

  /** Of `attempts` attempts all but a successful last one failed. */
  predicate Bounded(s: State, t: State, r: Reply, attempts: nat) {
    && attempts <= MAX_ATTEMPTS && t.loads == s.loads + attempts
    && (r.Success? ==> attempts > 0)
    && t.slept == s.slept + SleptAfter(if r.Success? then attempts - 1 else attempts)
  }

  lemma SleptStep(k: nat)
    requires k < MAX_ATTEMPTS
    ensures SleptAfter(k + 1) == SleptAfter(k) + Pause(k)
  {
  }

  /** What one failed attempt leaves to the next. */
  function AfterFailure(d: Desk, s: State, failed: nat): State {
    var t := ApplyOnce(d, s).0;
    t.(slept := t.slept + Pause(failed))
  }

  lemma ApplyOnceAccepts(d: Desk, s: State)
    ensures var (t, r) := ApplyOnce(d, s);
            && t.loads == s.loads + 1 && t.slept == s.slept
            && (r.Success? ==> LastAccepted(t.w.trace) == Some(r.value) && d.disk(s.loads) == r)
            && (r.Failure? ==> Same(s.w, t.w))
  {
    var file := d.disk(s.loads);
    var (t, r) := ApplyOnce(d, s);
    if file.Success? {
      var (v, err) := ApplyUnvalidated(d.x, s.w, file.value);
      ApplyUnvalidatedAccepts(d.x, s.w, file.value);
      assert t.w == v && r == if err.Some? then Failure(err.value) else file;
    }
  }

  lemma {:induction false} RetryBounded(d: Desk, s: State, failed: nat, last: Err, s0: State)
    requires failed <= MAX_ATTEMPTS && s.loads == s0.loads + failed && s.slept == s0.slept + SleptAfter(failed)
    ensures var (t, r) := Retry(d, s, failed, last);
            t.loads >= s.loads && Bounded(s0, t, r, t.loads - s0.loads)
    decreases MAX_ATTEMPTS - failed
  {
    hide ApplyOnce, SleptAfter, Pause, LastAccepted;
    if failed < MAX_ATTEMPTS && !d.ended(s.loads) {
      ApplyOnceAccepts(d, s);
      var (t, r) := ApplyOnce(d, s);
      if r.Failure? {
        SleptStep(failed);
        RetryBounded(d, AfterFailure(d, s, failed), failed + 1, r.error, s0);
      }
    }
  }

  lemma {:induction false} RetryAccepts(d: Desk, s: State, failed: nat, last: Err)
    requires failed <= MAX_ATTEMPTS
    ensures var (t, r) := Retry(d, s, failed, last);
            && (r.Success? ==>
                  t.loads > s.loads && LastAccepted(t.w.trace) == Some(r.value) && d.disk(t.loads - 1) == r)
            && (r.Failure? ==> Same(s.w, t.w))
    decreases MAX_ATTEMPTS - failed
  {
    hide ApplyOnce, LastAccepted, Pause;
    if failed < MAX_ATTEMPTS && !d.ended(s.loads) {
      ApplyOnceAccepts(d, s);
      var (t, r) := ApplyOnce(d, s);
      if r.Failure? {
        RetryAccepts(d, AfterFailure(d, s, failed), failed + 1, r.error);
      }
    }
  }

  /** At most five attempts and three seconds of sleep: 200 * (2^k - 1) ms after the k-th failure, for k up to 4. */
  lemma ApplyWithRetryBounded(d: Desk, s: State)
    ensures var (t, r) := ApplyWithRetry(d, s);
            && s.loads <= t.loads <= s.loads + MAX_ATTEMPTS
            && s.slept <= t.slept <= s.slept + 3000
            && Bounded(s, t, r, t.loads - s.loads)
  {
    hide Retry, SleptAfter, Bounded, Backoff.Pow2, ApplyOnce, Pause;
    SleptAtMost(0);
    RetryBounded(d, s, 0, CONTEXT_ENDED, s);
    var (t, r) := ApplyWithRetry(d, s);
    BoundedAtMost(s, t, r, t.loads - s.loads);
  }

  lemma BoundedAtMost(s: State, t: State, r: Reply, attempts: nat)
    requires Bounded(s, t, r, attempts)
    ensures t.loads <= s.loads + MAX_ATTEMPTS && s.slept <= t.slept <= s.slept + 3000
  {
    hide SleptAfter, Backoff.Pow2;
    SleptAtMost(if r.Success? then attempts - 1 else attempts);
  }

  /**
   Success returns the bytes of the last read, just accepted; failure changes nothing about what was
   accepted last.
   */
  lemma ApplyWithRetryApplies(d: Desk, s: State)
    ensures var (t, r) := ApplyWithRetry(d, s);
            && (r.Success? ==>
                  t.loads > s.loads && LastAccepted(t.w.trace) == Some(r.value) && d.disk(t.loads - 1) == r)
            && (r.Failure? ==> LastAccepted(t.w.trace) == LastAccepted(s.w.trace))
  {
    hide Retry, LastAccepted;
    RetryAccepts(d, s, 0, CONTEXT_ENDED);
  }

  // ---------------------------------------------------------------- the event loop

  /** However the file changes meanwhile, `lastHash` stands for the bytes of the last accepted apply. */
  lemma {:induction false} LastHashIsWhatWasApplied(d: Desk, s: State, lastHash: Bytes, events: seq<FileEvent>)
    requires LastAccepted(s.w.trace) == Some(lastHash)
    ensures var (t, h) := HandleAll(d, s, lastHash, events);
            LastAccepted(t.w.trace) == Some(h)
    decreases |events|
  {
    if events != [] {
      ApplyWithRetryApplies(d, Settle(s));
      hide ApplyWithRetry;
      var (t, h) := Handle(d, s, lastHash, events[0]);
      LastHashIsWhatWasApplied(d, t, h, events[1..]);
    }
  }

  predicate TriesToApply(d: Desk, s: State, lastHash: Bytes, e: FileEvent) {
    Handle(d, s, lastHash, e).0.loads > s.loads + 1
  }

  /**
   A write event leads to an attempt exactly when the file reads as other bytes than those
   applied last. So bytes that could not be applied are tried again at the next event.
   */
  lemma TriesExactlyWhenChanged(d: Desk, s: State, lastHash: Bytes, e: FileEvent)
    requires LastAccepted(s.w.trace) == Some(lastHash) && !d.ended(s.loads + 1)
    ensures TriesToApply(d, s, lastHash, e) <==>
            && e.Changed? && e.isConfig && e.isWrite
            && d.disk(s.loads).Success? && Some(d.disk(s.loads).value) != LastAccepted(s.w.trace)
  {
    var u := Settle(s);
    RetryAttempts(d, u);
    ApplyWithRetryBounded(d, u);
    hide ApplyWithRetry;
  }

  lemma RetryAttempts(d: Desk, s: State)
    requires !d.ended(s.loads)
    ensures ApplyWithRetry(d, s).0.loads > s.loads
  {
    ApplyOnceAccepts(d, s);
    SleptStep(0);
    assert SleptAfter(0) == 0;
    hide ApplyOnce, SleptAfter, Pause, LastAccepted;
    var (t, r) := ApplyOnce(d, s);
    if r.Failure? {
      RetryBounded(d, AfterFailure(d, s, 0), 1, r.error, s);
    }
  }
}
