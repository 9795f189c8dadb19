/**
 The local runner as the source writes it, proved to compute the functions of LocalRun.dfy
 (internal/local/runner.go).
 */
module LocalRunner {
  import opened Prelude
  import opened Errors
  import opened LocalRun
  import opened LocalOrder
  import opened History
  import Dataplane
  import opened Environment
  import opened DataplaneClient
  import Backoff

  /** The machine the runner lives on. */
  class Machine {
    const d: Desk
    const out: Outside
    var loads: nat
    var slept: nat

    constructor (d: Desk, out: Outside)
      requires out.x == d.x
      ensures this.d == d && this.out == out && Now() == State(out.w, 0, 0)
    {
      this.d, this.out, loads, slept := d, out, 0, 0;
    }

    function Now(): State
      reads this, out
    {
      State(out.w, loads, slept)
    }

    method Load() returns (r: Result<Bytes, Err>)
      modifies this
      ensures Now() == old(Now()).(loads := old(loads) + 1) && r == d.disk(old(loads))
    {
      r := d.disk(loads);
      loads := loads + 1;
    }

    method Sleep(ms: nat)
      modifies this
      ensures Now() == old(Now()).(slept := old(slept) + ms)
    {
      slept := slept + ms;
    }
  }

  class Runner {
    const on: Machine
    const client: Client

    ghost predicate Wired() {
      client.out == on.out && on.out.x == on.d.x
    }

    constructor (on: Machine, client: Client)
      requires client.out == on.out && on.out.x == on.d.x
      ensures this.on == on && this.client == client && Wired()
    {
      this.on, this.client := on, client;
    }

    method ApplyOnce() returns (r: Reply)
      requires Wired()
      modifies on, on.out
      ensures (on.Now(), r) == LocalRun.ApplyOnce(on.d, old(on.Now()))
    {
      hide Dataplane.ApplyUnvalidated;
      r := on.Load();
      if r.Success? {
        var err := client.ApplyRawConfiguration(r.value);
        if err.Some? {
          r := Failure(err.value);
        }
      }
    }

    method ApplyWithRetry() returns (r: Reply)
      requires Wired()
      modifies on, on.out
      ensures (on.Now(), r) == LocalRun.ApplyWithRetry(on.d, old(on.Now()))
      ensures on.loads <= old(on.loads) + MAX_ATTEMPTS && on.slept <= old(on.slept) + 3000
    {
      hide LocalRun.ApplyOnce, SleptAfter;
      ApplyWithRetryBounded(on.d, on.Now());
      var last := CONTEXT_ENDED;
      var backoff := INITIAL_BACKOFF;
      for attempt := 1 to MAX_ATTEMPTS + 1
        invariant backoff == INITIAL_BACKOFF * Backoff.Pow2(if attempt <= MAX_ATTEMPTS then attempt - 1
                  else MAX_ATTEMPTS - 1)
        invariant Retry(on.d, on.Now(), attempt - 1, last) == Retry(on.d, old(on.Now()), 0, CONTEXT_ENDED)
      {
        if on.d.ended(on.loads) {
          return Failure(CONTEXT_ENDED);
        }
        r := ApplyOnce();
        if r.Success? {
          return;
        }
        last := r.error;
        if attempt < MAX_ATTEMPTS {
          on.Sleep(backoff);
          backoff := backoff * 2;
        }
      }
      r := Failure(last);
    }

    /** The event loop up to the event at which the context ends. */
    method Watch(first: Bytes, events: seq<FileEvent>) returns (lastHash: Bytes)
      requires Wired()
      modifies on, on.out
      ensures (on.Now(), lastHash) == HandleAll(on.d, old(on.Now()), first, events)
    {
      hide LocalRun.ApplyWithRetry;
      lastHash := first;
      for i := 0 to |events|
        invariant HandleAll(on.d, on.Now(), lastHash, events[i..]) == HandleAll(on.d, old(on.Now()), first, events)
      {
        var rest := events[i..];
        assert rest[0] == events[i] && rest[1..] == events[i + 1..];
        match events[i]
        case WatcherError =>
        case Changed(isConfig, isWrite) =>
          if !isConfig || !isWrite {
            continue;
          }
          on.Sleep(DEBOUNCE);
          var seen := on.Load();
          if seen.Failure? {
            continue;
          }
          if seen.value == lastHash {
            continue;
          }
          var applied := ApplyWithRetry();
          if applied.Failure? {
            continue;
          }
          lastHash := applied.value;
      }
    }

    /** `lastHash` of a run whose first apply succeeded, or the error that ended it. */
    method Run(watch: bool, events: seq<FileEvent>) returns (r: Reply)
      requires Wired()
      modifies on, on.out
      ensures var (t, first) := LocalRun.ApplyWithRetry(on.d, old(on.Now()));
              if first.Failure? || !watch then (on.Now(), r) == (t, first)
              else r.Success? && (on.Now(), r.value) == HandleAll(on.d, t, first.value, events)
      ensures r.Success? ==> LastAccepted(on.out.w.trace) == Some(r.value)
      ensures ValidatesFirst(old(on.out.w), on.out.w)
    {
      ghost var before := on.out.w;
      ApplyWithRetryApplies(on.d, on.Now());
      RetryValidates(on.d, on.Now(), 0, CONTEXT_ENDED);
      hide LocalRun.Retry, HandleAll, ValidatesFirst;
      r := ApplyWithRetry();
      if r.Success? && watch {
        LastHashIsWhatWasApplied(on.d, on.Now(), r.value, events);
        RunnerValidatesFirst(on.d, on.Now(), r.value, events);
        ghost var first := on.out.w;
        var h := Watch(r.value, events);
        ValidatesTransitive(before, first, on.out.w);
        r := Success(h);
      }
    }
  }
}
