/** What one request sequence posts, and what others make of the live configuration meanwhile. */
module Posts {
  import opened Prelude
  import opened Errors
  import opened Platform
  import opened Dataplane
  import opened Actions
  import opened Suffix

  predicate IsApply(e: Event) {
    e.Post? && e.kind.Apply?
  }

  /** What others made of the live configuration, as the trace tells. */
  function LeftByOthers(live: Bytes, t: seq<Event>): Bytes {
    if t == [] then live
    else
      var e := t[|t| - 1];
      if e.OutOfBand? then e.raw else LeftByOthers(live, t[..|t| - 1])
  }

  /** From `w` to `v` we wrote nothing, and the live configuration is what others made of it. */
  ghost predicate OnlyOthersWrote(w: World, v: World) {
    && w.trace <= v.trace && v.gw.live == LeftByOthers(w.gw.live, v.trace[|w.trace|..])
    && forall i :: |w.trace| <= i < |v.trace| ==> !IsApply(v.trace[i])
  }

  lemma OthersSelf(w: World)
    ensures OnlyOthersWrote(w, w)
  {
    assert w.trace[|w.trace|..] == [];
  }

  lemma {:induction false} LeftInSteps(live: Bytes, t: seq<Event>, u: seq<Event>)
    ensures LeftByOthers(live, t + u) == LeftByOthers(LeftByOthers(live, t), u)
    decreases |u|
  {
    if u == [] {
      assert t + u == t;
    } else {
      LeftInSteps(live, t, u[..|u| - 1]);
      assert (t + u)[..|t + u| - 1] == t + u[..|u| - 1];
    }
  }

  lemma OthersTransitive(w: World, v: World, u: World)
    requires OnlyOthersWrote(w, v) && OnlyOthersWrote(v, u)
    ensures OnlyOthersWrote(w, u)
  {
    LeftInSteps(w.gw.live, v.trace[|w.trace|..], u.trace[|v.trace|..]);
    assert u.trace[|w.trace|..] == v.trace[|w.trace|..] + u.trace[|v.trace|..];
  }

  lemma EnvStepByOthers(w: World, a: EnvAct)
    ensures OnlyOthersWrote(w, EnvStep(w, a))
  {
    var v := EnvStep(w, a);
    if |v.trace| > |w.trace| {
      assert v.trace[|w.trace|..] == [v.trace[|w.trace|]];
    } else {
      assert v.trace[|w.trace|..] == [];
    }
  }

  lemma {:induction false} InterfereByOthers(w: World, acts: seq<EnvAct>)
    ensures OnlyOthersWrote(w, Interfere(w, acts))
    decreases |acts|
  {
    OthersSelf(w);
    if acts != [] {
      var v := EnvStep(w, acts[0]);
      hide OnlyOthersWrote, EnvStep;
      EnvStepByOthers(w, acts[0]);
      InterfereByOthers(v, acts[1..]);
      OthersTransitive(w, v, Interfere(v, acts[1..]));
    }
  }

  lemma TickByOthers(x: Setup, w: World)
    ensures OnlyOthersWrote(w, Tick(x, w))
  {
    InterfereByOthers(w, x.env(w.clock).acts);
  }

  lemma NoteByOthers(w: World, e: Event)
    requires !e.OutOfBand? && !IsApply(e)
    ensures OnlyOthersWrote(w, Note(w, e))
  {
    var v := Note(w, e);
    if !w.down {
      assert v.trace[|w.trace|..] == [e];
      assert [e][..0] == [];
    } else {
      OthersSelf(w);
    }
  }

  lemma TickNoteByOthers(x: Setup, w: World, e: Event)
    requires !e.OutOfBand? && !IsApply(e)
    ensures OnlyOthersWrote(w, Tick(x, w)) && OnlyOthersWrote(w, Note(Tick(x, w), e))
  {
    hide OnlyOthersWrote, Tick, Note;
    TickByOthers(x, w);
    NoteByOthers(Tick(x, w), e);
    OthersTransitive(w, Tick(x, w), Note(Tick(x, w), e));
  }

  lemma ReadVersionByOthers(x: Setup, w: World)
    ensures OnlyOthersWrote(w, ReadVersion(x, w).0)
  {
    hide OnlyOthersWrote;
    TickNoteByOthers(x, w, VersionRead(Tick(x, w).run, Tick(x, w).gw.version));
  }

  lemma {:induction false} PollByOthers(x: Setup, w: World, polls: nat, last: Option<Err>)
    requires polls <= MAX_POLLS
    ensures OnlyOthersWrote(w, Poll(x, w, polls, last).0)
    decreases MAX_POLLS - polls
  {
    hide OnlyOthersWrote, ReadVersion;
    OthersSelf(w);
    if !(polls == MAX_POLLS || x.env(w.clock).expired) {
      ReadVersionByOthers(x, w);
      var (v, version) := ReadVersion(x, w);
      if version.Failure? && x.env(v.clock).cancelled.None? {
        PollByOthers(x, v, polls + 1, Some(version.error));
        OthersTransitive(w, v, Poll(x, v, polls + 1, Some(version.error)).0);
      }
    }
  }

  // ---------------------------------------------------------------- one POST

  /** The only POST from `w` to `v` is the last event, and `err` is its answer. */
  predicate PostedLast(w: World, v: World, kind: PostKind, raw: Bytes, err: Option<Err>) {
    && w.trace < v.trace
    && var last := |v.trace| - 1;
    var e := v.trace[last];
    && e.Post? && e.kind == kind && e.raw == raw && e.run == w.run
    && err == (if Ok(e.reply) then None else Some(ErrorOf(e.reply)))
    && forall i :: |w.trace| <= i < last ==> !v.trace[i].Post?
  }

  lemma PostRawLast(x: Setup, w: World, kind: PostKind, raw: Bytes, version: int)
    ensures var (v, err) := PostRaw(x, w, kind, raw, version);
            || PostedLast(w, v, kind, raw, err)
            || (err == Some(DEAD) && OnlyOthersWrote(w, v) && Free(w, v, Posting))
    ensures kind.ValidateOnly? ==> OnlyOthersWrote(w, PostRaw(x, w, kind, raw, version).0)
  {
    TickFree(x, w, Posting);
    TickByOthers(x, w);
    var v := Tick(x, w);
    if !v.down {
      hide OnlyOthersWrote, Tick, ErrorOf;
      var reply, stored, gw := PostAnswered(x, w, kind, raw, version);
      var e := Post(v.run, kind, raw, reply, stored);
      hide PostRaw;
      NotedLast(w, v, gw, e);
      if kind.ValidateOnly? {
        TickNoteByOthers(x, w, e);
        assert gw == v.gw;
      }
    }
  }

  lemma NotedLast(w: World, v: World, gw: Gateway, e: Event)
    requires Free(w, v, Posting) && !v.down && e.Post? && e.run == v.run
    ensures PostedLast(w, Note(v.(gw := gw), e), e.kind, e.raw, if Ok(e.reply) then None else Some(ErrorOf(e.reply)))
  {
    hide ErrorOf, Ok;
  }

  lemma VersionIsNoVerdict(x: Setup, w: World)
    ensures var version := ReadVersion(x, w).1; version.Failure? ==> Transient(Classify(version.error))
  {
    hide Tick;
  }

  /** Without an answer to a POST there is no verdict on the bytes. */
  predicate Unjudged(err: Option<Err>) {
    err.Some? && Transient(Classify(err.value))
  }

  lemma PostAtVersionLast(x: Setup, w: World, kind: PostKind, raw: Bytes)
    ensures var (v, err) := PostAtVersion(x, w, kind, raw);
            || PostedLast(w, v, kind, raw, err)
            || (Unjudged(err) && OnlyOthersWrote(w, v) && Free(w, v, Posting))
    ensures kind.ValidateOnly? ==> OnlyOthersWrote(w, PostAtVersion(x, w, kind, raw).0)
  {
    hide ReadVersion, PostRaw, OnlyOthersWrote, Classify;
    DeadIsNoVerdict();
    VersionIsNoVerdict(x, w);
    ReadVersionFree(x, w, Posting);
    ReadVersionByOthers(x, w);
    var (v, version) := ReadVersion(x, w);
    if version.Success? {
      PostRawLast(x, v, kind, raw, version.value);
      var u := PostRaw(x, v, kind, raw, version.value).0;
      if OnlyOthersWrote(v, u) {
        OthersTransitive(w, v, u);
      }
    }
  }
}
