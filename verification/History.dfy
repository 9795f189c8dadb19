/** What a trace says about applies, their records, and what the gateway serves. */
module History {
  import opened Prelude
  import opened Platform

  predicate AcceptedApply(e: Event) {
    e.Post? && e.kind.Apply? && Ok(e.reply)
  }

  predicate RecordsApply(e: Event) {
    e.Patched? && e.purpose.RecordApply?
  }

  predicate AdoptsBaseline(e: Event) {
    e.Patched? && e.purpose.AdoptBaseline?
  }

  /** The bytes of the last apply that the gateway accepted. */
  function LastAccepted(t: seq<Event>): Option<Bytes> {
    if t == [] then None
    else
      var e, past := t[|t| - 1], t[..|t| - 1];
      if AcceptedApply(e) then Some(e.raw) else LastAccepted(past)
  }

  /** An apply was accepted and its record has not been committed. */
  predicate Unrecorded(t: seq<Event>) {
    t != [] &&
    var e, past := t[|t| - 1], t[..|t| - 1];
    AcceptedApply(e) || (!RecordsApply(e) && Unrecorded(past))
  }

  /** The baseline that was recorded last. */
  function Noted(t: seq<Event>): Value {
    if t == [] then Empty
    else
      var e, past := t[|t| - 1], t[..|t| - 1];
      if RecordsApply(e) then e.purpose.observed
      else if AdoptsBaseline(e) then Hash(e.purpose.live)
      else Noted(past)
  }

  /** What the gateway serves, as far as the trace tells: the last POST it stored, or what somebody else wrote since. */
  function Served(norm: Bytes -> Bytes, t: seq<Event>): Option<Bytes> {
    if t == [] then None
    else
      var e, past := t[|t| - 1], t[..|t| - 1];
      if e.Post? && e.stored then Some(norm(e.raw))
      else if e.OutOfBand? then Some(e.raw)
      else Served(norm, past)
  }

  /** What somebody else wrote last since the last accepted apply. */
  function ForeignSince(t: seq<Event>): Option<Bytes> {
    if t == [] then None
    else
      var e, past := t[|t| - 1], t[..|t| - 1];
      if AcceptedApply(e) then None else if e.OutOfBand? then Some(e.raw) else ForeignSince(past)
  }

  /** An apply was accepted, and no verified baseline has been recorded since. */
  predicate Open(t: seq<Event>) {
    t != [] &&
    var e, past := t[|t| - 1], t[..|t| - 1];
    AcceptedApply(e) || (!Closes(e) && Open(past))
  }

  /** A committed patch that enters a verified baseline. */
  predicate Closes(e: Event) {
    AdoptsBaseline(e) || (RecordsApply(e) && e.purpose.observed.Hash?)
  }

  // ---------------------------------------------------------------- assumptions about a trace

  /** No Reconcile begins while an accepted apply is unrecorded. */
  predicate NoLostRecord(t: seq<Event>) {
    t == [] ||
    var e, past := t[|t| - 1], t[..|t| - 1];
    NoLostRecord(past) && (e.Begin? ==> !Unrecorded(past))
  }

  /** Nobody else writes the gateway between an apply and the recording of its baseline. */
  predicate Undisturbed(t: seq<Event>) {
    t == [] ||
    var e, past := t[|t| - 1], t[..|t| - 1];
    Undisturbed(past) && (e.OutOfBand? ==> !Open(past))
  }

  predicate Fair(t: seq<Event>) {
    NoLostRecord(t) && Undisturbed(t)
  }

  lemma Snoc(t: seq<Event>, e: Event)
    ensures LastAccepted(t + [e]) == if AcceptedApply(e) then Some(e.raw) else LastAccepted(t)
    ensures Unrecorded(t + [e]) <==> AcceptedApply(e) || (!RecordsApply(e) && Unrecorded(t))
    ensures Noted(t + [e]) ==
            if RecordsApply(e) then e.purpose.observed
            else if AdoptsBaseline(e) then Hash(e.purpose.live)
            else Noted(t)
    ensures ForeignSince(t + [e]) ==
            if AcceptedApply(e) then None else if e.OutOfBand? then Some(e.raw) else ForeignSince(t)
    ensures Open(t + [e]) <==> AcceptedApply(e) || (!Closes(e) && Open(t))
    ensures NoLostRecord(t + [e]) <==> NoLostRecord(t) && (e.Begin? ==> !Unrecorded(t))
    ensures Undisturbed(t + [e]) <==> Undisturbed(t) && (e.OutOfBand? ==> !Open(t))
  {
    assert (t + [e])[..|t|] == t;
  }

  lemma ServedSnoc(norm: Bytes -> Bytes, t: seq<Event>, e: Event)
    ensures Served(norm, t + [e]) ==
            if e.Post? && e.stored then Some(norm(e.raw)) else if e.OutOfBand? then Some(e.raw) else Served(norm, t)
  {
    assert (t + [e])[..|t|] == t;
  }

  lemma SplitLast(t: seq<Event>)
    requires t != []
    ensures t == t[..|t| - 1] + [t[|t| - 1]]
  {
  }

  // ---------------------------------------------------------------- stretches without bookkeeping

  /** An event that applies, records a baseline or begins a Reconcile. */
  predicate Books(e: Event) {
    AcceptedApply(e) || RecordsApply(e) || AdoptsBaseline(e) || e.Begin?
  }

  ghost predicate Plain(t: seq<Event>, from: nat) {
    forall i :: from <= i < |t| ==> !Books(t[i])
  }

  lemma {:induction false} PlainStretch(t: seq<Event>, u: seq<Event>)
    requires t <= u && Plain(u, |t|)
    ensures LastAccepted(u) == LastAccepted(t) && Unrecorded(u) == Unrecorded(t) && Noted(u) == Noted(t)
    ensures NoLostRecord(u) == NoLostRecord(t) && Open(u) == Open(t)
    decreases |u|
  {
    if |u| == |t| {
      assert u == t;
    } else {
      var past, e := u[..|u| - 1], u[|u| - 1];
      SplitLast(u);
      Snoc(past, e);
      hide LastAccepted, Unrecorded, Noted, NoLostRecord, Open;
      PlainStretch(t, past);
    }
  }

  lemma {:induction false} PrefixKept(t: seq<Event>, n: nat)
    requires n <= |t|
    ensures NoLostRecord(t) ==> NoLostRecord(t[..n])
    ensures Undisturbed(t) ==> Undisturbed(t[..n])
    decreases |t| - n
  {
    if n < |t| {
      PrefixKept(t, n + 1);
      SplitLast(t[..n + 1]);
      assert t[..n + 1][..n] == t[..n];
    } else {
      assert t[..n] == t;
    }
  }
}
