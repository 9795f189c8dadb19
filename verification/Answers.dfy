/**
 What the client's request sequences make of the gateway's answers, told from the answers:
 which requests go out, what they leave behind, and which error comes back.
 */
module Answers {
  import opened Prelude
  import opened Errors
  import opened Platform
  import opened Dataplane
  import opened Suffix

  // ---------------------------------------------------------------- waiting for the gateway

  /** The world after `k` actions that left nothing of their own. */
  function After(x: Setup, w: World, k: nat): World {
    if k == 0 then w else Tick(x, After(x, w, k - 1))
  }

  lemma {:induction false} AfterFirst(x: Setup, w: World, k: nat)
    ensures After(x, Tick(x, w), k) == After(x, w, k + 1)
  {
    hide Tick;
    if k > 0 {
      AfterFirst(x, w, k - 1);
    }
  }

  lemma {:induction false} AfterClock(x: Setup, w: World, k: nat)
    ensures After(x, w, k).clock == w.clock + k
  {
    if k > 0 {
      AfterClock(x, w, k - 1);
      TickClock(x, After(x, w, k - 1));
    }
  }

  /** The answer to the `k`-th request from now on, counted from nought. */
  function Answer(x: Setup, w: World, k: nat): Reply {
    x.env(w.clock + k).reply
  }

  predicate Unanswered(x: Setup, w: World, k: nat) {
    After(x, w, k + 1).down || !Ok(Answer(x, w, k))
  }

  function ErrorAt(x: Setup, w: World, k: nat): Err {
    if After(x, w, k + 1).down then DEAD else ErrorOf(Answer(x, w, k))
  }

  predicate Ends(x: Setup, w: World, k: nat) {
    k == MAX_POLLS || x.env(w.clock + k).expired
  }

  /** The `k`-th probe was sent and answered badly, and the context has not ended by then. */
  predicate GoesOn(x: Setup, w: World, k: nat) {
    !Ends(x, w, k) && Unanswered(x, w, k) && x.env(w.clock + k + 1).cancelled.None?
  }

  ghost predicate StillWaiting(x: Setup, w: World, k: nat) {
    k <= MAX_POLLS && forall i :: 0 <= i < k ==> GoesOn(x, w, i)
  }

  function LastError(x: Setup, w: World, k: nat): Option<Err> {
    if k == 0 then None else Some(VersionCheckError(ErrorAt(x, w, k - 1)))
  }

  function NotReadyAfter(x: Setup, w: World, k: nat): Err {
    var last := LastError(x, w, k);
    if last.Some? then last.value else NOT_READY
  }

  lemma ProbeAnswer(x: Setup, w: World)
    ensures var v := Tick(x, w);
            ReadVersion(x, w) ==
            if Unanswered(x, w, 0) then (v, Failure(VersionCheckError(ErrorAt(x, w, 0))))
            else (Note(v, VersionRead(v.run, v.gw.version)), Success(v.gw.version))
  {
    assert After(x, w, 1) == Tick(x, After(x, w, 0));
    hide Tick;
  }

  /** The answers seen from the world after `k` of them. */
  lemma AnswersShift(x: Setup, w: World, k: nat)
    ensures var u := After(x, w, k);
            && u.clock == w.clock + k && Tick(x, u) == After(x, w, k + 1)
            && (Unanswered(x, u, 0) <==> Unanswered(x, w, k)) && ErrorAt(x, u, 0) == ErrorAt(x, w, k)
            && Tick(x, u).clock == w.clock + k + 1
  {
    AfterClock(x, w, k);
    AfterClock(x, w, k + 1);
    var u := After(x, w, k);
    hide Tick;
    assert After(x, u, 1) == Tick(x, After(x, u, 0)) == Tick(x, u) == After(x, w, k + 1);
  }

  /** What the `k`-th turn of the loop does. */
  lemma PollTurn(x: Setup, w: World, k: nat, last: Option<Err>)
    requires k <= MAX_POLLS
    ensures var v := After(x, w, k + 1);
            var ended := x.env(w.clock + k + 1).cancelled;
            Poll(x, After(x, w, k), k, last) ==
            if Ends(x, w, k) then (After(x, w, k), Some(if last.Some? then last.value else NOT_READY))
            else if !Unanswered(x, w, k) then (Note(v, VersionRead(v.run, v.gw.version)), None)
            else if ended.Some? then (v, Some(Leaf(ended.value, PLAIN)))
            else Poll(x, v, k + 1, Some(VersionCheckError(ErrorAt(x, w, k))))
  {
    AnswersShift(x, w, k);
    ProbeAnswer(x, After(x, w, k));
    hide ReadVersion, Tick, After, Unanswered, ErrorAt;
  }

  lemma OneTurnLess(x: Setup, w: World, k: nat)
    requires StillWaiting(x, w, k) && k > 0
    ensures StillWaiting(x, w, k - 1) && k <= MAX_POLLS
    ensures !Ends(x, w, k - 1) && Unanswered(x, w, k - 1) && x.env(w.clock + k).cancelled.None?
    ensures LastError(x, w, k) == Some(VersionCheckError(ErrorAt(x, w, k - 1)))
  {
    hide After;
    assert GoesOn(x, w, k - 1);
  }

  lemma FirstTurn(x: Setup, w: World)
    ensures WaitForReady(x, w) == Poll(x, After(x, w, 0), 0, LastError(x, w, 0))
  {
    hide Poll;
  }

  /** After `k` bad answers the loop is at its `k`-th probe, with the last of these errors in hand. */
  lemma {:induction false} PollsOn(x: Setup, w: World, k: nat)
    requires StillWaiting(x, w, k)
    ensures WaitForReady(x, w) == Poll(x, After(x, w, k), k, LastError(x, w, k))
    decreases k
  {
    hide *;
    if k == 0 {
      FirstTurn(x, w);
    } else {
      OneTurnLess(x, w, k);
      PollsOn(x, w, k - 1);
      PollTurn(x, w, k - 1, LastError(x, w, k - 1));
    }
  }

  /**
   How the wait ends, whatever the answers are: at the first good one, with that probe's event;
   when the time is up, with the error of the last probe, if there was one; or after a probe
   at which the context has ended, with that error. Until then it goes on probing.
   */
  lemma WaitEndsExactly(x: Setup, w: World, k: nat)
    requires StillWaiting(x, w, k)
    ensures var v := After(x, w, k + 1);
            var ended := x.env(w.clock + k + 1).cancelled;
            if Ends(x, w, k) then WaitForReady(x, w) == (After(x, w, k), Some(NotReadyAfter(x, w, k)))
            else if !Unanswered(x, w, k) then
              WaitForReady(x, w) == (Note(v, VersionRead(v.run, v.gw.version)), None)
            else if ended.Some? then WaitForReady(x, w) == (v, Some(Leaf(ended.value, PLAIN)))
            else StillWaiting(x, w, k + 1)
  {
    hide After, WaitForReady, Unanswered, ErrorAt;
    PollsOn(x, w, k);
    PollTurn(x, w, k, LastError(x, w, k));
  }

  // ---------------------------------------------------------------- a stored certificate

  /** The sync got as far as the GET of the stored object, in world `v`. */
  predicate AsksStorage(x: Setup, w: World, bundle: Bytes, v: World) {
    LeafSerial(x.pem(bundle)).Success? && WaitForReady(x, w) == (v, None)
  }

  /** The GET fails, and not because the object is missing. */
  predicate Unreadable(x: Setup, v: World) {
    Unanswered(x, v, 0) && (After(x, v, 1).down || Answer(x, v, 0) != Response(404))
  }

  /** The gateway says that it stores no such object. */
  predicate Missing(x: Setup, v: World, name: string) {
    var u := After(x, v, 1);
    !u.down && (Answer(x, v, 0) == Response(404) || (Ok(Answer(x, v, 0)) && StorageName(name) !in u.gw.storage))
  }

  lemma StorageAnswer(x: Setup, v: World, name: string)
    ensures var u := After(x, v, 1);
            ReadCertificate(x, v, StorageName(name)) ==
            if Unreadable(x, v) then (u, Failure(ErrorAt(x, v, 0)))
            else if Missing(x, v, name) then (u, Failure(APIError(404)))
            else (u, Success(x.env(v.clock).remote))
  {
    assert After(x, v, 1) == Tick(x, After(x, v, 0));
    hide Tick;
  }

  lemma UnreadableIsNoMiss(x: Setup, v: World)
    requires Unreadable(x, v)
    ensures AsAPIError(ErrorAt(x, v, 0)) != Some(404)
  {
    hide After;
  }

  /**
   If the stored object cannot be read, the sync ends with exactly that error, whatever is
   stored and recorded: no write, no skip, storage as others left it.
   */
  lemma UnreadableIsNotOverwritten(x: Setup, w: World, name: string, bundle: Bytes, previouslySynced: bool, v: World)
    requires AsksStorage(x, w, bundle, v) && Unreadable(x, v)
    ensures SyncSSLCertificate(x, w, name, bundle, previouslySynced) == (After(x, v, 1), Failure(ErrorAt(x, v, 0)))
  {
    StorageAnswer(x, v, name);
    UnreadableIsNoMiss(x, v);
    hide Tick, ReadCertificate, WriteCertificate, After, Unreadable, ErrorAt, WaitForReady, Missing;
  }

  /** `t` and `r` are what the write of this bundle makes of `u`, whatever it is answered. */
  predicate WrittenFrom(x: Setup, u: World, name: string, bundle: Bytes, t: World, r: Result<bool, Err>) {
    var v := After(x, u, 1);
    if v.down then t == v && r == Failure(DEAD)
    else
      var reply := Answer(x, u, 0);
      && t.trace == v.trace + [CertWrite(v.run, name, bundle, reply)] && t.log == v.log && t.gw.live == v.gw.live
      && r == (if Ok(reply) then Success(true) else Failure(ErrorOf(reply)))
      && (Ok(reply) ==> t.gw.storage == v.gw.storage[StorageName(name) := bundle])
  }

  lemma WriteAnswer(x: Setup, u: World, name: string, bundle: Bytes)
    ensures var (t, err) := WriteCertificate(x, u, name, bundle);
            WrittenFrom(x, u, name, bundle, t, if err.Some? then Failure(err.value) else Success(true))
  {
    assert After(x, u, 1) == Tick(x, After(x, u, 0));
    hide Tick;
  }

  /** An object that is missing is created, whatever hash of it is on record. */
  lemma MissingIsWritten(x: Setup, w: World, name: string, bundle: Bytes, previouslySynced: bool, v: World)
    requires AsksStorage(x, w, bundle, v) && Missing(x, v, name)
    ensures var (t, r) := SyncSSLCertificate(x, w, name, bundle, previouslySynced);
            WrittenFrom(x, After(x, v, 1), name, bundle, t, r)
  {
    StorageAnswer(x, v, name);
    WriteAnswer(x, After(x, v, 1), name, bundle);
    hide Tick, ReadCertificate, WriteCertificate, After, ErrorAt, WaitForReady, WrittenFrom;
  }

  /** What storage reports for an object that is there tells it apart from the bundle. */
  predicate Differs(remote: Remote, serial: string, size: nat) {
    remote.serial == "" || remote.serial != serial || remote.size !in {0, size}
  }

  /**
   An object that is there is left alone if and only if a hash of the bundle is on record and
   the reported serial and size do not tell the two apart; otherwise it is replaced.
   */
  lemma StoredIsKeptExactlyWhen(x: Setup, w: World, name: string, bundle: Bytes, previouslySynced: bool, v: World)
    requires AsksStorage(x, w, bundle, v) && !Unreadable(x, v) && !Missing(x, v, name)
    ensures var (t, r) := SyncSSLCertificate(x, w, name, bundle, previouslySynced);
            var u, remote, serial := After(x, v, 1), x.env(v.clock).remote, LeafSerial(x.pem(bundle)).value;
            if previouslySynced && !Differs(remote, serial, |bundle|) then
              (t, r) == (Note(u, CertSkipped(u.run, name, bundle, serial, remote)), Success(false))
            else WrittenFrom(x, u, name, bundle, t, r)
  {
    StorageAnswer(x, v, name);
    WriteAnswer(x, After(x, v, 1), name, bundle);
    hide Tick, ReadCertificate, WriteCertificate, After, ErrorAt, WaitForReady, WrittenFrom, Note;
  }

  /** Before the GET: a bundle without a serial, or a gateway that is not ready, ends the sync with nothing written. */
  lemma SyncNeedsReadiness(x: Setup, w: World, name: string, bundle: Bytes, previouslySynced: bool)
    ensures var serial, (v, notReady) := LeafSerial(x.pem(bundle)), WaitForReady(x, w);
            var (t, r) := SyncSSLCertificate(x, w, name, bundle, previouslySynced);
            && (serial.Failure? ==> t == w && r == Failure(serial.error))
            && (serial.Success? && notReady.Some? ==> t == v && r == Failure(Context(PLAIN, notReady.value)))
  {
    hide WaitForReady, ReadCertificate, WriteCertificate, Note;
  }

  // ---------------------------------------------------------------- one POST, and what comes before it

  /** The POST goes out with the version that was read, or not at all. */
  lemma PostNeedsVersion(x: Setup, w: World, kind: PostKind, raw: Bytes)
    ensures var v := After(x, w, 1);
            var r := Note(v, VersionRead(v.run, v.gw.version));
            var (t, err) := PostAtVersion(x, w, kind, raw);
            var u := Tick(x, r);
            if Unanswered(x, w, 0) then (t, err) == (v, Some(VersionCheckError(ErrorAt(x, w, 0))))
            else if u.down then (t, err) == (u, Some(DEAD))
            else
              var stale := x.versionLocked && u.gw.version != v.gw.version;
              var reply := if stale then Response(409) else x.env(r.clock).reply;
              && |t.trace| > 0 && t.trace[..|t.trace| - 1] == u.trace && t.trace[|t.trace| - 1].Post?
              && var e := t.trace[|t.trace| - 1];
              && e.kind == kind && e.raw == raw && e.reply == reply && e.run == u.run
              && err == (if Ok(reply) then None else Some(ErrorOf(reply)))
              && t.gw.live == (if e.stored then x.norm(raw) else u.gw.live)
              && (kind.ValidateOnly? ==> !e.stored) && (kind.Apply? && Ok(reply) ==> e.stored)
  {
    ProbeAnswer(x, w);
    assert After(x, w, 1) == Tick(x, After(x, w, 0));
    hide Tick, ErrorOf;
  }

  /** Nothing is applied before the gateway is ready. */
  lemma ApplyNeedsReadiness(x: Setup, w: World, raw: Bytes)
    ensures var (v, notReady) := WaitForReady(x, w);
            && ApplyValidated(x, w, raw) ==
                 (if notReady.Some? then (v, Some(Context(PLAIN, notReady.value))) else PostAtVersion(x, v, Apply, raw))
            && (notReady.Some? ==> ApplyUnvalidated(x, w, raw) == (v, Some(Context(PLAIN, notReady.value))))
  {
    hide WaitForReady, PostAtVersion;
  }
}
