/**
 The error chains of the Dataplane client and the classifier that decides whether
 the desired bytes are suppressed or retried (internal/haproxy/errors.go).
 */
module Errors {
  import opened Prelude

  datatype ErrorClass =
    | ConfigRejected
    | AuthError
    | TLSConnectionError
    | ConnectionError
    | ConflictError
    | RateLimited
    | DataplaneServerError
    | UnknownError

  /** Which of the texts the classifier searches for occur in one link of a chain. */
  datatype Words = Words(tls: bool, refused: bool)

  /** Errors of Go's own libraries, reduced to the type tests the classifier makes. */
  datatype LeafKind =
    | TLSFailure
    | DeadlineExceeded
    | DNSFailure
    | NetFailure(timeout: bool)
    | Opaque

  /** A Go error: each constructor with an `inner` is one that `Unwrap`s. */
  datatype Err =
    | ErrLocalRejection
    | APIError(status: int)
    | VersionCheckError(inner: Err)
    | Context(words: Words, inner: Err)
    | URLError(inner: Err)
    | Leaf(kind: LeafKind, words: Words)

  const PLAIN := Words(false, false)

  predicate Transient(c: ErrorClass) {
    c != ConfigRejected
  }

  function ClassifyHTTPStatus(code: int): ErrorClass {
    if code == 400 || code == 422 then ConfigRejected
    else if code == 401 || code == 403 then AuthError
    else if code == 409 then ConflictError
    else if code == 429 then RateLimited
    else if 500 <= code < 600 then DataplaneServerError
    else UnknownError
  }

  // errors.Is and errors.As walk the chain from the outside in.

  predicate IsLocalRejection(e: Err) {
    match e
    case ErrLocalRejection => true
    case VersionCheckError(i) => IsLocalRejection(i)
    case Context(_, i) => IsLocalRejection(i)
    case URLError(i) => IsLocalRejection(i)
    case _ => false
  }

  /** The error wrapped by the outermost VersionCheckError; it is a proper part of `e`. */
  function AsVersionCheck(e: Err): (r: Option<Err>)
    ensures r.Some? ==> r.value < e
  {
    match e
    case VersionCheckError(i) => Some(i)
    case Context(_, i) => AsVersionCheck(i)
    case URLError(i) => AsVersionCheck(i)
    case _ => None
  }

  function AsAPIError(e: Err): Option<int> {
    match e
    case APIError(s) => Some(s)
    case VersionCheckError(i) => AsAPIError(i)
    case Context(_, i) => AsAPIError(i)
    case URLError(i) => AsAPIError(i)
    case _ => None
  }

  function AsURLError(e: Err): Option<Err> {
    match e
    case URLError(i) => Some(i)
    case VersionCheckError(i) => AsURLError(i)
    case Context(_, i) => AsURLError(i)
    case _ => None
  }

  /** Timeout() of a value that has that method; a url.Error asks the error directly inside it. */
  predicate TimesOut(e: Err) {
    match e
    case URLError(i) => TimesOut(i)
    case Leaf(NetFailure(t), _) => t
    case Leaf(DeadlineExceeded, _) => true
    case _ => false
  }

  /** The outermost net.Error of the chain, reduced to its Timeout(). */
  function AsNetError(e: Err): Option<bool> {
    match e
    case URLError(_) => Some(TimesOut(e))
    case VersionCheckError(i) => AsNetError(i)
    case Context(_, i) => AsNetError(i)
    case Leaf(NetFailure(t), _) => Some(t)
    case Leaf(DeadlineExceeded, _) => Some(true)
    case Leaf(DNSFailure, _) => Some(false)
    case _ => None
  }

  function InnermostKind(e: Err): Option<LeafKind> {
    match e
    case VersionCheckError(i) => InnermostKind(i)
    case Context(_, i) => InnermostKind(i)
    case URLError(i) => InnermostKind(i)
    case Leaf(k, _) => Some(k)
    case _ => None
  }

  /** The texts found anywhere in Error(): every link's text is part of the outer one's. */
  function Text(e: Err): Words {
    match e
    case VersionCheckError(i) => Text(i)
    case Context(w, i) => Words(w.tls || Text(i).tls, w.refused || Text(i).refused)
    case URLError(i) => Text(i)
    case Leaf(_, w) => w
    case _ => PLAIN
  }

  predicate IsTLSError(e: Err) {
    InnermostKind(e) == Some(TLSFailure) || Text(e).tls
  }

  predicate IsTimeout(e: Err) {
    AsNetError(e) == Some(true) || InnermostKind(e) == Some(DeadlineExceeded)
  }

  predicate IsUnreachable(e: Err) {
    IsTimeout(e) || Text(e).refused || InnermostKind(e) == Some(DNSFailure)
  }

  function Classify(e: Err): ErrorClass {
    if IsLocalRejection(e) then ConfigRejected
    else if AsVersionCheck(e).Some? then
      var inner := Classify(AsVersionCheck(e).value);
      if inner == ConfigRejected then UnknownError else inner
    else if AsAPIError(e).Some? then ClassifyHTTPStatus(AsAPIError(e).value)
    else if AsURLError(e).Some? && IsTLSError(AsURLError(e).value) then TLSConnectionError
    else if AsURLError(e).Some? && IsUnreachable(AsURLError(e).value) then ConnectionError
    else if IsTLSError(e) then TLSConnectionError
    else if IsUnreachable(e) then ConnectionError
    else if AsNetError(e).Some? then ConnectionError
    else UnknownError
  }

  // ---------------------------------------------------------------- the chain as a list

  /** Every error of the chain, outermost first: the reference the walks above are judged by. */
  function Chain(e: Err): (links: seq<Err>)
    ensures |links| > 0
  {
    match e
    case VersionCheckError(i) => [e] + Chain(i)
    case Context(_, i) => [e] + Chain(i)
    case URLError(i) => [e] + Chain(i)
    case _ => [e]
  }

  ghost predicate HasLocalRejection(e: Err) {
    ErrLocalRejection in Chain(e)
  }

  ghost predicate HasVersionCheck(e: Err) {
    exists k :: 0 <= k < |Chain(e)| && Chain(e)[k].VersionCheckError?
  }

  /** `status` belongs to the first APIError of `links`. */
  ghost predicate FirstAPIStatus(links: seq<Err>, status: int) {
    exists k :: 0 <= k < |links| && links[k] == APIError(status)
                && forall j :: 0 <= j < k ==> !links[j].APIError?
  }

  ghost predicate OutermostAPIStatus(e: Err, status: int) {
    FirstAPIStatus(Chain(e), status)
  }

  lemma FirstAPIStatusBehind(head: Err, links: seq<Err>, status: int)
    requires !head.APIError?
    ensures FirstAPIStatus([head] + links, status) <==> FirstAPIStatus(links, status)
  {
    var all := [head] + links;
    if FirstAPIStatus(links, status) {
      var k :| 0 <= k < |links| && links[k] == APIError(status) && forall j :: 0 <= j < k ==> !links[j].APIError?;
      assert all[k + 1] == APIError(status);
    }
    if FirstAPIStatus(all, status) {
      var k :| 0 <= k < |all| && all[k] == APIError(status) && forall j :: 0 <= j < k ==> !all[j].APIError?;
      assert links[k - 1] == APIError(status);
      forall j | 0 <= j < k - 1
        ensures !links[j].APIError?
      {
        assert links[j] == all[j + 1];
      }
    }
  }

  lemma {:induction false} WalksFindTheChain(e: Err)
    ensures IsLocalRejection(e) <==> HasLocalRejection(e)
    ensures AsVersionCheck(e).Some? <==> HasVersionCheck(e)
  {
    if e.VersionCheckError? || e.Context? || e.URLError? {
      WalksFindTheChain(e.inner);
      assert Chain(e) == [e] + Chain(e.inner);
      assert forall k :: 0 <= k < |Chain(e.inner)| ==> Chain(e)[k + 1] == Chain(e.inner)[k];
      assert Chain(e)[0] == e;
    } else {
      assert Chain(e) == [e];
    }
  }

  lemma {:induction false} APIWalkFindsTheOutermost(e: Err, s: int)
    ensures AsAPIError(e) == Some(s) <==> OutermostAPIStatus(e, s)
  {
    if e.VersionCheckError? || e.Context? || e.URLError? {
      APIWalkFindsTheOutermost(e.inner, s);
      assert Chain(e) == [e] + Chain(e.inner);
      FirstAPIStatusBehind(e, Chain(e.inner), s);
    } else {
      assert Chain(e) == [e];
      assert Chain(e)[0] == e;
    }
  }

  /** Exactly which chains suppress the desired bytes. */
  lemma RejectedExactlyWhen(e: Err)
    ensures Classify(e) == ConfigRejected <==>
            || HasLocalRejection(e)
            || (!HasVersionCheck(e) && (OutermostAPIStatus(e, 400) || OutermostAPIStatus(e, 422)))
  {
    WalksFindTheChain(e);
    APIWalkFindsTheOutermost(e, 400);
    APIWalkFindsTheOutermost(e, 422);
  }

  /** The class of an answer, whatever is put around it: its status alone decides, and each class has its own. */
  lemma StatusDecidesClass(e: Err, s: int)
    requires OutermostAPIStatus(e, s) && !HasLocalRejection(e) && !HasVersionCheck(e)
    ensures Classify(e) == ConfigRejected <==> s in {400, 422}
    ensures Classify(e) == AuthError <==> s in {401, 403}
    ensures Classify(e) == ConflictError <==> s == 409
    ensures Classify(e) == RateLimited <==> s == 429
    ensures Classify(e) == DataplaneServerError <==> 500 <= s <= 599
    ensures Classify(e) != TLSConnectionError && Classify(e) != ConnectionError
  {
    WalksFindTheChain(e);
    APIWalkFindsTheOutermost(e, s);
  }

  /**
   Without an answer the transport error inside decides, as long as no text says otherwise. A
   request that failed for an unknown reason is a connection error; without a request it is unknown.
   */
  lemma KindDecidesClass(k: LeafKind)
    ensures var c := Classify(URLError(Leaf(k, PLAIN)));
            && c == Classify(Context(PLAIN, URLError(Leaf(k, PLAIN))))
            && (if k.TLSFailure? then c == TLSConnectionError else c == ConnectionError)
    ensures Classify(Leaf(k, PLAIN)) ==
            if k.TLSFailure? then TLSConnectionError else if k.Opaque? then UnknownError else ConnectionError
  {
    var e, f := Leaf(k, PLAIN), URLError(Leaf(k, PLAIN));
    assert AsAPIError(e).None? && AsAPIError(f).None? && AsVersionCheck(f).None? && !IsLocalRejection(f);
    assert InnermostKind(e) == Some(k) && InnermostKind(f) == Some(k) && Text(f) == PLAIN;
  }

  /** Context added by a caller never changes a verdict that a typed error decided. */
  lemma {:induction false} ContextKeepsTypedClass(words: Words, e: Err)
    requires HasLocalRejection(e) || HasVersionCheck(e) || exists s :: OutermostAPIStatus(e, s)
    ensures Classify(Context(words, e)) == Classify(e)
  {
    WalksFindTheChain(e);
    if s :| OutermostAPIStatus(e, s) {
      APIWalkFindsTheOutermost(e, s);
    }
    assert IsLocalRejection(Context(words, e)) == IsLocalRejection(e);
    assert AsVersionCheck(Context(words, e)) == AsVersionCheck(e);
    assert AsAPIError(Context(words, e)) == AsAPIError(e);
  }

  /** Without a typed error the text of the context does decide: the typed hypothesis above is needed. */
  lemma ContextDecidesUntypedClass()
    ensures exists words, e ::
              !HasLocalRejection(e) && !HasVersionCheck(e) && Classify(Context(words, e)) != Classify(e)
  {
    var e := Leaf(Opaque, PLAIN);
    WalksFindTheChain(e);
    assert Classify(e) == UnknownError;
    assert Classify(Context(Words(true, false), e)) == TLSConnectionError;
  }

  /** A failed version read keeps its class, except that it is never a verdict on the bytes. */
  lemma {:induction false} VersionCheckIsNeverAVerdict(e: Err)
    requires !HasLocalRejection(e)
    ensures Transient(Classify(VersionCheckError(e)))
    ensures Transient(Classify(e)) ==> Classify(VersionCheckError(e)) == Classify(e)
    ensures !Transient(Classify(e)) ==> Classify(VersionCheckError(e)) == UnknownError
  {
    WalksFindTheChain(e);
    assert !IsLocalRejection(VersionCheckError(e));
    assert AsVersionCheck(VersionCheckError(e)) == Some(e);
  }
}
