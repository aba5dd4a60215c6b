/**
 * The error values of the controller (internal/controller/error.go) and the two
 * walks of Go's `errors` package that the controller relies on: `errors.As`,
 * which looks for an `ErrorStatus` along the unwrap chain, and `errors.Is`,
 * which looks for the driver's `ErrNoDocuments` sentinel.
 */
module Errors {
  import opened Wrappers

  /** Go's net/http status codes used by the controller. */
  const StatusOK := 200
  const StatusBadRequest := 400
  const StatusUnauthorized := 401
  const StatusNotFound := 404
  const StatusTooManyRequests := 429
  const StatusInternalServerError := 500

  /** The message ErrorInfo reports for an error that carries no status. */
  const UnknownErrorMessage := "unknown error occurred"

  /** The text of mongo.ErrNoDocuments. */
  const NoDocumentsMessage := "mongo: no documents in result"

  /**
   * An error value. `Leaf` is an error with no cause (errors.New, fmt.Errorf
   * without %w, a driver or decoder error); `NoDocuments` is the driver's
   * sentinel; `Wrapped` is any error whose Unwrap yields a cause (fmt.Errorf
   * with %w); `Status` is the controller's ErrorStatus, which embeds its cause
   * and pairs it with an HTTP status code.
   */
  datatype Error =
    | Leaf(text: string)
    | NoDocuments
    | Wrapped(text: string, inner: Error)
    | Status(cause: Error, code: int)

  /** The body ErrorInfo produces: `{"error": <text>}`. */
  datatype ErrorResponse = ErrorResponse(error: string)

  /**
   * True when `Chain(e)[k]` is the first element of the chain that is not an
   * ErrorStatus, and `text` is the message that element carries itself.
   */
  predicate OwnMessageAt(e: Error, k: int, text: string)
  {
    && 0 <= k < |Chain(e)|
    && (forall j | 0 <= j < k :: Chain(e)[j].Status?)
    && match Chain(e)[k]
       case Leaf(t) => text == t
       case NoDocuments => text == NoDocumentsMessage
       case Wrapped(t, _) => text == t
       case Status(_, _) => false
  }

  /**
   * Error(): an ErrorStatus reports the message of the error it embeds, so the
   * message is that of the first link of the chain that is not an ErrorStatus.
   */
  function Message(e: Error): (r: string)
    ensures exists k :: OwnMessageAt(e, k, r)
  {
    match e
    case Leaf(text) => assert OwnMessageAt(e, 0, text); text
    case NoDocuments => assert OwnMessageAt(e, 0, NoDocumentsMessage); NoDocumentsMessage
    case Wrapped(text, _) => assert OwnMessageAt(e, 0, text); text
    case Status(cause, _) =>
      var r := Message(cause);
      var k :| OwnMessageAt(cause, k, r);
      assert Chain(e) == [e] + Chain(cause);
      assert OwnMessageAt(e, k + 1, r);
      r
  }

  /** Unwrap: the next error of the chain, if any. */
  function Unwrap(e: Error): (r: Option<Error>)
    ensures e.Status? ==> r == Some(e.cause)
    ensures r.None? <==> e.Leaf? || e.NoDocuments?
  {
    match e
    case Leaf(_) => None
    case NoDocuments => None
    case Wrapped(_, inner) => Some(inner)
    case Status(cause, _) => Some(cause)
  }

  /** The unwrap chain of `e`: `e` itself, then every error Unwrap reaches from it. */
  function Chain(e: Error): (c: seq<Error>)
    ensures |c| >= 1 && c[0] == e
  {
    match Unwrap(e)
    case None => [e]
    case Some(next) => [e] + Chain(next)
  }

  /** NewErrorStatus: pair an error with the status code the response must carry. */
  function NewErrorStatus(err: Error, code: int): (r: Error)
    ensures Unwrap(r) == Some(err)
    ensures Message(r) == Message(err)
  {
    Status(err, code)
  }

  /** True when no element of the chain of `e` is an ErrorStatus. */
  predicate Unclassified(e: Error)
  {
    forall k | 0 <= k < |Chain(e)| :: !Chain(e)[k].Status?
  }

  /** True when `Chain(e)[k]` is an ErrorStatus and no earlier element is one. */
  predicate FirstStatusAt(e: Error, k: int)
  {
    && 0 <= k < |Chain(e)|
    && Chain(e)[k].Status?
    && forall j | 0 <= j < k :: !Chain(e)[j].Status?
  }

  /**
   * errors.As(err, &errStatus): the first ErrorStatus met walking the unwrap
   * chain from the outside in, if there is one.
   */
  function FindStatus(e: Error): (r: Option<Error>)
    ensures r.None? <==> Unclassified(e)
    ensures r.Some? ==> exists k :: FirstStatusAt(e, k) && Chain(e)[k] == r.value
  {
    match e
    case Status(_, _) =>
      assert FirstStatusAt(e, 0);
      Some(e)
    case Leaf(_) => None
    case NoDocuments => None
    case Wrapped(_, inner) =>
      var r := FindStatus(inner);
      assert Chain(e) == [e] + Chain(inner);
      if r.Some? then
        var k :| FirstStatusAt(inner, k) && Chain(inner)[k] == r.value;
        assert FirstStatusAt(e, k + 1);
        r
      else
        r
  }

  /**
   * ErrorInfo: the response body and status for a failed handler. An ErrorStatus
   * found along the chain decides both; anything else is an opaque 500.
   */
  function ErrorInfo(e: Error): (r: (ErrorResponse, int))
    ensures r.1 == StatusInternalServerError || exists k :: FirstStatusAt(e, k) && Chain(e)[k].code == r.1
    ensures Unclassified(e) ==> r == (ErrorResponse(UnknownErrorMessage), StatusInternalServerError)
  {
    match FindStatus(e)
    case Some(s) => (ErrorResponse(Message(s.cause)), s.code)
    case None => (ErrorResponse(UnknownErrorMessage), StatusInternalServerError)
  }

  /** The round trip: ErrorInfo recovers exactly the message and code NewErrorStatus paired. */
  lemma ErrorInfoOfNewErrorStatus(err: Error, code: int)
    ensures ErrorInfo(NewErrorStatus(err, code)) == (ErrorResponse(Message(err)), code)
  {
  }

  /** The outermost ErrorStatus of the chain decides the result, whatever lies below it. */
  lemma {:induction false} ErrorInfoOutermostDecides(e: Error, k: int)
    requires FirstStatusAt(e, k)
    ensures ErrorInfo(e) == (ErrorResponse(Message(Chain(e)[k].cause)), Chain(e)[k].code)
  {
    FirstStatusUnique(e, k);
  }

  /** At most one position of a chain is the first ErrorStatus. */
  lemma {:induction false} FirstStatusUnique(e: Error, k: int)
    requires FirstStatusAt(e, k)
    ensures FindStatus(e) == Some(Chain(e)[k])
  {
    var r := FindStatus(e);
    assert r.Some?;
    var k' :| FirstStatusAt(e, k') && Chain(e)[k'] == r.value;
    assert k' == k;
  }

  /** Wrapping with %w is transparent to ErrorInfo. */
  lemma ErrorInfoSeesThroughWrapping(text: string, inner: Error)
    ensures ErrorInfo(Wrapped(text, inner)) == ErrorInfo(inner)
  {
  }

  /** errors.Is(e, target): some element of the unwrap chain equals `target`. */
  predicate Is(e: Error, target: Error): (b: bool)
    ensures b <==> target in Chain(e)
  {
    e == target ||
    match Unwrap(e)
    case None => false
    case Some(next) =>
      assert Chain(e) == [e] + Chain(next);
      Is(next, target)
  }
}
