/**
 * The resource handlers and pagination parsing (internal/controller/handler_impl.go).
 * Each handler is a fixed chain of checks. The JSON decoder, the validator, the
 * clock, the id generator, the service collaborator and the JSON encoder are
 * inputs: a handler records the service calls it makes, the writes it makes
 * on the response, and the error it returns to the middleware.
 */
module Handlers {
  import opened Wrappers
  import opened Errors
  import opened Strconv
  import opened Primitive
  import opened Models
  import opened Http
  import opened Middlewares

  const IdRequiredMessage := "id is required"
  const EmptyBodyMessage := "request body must not be empty"
  const BadObjectIdMessage := "failed to create object id"
  const InvalidPageMessage := "invalid page number"
  const InvalidLimitMessage := "invalid limit number"
  const HelloWorld := "Hello world"

  const DefaultPage := 1
  const DefaultLimit := 10

  /** A call on the service collaborator, in the signatures of ServiceProvider. */
  datatype ServiceCall =
    | SvcCreate(data: Jusgo)
    | SvcGet(id: string)
    | SvcUpdate(data: Jusgo)
    | SvcDelete(id: string)
    | SvcGetAll(page: int, limit: int)

  /** What json.NewDecoder(r.Body).Decode(&req) did: io.EOF on an empty body, another error, or a request. */
  datatype DecodeOutcome =
    | BodyEmpty
    | DecodeFailed(err: Error)
    | Decoded(request: JokeRequest)

  /** One run of a handler: the service calls, the writes on the response, the returned error. */
  datatype HandlerRun = HandlerRun(calls: seq<ServiceCall>, effects: seq<Effect>, err: Option<Error>)

  /** The full response of a handler wrapped in middleware. */
  function Respond(run: HandlerRun): (trace: seq<Effect>)
    ensures run.err.None? ==> trace == run.effects
    ensures run.err.Some? && !Committed(run.effects) ==> StatusOf(trace) == ErrorInfo(run.err.value).1
    ensures Committed(run.effects) ==> StatusOf(trace) == StatusOf(run.effects)
    ensures run.err.Some? ==> BodyOf(trace) == BodyOf(run.effects) + [Encode(ErrorBody(ErrorInfo(run.err.value).0.error))]
  {
    var trace := run.effects + MiddlewareEffects(run.err);
    assert StatusOf(trace) == if Committed(run.effects) then StatusOf(run.effects) else StatusOf(MiddlewareEffects(run.err)) by {
      if Committed(run.effects) {
        StatusOfCommittedPrefix(run.effects, MiddlewareEffects(run.err));
      } else {
        StatusOfUncommittedPrefix(run.effects, MiddlewareEffects(run.err));
      }
    }
    BodyOfAppend(run.effects, MiddlewareEffects(run.err));
    trace
  }

  /** A handler that returns a classified error without writing. */
  function Fail(calls: seq<ServiceCall>, cause: Error, code: int): (r: HandlerRun)
    ensures r.calls == calls
    ensures StatusOf(Respond(r)) == code
    ensures BodyOf(Respond(r)) == [Encode(ErrorBody(Message(cause)))]
    ensures HeaderOf(Respond(r), "Content-Type") == Some(JsonContentType)
  {
    var r := HandlerRun(calls, [], Some(NewErrorStatus(cause, code)));
    ErrorInfoOfNewErrorStatus(cause, code);
    assert Respond(r) == MiddlewareEffects(r.err);
    r
  }

  /**
   * What json.NewEncoder(w).Encode(v) did. It marshals first and writes only
   * a marshalled value: a marshal failure writes nothing, a write failure
   * comes after the value was handed to the writer.
   */
  datatype EncodeOutcome =
    | Encoded
    | MarshalFailed(err: Error)
    | WriteFailed(err: Error)

  /** The successful JSON response: content type, 200, and the value unless it could not be marshalled. */
  function JsonOk(value: Json, encode: EncodeOutcome): (effects: seq<Effect>)
    ensures Committed(effects)
    ensures StatusOf(effects) == StatusOK
    ensures BodyOf(effects) == if encode.MarshalFailed? then [] else [Encode(value)]
  {
    var head := [SetHeader("Content-Type", JsonContentType)];
    var body := if encode.MarshalFailed? then [] else [Encode(value)];
    StatusOfHead(head, StatusOK, body);
    BodyOfAppend(head + [WriteHeader(StatusOK)], body);
    BodyOfAppend(head, [WriteHeader(StatusOK)]);
    var effects := head + [WriteHeader(StatusOK)] + body;
    assert Commits(effects[1]);
    effects
  }

  /**
   * The response of a handler that committed 200 and then encoded `value`:
   * the value alone; the value first when writing it failed; only the
   * middleware's error body when it could not be marshalled.
   */
  predicate AnsweredWith(trace: seq<Effect>, value: Json, encode: EncodeOutcome)
  {
    && StatusOf(trace) == StatusOK
    && (encode.Encoded? ==> BodyOf(trace) == [Encode(value)])
    && (encode.WriteFailed? ==> BodyStartsWith(trace, Encode(value)))
    && (encode.MarshalFailed? ==> BodyOf(trace) == [Encode(ErrorBody(ErrorInfo(encode.err).0.error))])
  }

  /**
   * A handler that wrote a 200 JSON response and returned the encoder's error.
   * The middleware cannot change the committed status; it appends its error
   * body, which for an encoder error is "unknown error occurred".
   */
  function Succeed(calls: seq<ServiceCall>, value: Json, encode: EncodeOutcome): (r: HandlerRun)
    ensures r.calls == calls
    ensures AnsweredWith(Respond(r), value, encode)
    ensures encode.MarshalFailed? && Unclassified(encode.err) ==>
              BodyOf(Respond(r)) == [Encode(ErrorBody(UnknownErrorMessage))]
  {
    var effects := JsonOk(value, encode);
    match encode
    case Encoded =>
      var r := HandlerRun(calls, effects, None);
      assert Respond(r) == effects;
      r
    case MarshalFailed(err) =>
      var r := HandlerRun(calls, effects, Some(err));
      MiddlewareCannotChangeCommittedStatus(effects, err);
      r
    case WriteFailed(err) =>
      var r := HandlerRun(calls, effects, Some(err));
      MiddlewareCannotChangeCommittedStatus(effects, err);
      r
  }

  /** The status of a failed lookup: 404 when the driver's ErrNoDocuments is in the chain. */
  function LookupFailureCode(err: Error): (code: int)
    ensures code == StatusNotFound <==> Is(err, NoDocuments)
    ensures code == StatusNotFound || code == StatusInternalServerError
  {
    if Is(err, NoDocuments) then StatusNotFound else StatusInternalServerError
  }

  // ---------------------------------------------------------------------------
  // HealthHandler

  /** HealthHandler: 200 and "Hello world"; a failed write is reported after the head is out. */
  function HealthHandler(writeErr: Option<Error>): (r: HandlerRun)
    ensures r.calls == []
    ensures StatusOf(Respond(r)) == StatusOK
    ensures BodyStartsWith(Respond(r), Write(HelloWorld))
  {
    var effects := [WriteHeader(StatusOK), Write(HelloWorld)];
    var r := HandlerRun([], effects, if writeErr.Some? then Some(NewErrorStatus(writeErr.value, StatusInternalServerError)) else None);
    assert Commits(effects[0]);
    assert BodyOf(effects) == [Write(HelloWorld)];
    if r.err.Some? then
      MiddlewareCannotChangeCommittedStatus(effects, r.err.value);
      r
    else
      assert Respond(r) == effects;
      r
  }

  // ---------------------------------------------------------------------------
  // CreateJoke

  /**
   * CreateJoke. The document gets the generated id, the joke text, UpdatedAt
   * from the first clock reading and CreatedAt from the second.
   */
  function CreateJoke(decode: DecodeOutcome, validation: Option<Error>, newId: ObjectId,
                      clock1: int, clock2: int, answer: Result<Jusgo, Error>, encode: EncodeOutcome): (r: HandlerRun)
    ensures decode.BodyEmpty? ==>
              r.calls == [] && StatusOf(Respond(r)) == StatusBadRequest
              && BodyOf(Respond(r)) == [Encode(ErrorBody(EmptyBodyMessage))]
    ensures decode.DecodeFailed? ==>
              r.calls == [] && StatusOf(Respond(r)) == StatusBadRequest
              && BodyOf(Respond(r)) == [Encode(ErrorBody(Message(decode.err)))]
    ensures decode.Decoded? && validation.Some? ==>
              r.calls == [] && StatusOf(Respond(r)) == StatusBadRequest
              && BodyOf(Respond(r)) == [Encode(ErrorBody(Message(validation.value)))]
    ensures decode.Decoded? && validation.None? ==>
              r.calls == [SvcCreate(Jusgo(newId, decode.request.joke, clock2, clock1))]
    ensures decode.Decoded? && validation.None? && answer.Failure? ==>
              StatusOf(Respond(r)) == StatusInternalServerError
              && BodyOf(Respond(r)) == [Encode(ErrorBody(Message(answer.error)))]
    ensures decode.Decoded? && validation.None? && answer.Success? ==>
              AnsweredWith(Respond(r), Entity(answer.value), encode)
  {
    match decode
    case BodyEmpty => Fail([], Leaf(EmptyBodyMessage), StatusBadRequest)
    case DecodeFailed(err) => Fail([], err, StatusBadRequest)
    case Decoded(req) =>
      if validation.Some? then Fail([], validation.value, StatusBadRequest)
      else
        var data := Jusgo(id := newId, joke := req.joke, updatedAt := clock1, createdAt := clock2);
        var calls := [SvcCreate(data)];
        match answer
        case Failure(err) => Fail(calls, err, StatusInternalServerError)
        case Success(joke) => Succeed(calls, Entity(joke), encode)
  }

  // ---------------------------------------------------------------------------
  // GetJoke

  function GetJoke(id: string, answer: Result<Jusgo, Error>, encode: EncodeOutcome): (r: HandlerRun)
    ensures id == [] ==>
              r.calls == [] && StatusOf(Respond(r)) == StatusBadRequest
              && BodyOf(Respond(r)) == [Encode(ErrorBody(IdRequiredMessage))]
    ensures id != [] ==> r.calls == [SvcGet(id)]
    ensures id != [] && answer.Failure? ==>
              StatusOf(Respond(r)) == (if Is(answer.error, NoDocuments) then StatusNotFound else StatusInternalServerError)
              && BodyOf(Respond(r)) == [Encode(ErrorBody(Message(answer.error)))]
    ensures id != [] && answer.Success? ==>
              AnsweredWith(Respond(r), Entity(answer.value), encode)
  {
    if id == [] then Fail([], Leaf(IdRequiredMessage), StatusBadRequest)
    else
      match answer
      case Failure(err) => Fail([SvcGet(id)], err, LookupFailureCode(err))
      case Success(joke) => Succeed([SvcGet(id)], Entity(joke), encode)
  }

  // ---------------------------------------------------------------------------
  // GetAllJokes and parsePaginationParams

  /** One optional query parameter: its default when absent, else a positive int64. */
  function PositiveParam(s: string, default: int): (r: Option<int>)
    ensures s == [] ==> r == Some(default)
    ensures s != [] ==> (r.Some? <==> Atoi(s).Some? && Atoi(s).value >= 1)
    ensures s != [] && r.Some? ==> r == Atoi(s)
  {
    if s == [] then Some(default)
    else
      match Atoi(s)
      case Some(v) => if v < 1 then None else Some(v)
      case None => None
  }

  /** The page and limit parsePaginationParams accepts, or the error it reports; page is checked first. */
  function PaginationOf(page: string, limit: string): (r: Result<(int, int), Error>)
    ensures r.Success? ==> 1 <= r.value.0 <= MaxInt64 && 1 <= r.value.1 <= MaxInt64
    ensures PositiveParam(page, DefaultPage).None? ==> r == Failure(Leaf(InvalidPageMessage))
    ensures PositiveParam(page, DefaultPage).Some? && PositiveParam(limit, DefaultLimit).None? ==>
              r == Failure(Leaf(InvalidLimitMessage))
    ensures r.Success? <==> PositiveParam(page, DefaultPage).Some? && PositiveParam(limit, DefaultLimit).Some?
  {
    match PositiveParam(page, DefaultPage)
    case None => Failure(Leaf(InvalidPageMessage))
    case Some(p) =>
      match PositiveParam(limit, DefaultLimit)
      case None => Failure(Leaf(InvalidLimitMessage))
      case Some(l) => Success((p, l))
  }

  /** parsePaginationParams over the values of the `page` and `limit` query parameters ("" when absent). */
  method ParsePaginationParams(page: string, limit: string) returns (p: int, l: int, err: Option<Error>)
    ensures err.None? <==> PaginationOf(page, limit).Success?
    ensures err.None? ==> (p, l) == PaginationOf(page, limit).value
    ensures err.Some? ==> p == 0 && l == 0 && PaginationOf(page, limit) == Failure(err.value)
  {
    p := 1;
    l := 10;
    if page != "" {
      var parsed := Atoi(page);
      if parsed.None? || parsed.value < 1 {
        return 0, 0, Some(Leaf(InvalidPageMessage));
      }
      p := parsed.value;
    }
    if limit != "" {
      var parsed := Atoi(limit);
      if parsed.None? || parsed.value < 1 {
        return 0, 0, Some(Leaf(InvalidLimitMessage));
      }
      l := parsed.value;
    }
    err := None;
  }

  /** Absent parameters default to page 1 and limit 10. */
  lemma PaginationDefaults(page: string, limit: string)
    ensures PaginationOf("", "") == Success((DefaultPage, DefaultLimit))
    ensures PaginationOf("", limit).Success? ==> PaginationOf("", limit).value.0 == DefaultPage
    ensures PaginationOf(page, "").Success? ==> PaginationOf(page, "").value.1 == DefaultLimit
  {
  }

  /** Every positive int64 written in decimal is read back as itself. */
  lemma PaginationReadsDecimal(p: nat, l: nat)
    requires 1 <= p <= MaxInt64 && 1 <= l <= MaxInt64
    ensures PaginationOf(Itoa(p), Itoa(l)) == Success((p, l))
  {
    AtoiOfItoa(p);
    AtoiOfItoa(l);
  }

  /** Page zero and negative pages are refused with the page error, whatever the limit. */
  lemma PaginationRejectsNonPositivePage(n: nat, limit: string)
    requires n <= MaxInt64
    ensures PaginationOf("0", limit) == Failure(Leaf(InvalidPageMessage))
    ensures PaginationOf("-" + Itoa(n), limit) == Failure(Leaf(InvalidPageMessage))
  {
    assert "0"[0] == '0';
    assert DigitsValue("0") == 0 by {
      assert "0"[..0] == [];
    }
    DigitsValueOfItoa(n);
    assert ("-" + Itoa(n))[1..] == Itoa(n);
  }

  /** GetAllJokes: a bad page or limit is a 400 without a service call. */
  function GetAllJokes(page: string, limit: string, answer: Result<seq<Jusgo>, Error>, encode: EncodeOutcome): (r: HandlerRun)
    ensures PaginationOf(page, limit).Failure? ==>
              r.calls == [] && StatusOf(Respond(r)) == StatusBadRequest
              && BodyOf(Respond(r)) == [Encode(ErrorBody(Message(PaginationOf(page, limit).error)))]
    ensures PaginationOf(page, limit).Success? ==>
              var (p, l) := PaginationOf(page, limit).value;
              r.calls == [SvcGetAll(p, l)] && p >= 1 && l >= 1
    ensures PaginationOf(page, limit).Success? && answer.Failure? ==>
              StatusOf(Respond(r)) == StatusInternalServerError
    ensures PaginationOf(page, limit).Success? && answer.Success? ==>
              AnsweredWith(Respond(r), EntityList(answer.value), encode)
  {
    match PaginationOf(page, limit)
    case Failure(err) => Fail([], err, StatusBadRequest)
    case Success((p, l)) =>
      match answer
      case Failure(err) => Fail([SvcGetAll(p, l)], err, StatusInternalServerError)
      case Success(jokes) => Succeed([SvcGetAll(p, l)], EntityList(jokes), encode)
  }

  // ---------------------------------------------------------------------------
  // UpdateJoke

  /**
   * UpdateJoke: id, body, validation and id conversion are checked in that
   * order; the service is given the parsed id, the new text and UpdatedAt =
   * now (CreatedAt left at the zero time); every service error is a 500.
   */
  function UpdateJoke(id: string, decode: DecodeOutcome, validation: Option<Error>, now: int,
                      answer: Result<Jusgo, Error>, encode: EncodeOutcome): (r: HandlerRun)
    ensures id == [] ==>
              r.calls == [] && StatusOf(Respond(r)) == StatusBadRequest
              && BodyOf(Respond(r)) == [Encode(ErrorBody(IdRequiredMessage))]
    ensures id != [] && (decode.BodyEmpty? || decode.DecodeFailed? || validation.Some?) ==>
              r.calls == [] && StatusOf(Respond(r)) == StatusBadRequest
    ensures id != [] && decode.Decoded? && validation.None? && ObjectIdFromHex(id).Failure? ==>
              r.calls == [] && StatusOf(Respond(r)) == StatusInternalServerError
              && BodyOf(Respond(r)) == [Encode(ErrorBody(BadObjectIdMessage))]
    ensures id != [] && decode.Decoded? && validation.None? && ObjectIdFromHex(id).Success? ==>
              r.calls == [SvcUpdate(Jusgo(ObjectIdFromHex(id).value, decode.request.joke, ZeroTime, now))]
              && (answer.Failure? ==> StatusOf(Respond(r)) == StatusInternalServerError)
              && (answer.Success? ==> AnsweredWith(Respond(r), Entity(answer.value), encode))
  {
    if id == [] then Fail([], Leaf(IdRequiredMessage), StatusBadRequest)
    else
      match decode
      case BodyEmpty => Fail([], Leaf(EmptyBodyMessage), StatusBadRequest)
      case DecodeFailed(err) => Fail([], err, StatusBadRequest)
      case Decoded(req) =>
        if validation.Some? then Fail([], validation.value, StatusBadRequest)
        else
          match ObjectIdFromHex(id)
          case Failure(_) => Fail([], Leaf(BadObjectIdMessage), StatusInternalServerError)
          case Success(objectId) =>
            var calls := [SvcUpdate(Jusgo(id := objectId, joke := req.joke, createdAt := ZeroTime, updatedAt := now))];
            match answer
            case Failure(err) => Fail(calls, err, StatusInternalServerError)
            case Success(joke) => Succeed(calls, Entity(joke), encode)
  }

  // ---------------------------------------------------------------------------
  // DeleteJoke

  /** DeleteJoke: look the document up first; delete only when that succeeded; 200 with no body. */
  function DeleteJoke(id: string, getAnswer: Result<Jusgo, Error>, deleteAnswer: Option<Error>): (r: HandlerRun)
    ensures id == [] ==>
              r.calls == [] && StatusOf(Respond(r)) == StatusBadRequest
              && BodyOf(Respond(r)) == [Encode(ErrorBody(IdRequiredMessage))]
    ensures id != [] && getAnswer.Failure? ==>
              r.calls == [SvcGet(id)]
              && StatusOf(Respond(r)) == (if Is(getAnswer.error, NoDocuments) then StatusNotFound else StatusInternalServerError)
    ensures id != [] && getAnswer.Success? ==> r.calls == [SvcGet(id), SvcDelete(id)]
    ensures id != [] && getAnswer.Success? && deleteAnswer.Some? ==>
              StatusOf(Respond(r)) == StatusInternalServerError
    ensures id != [] && getAnswer.Success? && deleteAnswer.None? ==>
              StatusOf(Respond(r)) == StatusOK && BodyOf(Respond(r)) == []
    ensures SvcDelete(id) in r.calls ==> getAnswer.Success?
  {
    if id == [] then Fail([], Leaf(IdRequiredMessage), StatusBadRequest)
    else if getAnswer.Failure? then Fail([SvcGet(id)], getAnswer.error, LookupFailureCode(getAnswer.error))
    else if deleteAnswer.Some? then Fail([SvcGet(id), SvcDelete(id)], deleteAnswer.value, StatusInternalServerError)
    else
      var r := HandlerRun([SvcGet(id), SvcDelete(id)], [WriteHeader(StatusOK)], None);
      assert Respond(r) == [WriteHeader(StatusOK)];
      r
  }
}
