/**
 * The route table (RegisterRoutes in internal/controller/handler_impl.go) and
 * the dispatch of a request through it: the "/v1/" mount with its prefix
 * stripped, the six method-and-path patterns, ensureAdmin on the three
 * mutating routes, the middleware around every handler.
 */
module Routes {
  import opened Wrappers
  import opened Errors
  import opened Primitive
  import opened Models
  import opened Http
  import opened Middlewares
  import opened Handlers
  import Service

  const VersionPrefix := "/v1"
  const NotFoundMessage := "404 page not found"
  const MethodNotAllowedMessage := "Method Not Allowed"
  const StatusMethodNotAllowed := 405

  datatype Endpoint = HealthEndpoint | CreateEndpoint | GetEndpoint | ListEndpoint | UpdateEndpoint | DeleteEndpoint

  /** A path pattern: a literal path, or a literal prefix followed by one `{id}` segment. */
  datatype Pattern = Exact(path: string) | WithId(prefix: string)

  /** A registered route; `admin` when its handler is wrapped in ensureAdmin (every handler is wrapped in middleware). */
  datatype Route = Route(verb: string, pattern: Pattern, endpoint: Endpoint, admin: bool)

  /**
   * A ServeMux: its own routes, and possibly one subtree `prefix + "/"` served
   * by `inner` through http.StripPrefix(prefix, inner).
   */
  datatype Mux =
    | Patterns(routes: seq<Route>)
    | Mounted(routes: seq<Route>, prefix: string, inner: Mux)

  /** Where a request goes. */
  datatype Target =
    | Matched(route: Route, id: string)
    | NotFound
    | MethodNotAllowed
    | RedirectTo(location: string)

  /** The six routes RegisterRoutes adds, in its order. */
  function JokeRoutes(): seq<Route>
  {
    [ Route("GET", Exact("/hello-world"), HealthEndpoint, false),
      Route("POST", Exact("/jokes"), CreateEndpoint, true),
      Route("GET", WithId("/jokes/"), GetEndpoint, false),
      Route("GET", Exact("/jokes"), ListEndpoint, false),
      Route("PATCH", WithId("/jokes/"), UpdateEndpoint, true),
      Route("DELETE", WithId("/jokes/"), DeleteEndpoint, true) ]
  }

  function AddRoutes(mux: Mux, routes: seq<Route>): Mux
  {
    match mux
    case Patterns(rs) => Patterns(rs + routes)
    case Mounted(rs, prefix, inner) => Mounted(rs + routes, prefix, inner)
  }

  /** The path value of `{id}` when `path` matches `pattern`; "" for a literal pattern. */
  function PatternMatch(pattern: Pattern, path: string): (r: Option<string>)
    ensures pattern.WithId? && r.Some? ==> r.value != [] && '/' !in r.value && path == pattern.prefix + r.value
  {
    match pattern
    case Exact(p) => if path == p then Some([]) else None
    case WithId(prefix) =>
      if |prefix| <= |path| && path[..|prefix|] == prefix then
        var rest := path[|prefix|..];
        assert path == prefix + rest;
        if rest != [] && '/' !in rest then Some(rest) else None
      else None
  }

  /** A "GET" pattern also serves HEAD requests. */
  predicate MethodMatches(routeMethod: string, verb: string)
  {
    verb == routeMethod || (routeMethod == "GET" && verb == "HEAD")
  }

  /** The first route matching method and path; 405 when only the path matches; 404 otherwise. */
  function MatchRoutes(routes: seq<Route>, verb: string, path: string): (t: Target)
    ensures t.Matched? ==> t.route in routes && PatternMatch(t.route.pattern, path) == Some(t.id)
                           && MethodMatches(t.route.verb, verb)
    ensures t.NotFound? <==> forall r | r in routes :: PatternMatch(r.pattern, path).None?
    ensures !t.RedirectTo?
  {
    if routes == [] then NotFound
    else
      var rest := MatchRoutes(routes[1..], verb, path);
      match PatternMatch(routes[0].pattern, path)
      case Some(id) =>
        if MethodMatches(routes[0].verb, verb) then Matched(routes[0], id)
        else if rest.Matched? then rest
        else MethodNotAllowed
      case None => rest
  }

  /** Every route registered on the mux or on a mux mounted inside it. */
  function AllRoutes(mux: Mux): seq<Route>
  {
    match mux
    case Patterns(routes) => routes
    case Mounted(routes, _, inner) => routes + AllRoutes(inner)
  }

  /**
   * ServeMux dispatch; a mounted subtree strips its prefix before the inner mux
   * sees the path, and the prefix itself is redirected to the subtree.
   */
  function Dispatch(mux: Mux, verb: string, path: string): (t: Target)
    ensures t.Matched? ==> t.route in AllRoutes(mux) && MethodMatches(t.route.verb, verb)
    ensures t.Matched? && t.route.pattern.WithId? ==> t.id != [] && '/' !in t.id
    ensures mux.Patterns? ==> !t.RedirectTo?
    ensures mux.Mounted? && path == mux.prefix ==> t == RedirectTo(path + "/")
  {
    match mux
    case Patterns(routes) => MatchRoutes(routes, verb, path)
    case Mounted(routes, prefix, inner) =>
      if |prefix| + 1 <= |path| && path[..|prefix| + 1] == prefix + "/" then Dispatch(inner, verb, path[|prefix|..])
      else if path == prefix then RedirectTo(prefix + "/")
      else MatchRoutes(routes, verb, path)
  }

  /** The server mux newHandlerImpl ends up with. */
  function Server(): Mux
  {
    Mounted([], VersionPrefix, Patterns(JokeRoutes()))
  }

  class HandlerImpl {
    var server: Mux

    /** newHandlerImpl: a fresh mux, then RegisterRoutes. */
    constructor ()
      ensures server == Server()
    {
      server := Patterns([]);
      new;
      RegisterRoutes();
      assert [] + JokeRoutes() == JokeRoutes();
    }

    /** RegisterRoutes: add the six routes to the current mux, then replace it by the "/v1" mount of it. */
    method RegisterRoutes()
      modifies this
      ensures server == Mounted([], VersionPrefix, AddRoutes(old(server), JokeRoutes()))
    {
      server := AddRoutes(server, JokeRoutes());
      var v1 := Mounted([], VersionPrefix, server);
      server := v1;
    }

    /** Serve one request on this handler's mux, recording what is written and which service calls are made. */
    method ServeHTTP(w: ResponseRecorder, req: Request, token: string, world: World) returns (calls: seq<ServiceCall>)
      modifies w
      ensures w.trace == old(w.trace) + Serve(server, req, token, world).trace
      ensures calls == Serve(server, req, token, world).calls
    {
      match Dispatch(server, req.verb, req.path)
      case NotFound =>
        w.Replay(HttpError(NotFoundMessage, StatusNotFound));
        calls := [];
      case MethodNotAllowed =>
        w.Replay(HttpError(MethodNotAllowedMessage, StatusMethodNotAllowed));
        calls := [];
      case RedirectTo(location) =>
        w.Replay(MovedPermanently(req.verb, location));
        calls := [];
      case Matched(route, id) =>
        calls := ServeRouteHTTP(w, route, id, req, token, world);
    }
  }

  /** The routed part of ServeHTTP: the gate, then the handler's writes and the middleware's. */
  method ServeRouteHTTP(w: ResponseRecorder, route: Route, id: string, req: Request, token: string, world: World)
    returns (calls: seq<ServiceCall>)
    modifies w
    ensures w.trace == old(w.trace) + ServeRoute(route, id, req, token, world).trace
    ensures calls == ServeRoute(route, id, req, token, world).calls
  {
    var decision := EnsureAdmin(req.authorization, token);
    if route.admin && decision.Unauthorized? {
      w.Replay(AuthEffects(decision.message));
      calls := [];
    } else {
      var run := RunEndpoint(route.endpoint, id, req, world);
      w.Replay(run.effects);
      Middleware(w, run.err);
      calls := run.calls;
    }
  }

  /** What the handlers read from a request: method, path, the authorization header, the page and limit query values. */
  datatype Request = Request(verb: string, path: string, authorization: string, page: string, limit: string)

  /** The answers of everything outside the controller for one request. */
  datatype World = World(
    decode: DecodeOutcome,
    validation: Option<Error>,
    newId: ObjectId,
    clock1: int,
    clock2: int,
    createAnswer: Result<Jusgo, Error>,
    getAnswer: Result<Jusgo, Error>,
    updateAnswer: Result<Jusgo, Error>,
    deleteAnswer: Option<Error>,
    listAnswer: Result<seq<Jusgo>, Error>,
    encode: EncodeOutcome,
    writeErr: Option<Error>)

  /** The service calls made and the response written for one request. */
  datatype Exchange = Exchange(calls: seq<ServiceCall>, trace: seq<Effect>)

  function RunEndpoint(endpoint: Endpoint, id: string, req: Request, world: World): (r: HandlerRun)
    ensures |r.calls| <= 2
    ensures endpoint == HealthEndpoint ==> r.calls == []
    ensures forall c | c in r.calls ::
              && (c.SvcCreate? ==> endpoint == CreateEndpoint)
              && (c.SvcUpdate? ==> endpoint == UpdateEndpoint)
              && (c.SvcDelete? ==> endpoint == DeleteEndpoint && c.id == id)
              && (c.SvcGet? ==> c.id == id)
  {
    match endpoint
    case HealthEndpoint => HealthHandler(world.writeErr)
    case CreateEndpoint =>
      CreateJoke(world.decode, world.validation, world.newId, world.clock1, world.clock2, world.createAnswer, world.encode)
    case GetEndpoint => GetJoke(id, world.getAnswer, world.encode)
    case ListEndpoint => GetAllJokes(req.page, req.limit, world.listAnswer, world.encode)
    case UpdateEndpoint =>
      UpdateJoke(id, world.decode, world.validation, world.clock1, world.updateAnswer, world.encode)
    case DeleteEndpoint => DeleteJoke(id, world.getAnswer, world.deleteAnswer)
  }

  /** One request through the mux, ensureAdmin where registered, middleware and the handler. */
  function Serve(mux: Mux, req: Request, token: string, world: World): (ex: Exchange)
    ensures var t := Dispatch(mux, req.verb, req.path);
            ex.calls != [] ==> t.Matched? && (t.route.admin ==> EnsureAdmin(req.authorization, token) == Pass)
  {
    match Dispatch(mux, req.verb, req.path)
    case NotFound => Exchange([], HttpError(NotFoundMessage, StatusNotFound))
    case MethodNotAllowed => Exchange([], HttpError(MethodNotAllowedMessage, StatusMethodNotAllowed))
    case RedirectTo(location) => Exchange([], MovedPermanently(req.verb, location))
    case Matched(route, id) => ServeRoute(route, id, req, token, world)
  }

  /** A routed request: ensureAdmin where the route has it, then the handler inside middleware. */
  function ServeRoute(route: Route, id: string, req: Request, token: string, world: World): Exchange
  {
    var decision := EnsureAdmin(req.authorization, token);
    if route.admin && decision.Unauthorized? then Exchange([], AuthEffects(decision.message))
    else
      var run := RunEndpoint(route.endpoint, id, req, world);
      Exchange(run.calls, Respond(run))
  }

  /**
   * What the client receives when no handler runs: 404 for an unknown path,
   * 405 for a known path with the wrong method, 301 to the subtree for the
   * mount prefix, and 401 when ensureAdmin refuses an admin route.
   */
  lemma ServeWithoutHandler(mux: Mux, req: Request, token: string, world: World)
    ensures var t := Dispatch(mux, req.verb, req.path);
            var ex := Serve(mux, req, token, world);
            && (t.NotFound? ==> ex.calls == [] && StatusOf(ex.trace) == StatusNotFound)
            && (t.MethodNotAllowed? ==> ex.calls == [] && StatusOf(ex.trace) == StatusMethodNotAllowed)
            && (t.RedirectTo? ==> ex.calls == [] && StatusOf(ex.trace) == StatusMovedPermanently
                                  && HeaderOf(ex.trace, "Location") == Some(t.location))
            && (t.Matched? && t.route.admin && EnsureAdmin(req.authorization, token).Unauthorized? ==>
                  ex.calls == [] && StatusOf(ex.trace) == StatusUnauthorized)
  {
  }

  // ---------------------------------------------------------------------------
  // Properties of the table

  /** Exactly POST /jokes, PATCH /jokes/{id} and DELETE /jokes/{id} are behind ensureAdmin. */
  lemma AdminRoutesAreTheMutations()
    ensures forall r | r in JokeRoutes() :: r.admin <==> r.verb in {"POST", "PATCH", "DELETE"}
  {
  }

  /** Every route of the table is reachable only under "/v1/". */
  lemma {:induction false} MatchedOnlyUnderV1(verb: string, path: string)
    ensures Dispatch(Server(), verb, path).Matched? ==> |path| >= 4 && path[..4] == "/v1/"
  {
    assert MatchRoutes([], verb, path).NotFound?;
  }

  /** Under "/v1", the inner table sees the path with "/v1" stripped. */
  lemma V1PrefixIsStripped(verb: string, path: string)
    requires |path| >= 1 && path[0] == '/'
    ensures Dispatch(Server(), verb, VersionPrefix + path) == MatchRoutes(JokeRoutes(), verb, path)
  {
    var full := VersionPrefix + path;
    assert full[..|VersionPrefix| + 1] == VersionPrefix + "/";
    assert full[|VersionPrefix|..] == path;
  }

  // ---------------------------------------------------------------------------
  // The bearer gate in front of the handlers

  /** A request ensureAdmin lets through reaches the handler unchanged: the response is the handler's. */
  lemma AdmittedRequestsReachTheHandler(req: Request, token: string, world: World)
    ensures var t := Dispatch(Server(), req.verb, req.path);
            t.Matched? && EnsureAdmin(req.authorization, token) == Pass ==>
              var run := RunEndpoint(t.route.endpoint, t.id, req, world);
              Serve(Server(), req, token, world) == Exchange(run.calls, Respond(run))
  {
  }

  // ---------------------------------------------------------------------------
  // Requests end to end

  /** The table on "/jokes": GET lists, POST creates, anything else is a 405. */
  lemma {:induction false} JokesPathRoutes(verb: string)
    ensures verb == "GET" ==> MatchRoutes(JokeRoutes(), verb, "/jokes") == Matched(JokeRoutes()[3], [])
    ensures verb == "POST" ==> MatchRoutes(JokeRoutes(), verb, "/jokes") == Matched(JokeRoutes()[1], [])
    ensures verb !in {"GET", "HEAD", "POST"} ==> MatchRoutes(JokeRoutes(), verb, "/jokes") == MethodNotAllowed
  {
    JokesPathUpToCreate(verb);
    JokesPathAfterCreate(verb);
  }

  /** Up to the POST route, "/jokes" is matched only by POST itself. */
  lemma {:induction false} JokesPathUpToCreate(verb: string)
    ensures MatchRoutes(JokeRoutes(), verb, "/jokes") ==
              if verb == "POST" then Matched(JokeRoutes()[1], []) else MatchRoutes(JokeRoutes()[2..], verb, "/jokes")
  {
    var R := JokeRoutes();
    assert PatternMatch(R[0].pattern, "/jokes").None?;
    assert PatternMatch(R[1].pattern, "/jokes") == Some([]);
    assert R[1..][1..] == R[2..];
    assert MatchRoutes(R, verb, "/jokes") == MatchRoutes(R[1..], verb, "/jokes");
  }

  /** Past the POST route, "/jokes" is matched only by the list route. */
  lemma {:induction false} JokesPathAfterCreate(verb: string)
    ensures MatchRoutes(JokeRoutes()[2..], verb, "/jokes") ==
              if MethodMatches("GET", verb) then Matched(JokeRoutes()[3], []) else MethodNotAllowed
  {
    var R := JokeRoutes();
    assert PatternMatch(R[2].pattern, "/jokes").None?;
    assert PatternMatch(R[3].pattern, "/jokes") == Some([]);
    assert PatternMatch(R[4].pattern, "/jokes").None?;
    assert PatternMatch(R[5].pattern, "/jokes").None?;
    assert R[5..][1..] == [];
    assert R[4..][1..] == R[5..];
    assert R[3..][1..] == R[4..];
    assert R[2..][1..] == R[3..];
    assert MatchRoutes(R[4..], verb, "/jokes") == NotFound;
    assert MatchRoutes(R[3..], verb, "/jokes") == if MethodMatches("GET", verb) then Matched(R[3], []) else MethodNotAllowed;
  }

  /** The table on "/jokes/{id}": GET reads, PATCH updates, DELETE deletes. */
  lemma {:induction false} IdPathRoutes(verb: string, id: string)
    requires id != [] && '/' !in id
    ensures verb == "GET" ==> MatchRoutes(JokeRoutes(), verb, "/jokes/" + id) == Matched(JokeRoutes()[2], id)
    ensures verb == "PATCH" ==> MatchRoutes(JokeRoutes(), verb, "/jokes/" + id) == Matched(JokeRoutes()[4], id)
    ensures verb == "DELETE" ==> MatchRoutes(JokeRoutes(), verb, "/jokes/" + id) == Matched(JokeRoutes()[5], id)
  {
    IdPathUpToGet(verb, id);
    IdPathAfterList(verb, id);
  }

  /** The first three routes: only GET /jokes/{id} takes an id path; the table goes on past it for other methods. */
  lemma {:induction false} IdPathUpToGet(verb: string, id: string)
    requires id != [] && '/' !in id
    ensures MatchRoutes(JokeRoutes(), verb, "/jokes/" + id) ==
              if MethodMatches("GET", verb) then Matched(JokeRoutes()[2], id)
              else var rest := MatchRoutes(JokeRoutes()[3..], verb, "/jokes/" + id);
                   if rest.Matched? then rest else MethodNotAllowed
  {
    var R := JokeRoutes();
    var path := "/jokes/" + id;
    assert path[1] == 'j';
    assert path[..7] == "/jokes/" && path[7..] == id;
    assert PatternMatch(R[0].pattern, path).None?;
    assert PatternMatch(R[1].pattern, path).None?;
    assert PatternMatch(R[2].pattern, path) == Some(id);
    assert R[2..][1..] == R[3..];
    assert R[1..][1..] == R[2..];
    assert MatchRoutes(R, verb, path) == MatchRoutes(R[2..], verb, path);
  }

  /** Past the list route: PATCH and DELETE take an id path. */
  lemma {:induction false} IdPathAfterList(verb: string, id: string)
    requires id != [] && '/' !in id
    ensures verb == "PATCH" ==> MatchRoutes(JokeRoutes()[3..], verb, "/jokes/" + id) == Matched(JokeRoutes()[4], id)
    ensures verb == "DELETE" ==> MatchRoutes(JokeRoutes()[3..], verb, "/jokes/" + id) == Matched(JokeRoutes()[5], id)
  {
    var R := JokeRoutes();
    var path := "/jokes/" + id;
    assert path[..7] == "/jokes/" && path[7..] == id;
    assert PatternMatch(R[3].pattern, path).None? by { assert path != "/jokes"; }
    assert PatternMatch(R[4].pattern, path) == Some(id);
    assert PatternMatch(R[5].pattern, path) == Some(id);
    assert R[5..][1..] == [];
    assert R[4..][1..] == R[5..];
    assert R[3..][1..] == R[4..];
    if verb == "DELETE" {
      assert MatchRoutes(R[5..], verb, path) == Matched(R[5], id);
    }
  }

  /** "/v1/jokes" through the "/v1" mount. */
  lemma ServerJokesRoutes(verb: string)
    ensures verb == "GET" ==> Dispatch(Server(), verb, "/v1/jokes") == Matched(JokeRoutes()[3], [])
    ensures verb == "POST" ==> Dispatch(Server(), verb, "/v1/jokes") == Matched(JokeRoutes()[1], [])
  {
    assert VersionPrefix + "/jokes" == "/v1/jokes";
    V1PrefixIsStripped(verb, "/jokes");
    JokesPathRoutes(verb);
  }

  /** "/v1/jokes/{id}" through the "/v1" mount. */
  lemma ServerIdRoutes(verb: string, id: string)
    requires id != [] && '/' !in id
    ensures verb == "GET" ==> Dispatch(Server(), verb, "/v1/jokes/" + id) == Matched(JokeRoutes()[2], id)
    ensures verb == "PATCH" ==> Dispatch(Server(), verb, "/v1/jokes/" + id) == Matched(JokeRoutes()[4], id)
    ensures verb == "DELETE" ==> Dispatch(Server(), verb, "/v1/jokes/" + id) == Matched(JokeRoutes()[5], id)
  {
    assert VersionPrefix + ("/jokes/" + id) == "/v1/jokes/" + id;
    V1PrefixIsStripped(verb, "/jokes/" + id);
    IdPathRoutes(verb, id);
  }

  /** A routed request that passes the gate (if any) gets exactly its handler's response. */
  lemma ServeMatchedRoute(mux: Mux, req: Request, token: string, world: World, route: Route, id: string)
    requires Dispatch(mux, req.verb, req.path) == Matched(route, id)
    requires !route.admin || EnsureAdmin(req.authorization, token) == Pass
    ensures var run := RunEndpoint(route.endpoint, id, req, world);
            Serve(mux, req, token, world) == Exchange(run.calls, Respond(run))
  {
  }

  /** A request for "/v1/jokes" by GET or POST (admitted) gets the list or create handler's response. */
  lemma ServeJokesPath(req: Request, token: string, world: World)
    requires req.path == "/v1/jokes" && (req.verb == "GET" || req.verb == "POST")
    requires req.verb == "POST" ==> EnsureAdmin(req.authorization, token) == Pass
    ensures var run := RunEndpoint(if req.verb == "GET" then ListEndpoint else CreateEndpoint, [], req, world);
            Serve(Server(), req, token, world) == Exchange(run.calls, Respond(run))
  {
    ServerJokesRoutes(req.verb);
    var k := if req.verb == "GET" then 3 else 1;
    assert JokeRoutes()[k].endpoint == if req.verb == "GET" then ListEndpoint else CreateEndpoint;
    ServeMatchedRoute(Server(), req, token, world, JokeRoutes()[k], []);
  }

  /** A request for "/v1/jokes/{id}" by GET, or by PATCH or DELETE (admitted), gets that handler's response. */
  lemma ServeIdPath(req: Request, id: string, token: string, world: World)
    requires id != [] && '/' !in id
    requires req.path == "/v1/jokes/" + id && (req.verb == "GET" || req.verb == "PATCH" || req.verb == "DELETE")
    requires req.verb != "GET" ==> EnsureAdmin(req.authorization, token) == Pass
    ensures var endpoint := if req.verb == "GET" then GetEndpoint else if req.verb == "PATCH" then UpdateEndpoint else DeleteEndpoint;
            var run := RunEndpoint(endpoint, id, req, world);
            Serve(Server(), req, token, world) == Exchange(run.calls, Respond(run))
  {
    ServerIdRoutes(req.verb, id);
    var k := if req.verb == "GET" then 2 else if req.verb == "PATCH" then 4 else 5;
    assert JokeRoutes()[k].endpoint == if req.verb == "GET" then GetEndpoint else if req.verb == "PATCH" then UpdateEndpoint else DeleteEndpoint;
    ServeMatchedRoute(Server(), req, token, world, JokeRoutes()[k], id);
  }

  /** GET /v1/jokes?page=0 is a 400 naming the page, and the service is not called. */
  lemma ListWithPageZero(limit: string, token: string, world: World)
    ensures var ex := Serve(Server(), Request("GET", "/v1/jokes", "", "0", limit), token, world);
            ex.calls == [] && StatusOf(ex.trace) == StatusBadRequest
            && BodyOf(ex.trace) == [Encode(ErrorBody(InvalidPageMessage))]
  {
    var req := Request("GET", "/v1/jokes", "", "0", limit);
    var run := GetAllJokes("0", limit, world.listAnswer, world.encode);
    ServeJokesPath(req, token, world);
    assert Serve(Server(), req, token, world) == Exchange(run.calls, Respond(run));
    PaginationRejectsNonPositivePage(0, limit);
  }

  /** GET /v1/jokes/{id} answered with the driver's ErrNoDocuments is a 404. */
  lemma GetMissingJokeIsNotFound(id: string, token: string, world: World)
    requires id != [] && '/' !in id
    requires world.getAnswer.Failure? && Is(world.getAnswer.error, NoDocuments)
    ensures var ex := Serve(Server(), Request("GET", "/v1/jokes/" + id, "", "", ""), token, world);
            ex.calls == [SvcGet(id)] && StatusOf(ex.trace) == StatusNotFound
  {
    var req := Request("GET", "/v1/jokes/" + id, "", "", "");
    var run := GetJoke(id, world.getAnswer, world.encode);
    ServeIdPath(req, id, token, world);
    assert Serve(Server(), req, token, world) == Exchange(run.calls, Respond(run));
  }

  /**
   * GET /v1/jokes/{id} with an id that is not 24 hex digits is a 500 when the
   * service is the service layer of this repository: its conversion error is
   * not ErrNoDocuments, and no repository call is made.
   */
  lemma GetBadHexIsInternalError(id: string, token: string, world: World, repoAnswer: Result<Jusgo, Error>)
    requires id != [] && '/' !in id
    requires ObjectIdFromHex(id).Failure?
    requires world.getAnswer == Service.GetJoke(id, repoAnswer).result
    ensures var ex := Serve(Server(), Request("GET", "/v1/jokes/" + id, "", "", ""), token, world);
            StatusOf(ex.trace) == StatusInternalServerError && Service.GetJoke(id, repoAnswer).calls == []
  {
    var req := Request("GET", "/v1/jokes/" + id, "", "", "");
    var run := GetJoke(id, world.getAnswer, world.encode);
    ServeIdPath(req, id, token, world);
    assert Serve(Server(), req, token, world) == Exchange(run.calls, Respond(run));
    assert !Is(ObjectIdFromHex(id).error, NoDocuments);
  }

  /** DELETE /v1/jokes/{id} with an accepted bearer header on a missing document is a 404, and nothing is deleted. */
  lemma DeleteMissingJokeIsNotFound(id: string, authorization: string, token: string, world: World)
    requires id != [] && '/' !in id
    requires EnsureAdmin(authorization, token) == Pass
    requires world.getAnswer.Failure? && Is(world.getAnswer.error, NoDocuments)
    ensures var ex := Serve(Server(), Request("DELETE", "/v1/jokes/" + id, authorization, "", ""), token, world);
            ex.calls == [SvcGet(id)] && StatusOf(ex.trace) == StatusNotFound
  {
    var req := Request("DELETE", "/v1/jokes/" + id, authorization, "", "");
    var run := DeleteJoke(id, world.getAnswer, world.deleteAnswer);
    ServeIdPath(req, id, token, world);
    assert Serve(Server(), req, token, world) == Exchange(run.calls, Respond(run));
  }

  /** PATCH /v1/jokes/{id} on a missing document is a 500, never a 404. */
  lemma UpdateMissingJokeIsInternalError(id: string, authorization: string, token: string, world: World)
    requires id != [] && '/' !in id
    requires EnsureAdmin(authorization, token) == Pass
    requires world.decode.Decoded? && world.validation.None? && ObjectIdFromHex(id).Success?
    requires world.updateAnswer.Failure? && Is(world.updateAnswer.error, NoDocuments)
    ensures StatusOf(Serve(Server(), Request("PATCH", "/v1/jokes/" + id, authorization, "", ""), token, world).trace)
              == StatusInternalServerError
  {
    var req := Request("PATCH", "/v1/jokes/" + id, authorization, "", "");
    var run := UpdateJoke(id, world.decode, world.validation, world.clock1, world.updateAnswer, world.encode);
    ServeIdPath(req, id, token, world);
    assert Serve(Server(), req, token, world) == Exchange(run.calls, Respond(run));
  }

  /** POST /v1/jokes with an accepted bearer header and a body that fails validation is a 400 without a service call. */
  lemma CreateInvalidJokeIsBadRequest(authorization: string, token: string, world: World)
    requires EnsureAdmin(authorization, token) == Pass
    requires world.decode.Decoded? && world.validation.Some?
    ensures var ex := Serve(Server(), Request("POST", "/v1/jokes", authorization, "", ""), token, world);
            ex.calls == [] && StatusOf(ex.trace) == StatusBadRequest
  {
    var req := Request("POST", "/v1/jokes", authorization, "", "");
    var run := CreateJoke(world.decode, world.validation, world.newId, world.clock1, world.clock2, world.createAnswer, world.encode);
    ServeJokesPath(req, token, world);
    assert Serve(Server(), req, token, world) == Exchange(run.calls, Respond(run));
  }

  /** The health check is served as /v1/hello-world ... */
  lemma HealthUnderV1(token: string, world: World)
    ensures StatusOf(Serve(Server(), Request("GET", "/v1/hello-world", "", "", ""), token, world).trace) == StatusOK
  {
    var req := Request("GET", "/v1/hello-world", "", "", "");
    var run := HealthHandler(world.writeErr);
    var path := "/v1/hello-world";
    assert path[..4] == "/v1/" && path[3..] == "/hello-world";
    assert PatternMatch(JokeRoutes()[0].pattern, "/hello-world") == Some([]);
    assert Dispatch(Server(), "GET", path) == Matched(JokeRoutes()[0], []);
    assert JokeRoutes()[0].endpoint == HealthEndpoint;
    assert RunEndpoint(HealthEndpoint, [], req, world) == run;
    ServeMatchedRoute(Server(), req, token, world, JokeRoutes()[0], []);
    assert Serve(Server(), req, token, world) == Exchange(run.calls, Respond(run));
  }

  /** ... and not as /hello-world, which is outside the "/v1" mount. */
  lemma HealthNotAtRoot(token: string, world: World)
    ensures StatusOf(Serve(Server(), Request("GET", "/hello-world", "", "", ""), token, world).trace) == StatusNotFound
  {
    var req := Request("GET", "/hello-world", "", "", "");
    assert req.path[..4] != "/v1/" by { assert req.path[..4][1] == 'h'; }
    assert req.path != VersionPrefix;
    assert Dispatch(Server(), req.verb, req.path) == NotFound;
    assert Serve(Server(), req, token, world) == Exchange([], HttpError(NotFoundMessage, StatusNotFound));
  }
}
