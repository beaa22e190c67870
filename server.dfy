/** The Express application (backend/server.js): the cross-origin
    allow-list and its origin callback, the health endpoint, the error
    middleware, and the order in which a request meets them. */
module Server {
  import opened Wrappers
  import Strings
  import Json
  import opened Http
  import Generate

  // ---------------------------------------------------------------------
  // Cross-origin admission
  // ---------------------------------------------------------------------

  const DefaultOrigin := "http://localhost:3000"
  const CorsError := "Not allowed by CORS"

  /** The allow-list: ALLOWED_ORIGINS split at every comma, untrimmed, when
      it is set and non-empty; otherwise the local front end alone. */
  function AllowedOrigins(env: Option<string>): (origins: seq<string>)
    ensures |origins| >= 1
  {
    if Truthy(env) then Strings.Split(env.value, ',') else [DefaultOrigin]
  }

  /** `list.indexOf(x)`: the first position holding `x`, or -1. */
  function IndexOf(list: seq<string>, x: string): (i: int)
    ensures -1 <= i < |list|
    ensures i == -1 <==> x !in list
    ensures i >= 0 ==> list[i] == x && x !in list[..i]
  {
    if list == [] then -1
    else if list[0] == x then 0
    else
      var j := IndexOf(list[1..], x);
      assert j >= 0 ==> list[..j + 1] == [list[0]] + list[1..][..j];
      if j == -1 then -1 else j + 1
  }

  /** What the origin callback tells the CORS middleware. */
  datatype Verdict = Admit | Refuse(error: string)

  /** The origin callback: no Origin header (or an empty one) is admitted,
      an origin on the list is admitted, anything else is refused. */
  function CheckOrigin(allowed: seq<string>, origin: Option<string>): Verdict {
    if !Truthy(origin) then Admit
    else if IndexOf(allowed, origin.value) != -1 then Admit
    else Refuse(CorsError)
  }

  /** A request without an Origin header is always admitted. */
  lemma NoOriginAdmitted(allowed: seq<string>)
    ensures CheckOrigin(allowed, None) == Admit
  {
  }

  /** An origin is admitted exactly when it equals some entry of the list
      character for character; otherwise the callback reports the CORS error. */
  lemma AdmittedExactlyWhenListed(allowed: seq<string>, origin: string)
    requires origin != ""
    ensures CheckOrigin(allowed, Some(origin)) == Admit <==> exists i :: 0 <= i < |allowed| && allowed[i] == origin
    ensures CheckOrigin(allowed, Some(origin)) != Admit ==> CheckOrigin(allowed, Some(origin)) == Refuse(CorsError)
  {
  }

  /** With ALLOWED_ORIGINS unset or empty, only the local front end is admitted. */
  lemma DefaultAllowList(env: Option<string>, origin: string)
    requires env.None? || env.value == ""
    ensures AllowedOrigins(env) == ["http://localhost:3000"]
    ensures origin != "" ==> (CheckOrigin(AllowedOrigins(env), Some(origin)) == Admit <==> origin == "http://localhost:3000")
  {
  }

  /** A set ALLOWED_ORIGINS is split without losing or changing a
      character: joining the list with commas gives the variable back. */
  lemma AllowListKeepsVariable(env: string)
    requires env != ""
    ensures Strings.Join(AllowedOrigins(Some(env)), ',') == env
  {
    Strings.JoinSplit(env, ',');
  }

  /** Entries are not trimmed: in "a, b" the second entry is " b", so the
      origin b (which does not start with a space) is refused and only a
      is admitted. */
  lemma SpaceAfterCommaNotTrimmed(a: string, b: string, origin: string)
    requires ',' !in a && ',' !in b
    requires origin != "" && origin[0] != ' '
    ensures AllowedOrigins(Some(a + ", " + b)) == [a, " " + b]
    ensures CheckOrigin(AllowedOrigins(Some(a + ", " + b)), Some(origin))
      == if origin == a then Admit else Refuse(CorsError)
  {
    assert a + ", " + b == a + [','] + (" " + b);
    Strings.SplitAround(a, " " + b, ',');
    Strings.SplitWithoutSeparator(a, ',');
    Strings.SplitWithoutSeparator(" " + b, ',');
  }

  // ---------------------------------------------------------------------
  // Health check and error middleware
  // ---------------------------------------------------------------------

  /** `GET /health`: a constant answer. */
  function Health(): Response {
    Response(200, Status("ok", "PMP Experience Generator API is running"))
  }

  /** The error middleware: any error reaching it is answered 500 with a
      fixed title and the error's message; its status, if any, is ignored. */
  function ErrorHandler(message: string): Response {
    Response(500, ErrorMessage("Something went wrong!", message))
  }

  // ---------------------------------------------------------------------
  // A request through the middleware stack
  // ---------------------------------------------------------------------

  /** The environment the server reads at start-up. */
  datatype Config = Config(apiKey: Option<string>, allowedOriginsEnv: Option<string>)

  datatype Target = GetHealth | PostGenerate

  /** The body as `express.json` leaves it: parsed, or a parse error with
      its message. */
  datatype RawBody = Parsed(value: Json.Value) | Malformed(message: string)

  datatype Request = Request(origin: Option<string>, target: Target, body: RawBody)

  /** The stack in registration order: body parser, CORS, then the routes;
      an error raised on the way skips to the error middleware. */
  function Serve(config: Config, req: Request, generate: string -> Generate.Outcome): Generate.Exchange {
    match req.body
    case Malformed(message) => Generate.Exchange(ErrorHandler(message), None)
    case Parsed(body) =>
      match CheckOrigin(AllowedOrigins(config.allowedOriginsEnv), req.origin)
      case Refuse(error) => Generate.Exchange(ErrorHandler(error), None)
      case Admit =>
        match req.target
        case GetHealth => Generate.Exchange(Health(), None)
        case PostGenerate => Generate.Handle(body, config.apiKey, generate)
  }

  /** A refused origin gets 500 "Something went wrong!" / "Not allowed by
      CORS" before any route: no validation, no generator. */
  lemma RefusedOriginNeverReachesRoutes(config: Config, req: Request, generate: string -> Generate.Outcome)
    requires req.body.Parsed?
    requires req.origin.Some? && req.origin.value != ""
    requires req.origin.value !in AllowedOrigins(config.allowedOriginsEnv)
    ensures Serve(config, req, generate)
      == Generate.Exchange(Response(500, ErrorMessage("Something went wrong!", "Not allowed by CORS")), None)
  {
  }

  /** An admitted generation request is answered by the route handler alone. */
  lemma AdmittedRequestReachesHandler(config: Config, req: Request, generate: string -> Generate.Outcome)
    requires req.body.Parsed? && req.target == PostGenerate
    requires req.origin.None? || req.origin.value in AllowedOrigins(config.allowedOriginsEnv)
    ensures Serve(config, req, generate) == Generate.Handle(req.body.value, config.apiKey, generate)
  {
  }

  /** The health check answers the same constant to every admitted request
      and never touches the generator. */
  lemma HealthIsConstant(config: Config, req: Request, generate: string -> Generate.Outcome)
    requires req.body.Parsed? && req.target == GetHealth
    requires CheckOrigin(AllowedOrigins(config.allowedOriginsEnv), req.origin) == Admit
    ensures Serve(config, req, generate)
      == Generate.Exchange(Response(200, Status("ok", "PMP Experience Generator API is running")), None)
  {
  }

  /** The body parser runs before the CORS check: a malformed JSON body
      is answered by the error middleware, 500 with the parser's message,
      whatever the origin and the route. */
  lemma MalformedBodyAnsweredFirst(config: Config, req: Request, generate: string -> Generate.Outcome)
    requires req.body.Malformed?
    ensures Serve(config, req, generate)
      == Generate.Exchange(Response(500, ErrorMessage("Something went wrong!", req.body.message)), None)
  {
  }

  /** The generator is reached only by a well-formed generation request
      from an admitted origin whose body the schema admits, with a key set. */
  lemma GeneratorOnlyBehindEveryCheck(config: Config, req: Request, generate: string -> Generate.Outcome)
    ensures Serve(config, req, generate).prompt.Some? <==>
      && req.body.Parsed?
      && CheckOrigin(AllowedOrigins(config.allowedOriginsEnv), req.origin) == Admit
      && req.target == PostGenerate
      && Generate.Parse(req.body.value).Ok?
      && Truthy(config.apiKey)
  {
  }
}
