/** The request middleware of the validated chat app: a composer that runs middlewares in
    order over one shared response, and the four middlewares of its chain — CORS preflight,
    rate limiting, authentication (which lets everything through) and security headers.

    The rate limiter is an outside service: its verdict for an identifier is a parameter. */
module Middleware {
  import opened Wrappers
  import opened KeyValue

  /** The parts of a request the middlewares read. */
  datatype Request = Request(verb: string, ip: Option<string>)

  /** What the sliding-window limiter answers for an identifier. */
  datatype LimitOutcome = Allowed | Denied | LimiterFailed

  /** The middlewares this model knows: the four of the chain, plus the two other shapes the
      composer is written to handle — one that answers `{ continue: false }` and one that
      throws. */
  datatype Kind = HandleCors | RateLimit | Authenticate | SecurityHeaders | Halt | Fail

  /** The response a middleware chain ends with: status, optional JSON body and headers.
      An answer (`Response.Json`, the preflight reply) goes back to the client; the shared
      `Response.Next` is not an answer but lets the request through to the route handler,
      carrying the headers set on it. */
  datatype Reply = Reply(status: int, body: Option<Value>, headers: map<string, string>)

  const InternalError := Record(map["error" := Str("Internal Server Error")])

  const CorsHeaders: map<string, string> := map[
    "Access-Control-Allow-Origin" := "*",
    "Access-Control-Allow-Methods" := "GET, POST, PUT, DELETE, OPTIONS",
    "Access-Control-Allow-Headers" := "Content-Type, Authorization"]

  const SecurityHeaderValues: map<string, string> := map[
    "X-Frame-Options" := "DENY",
    "X-Content-Type-Options" := "nosniff",
    "Referrer-Policy" := "strict-origin-when-cross-origin",
    "Permissions-Policy" := "camera=(), microphone=(), geolocation=()"]

  /** The response object the middlewares share; its headers are set in place. */
  class Response {
    var status: int
    var body: Option<Value>
    var headers: map<string, string>

    /** `NextResponse.next()`: pass the request on, no headers yet. */
    constructor Next()
      ensures status == 200 && body == None && headers == map[]
    {
      status, body, headers := 200, None, map[];
    }

    /** `NextResponse.json(body, { status })`. */
    constructor Json(b: Value, s: int)
      ensures status == s && body == Some(b) && headers == map[]
    {
      status, body, headers := s, Some(b), map[];
    }

    function View(): Reply
      reads this
    {
      Reply(status, body, headers)
    }

    method SetHeader(name: string, value: string)
      modifies this
      ensures headers == old(headers)[name := value]
      ensures status == old(status) && body == old(body)
    {
      headers := headers[name := value];
    }
  }

  /** The limiter key: the client address, or one shared key when there is none. */
  function Identifier(req: Request): (id: string)
    ensures req.ip.None? || req.ip.value == "" ==> id == "127.0.0.1"
    ensures req.ip.Some? && req.ip.value != "" ==> id == req.ip.value
  {
    if req.ip.Some? && req.ip.value != "" then req.ip.value else "127.0.0.1"
  }

  /** What one middleware does, given the headers the shared response carries so far: answer
      with its own response, continue (possibly with more headers), stop, or throw. */
  datatype Step = Answer(reply: Reply) | Go(headers: map<string, string>) | Halted(headers: map<string, string>) | Crashed

  function Effect(m: Kind, req: Request, limiter: string -> LimitOutcome, headers: map<string, string>): Step {
    match m
    case HandleCors =>
      if req.verb == "OPTIONS" then Answer(Reply(200, None, CorsHeaders)) else Go(headers)
    case RateLimit =>
      (match limiter(Identifier(req))
       case Allowed => Go(headers)
       case Denied => Answer(Reply(429, Some(Record(map["message" := Str("Too many requests")])), map[]))
       case LimiterFailed => Answer(Reply(500, Some(InternalError), map[])))
    case Authenticate => Go(headers)
    case SecurityHeaders => Go(headers + SecurityHeaderValues)
    case Halt => Halted(headers)
    case Fail => Crashed
  }

  /** Runs one middleware against the shared response. */
  method Run(m: Kind, req: Request, response: Response, limiter: string -> LimitOutcome)
    returns (result: Outcome)
    modifies response
    ensures response.status == old(response.status) && response.body == old(response.body)
    ensures var step := Effect(m, req, limiter, old(response.headers));
      && (step.Answer? ==> result.Respond? && fresh(result.response) && result.response.View() == step.reply
                           && response.headers == old(response.headers))
      && (step.Go? ==> result == Continue && response.headers == step.headers)
      && (step.Halted? ==> result == Stop && response.headers == old(response.headers))
      && (step.Crashed? ==> result == Thrown && response.headers == old(response.headers))
  {
    if m == HandleCors && req.verb == "OPTIONS" {
      var cors := PreflightResponse();
      result := Respond(cors);
    } else if m == RateLimit && limiter(Identifier(req)) == Denied {
      var tooMany := new Response.Json(Record(map["message" := Str("Too many requests")]), 429);
      result := Respond(tooMany);
    } else if m == RateLimit && limiter(Identifier(req)) == LimiterFailed {
      var failed := new Response.Json(InternalError, 500);
      result := Respond(failed);
    } else if m == SecurityHeaders {
      SetSecurityHeaders(response);
      result := Continue;
    } else if m == Halt {
      result := Stop;
    } else if m == Fail {
      result := Thrown;
    } else {
      // CORS on any other method, an allowed request, or authentication.
      result := Continue;
    }
  }

  /** The fresh response `handleCORS` answers a preflight with. */
  method PreflightResponse() returns (cors: Response)
    ensures fresh(cors) && cors.View() == Reply(200, None, CorsHeaders)
  {
    cors := new Response.Next();
    cors.SetHeader("Access-Control-Allow-Origin", "*");
    cors.SetHeader("Access-Control-Allow-Methods", "GET, POST, PUT, DELETE, OPTIONS");
    cors.SetHeader("Access-Control-Allow-Headers", "Content-Type, Authorization");
  }

  /** `securityHeaders`: the four headers are set on the shared response, over whatever
      it already carries. */
  method SetSecurityHeaders(response: Response)
    modifies response
    ensures response.headers == old(response.headers) + SecurityHeaderValues
    ensures response.status == old(response.status) && response.body == old(response.body)
  {
    SecurityHeadersOneByOne(response.headers);
    response.SetHeader("X-Frame-Options", "DENY");
    response.SetHeader("X-Content-Type-Options", "nosniff");
    response.SetHeader("Referrer-Policy", "strict-origin-when-cross-origin");
    response.SetHeader("Permissions-Policy", "camera=(), microphone=(), geolocation=()");
  }

  /** Setting the four headers one after the other is merging them in at once. */
  lemma SecurityHeadersOneByOne(h: map<string, string>)
    ensures h + SecurityHeaderValues
      == h["X-Frame-Options" := "DENY"]["X-Content-Type-Options" := "nosniff"]
          ["Referrer-Policy" := "strict-origin-when-cross-origin"]
          ["Permissions-Policy" := "camera=(), microphone=(), geolocation=()"]
  {
  }

  /** What a middleware handed back to the composer. */
  datatype Outcome = Respond(response: Response) | Continue | Stop | Thrown

  /** The chain walked from the start: `Go` with the headers gathered when every middleware
      continued, otherwise the step that ended it. */
  function Walk(ms: seq<Kind>, req: Request, limiter: string -> LimitOutcome, start: map<string, string>): Step
  {
    if ms == [] then Go(start)
    else
      var before := Walk(ms[..|ms| - 1], req, limiter, start);
      if before.Go? then Effect(ms[|ms| - 1], req, limiter, before.headers) else before
  }

  /** Once a middleware answers, stops or throws, the ones after it make no difference. */
  lemma {:induction false} WalkAppend(a: seq<Kind>, b: seq<Kind>, req: Request,
                                      limiter: string -> LimitOutcome, start: map<string, string>)
    ensures Walk(a + b, req, limiter, start) ==
      (var first := Walk(a, req, limiter, start);
       if first.Go? then Walk(b, req, limiter, first.headers) else first)
  {
    if b == [] {
      assert a + b == a;
    } else {
      var init := b[..|b| - 1];
      WalkAppend(a, init, req, limiter, start);
      assert (a + b)[..|a + b| - 1] == a + init;
    }
  }

  /** The response the composed chain sends. */
  function Chain(ms: seq<Kind>, req: Request, limiter: string -> LimitOutcome): Reply {
    match Walk(ms, req, limiter, map[])
    case Answer(reply) => reply
    case Go(headers) => Reply(200, None, headers)
    case Halted(headers) => Reply(200, None, headers)
    case Crashed => Reply(500, Some(InternalError), map[])
  }

  /** Runs the middlewares in order over one shared response: the first one that answers
      decides the response, `continue: false` ends the run with the shared response, a
      throw gives a 500, and otherwise the shared response goes out with every header the
      middlewares set on it. */
  method Compose(ms: seq<Kind>, req: Request, limiter: string -> LimitOutcome) returns (resp: Response)
    ensures resp.View() == Chain(ms, req, limiter)
  {
    var response := new Response.Next();
    var i := 0;
    while i < |ms|
      invariant 0 <= i <= |ms|
      invariant response.status == 200 && response.body == None
      invariant Walk(ms[..i], req, limiter, map[]) == Go(response.headers)
    {
      var result := Run(ms[i], req, response, limiter);
      assert ms[..i + 1][..i] == ms[..i];
      WalkAppend(ms[..i + 1], ms[i + 1..], req, limiter, map[]);
      assert ms[..i + 1] + ms[i + 1..] == ms;
      if result.Respond? {
        return result.response;
      }
      if result.Stop? {
        return response;
      }
      if result.Thrown? {
        resp := new Response.Json(InternalError, 500);
        return;
      }
      i := i + 1;
    }
    assert ms[..i] == ms;
    resp := response;
  }

  /** The app's chain. */
  const AppChain := [HandleCors, RateLimit, Authenticate, SecurityHeaders]

  /** A preflight request is answered by the CORS middleware alone: the limiter is never
      consulted and no security header is added. */
  lemma PreflightBypassesTheRest(req: Request, limiter: string -> LimitOutcome)
    requires req.verb == "OPTIONS"
    ensures Chain(AppChain, req, limiter) == Reply(200, None, CorsHeaders)
  {
    WalkAppend([HandleCors], [RateLimit, Authenticate, SecurityHeaders], req, limiter, map[]);
    assert [HandleCors][..0] == [];
    assert [HandleCors] + [RateLimit, Authenticate, SecurityHeaders] == AppChain;
  }

  /** Any other request is decided by the limiter: allowed requests go on with exactly the
      four security headers; denied ones get 429 and a limiter failure 500, without them. */
  lemma OtherRequestsFollowTheLimiter(req: Request, limiter: string -> LimitOutcome)
    requires req.verb != "OPTIONS"
    ensures limiter(Identifier(req)) == Allowed ==> Chain(AppChain, req, limiter) == Reply(200, None, SecurityHeaderValues)
    ensures limiter(Identifier(req)) == Denied ==>
      Chain(AppChain, req, limiter) == Reply(429, Some(Record(map["message" := Str("Too many requests")])), map[])
    ensures limiter(Identifier(req)) == LimiterFailed ==> Chain(AppChain, req, limiter) == Reply(500, Some(InternalError), map[])
  {
    var empty: map<string, string> := map[];
    assert [HandleCors][..0] == [];
    assert Walk([HandleCors], req, limiter, empty) == Go(empty);
    WalkAppend([HandleCors], [RateLimit], req, limiter, empty);
    assert [RateLimit][..0] == [];
    var two := Walk([HandleCors, RateLimit], req, limiter, empty);
    assert [HandleCors] + [RateLimit] == [HandleCors, RateLimit];
    assert two == Effect(RateLimit, req, limiter, empty);
    WalkAppend([HandleCors, RateLimit], [Authenticate, SecurityHeaders], req, limiter, empty);
    assert [HandleCors, RateLimit] + [Authenticate, SecurityHeaders] == AppChain;
    if two.Go? {
      assert [Authenticate, SecurityHeaders][..1] == [Authenticate];
      assert [Authenticate][..0] == [];
      assert Walk([Authenticate], req, limiter, empty) == Go(empty);
      assert Walk([Authenticate, SecurityHeaders], req, limiter, empty) == Go(empty + SecurityHeaderValues);
      assert empty + SecurityHeaderValues == SecurityHeaderValues;
    }
  }

  /** The app's middleware: the chain composed once and applied to every API request. */
  method HandleRequest(req: Request, limiter: string -> LimitOutcome) returns (resp: Response)
    ensures req.verb == "OPTIONS" ==> resp.View() == Reply(200, None, CorsHeaders)
    ensures req.verb != "OPTIONS" && limiter(Identifier(req)) == Allowed ==>
      resp.View() == Reply(200, None, SecurityHeaderValues)
    ensures req.verb != "OPTIONS" && limiter(Identifier(req)) == Denied ==>
      resp.View() == Reply(429, Some(Record(map["message" := Str("Too many requests")])), map[])
    ensures req.verb != "OPTIONS" && limiter(Identifier(req)) == LimiterFailed ==>
      resp.View() == Reply(500, Some(InternalError), map[])
  {
    resp := Compose(AppChain, req, limiter);
    if req.verb == "OPTIONS" {
      PreflightBypassesTheRest(req, limiter);
    } else {
      OtherRequestsFollowTheLimiter(req, limiter);
    }
  }
}
