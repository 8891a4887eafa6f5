/**
 * The request callback of src/main/httpServer.ts as a function from the request to the
 * reply: routing, finalize's choice of status and body, and the POST error paths.
 * URL parsing is taken as done (pathname and decoded query pairs); the handler and
 * JSON.parse are inputs.
 */
module Dispatch {
  import opened Wrappers
  import opened Json
  import opened TriggerParams
  import opened RequestBody

  /** What awaiting the handler yields: a value, or a throw / rejected promise. */
  datatype Outcome = Returned(ok: bool) | Threw

  /** The application-supplied handler, seen through its awaited outcome. */
  type Handler = (string, Params) -> Outcome

  /** One invocation of the handler. */
  datatype Call = Call(cmd: string, params: Params)

  /** The JSON object a response carries. */
  datatype Body =
    | HealthBody                              // { ok: true }
    | CommandBody(success: bool, cmd: string) // { success, cmd }
    | ErrorBody(error: string)                // { success: false, error }

  const JsonContentType := "application/json"
  const NotFound := "NOT_FOUND"
  const InvalidJson := "INVALID_JSON"

  datatype Response = Response(status: int, contentType: string, body: Body)

  /**
   * The fate of one request: a response was sent (with the handler call made, if any),
   * or the socket was destroyed because the body grew past the cap.
   */
  datatype Reply = Sent(response: Response, invoked: Option<Call>) | Destroyed

  /** An inbound request: method, pathname, query pairs and the body's data chunks. */
  datatype Request = Request(verb: string, pathname: string, query: Query, chunks: seq<string>)

  datatype Route = HealthCheck | TriggerGet | TriggerPost | Unrouted

  /** The route table: GET /health, GET or POST /trigger, and nothing else. */
  function RouteOf(verb: string, pathname: string): (r: Route)
    ensures r == HealthCheck <==> verb == "GET" && pathname == "/health"
    ensures r == TriggerGet <==> verb == "GET" && pathname == "/trigger"
    ensures r == TriggerPost <==> verb == "POST" && pathname == "/trigger"
    ensures r == Unrouted <==>
      !(verb == "GET" && pathname == "/health") && !(pathname == "/trigger" && (verb == "GET" || verb == "POST"))
  {
    if verb == "GET" && pathname == "/health" then HealthCheck
    else if pathname == "/trigger" && (verb == "GET" || verb == "POST") then
      if verb == "GET" then TriggerGet else TriggerPost
    else Unrouted
  }

  /** `respond`: every response carries the JSON content type set before routing. */
  function Respond(status: int, body: Body): (r: Response)
    ensures r.contentType == JsonContentType
    ensures r.status == status && r.body == body
  {
    Response(status, JsonContentType, body)
  }

  /**
   * finalize: an empty command fails without calling the handler; otherwise the handler
   * is called once, a throw counts as false, and the body echoes the command.
   */
  function Finalize(t: Trigger, handler: Handler): (r: Reply)
    ensures r.Sent? && r.response.contentType == JsonContentType
    ensures r.invoked == if t.cmd == "" then None else Some(Call(t.cmd, t.params))
    ensures r.response.status == 200 || r.response.status == 400
    ensures r.response.status == 200 <==> t.cmd != "" && handler(t.cmd, t.params) == Returned(true)
    ensures r.response.body == CommandBody(r.response.status == 200, t.cmd)
  {
    var ok :=
      if t.cmd == "" then false
      else match handler(t.cmd, t.params)
        case Returned(b) => b
        case Threw => false;
    Sent(Respond(if ok then 200 else 400, CommandBody(ok, t.cmd)),
         if t.cmd == "" then None else Some(Call(t.cmd, t.params)))
  }

  /** The reply the request callback produces for a request, given the handler and JSON.parse. */
  function ReplyTo(handler: Handler, parse: string -> ParseResult, req: Request): (r: Reply)
    ensures r.Sent? ==> r.response.contentType == JsonContentType
    ensures r.Sent? ==> r.response.status in {200, 400, 404}
    ensures r.Sent? && r.invoked.Some? ==> r.invoked.value.cmd != ""
    ensures r.Sent? && r.response.status == 404 ==>
      r.response.body == ErrorBody(NotFound) && RouteOf(req.verb, req.pathname) == Unrouted
  {
    match RouteOf(req.verb, req.pathname)
    case HealthCheck => Sent(Respond(200, HealthBody), None)
    case TriggerGet => Finalize(FromQuery(req.query), handler)
    case TriggerPost =>
      (match Received(req.chunks)
       case None => Destroyed
       case Some(body) =>
         match FromBody(body, parse)
         case None => Sent(Respond(400, ErrorBody(InvalidJson)), None)
         case Some(t) => Finalize(t, handler))
    case Unrouted => Sent(Respond(404, ErrorBody(NotFound)), None)
  }

  /** The health body is sent for GET /health and for nothing else, always with 200. */
  lemma HealthOnlyForGetHealth(handler: Handler, parse: string -> ParseResult, req: Request)
    ensures (ReplyTo(handler, parse, req).Sent? && ReplyTo(handler, parse, req).response.body == HealthBody)
      <==> req.verb == "GET" && req.pathname == "/health"
    ensures req.verb == "GET" && req.pathname == "/health" ==>
      ReplyTo(handler, parse, req) == Sent(Respond(200, HealthBody), None)
  {
  }

  /** 404 NOT_FOUND exactly when the pair is neither GET /health nor GET or POST /trigger. */
  lemma NotFoundIff(handler: Handler, parse: string -> ParseResult, req: Request)
    ensures ReplyTo(handler, parse, req) == Sent(Respond(404, ErrorBody(NotFound)), None)
      <==> (!(req.verb == "GET" && req.pathname == "/health")
            && !(req.pathname == "/trigger" && (req.verb == "GET" || req.verb == "POST")))
  {
  }

  /** The handler is never called, and is irrelevant, for a request whose command is empty. */
  lemma EmptyCommandSkipsHandler(h1: Handler, h2: Handler, parse: string -> ParseResult, req: Request)
    requires req.pathname == "/trigger"
    requires req.verb == "GET" ==> FromQuery(req.query).cmd == ""
    requires req.verb == "POST" ==>
      && Received(req.chunks).Some?
      && FromBody(Received(req.chunks).value, parse).Some?
      && FromBody(Received(req.chunks).value, parse).value.cmd == ""
    requires req.verb == "GET" || req.verb == "POST"
    ensures ReplyTo(h1, parse, req) == ReplyTo(h2, parse, req)
      == Sent(Respond(400, CommandBody(false, "")), None)
  {
  }

  /**
   * The command the handler is called with, and echoed in the reply, is the one extracted
   * from the request: from the query for GET, from the received body for POST.
   */
  lemma CommandFromRequest(handler: Handler, parse: string -> ParseResult, req: Request)
    ensures req.verb == "GET" && req.pathname == "/trigger" ==>
      ReplyTo(handler, parse, req) == Finalize(FromQuery(req.query), handler)
    ensures (&& req.verb == "POST" && req.pathname == "/trigger"
             && Received(req.chunks).Some? && FromBody(Received(req.chunks).value, parse).Some?) ==>
      ReplyTo(handler, parse, req) == Finalize(FromBody(Received(req.chunks).value, parse).value, handler)
  {
  }

  /** A GET /trigger without a cmd parameter fails with 400 and an empty cmd. */
  lemma GetWithoutCommand(handler: Handler, parse: string -> ParseResult, req: Request)
    requires req.verb == "GET" && req.pathname == "/trigger"
    requires forall i :: 0 <= i < |req.query| ==> req.query[i].0 != "cmd"
    ensures ReplyTo(handler, parse, req) == Sent(Respond(400, CommandBody(false, "")), None)
  {
  }

  /**
   * Every reply on /trigger: 200 exactly when the handler was called and returned true,
   * and every failure is a 400 that either echoes the command or reports INVALID_JSON.
   */
  lemma TriggerReplies(handler: Handler, parse: string -> ParseResult, req: Request)
    requires req.pathname == "/trigger" && (req.verb == "GET" || req.verb == "POST")
    ensures var r := ReplyTo(handler, parse, req);
      r.Sent? ==>
        && (r.response.status == 200 <==>
              r.invoked.Some? && handler(r.invoked.value.cmd, r.invoked.value.params) == Returned(true))
        && (r.response.status == 200 || r.response.status == 400)
        && (r.response.body.CommandBody? || r.response.body == ErrorBody(InvalidJson))
        && (r.response.body.CommandBody? ==>
              r.response.body.success == (r.response.status == 200)
              && (r.invoked.Some? ==> r.invoked.value.cmd == r.response.body.cmd)
              && (r.invoked.None? <==> r.response.body.cmd == ""))
        && (r.response.body == ErrorBody(InvalidJson) ==> r.invoked.None?)
  {
  }

  /** The socket is destroyed exactly for a POST /trigger whose body exceeds the cap, and only then. */
  lemma DestroyedIff(handler: Handler, parse: string -> ParseResult, req: Request)
    ensures ReplyTo(handler, parse, req) == Destroyed
      <==> req.verb == "POST" && req.pathname == "/trigger" && |Concat(req.chunks)| > MaxBodyLength
  {
  }

  /**
   * INVALID_JSON exactly for a POST /trigger whose received body is non-empty and is
   * either no JSON at all or JSON whose `cmd` cannot be converted to a string.
   */
  lemma InvalidJsonIff(handler: Handler, parse: string -> ParseResult, req: Request)
    ensures ReplyTo(handler, parse, req) == Sent(Respond(400, ErrorBody(InvalidJson)), None)
      <==> && req.verb == "POST" && req.pathname == "/trigger"
           && Received(req.chunks).Some? && Received(req.chunks).value != ""
           && var parsed := parse(Received(req.chunks).value);
              (parsed.SyntaxError? ||
               (Property(parsed.value, "cmd").Some? && ElementThrows(Property(parsed.value, "cmd").value)))
  {
  }
}
