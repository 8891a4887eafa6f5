/**
 * The stateful part of src/main/httpServer.ts: the module-level `server` singleton that
 * start and stop guard, and the request callback that the listener runs.
 */
module HttpServer {
  import opened Wrappers
  import opened TriggerParams
  import opened RequestBody
  import opened Dispatch
  import opened Json

  /**
   * The request callback: routes the request, accumulates a POST body chunk by chunk
   * (destroying the socket past the cap), and replies through finalize.
   */
  method HandleRequest(handler: Handler, parse: string -> ParseResult, req: Request) returns (reply: Reply)
    ensures reply == ReplyTo(handler, parse, req)
  {
    match RouteOf(req.verb, req.pathname) {
      case HealthCheck =>
        reply := Sent(Respond(200, HealthBody), None);
      case TriggerGet =>
        reply := Finalize(FromQuery(req.query), handler);
      case TriggerPost =>
        var body, destroyed := Accumulate(req.chunks);
        if destroyed {
          reply := Destroyed;
        } else {
          match FromBody(body, parse) {
            case None =>
              reply := Sent(Respond(400, ErrorBody(InvalidJson)), None);
            case Some(t) =>
              reply := Finalize(t, handler);
          }
        }
      case Unrouted =>
        reply := Sent(Respond(404, ErrorBody(NotFound)), None);
    }
  }

  /** A bound listener: its port and the handler its request callback calls. */
  datatype Listener = Listener(port: int, handler: Handler)

  /** The process-wide listener slot and the history of listeners bound and closed. */
  class TriggerServer {
    var server: Option<Listener>
    ghost var bound: seq<Listener>   // listeners bound so far, in order
    ghost var closed: seq<Listener>  // listeners whose close() was called, in order

    /** At most one listener is open: every bound listener but the current one was closed. */
    ghost predicate Valid()
      reads this
    {
      && |closed| <= |bound| <= |closed| + 1
      && closed == bound[..|closed|]
      && (server.Some? <==> |bound| == |closed| + 1)
      && (server.Some? ==> server.value == bound[|bound| - 1])
    }

    /** The module's initial state: `server` is null. */
    constructor ()
      ensures Valid() && server.None? && bound == [] && closed == []
    {
      server := None;
      bound := [];
      closed := [];
    }

    /**
     * start: while a listener exists, return true and change nothing (the first port and
     * handler win). Otherwise bind a new one; `bindThrows` says whether creating or
     * listening throws synchronously, in which case the slot is cleared and false returned.
     */
    method Start(port: int, handler: Handler, bindThrows: bool) returns (ok: bool)
      requires Valid()
      modifies this
      ensures Valid()
      ensures old(server).Some? ==>
        ok && server == old(server) && bound == old(bound) && closed == old(closed)
      ensures old(server).None? ==> ok == !bindThrows && closed == old(closed)
      ensures old(server).None? && !bindThrows ==>
        server == Some(Listener(port, handler)) && bound == old(bound) + [Listener(port, handler)]
      ensures old(server).None? && bindThrows ==> server.None? && bound == old(bound)
    {
      if server.Some? {
        return true;
      }
      if bindThrows {
        server := None;
        return false;
      }
      server := Some(Listener(port, handler));
      bound := bound + [server.value];
      return true;
    }

    /**
     * The bound listener's request callback: a request reaching it is answered with the
     * handler that Start stored.
     */
    method Serve(parse: string -> ParseResult, req: Request) returns (reply: Reply)
      requires server.Some?
      ensures reply == ReplyTo(server.value.handler, parse, req)
    {
      reply := HandleRequest(server.value.handler, parse, req);
    }

    /**
     * stop: with no listener, nothing happens. Otherwise the slot is cleared first and
     * then the captured listener is closed; a failure thrown by close is swallowed after
     * the slot is already clear, so it changes nothing here.
     */
    method Stop()
      requires Valid()
      modifies this
      ensures Valid() && server.None? && bound == old(bound)
      ensures old(server).Some? ==> closed == old(closed) + [old(server).value]
      ensures old(server).None? ==> closed == old(closed)
    {
      if server.Some? {
        var s := server.value;
        server := None;
        closed := closed + [s];
      }
    }
  }

  /**
   * Two starts in a row both succeed and bind only once, to the first port and handler,
   * whatever binding would have done on the second call; a request arriving afterwards
   * is answered with the first handler.
   */
  method StartTwice(s: TriggerServer, p1: int, h1: Handler, p2: int, h2: Handler, bindThrows2: bool,
                    parse: string -> ParseResult, req: Request)
    returns (first: bool, second: bool, reply: Reply)
    requires s.Valid() && s.server.None?
    modifies s
    ensures s.Valid() && first && second
    ensures s.server == Some(Listener(p1, h1))
    ensures s.bound == old(s.bound) + [Listener(p1, h1)] && s.closed == old(s.closed)
    ensures reply == ReplyTo(h1, parse, req)
  {
    first := s.Start(p1, h1, false);
    second := s.Start(p2, h2, bindThrows2);
    reply := s.Serve(parse, req);
  }

  /** stop; stop leaves the same state as a single stop. */
  method StopTwice(s: TriggerServer)
    requires s.Valid()
    modifies s
    ensures s.Valid() && s.server.None? && s.bound == old(s.bound)
    ensures old(s.server).Some? ==> s.closed == old(s.closed) + [old(s.server).value]
    ensures old(s.server).None? ==> s.closed == old(s.closed)
  {
    s.Stop();
    s.Stop();
  }
}
