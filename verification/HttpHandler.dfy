/** Answering one HTTP request for a stream: the response header, then the body it announces. */
module HttpHandler {
  import opened Common
  import opened ByteRanges
  import opened StreamBody

  /** The file a stream serves. */
  datatype Route = Route(fileOffset: U64, fileSize: U64, pieceSize: U32)

  /** How the queue, the writer and the engine behave towards this request. */
  datatype Surroundings = Surroundings(
    demandQueued: bool, headersAccepted: bool,
    stopBefore: nat -> bool, queued: nat -> bool, script: (nat, nat) -> Pass)

  datatype Reply =
    | NotFound
    | HeadersOnly(response: StreamResponse)
    | Unavailable
    | HeadersRefused(response: StreamResponse)
    | Streamed(response: StreamResponse, ending: Ending, output: seq<Byte>)

  function BodyOf(route: Route, range: ByteRange, env: Surroundings): Body {
    Body(route.fileOffset, route.pieceSize, range, env.stopBefore, env.queued, env.script)
  }

  /** Printing is injective, and a response has one Content-Length. */
  lemma LengthHeader(verb: HttpMethod, rangeHeader: Option<string>, size: U64, n: nat)
    requires BuildStreamResponse(verb, rangeHeader, size).bodyRange.Some?
    ensures var r := BuildStreamResponse(verb, rangeHeader, size);
      Header("Content-Length", Print(n)) in r.headers <==> n == r.bodyRange.value.end - r.bodyRange.value.start + 1
  {
    var r := BuildStreamResponse(verb, rangeHeader, size);
    BodyHeaders(verb, rangeHeader, size);
    LengthFits(r.bodyRange.value, size);
    PrintIsDigits(n);
    PrintIsDigits(r.bodyRange.value.end - r.bodyRange.value.start + 1);
  }

  /** The request gets as far as its body. */
  predicate ReachesBody(response: StreamResponse, env: Surroundings) {
    response.includeBody && response.bodyRange.Some? && env.demandQueued && env.headersAccepted
  }

  ghost predicate TrustedRoute(content: int -> Byte, route: Route, env: Surroundings) {
    && route.pieceSize > 0
    && forall range: ByteRange :: TrustedBody(content, BodyOf(route, range, env)) && CarriesBody(BodyOf(route, range, env))
  }

  /**
   The bytes sent are a prefix of the range's bytes of the file; exactly Content-Length bytes are
   sent if and only if the response finished, which it does if and only if it can be addressed
   and nothing fails.
   */
  ghost predicate BodySent(content: int -> Byte, route: Route, env: Surroundings, response: StreamResponse,
                           ending: Ending, output: seq<Byte>)
  {
    && response.bodyRange.Some?
    && var range := response.bodyRange.value;
    && var body := BodyOf(route, range, env);
    && range.start <= range.end < route.fileSize && CarriesBody(body)
    && IsContent(content, route.fileOffset + range.start, output) && |output| <= range.end - range.start + 1
    && (Header("Content-Length", Print(|output|)) in response.headers <==> ending == Finished)
    && (ending == Finished <==> Servable(body) && NothingFails(body))
  }

  /** The response announces the length of a range inside the file. */
  ghost predicate Announces(response: StreamResponse, size: U64) {
    && response.bodyRange.Some? && response.bodyRange.value.start <= response.bodyRange.value.end < size
    && forall n: nat :: Header("Content-Length", Print(n)) in response.headers <==>
                        n == response.bodyRange.value.end - response.bodyRange.value.start + 1
  }

  lemma ResponseAnnounces(verb: HttpMethod, rangeHeader: Option<string>, size: U64)
    ensures var r := BuildStreamResponse(verb, rangeHeader, size);
      (r.includeBody ==> r.bodyRange.Some?) && (r.bodyRange.Some? ==> Announces(r, size))
  {
    var r := BuildStreamResponse(verb, rangeHeader, size);
    ResponseIsConsistent(verb, rangeHeader, size);
    if r.bodyRange.Some? {
      forall n: nat ensures Header("Content-Length", Print(n)) in r.headers <==> n == r.bodyRange.value.end - r.bodyRange.value.start + 1 {
        LengthHeader(verb, rangeHeader, size, n);
      }
    }
  }

  method SendBody(ghost content: int -> Byte, route: Route, response: StreamResponse, env: Surroundings)
    returns (ending: Ending, output: seq<Byte>)
    requires TrustedRoute(content, route, env) && Announces(response, route.fileSize)
    ensures BodySent(content, route, env, response, ending, output)
  {
    var issued, site;
    ending, output, issued, site := StreamRange(content, BodyOf(route, response.bodyRange.value, env));
  }

  /** Every request is answered in one of five ways, each exactly in its case. */
  method HandleHttp(ghost content: int -> Byte, route: Option<Route>, verb: HttpMethod, rangeHeader: Option<string>, env: Surroundings)
    returns (reply: Reply)
    requires route.Some? ==> TrustedRoute(content, route.value, env)
    ensures reply.NotFound? <==> route.None?
    ensures route.Some? ==>
      var response := BuildStreamResponse(verb, rangeHeader, route.value.fileSize);
      && (reply.Streamed? <==> ReachesBody(response, env))
      && (reply.Unavailable? <==> response.includeBody && !env.demandQueued)
      && (reply.HeadersRefused? <==> response.includeBody && env.demandQueued && !env.headersAccepted)
      && (reply.HeadersOnly? || reply.HeadersRefused? || reply.Streamed? ==> reply.response == response)
      && (reply.Streamed? ==> BodySent(content, route.value, env, response, reply.ending, reply.output))
  {
    if route.None? {
      return NotFound;
    }
    var response := BuildStreamResponse(verb, rangeHeader, route.value.fileSize);
    ResponseAnnounces(verb, rangeHeader, route.value.fileSize);
    if !response.includeBody || response.bodyRange.None? {
      return HeadersOnly(response);
    }
    if !env.demandQueued {
      return Unavailable;
    }
    if !env.headersAccepted {
      return HeadersRefused(response);
    }
    var ending, output := SendBody(content, route.value, response, env);
    return Streamed(response, ending, output);
  }
}
