/**
 * The older server: a registry of matchers only (no processors), whose
 * match blocks receive the query as a dictionary. Same registration and
 * routing discipline as the current server.
 */
module LegacyServer {
  import opened Wrappers
  import Regex
  import Routing

  type Url = string
  type Headers = map<string, string>
  type Query = map<string, string>

  /** What a matcher builds when it accepts: the routing inputs, carried unchanged. */
  datatype Request = Request(httpMethod: string, url: Url, headers: Headers, path: string, query: Query)

  type MatchBlock = (string, Url, Headers, string, Query) -> Option<Request>

  datatype Handler = Handler(matchBlock: MatchBlock)

  /**
   * The matcher `addHandler(for:regex:)` builds: it declines any other method,
   * declines a path for which the engine reports no match, and otherwise
   * accepts with a request built from its inputs.
   */
  function RegexMatchBlock(httpMethod: string, expression: Regex.Expression): (matchBlock: MatchBlock)
    ensures forall m, u, h, p, q | m != httpMethod :: matchBlock(m, u, h, p, q) == None
    ensures forall m, u, h, p, q | Regex.MatchCount(expression, p) == 0 :: matchBlock(m, u, h, p, q) == None
    ensures forall m, u, h, p, q | m == httpMethod && Regex.MatchCount(expression, p) > 0 ::
      matchBlock(m, u, h, p, q) == Some(Request(m, u, h, p, q))
  {
    (requestMethod, requestUrl, requestHeaders, urlPath, urlQuery) =>
      if requestMethod != httpMethod then None
      else if Regex.MatchCount(expression, urlPath) == 0 then None
      else Some(Request(requestMethod, requestUrl, requestHeaders, urlPath, urlQuery))
  }

  /** Asks one handler's matcher about the given request. */
  function MatchOn(httpMethod: string, url: Url, headers: Headers, path: string, query: Query): (tryMatch: Handler -> Option<Request>)
  {
    (handler: Handler) => handler.matchBlock(httpMethod, url, headers, path, query)
  }

  class WebServer {
    var handlers: seq<Handler>

    constructor ()
      ensures handlers == []
    {
      handlers := [];
    }

    /** Registers a matcher in front of all others. */
    method AddHandler(matchBlock: MatchBlock)
      modifies this`handlers
      ensures handlers == [Handler(matchBlock)] + old(handlers)
      ensures |handlers| == |old(handlers)| + 1 && handlers[1..] == old(handlers)
    {
      handlers := [Handler(matchBlock)] + handlers;
    }

    /** Registers a matcher for `httpMethod` on paths where `regex` matches; nothing when it does not compile. */
    method AddRegexHandler(httpMethod: string, regex: string, engine: Regex.RegexEngine)
      modifies this`handlers
      ensures !engine.compiles(regex) ==> handlers == old(handlers)
      ensures engine.compiles(regex) ==>
        handlers == [Handler(RegexMatchBlock(httpMethod, Regex.Expression(engine, regex)))] + old(handlers)
    {
      var expression := Regex.Compile(engine, regex);
      if expression.Some? {
        AddHandler(RegexMatchBlock(httpMethod, expression.value));
      }
    }

    method RemoveAllHandlers()
      modifies this`handlers
      ensures handlers == []
    {
      handlers := [];
    }

    method HandlersCount() returns (count: int)
      ensures count == |handlers|
    {
      count := |handlers|;
    }

    /** The request built by the first matcher, front to back, that accepts; None if none does. */
    method Route(httpMethod: string, url: Url, headers: Headers, path: string, query: Query) returns (request: Option<Request>)
      ensures request == Routing.FirstMatch(handlers, MatchOn(httpMethod, url, headers, path, query))
      ensures request.None? <==> forall i :: 0 <= i < |handlers| ==> handlers[i].matchBlock(httpMethod, url, headers, path, query).None?
    {
      ghost var tryMatch := MatchOn(httpMethod, url, headers, path, query);
      for i := 0 to |handlers|
        invariant Routing.FirstMatch(handlers[i..], tryMatch) == Routing.FirstMatch(handlers, tryMatch)
      {
        var candidate := handlers[i].matchBlock(httpMethod, url, headers, path, query);
        assert handlers[i..][0] == handlers[i] && handlers[i..][1..] == handlers[i + 1..];
        if candidate.Some? {
          return candidate;
        }
      }
      return None;
    }
  }

  /**
   * Registering GET on "/test" on a fresh server: one handler, a GET on
   * "/test" is routed and any other method on it is not. The engine must
   * compile "/test" and find it in "/test".
   */
  method AddHandlerScenario(engine: Regex.RegexEngine, otherMethod: string, query: Query)
    returns (count: int, getRouted: Option<Request>, otherRouted: Option<Request>)
    requires engine.compiles("/test") && engine.matchCount("/test", "/test") > 0
    requires otherMethod != "GET"
    ensures count == 1
    ensures getRouted == Some(Request("GET", "localhost", map[], "/test", query))
    ensures otherRouted == None
  {
    var server := new WebServer();
    server.AddRegexHandler("GET", "/test", engine);
    count := server.HandlersCount();
    getRouted := server.Route("GET", "localhost", map[], "/test", query);
    otherRouted := server.Route(otherMethod, "localhost", map[], "/test", query);
  }
}
