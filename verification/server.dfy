/**
 * The current server: a registry of (matcher, asynchronous processor)
 * handlers, the convenience registration by httpMethod and path pattern, the
 * options captured by `start`, and the test extension's routing.
 */
module Server {
  import opened Wrappers
  import Regex
  import Routing
  import Responses

  type Url = string
  type Headers = map<string, string>

  /** Start options; the only one the server reads is the port, an integer. */
  type Options = map<string, int>

  const PortOptionKey: string := "Port"

  /** The platform the server is compiled for, which picks the default port. */
  datatype Platform = IOS | OtherPlatform

  function DefaultPort(platform: Platform): (port: int)
    ensures platform == IOS ==> port == 80
    ensures platform == OtherPlatform ==> port == 8080
  {
    if platform == IOS then 80 else 8080
  }

  /** Looks `key` up in the options, falling back to `defaultValue` when there are none or it is absent. */
  function GetOption(options: Option<Options>, key: string, defaultValue: int): (value: int)
    ensures options.Some? && key in options.value ==> value == options.value[key]
    ensures options.None? || key !in options.value ==> value == defaultValue
  {
    if options.Some? && key in options.value then options.value[key] else defaultValue
  }

  /** The options kept after a start with `given`: the first options ever given stay. */
  function CaptureOptions(stored: Option<Options>, given: Options): (kept: Option<Options>)
    ensures kept.Some?
    ensures stored.Some? ==> kept == stored
    ensures stored.None? ==> kept == Some(given)
  {
    if stored.None? then Some(given) else stored
  }

  /** The options kept after starting with each of `calls` in turn. */
  function CaptureAll(stored: Option<Options>, calls: seq<Options>): Option<Options>
    decreases |calls|
  {
    if calls == [] then stored else CaptureAll(CaptureOptions(stored, calls[0]), calls[1..])
  }

  /** Once options are stored, no later start replaces them. */
  lemma {:induction false} StoredOptionsStay(stored: Options, calls: seq<Options>)
    ensures CaptureAll(Some(stored), calls) == Some(stored)
    decreases |calls|
  {
    if calls != [] {
      StoredOptionsStay(stored, calls[1..]);
    }
  }

  /** Over any series of starts on a fresh server, the first options given are the ones kept. */
  lemma {:induction false} FirstSeenOptionsKept(calls: seq<Options>)
    requires |calls| > 0
    ensures CaptureAll(None, calls) == Some(calls[0])
    ensures GetOption(CaptureAll(None, calls), PortOptionKey, 0) ==
            if PortOptionKey in calls[0] then calls[0][PortOptionKey] else 0
  {
    StoredOptionsStay(calls[0], calls[1..]);
  }

  /** What a matcher builds when it accepts: the routing inputs, carried unchanged. */
  datatype Request = Request(httpMethod: string, url: Url, headers: Headers, path: string, query: string)

  type MatchBlock = (string, Url, Headers, string, string) -> Option<Request>

  type ProcessBlock = Request -> Option<Responses.Response>

  /** An asynchronous processor, described by the arguments it passes to its completion block, in order. */
  type AsyncProcessBlock = Request -> seq<Option<Responses.Response>>

  datatype Handler = Handler(matchBlock: MatchBlock, asyncProcessBlock: AsyncProcessBlock)

  /** Wraps a synchronous processor: the completion block is called exactly once, with its result. */
  function AsyncFromSync(processBlock: ProcessBlock): (asyncProcessBlock: AsyncProcessBlock)
    ensures forall request :: |asyncProcessBlock(request)| == 1
    ensures forall request :: asyncProcessBlock(request)[0] == processBlock(request)
  {
    request => [processBlock(request)]
  }

  /**
   * The matcher `addHandler(for:regex:)` builds: it declines another httpMethod,
   * declines a path for which the engine reports no match, and otherwise
   * accepts with a request built from its inputs.
   */
  function RegexMatchBlock(httpMethod: string, expression: Regex.Expression): (matchBlock: MatchBlock)
    ensures forall m, u, h, p, q | m != httpMethod :: matchBlock(m, u, h, p, q) == None
    ensures forall m, u, h, p, q | Regex.MatchCount(expression, p) == 0 :: matchBlock(m, u, h, p, q) == None
    ensures forall m, u, h, p, q | m == httpMethod && Regex.MatchCount(expression, p) > 0 ::
      matchBlock(m, u, h, p, q) == Some(Request(m, u, h, p, q))
  {
    (requestMethod, requestUrl, requestHeaders, urlPath, urlQuery) =>
      if requestMethod != httpMethod then None
      else if Regex.MatchCount(expression, urlPath) == 0 then None
      else Some(Request(requestMethod, requestUrl, requestHeaders, urlPath, urlQuery))
  }

  /** Asks one handler's matcher about the given request. */
  function MatchOn(httpMethod: string, url: Url, headers: Headers, path: string, query: string): (tryMatch: Handler -> Option<Request>)
  {
    (handler: Handler) => handler.matchBlock(httpMethod, url, headers, path, query)
  }

  class WebServer {
    const platform: Platform
    var options: Option<Options>
    var handlers: seq<Handler>

    constructor (platform: Platform)
      ensures this.platform == platform
      ensures options == None && handlers == []
    {
      this.platform := platform;
      options := None;
      handlers := [];
    }

    /** Registers a regular-expression handler whose processor is synchronous. */
    method AddRegexHandlerSync(httpMethod: string, regex: string, engine: Regex.RegexEngine, processBlock: ProcessBlock)
      modifies this`handlers
      ensures !engine.compiles(regex) ==> handlers == old(handlers)
      ensures engine.compiles(regex) ==>
        handlers == [Handler(RegexMatchBlock(httpMethod, Regex.Expression(engine, regex)), AsyncFromSync(processBlock))]
                    + old(handlers)
    {
      AddRegexHandler(httpMethod, regex, engine, AsyncFromSync(processBlock));
    }

    /** Registers a handler for `httpMethod` on paths where `regex` matches; nothing when it does not compile. */
    method AddRegexHandler(httpMethod: string, regex: string, engine: Regex.RegexEngine, asyncProcessBlock: AsyncProcessBlock)
      modifies this`handlers
      ensures !engine.compiles(regex) ==> handlers == old(handlers)
      ensures engine.compiles(regex) ==>
        handlers == [Handler(RegexMatchBlock(httpMethod, Regex.Expression(engine, regex)), asyncProcessBlock)] + old(handlers)
    {
      var expression := Regex.Compile(engine, regex);
      if expression.Some? {
        AddHandler(RegexMatchBlock(httpMethod, expression.value), asyncProcessBlock);
      }
    }

    /** Registers a handler in front of all others. */
    method AddHandler(matchBlock: MatchBlock, asyncProcessBlock: AsyncProcessBlock)
      modifies this`handlers
      ensures handlers == [Handler(matchBlock, asyncProcessBlock)] + old(handlers)
      ensures |handlers| == |old(handlers)| + 1 && handlers[1..] == old(handlers)
    {
      handlers := [Handler(matchBlock, asyncProcessBlock)] + handlers;
    }

    method RemoveAllHandlers()
      modifies this`handlers
      ensures handlers == []
    {
      handlers := [];
    }

    /** The port the listening socket is bound to: the stored options' port, or 0. */
    function BoundPort(): int
      reads this
    {
      GetOption(options, PortOptionKey, 0)
    }

    method Start(bindAndListen: int -> bool) returns (ok: bool)
      modifies this`options
      ensures options == CaptureOptions(old(options), map[PortOptionKey := DefaultPort(platform)])
      ensures ok == bindAndListen(BoundPort())
    {
      ok := StartWithPort(DefaultPort(platform), bindAndListen);
    }

    /**
     * Starts with the default port in the options: the `port` argument is not
     * used. `bindAndListen` is the outcome of creating, binding and listening
     * on a socket for a given port.
     */
    method StartWithPort(port: int, bindAndListen: int -> bool) returns (ok: bool)
      modifies this`options
      ensures options == CaptureOptions(old(options), map[PortOptionKey := DefaultPort(platform)])
      ensures old(options).None? ==> BoundPort() == DefaultPort(platform)
      ensures ok == bindAndListen(BoundPort())
    {
      var startOptions: Options := map[];
      startOptions := startOptions[PortOptionKey := DefaultPort(platform)];
      ok := StartWithOptions(startOptions, bindAndListen);
    }

    /** Stores the options unless some were stored before, then binds the stored port. */
    method StartWithOptions(startOptions: Options, bindAndListen: int -> bool) returns (ok: bool)
      modifies this`options
      ensures options == CaptureOptions(old(options), startOptions)
      ensures ok == bindAndListen(BoundPort())
    {
      if options.None? {
        options := Some(startOptions);
      }
      ok := bindAndListen(GetOption(options, PortOptionKey, 0));
    }

    method HandlersCount() returns (count: int)
      ensures count == |handlers|
    {
      count := |handlers|;
    }

    /** The request built by the first handler, front to back, whose matcher accepts; None if none does. */
    method Route(httpMethod: string, url: Url, headers: Headers, path: string, query: string) returns (request: Option<Request>)
      ensures request == Routing.FirstMatch(handlers, MatchOn(httpMethod, url, headers, path, query))
      ensures request.None? <==> forall i :: 0 <= i < |handlers| ==> handlers[i].matchBlock(httpMethod, url, headers, path, query).None?
    {
      ghost var tryMatch := MatchOn(httpMethod, url, headers, path, query);
      for i := 0 to |handlers|
        invariant Routing.FirstMatch(handlers[i..], tryMatch) == Routing.FirstMatch(handlers, tryMatch)
      {
        var candidate := handlers[i].matchBlock(httpMethod, url, headers, path, query);
        assert handlers[i..][0] == handlers[i] && handlers[i..][1..] == handlers[i + 1..];
        if candidate.Some? {
          return candidate;
        }
      }
      return None;
    }
  }

  /**
   * Two handlers registered one after the other on a fresh server: routing a
   * request the later one accepts gives the later one's answer, whatever the
   * earlier one answers.
   */
  method LaterOverlappingHandlerWins(platform: Platform,
                                     earlier: MatchBlock, earlierProcess: AsyncProcessBlock,
                                     later: MatchBlock, laterProcess: AsyncProcessBlock,
                                     httpMethod: string, url: Url, headers: Headers, path: string, query: string)
    returns (routed: Option<Request>)
    requires later(httpMethod, url, headers, path, query).Some?
    ensures routed == later(httpMethod, url, headers, path, query)
  {
    var server := new WebServer(platform);
    server.AddHandler(earlier, earlierProcess);
    server.AddHandler(later, laterProcess);
    routed := server.Route(httpMethod, url, headers, path, query);
    assert server.handlers[0].matchBlock == later;
    Routing.FirstMatchAt(server.handlers, MatchOn(httpMethod, url, headers, path, query), 0);
  }

  /**
   * The registry test: after registering GET on "/test", a GET on "/test" is
   * routed and a POST is not; after removing all handlers the count is 0 and
   * the GET is no longer routed. The engine must compile "/test" and find it in "/test".
   */
  method AddHandlerScenario(engine: Regex.RegexEngine, processBlock: ProcessBlock, platform: Platform)
    returns (countAfterAdd: int, getRouted: Option<Request>, postRouted: Option<Request>,
             countAfterRemove: int, getRoutedAfterRemove: Option<Request>)
    requires engine.compiles("/test") && engine.matchCount("/test", "/test") > 0
    ensures countAfterAdd == 1
    ensures getRouted == Some(Request("GET", "localhost", map[], "/test", ""))
    ensures postRouted == None
    ensures countAfterRemove == 0 && getRoutedAfterRemove == None
  {
    var server := new WebServer(platform);
    server.AddRegexHandlerSync("GET", "/test", engine, processBlock);
    countAfterAdd := server.HandlersCount();
    getRouted := server.Route("GET", "localhost", map[], "/test", "");
    postRouted := server.Route("POST", "localhost", map[], "/test", "");
    server.RemoveAllHandlers();
    countAfterRemove := server.HandlersCount();
    getRoutedAfterRemove := server.Route("GET", "localhost", map[], "/test", "");
  }
}
