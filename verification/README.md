# GCDWebServer (Swift port): handler registry, routing and response model

This project models, in Dafny, the handler registry of the Swift port of
GCDWebServer, its routing, the response object, and the HTTP status-code
constants.

- **Registry.** A server keeps an ordered list of handlers. Each handler pairs
  a match block with an asynchronous process block. `addHandler(with:)` inserts
  each new handler at index 0, and `removeAllHandlers()` empties the list.
- **Convenience registration.** `addHandler(for:regex:)` compiles the pattern.
  If compiling fails, it registers nothing. Otherwise it registers a matcher
  that declines any other method and declines a path for which the engine
  reports no match in the range the source searches. Every other request is
  accepted and echoed into a request value, except that building the request
  traps on a `Content-Length` header that `Int(_:)` cannot parse. Any partial
  match is enough.
- **Sync processors.** The overload taking a synchronous process block wraps it
  into an asynchronous one. The wrapper calls its completion block exactly
  once, with the block's result.
- **Start options.** `start(with options:)` keeps the first options map it is
  given. `start(with port:)` offers options holding the default port to
  `start(with options:)`, which stores them only when no options were stored
  yet; it does not use its `port` argument. `getOption` is a dictionary lookup with a default.
- **Routing.** The test extension's `request(with:…)` asks the handlers front
  to back and returns the first request built. Because of head insertion, the
  most recently registered matching handler wins.
- **Two versions.** The older registry (`GCDWebServer-Swift/GCDWebServer.swift`)
  has no processors and passes the query as a dictionary. It is modelled as a
  separate module with the same contract.
- **Responses.** A new response has status 200 and the `Int.max` "no length"
  sentinel. It has a body exactly when it has a content type. Its body reader
  is opened at most once, and only after `prepareForReading()`.
- **Status codes.** The constants are grouped by the status classes of
  section 10 of RFC 2616.

Modules:

| file | module | models |
|---|---|---|
| wrappers.dfy | `Wrappers` | Swift optionals |
| regex.dfy | `Regex` | the regular-expression engine, as a parameter |
| routing.dfy | `Routing` | first-match routing and head insertion, shared by both registries |
| status_codes.dfy | `StatusCodes` | the four status-code enumerations |
| response.dfy | `Responses` | `GCDWebServerResponse` |
| server.dfy | `Server` | the current `GCDWebServer`, with its test extension |
| legacy_server.dfy | `LegacyServer` | the older `GCDWebServer` |

The regular-expression engine is foreign code. It is a value `RegexEngine`
with two fields: whether a pattern compiles, and how many matches a pattern has
in a string. Every registration takes the engine as a parameter.

The operating system's answer to creating, binding and listening on a socket
for a port is a parameter `bindAndListen: int -> bool` of the start methods.

An asynchronous process block is described by the list of values it passes to
its completion block.

The compile-time choice of the default port (80 on iOS, 8080 elsewhere) is the
server's constant `platform`.

## Model

| member | source | states |
|---|---|---|
| `Routing.FirstMatch` | GCDWebServer-Swift/Core/GCDWebServer+Testing.swift:11-17 | The result is None exactly when no handler's matcher accepts. Otherwise it is the answer of some handler whose predecessors all declined. |
| `Routing.RegisteredAppend` | GCDWebServer-Swift/Core/GCDWebServer.swift:119-122 | Registering two batches one after the other equals registering the second batch on the registry the first left, so every later handler sits in front of every earlier one. |
| `Routing.RegisteredShape` | GCDWebServer-Swift/Core/GCDWebServer.swift:121 | After a series of head insertions, the registry is the registrations in reverse order, followed by the handlers that were there before. |
| `Routing.MostRecentRegistrationWins` | GCDWebServer-Swift/Core/GCDWebServer+Testing.swift:11-16 | After a series of registrations, routing answers with the most recently registered handler that accepts, whatever was registered before it. |
| `Routing.FirstMatchAt` | GCDWebServer-Swift/Core/GCDWebServer+Testing.swift:11-16 | If the handler at a position accepts and every earlier one declines, routing returns that handler's answer. |
| `Regex.Compile` | GCDWebServer-Swift/Core/GCDWebServer.swift:93-98 | Compiling yields an expression exactly when the engine accepts the pattern, and the expression keeps that pattern. |
| `StatusCodes.SuccessfulStatus.RawValue` | Sources/Core/GCDWebServerHTTPStatusCodes.swift:33-35 | The successful constants lie in [200,300). |
| `StatusCodes.RedirectionStatus.RawValue` | Sources/Core/GCDWebServerHTTPStatusCodes.swift:38-40 | The redirection constants lie in [300,400). |
| `StatusCodes.ClientErrorStatus.RawValue` | Sources/Core/GCDWebServerHTTPStatusCodes.swift:43-47 | The client-error constants lie in [400,500). |
| `StatusCodes.ServerErrorStatus.RawValue` | Sources/Core/GCDWebServerHTTPStatusCodes.swift:50-53 | The server-error constants lie in [500,600). |
| `StatusCodes.SuccessfulStatus.FromRawValue` | Sources/Core/GCDWebServerHTTPStatusCodes.swift:33-35 | Swift's failable `init(rawValue:)`: it returns the constant with that raw value, and None exactly when no constant has it. |
| `StatusCodes.RedirectionStatus.FromRawValue` | Sources/Core/GCDWebServerHTTPStatusCodes.swift:38-40 | Same, for the redirection enumeration. |
| `StatusCodes.ClientErrorStatus.FromRawValue` | Sources/Core/GCDWebServerHTTPStatusCodes.swift:43-47 | Same, for the client-error enumeration. |
| `StatusCodes.ServerErrorStatus.FromRawValue` | Sources/Core/GCDWebServerHTTPStatusCodes.swift:50-53 | Same, for the server-error enumeration. |
| `StatusCodes.AnyStatus.RawValue` | Sources/Core/GCDWebServerHTTPStatusCodes.swift:28-53 | A constant's raw value lies in the range of its RFC 2616 section 10 class, and only there. |
| `StatusCodes.DeclaredValues` | Sources/Core/GCDWebServerHTTPStatusCodes.swift:33-53 | The constants have the values 200, 304, 400, 401, 412, 500 and 501. |
| `StatusCodes.OnlySuccessfulIsOk` | Sources/Core/GCDWebServerHTTPStatusCodes.swift:33-35 | `ok` is the only constant in the successful range. |
| `StatusCodes.RawValuesDistinct` | Sources/Core/GCDWebServerHTTPStatusCodes.swift:33-53 | No two constants share a raw value, within a class or across classes. |
| `StatusCodes.RawValueRoundTrip` | Sources/Core/GCDWebServerHTTPStatusCodes.swift:33-53 | Reading a constant back from its raw value gives the constant. |
| `Responses.Response.constructor` | Sources/Core/GCDWebServerResponse.swift:57-62 | A fresh response has status 200, no content type, the `Int.max` length sentinel, no reader, and is not opened, so it has no body. |
| `Responses.Response.WithStatusCode` | Sources/Core/GCDWebServerResponse.swift:64-67 | It sets exactly the given status and keeps every other default. |
| `Responses.ResponseWith` | Sources/Core/GCDWebServerResponse.swift:88-90 | It returns a fresh response with exactly the given status and every other default. |
| `Responses.Response.HasBody` | Sources/Core/GCDWebServerResponse.swift:69-71 | A response has a body exactly when its content type is set. |
| `Responses.Response.PrepareForReading` | Sources/Core/GCDWebServerResponse.swift:73-76 | It installs the response itself as the body reader and changes nothing else. |
| `Responses.Response.PerformOpen` | Sources/Core/GCDWebServerResponse.swift:78-84 | It returns the result given by `OpenResult` and moves to the state given by `AfterCall`. It changes no field but `opened` (`isOpened` in the model, since `opened` is reserved in Dafny). |
| `Responses.Response.Open` | Sources/Core/GCDWebServerResponse.swift:94-96 | The response's own reader always opens successfully. |
| `Responses.OpenResult` | Sources/Core/GCDWebServerResponse.swift:78-84 | Opening fails before `prepareForReading` and once opened. Otherwise it returns the reader's answer. |
| `Responses.AfterCall` | Sources/Core/GCDWebServerResponse.swift:73-83 | Preparing installs the reader. Opening with a reader latches `opened` before the reader answers, whatever it answers. Nothing else changes the state. |
| `Responses.OpensAtMostOnce` | Sources/Core/GCDWebServerResponse.swift:78-83 | Over any sequence of prepare and open calls, at most one open succeeds, and none does once the response is opened. |
| `Responses.PrepareThenOpenSucceedsOnce` | Sources/Core/GCDWebServerResponse.swift:73-83 | On a fresh response, preparing and then opening any number of times succeeds exactly once. |
| `Server.DefaultPort` | GCDWebServer-Swift/Core/GCDWebServer.swift:30-34 | The default port is 80 on iOS and 8080 on every other platform. |
| `Server.GetOption` | GCDWebServer-Swift/Core/GCDWebServer.swift:49-54 | It returns the stored value for the key when options exist and hold the key. Otherwise it returns the default. |
| `Server.CaptureOptions` | GCDWebServer-Swift/Core/GCDWebServer.swift:138-141 | Options are stored only when none were stored before. Stored options are never replaced. |
| `Server.StoredOptionsStay` | GCDWebServer-Swift/Core/GCDWebServer.swift:138-141 | Once options are stored, no series of later starts replaces them. |
| `Server.FirstSeenOptionsKept` | GCDWebServer-Swift/Core/GCDWebServer.swift:138-146 | Over any series of starts on a fresh server, the first options map is the one kept, and its port is the one bound. |
| `Server.AsyncFromSync` | GCDWebServer-Swift/Core/GCDWebServer.swift:83-87 | The wrapped processor calls its completion exactly once, with the synchronous block's result. |
| `Server.RegexMatchBlock` | GCDWebServer-Swift/Core/GCDWebServer.swift:101-114 | The matcher declines any other method, whatever the path. It declines a path with zero pattern matches. Otherwise it returns a request carrying its inputs unchanged. |
| `Server.WebServer.constructor` | GCDWebServer-Swift/Core/GCDWebServer.swift:78-81 | A new server has no handlers and no stored options. |
| `Server.WebServer.AddRegexHandlerSync` | GCDWebServer-Swift/Core/GCDWebServer.swift:83-89 | It registers, at the head, the regex matcher with the wrapped synchronous processor. If the pattern does not compile, the registry is unchanged. |
| `Server.WebServer.AddRegexHandler` | GCDWebServer-Swift/Core/GCDWebServer.swift:92-117 | It registers, at the head, the regex matcher with the given processor. If the pattern does not compile, the registry is unchanged. |
| `Server.WebServer.AddHandler` | GCDWebServer-Swift/Core/GCDWebServer.swift:119-122 | The new handler is at index 0, and the old handlers follow in their old order. |
| `Server.WebServer.RemoveAllHandlers` | GCDWebServer-Swift/Core/GCDWebServer.swift:124-126 | The registry is empty afterwards, so a second call changes nothing. |
| `Server.WebServer.Start` | GCDWebServer-Swift/Core/GCDWebServer.swift:128-130 | It starts with the default port, through `StartWithPort`. |
| `Server.WebServer.StartWithPort` | GCDWebServer-Swift/Core/GCDWebServer.swift:132-136 | It offers options holding the platform's default port, whatever `port` is. On a server without stored options, the bound port is the default port. |
| `Server.WebServer.StartWithOptions` | GCDWebServer-Swift/Core/GCDWebServer.swift:138-146 | It stores the options only if none were stored. It binds the stored options' port, or 0, and returns the socket's outcome. |
| `Server.WebServer.HandlersCount` | GCDWebServer-Swift/Core/GCDWebServer+Testing.swift:6-8 | The count is the number of registered handlers. |
| `Server.WebServer.Route` | GCDWebServer-Swift/Core/GCDWebServer+Testing.swift:10-18 | It returns the first request built by the handlers in list order, or None when no matcher accepts (in particular for an empty registry). It reads the registry without changing it. |
| `Server.LaterOverlappingHandlerWins` | GCDWebServer-Swift/Core/GCDWebServer+Testing.swift:11-16 | On a fresh server, after two `addHandler` calls, routing a request that the later handler accepts returns the later handler's answer, whatever the earlier one answers. |
| `Server.AddHandlerScenario` | Tests/Core/GCDWebServerTests.swift:38-53 | After registering GET on `/test`, the count is 1, a GET on `/test` is routed and a POST is not. After `removeAllHandlers` the count is 0 and the GET is not routed. |
| `LegacyServer.RegexMatchBlock` | GCDWebServer-Swift/GCDWebServer.swift:65-78 | The matcher declines any other method, and declines a path with zero pattern matches. Otherwise it returns a request carrying its inputs unchanged. |
| `LegacyServer.WebServer.constructor` | GCDWebServer-Swift/GCDWebServer.swift:47-49 | A new server has no handlers. |
| `LegacyServer.WebServer.AddHandler` | GCDWebServer-Swift/GCDWebServer.swift:51-54 | The new matcher is at index 0, the count grows by one, and the old handlers follow in their old order. |
| `LegacyServer.WebServer.AddRegexHandler` | GCDWebServer-Swift/GCDWebServer.swift:56-81 | It registers the regex matcher at the head. If the pattern does not compile, the registry is unchanged. |
| `LegacyServer.WebServer.RemoveAllHandlers` | GCDWebServer-Swift/GCDWebServer.swift:83-85 | The registry is empty afterwards. |
| `LegacyServer.WebServer.HandlersCount` | GCDWebServer-Swift/GCDWebServer.swift:90-92 | The count is the number of registered handlers. |
| `LegacyServer.WebServer.Route` | GCDWebServer-Swift/GCDWebServer.swift:94-104 | It returns the first request built by the matchers in list order, or None when none accepts. |
| `LegacyServer.AddHandlerScenario` | GCDWebServer-Swift/GCDWebServer.swift:56-104 | After registering GET on `/test` on a fresh server, there is one handler, a GET on `/test` is routed, and any other method is not. |

## Left out

- Socket creation, `setsockopt`, bind, listen and the failure returns of `_start` are operating-system I/O. The outcome is a parameter of the start methods. The missing byte-order conversion of the port in `sin_port` is therefore not modelled.
- The `DispatchSource` accept loop, `stop()` and its `DispatchGroup` barrier are concurrency and are not modelled.
- The semantics of `NSRegularExpression` are not modelled, including the case-insensitive option. The engine is a parameter.
- URLs and header dictionaries are carried unchanged as opaque values (`string` and `map<string, string>`).
- `GCDWebServerConnection`, `GCDWebServerRequest`, `GCDWebServerDataResponse` and `GCDWebServerNormalizeHeaderValue` are not part of this model. The request values built by matchers therefore carry only the five routing inputs. They do not carry the content length and content type that `GCDWebServerRequest` derives from the headers.
- The execution of asynchronous processors is not modelled. Only the completion calls of the synchronous wrapper are.
- Option values are `Any` in the source and are read back with a forced cast to `Int`. The model stores integers only, so the failing cast is not modelled.
- Swift's `Int` is 64 bits wide. The model uses unbounded integers for status codes and counts. Only the `Int.max` sentinel is written out.
- Server.RegexMatchBlock: the engine's match count stands for the matches in the range the source searches, `NSMakeRange(0, urlPath.count)`. That range counts Characters where NSRange counts UTF-16 units, so for a path holding an emoji or a decomposed accent only a prefix is searched. The model does not compute that range; it leaves it to the engine parameter. The method comparison is also weaker than Swift's: Swift's `!=` on strings compares canonical equivalents as equal, while the model compares code points, so a non-ASCII method written in another normal form is declined here and accepted by the source. Finally, the source builds the accepted request with `GCDWebServerRequest(with:…)`, whose initialiser force-unwraps `Int(_:)` of the `Content-Length` header and so traps when that header does not parse as an integer (for example `"abc"`). Headers are opaque in the model, so it returns the request and does not model the trap.
- LegacyServer.RegexMatchBlock: the same search range and the same method comparison as the current matcher, with the same two gaps.
- Server.WebServer.StartWithOptions: `_start` converts the port with `in_port_t(port)`, which traps for a port outside 0...65535. The model passes any integer port to `bindAndListen` and does not model the trap. The same holds for `Start` and `StartWithPort`, which go through it.
- Server.WebServer.Route: the test extension declares the query as a `[String: String]` dictionary, while the current match blocks take a `String` and the registry test passes `""`. The model follows the match blocks and uses a string query throughout.
