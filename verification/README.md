# okhttp3 logging interceptor — a Dafny model of the per-call decisions

This project models the core of `HttpLoggingInterceptor`, an OkHttp interceptor
that logs outgoing requests and incoming responses for debugging. For each call
it decides three things. It decides whether to log at all: the global `DEBUG`
flag, the level `NONE` and the substring-based URL ignore list can each turn
logging off. It decides which headers are shown: per direction, a configured
list of names is removed from a copy of the headers. It also decides what
happens around the single `chain.proceed(request)` call: on failure it logs
three lines and re-throws the same exception. The model also covers the
constructor, which derives the delegates' `logBody`/`logHeaders` flags from the
level, the default factory, and the `Builder`.

`intercept` is a pure function, `Logging.Intercept`. Its inputs are the `DEBUG`
flag, the constructed interceptor, the request (method, URL string and an
ordered list of header name/value pairs) and the outcome `proceed` produces
(`Returned(response)` or `Thrown(exception)`). It returns a `Call` with three
parts: the outcome handed back to the caller, the list of requests passed to
`proceed`, and the trace of log events. The request and response delegates'
output is opaque. Each delegate call is one `RequestLogged`/`ResponseLogged`
event that carries the delegate (its sink and flags), the message and the
redacted headers it was given.

Modules, one per component: `Wrappers` (Option/Result), `Text` (`String.contains`),
`Headers` (removal and redaction of header names), `Logging` (levels, the
interceptor, its constructor and `intercept`), `InterceptorBuilder` (the `Builder`),
and `Scenarios` (concrete calls).

Choices the model makes:
- A Java `null` is `None`. The level is `Option<LogLevel>`. The level field
  starts as `NONE` (`HttpLoggingInterceptor.java:20`), but `build()` passes an
  unset level through as null (`:138`) and the constructor stores it over that
  default (`:40`). An unset level is therefore not `NONE`. Such an interceptor
  logs, with both flags off, exactly as a `BASIC` one would
  (`Logging.UnsetLevelLogsLikeBasic`).
- Header names are compared by exact string equality. `Headers.RemoveAll` is the
  only member that models the source's comparison; the reference filter
  `Headers.Keep` and the lemmas about it use the same equality.
- The reference definition of redaction is `Headers.Keep`: the entries whose
  name is outside an excluded set, in their original order. A single
  `removeAll` (`Headers.RemoveAll`) and the loop of per-name calls
  (`Headers.RemoveEach`) are each proved equal to it.
- Each `new Logger.BuiltInLogger()` is a distinct object, so a built-in logger
  carries an instance identity. `build()` and the default factory take the
  identity of the logger they would create as a parameter, standing in for
  object allocation.
- `build()` writes the default logger back into the builder (`:136`). So
  `Build` returns the updated builder together with the interceptor, and a
  second build reuses that same logger instance.

## Model

| member | source | states |
|---|---|---|
| Text.Contains | okhttp-logging-interceptor/src/main/java/smartdengg/okhttp3/logging/HttpLoggingInterceptor.java:61 | `url.contains(p)` holds iff `p` occurs at some position of `url` (the empty pattern occurs everywhere) |
| Logging.AnyContained | okhttp-logging-interceptor/src/main/java/smartdengg/okhttp3/logging/HttpLoggingInterceptor.java:60-62 | scanning the list in order finds a match iff some entry occurs in the URL |
| Logging.IsIgnored | okhttp-logging-interceptor/src/main/java/smartdengg/okhttp3/logging/HttpLoggingInterceptor.java:59-63 | a call is skipped iff the ignore list is non-null and some entry occurs in the URL; a null or empty list never skips |
| Headers.RemoveAll | okhttp-logging-interceptor/src/main/java/smartdengg/okhttp3/logging/HttpLoggingInterceptor.java:68 | removing a name is the order-preserving filter by that one name: every entry with the name is dropped, every other entry kept in order with its multiplicity |
| Headers.RemoveEach | okhttp-logging-interceptor/src/main/java/smartdengg/okhttp3/logging/HttpLoggingInterceptor.java:67-69 | removing names one at a time equals one order-preserving filter by membership in the list |
| Headers.Redact | okhttp-logging-interceptor/src/main/java/smartdengg/okhttp3/logging/HttpLoggingInterceptor.java:65-70 | the redacted copy is the original entries whose name is not excluded, in original order; null and empty lists exclude nothing |
| Headers.RedactMembers | okhttp-logging-interceptor/src/main/java/smartdengg/okhttp3/logging/HttpLoggingInterceptor.java:65-70 | an entry is in the redacted list iff it is in the original and its name is not excluded, and it keeps its multiplicity |
| Headers.RedactNothing | okhttp-logging-interceptor/src/main/java/smartdengg/okhttp3/logging/HttpLoggingInterceptor.java:66 | a null or empty exclusion list yields the original list |
| Headers.RedactIdempotent | okhttp-logging-interceptor/src/main/java/smartdengg/okhttp3/logging/HttpLoggingInterceptor.java:65-70 | redacting an already-redacted list with the same names changes nothing |
| Headers.RedactCompose | okhttp-logging-interceptor/src/main/java/smartdengg/okhttp3/logging/HttpLoggingInterceptor.java:67-69 | redacting by `a` and then by `b` equals redacting once by `a + b` |
| Headers.RedactOrderIndependent | okhttp-logging-interceptor/src/main/java/smartdengg/okhttp3/logging/HttpLoggingInterceptor.java:67-69 | lists with the same names, in any order and with any duplicates, redact alike |
| Logging.New | okhttp-logging-interceptor/src/main/java/smartdengg/okhttp3/logging/HttpLoggingInterceptor.java:37-50 | the level, logger and list contents are stored as given; `logBody` holds iff level is BODY and `logHeaders` iff it is HEADERS or BODY (at least HEADERS in verbosity); both delegates get the same logger and the same two flags |
| Logging.CreateDefault | okhttp-logging-interceptor/src/main/java/smartdengg/okhttp3/logging/HttpLoggingInterceptor.java:33-35 | the default interceptor has level BODY, a new built-in logger, both flags on and no exclusions |
| Logging.Intercept | okhttp-logging-interceptor/src/main/java/smartdengg/okhttp3/logging/HttpLoggingInterceptor.java:52-94 | `proceed` is called exactly once with the original request, its outcome is handed back, the trace is empty iff the flag is off, the level is NONE or the URL is ignored, and a constructed interceptor writes every event to its logger |
| Logging.GatedCallIsSilent | okhttp-logging-interceptor/src/main/java/smartdengg/okhttp3/logging/HttpLoggingInterceptor.java:54-57 | with `DEBUG` off or level NONE, the call is forwarded once, its outcome returned, nothing logged |
| Logging.IgnoredUrlIsSilent | okhttp-logging-interceptor/src/main/java/smartdengg/okhttp3/logging/HttpLoggingInterceptor.java:59-63 | a URL containing any entry of the ignore list is forwarded once and nothing is logged |
| Logging.NoIgnoreListNeverSkips | okhttp-logging-interceptor/src/main/java/smartdengg/okhttp3/logging/HttpLoggingInterceptor.java:59 | with a null or empty ignore list, the flag on and a level other than NONE, the request is always logged |
| Logging.LoggedRequestHeaders | okhttp-logging-interceptor/src/main/java/smartdengg/okhttp3/logging/HttpLoggingInterceptor.java:65-72 | a logged call's first event is the request delegate's with exactly the non-excluded request headers, in order |
| Logging.ForwardsOriginalRequest | okhttp-logging-interceptor/src/main/java/smartdengg/okhttp3/logging/HttpLoggingInterceptor.java:72-76 | every header of the original request, excluded ones included, reaches `proceed` |
| Logging.FailurePath | okhttp-logging-interceptor/src/main/java/smartdengg/okhttp3/logging/HttpLoggingInterceptor.java:74-83 | on failure the request event is followed by exactly the failure line, the hint line and the bottom border; the same exception is re-thrown; no response is logged |
| Logging.SuccessPath | okhttp-logging-interceptor/src/main/java/smartdengg/okhttp3/logging/HttpLoggingInterceptor.java:85-93 | on success the response is logged with headers redacted by the response list, and the response returned is the one `proceed` produced |
| Logging.ResponseIgnoresRequestExclusions | okhttp-logging-interceptor/src/main/java/smartdengg/okhttp3/logging/HttpLoggingInterceptor.java:85-91 | the request exclusion list has no influence on the logged response |
| Logging.UnsetLevelLogsLikeBasic | okhttp-logging-interceptor/src/main/java/smartdengg/okhttp3/logging/HttpLoggingInterceptor.java:45-57 | an unset level is not NONE: the call is logged, with the trace a BASIC interceptor would produce |
| InterceptorBuilder.NewBuilder | okhttp-logging-interceptor/src/main/java/smartdengg/okhttp3/logging/HttpLoggingInterceptor.java:104-105 | a fresh builder has nothing set |
| InterceptorBuilder.SetLogLevel | okhttp-logging-interceptor/src/main/java/smartdengg/okhttp3/logging/HttpLoggingInterceptor.java:107-111 | fails with "level is null" iff the level is null, otherwise sets only the level |
| InterceptorBuilder.SetSkipUrls | okhttp-logging-interceptor/src/main/java/smartdengg/okhttp3/logging/HttpLoggingInterceptor.java:113-117 | fails with "urls is null" iff the list is null, otherwise sets only the skip list |
| InterceptorBuilder.SetExclusiveHeaders | okhttp-logging-interceptor/src/main/java/smartdengg/okhttp3/logging/HttpLoggingInterceptor.java:119-126 | fails iff either list is null, naming the request list first; otherwise sets both lists and nothing else |
| InterceptorBuilder.SetLogger | okhttp-logging-interceptor/src/main/java/smartdengg/okhttp3/logging/HttpLoggingInterceptor.java:128-132 | fails with "logger is null" iff the logger is null, otherwise sets only the logger |
| InterceptorBuilder.Build | okhttp-logging-interceptor/src/main/java/smartdengg/okhttp3/logging/HttpLoggingInterceptor.java:134-140 | a new built-in logger is supplied when none was set and written back into the builder; a logger that was set is used as is; every other field, an unset level included, is passed through |
| InterceptorBuilder.DefaultBuildLogs | okhttp-logging-interceptor/src/main/java/smartdengg/okhttp3/logging/HttpLoggingInterceptor.java:134-139 | a builder with nothing set gives a new built-in logger and an unset level, and that interceptor logs when the flag is on |
| InterceptorBuilder.RebuildIsStable | okhttp-logging-interceptor/src/main/java/smartdengg/okhttp3/logging/HttpLoggingInterceptor.java:136 | a second build from the returned builder gives an equal interceptor, and so uses the very logger instance the first build created, whatever instance it would itself create; the builder is unchanged by the second build |
| InterceptorBuilder.BuiltLevelFlags | okhttp-logging-interceptor/src/main/java/smartdengg/okhttp3/logging/HttpLoggingInterceptor.java:45-46 | a level set through the builder gives `logBody` iff BODY and `logHeaders` iff HEADERS or BODY, for both delegates |
| InterceptorBuilder.SettersReachIntercept | okhttp-logging-interceptor/src/main/java/smartdengg/okhttp3/logging/HttpLoggingInterceptor.java:113-138 | after `setLogger`, `setSkipUrls` and `setExclusiveHeaders`, a built interceptor writes every event to that logger, logs nothing for a URL containing a skip entry, logs the request headers filtered by the request list and the response headers filtered by the response list, and forwards the original request once |
| Scenarios.AuthorizationRedacted | okhttp-logging-interceptor/src/main/java/smartdengg/okhttp3/logging/HttpLoggingInterceptor.java:65-76 | at HEADERS with "Authorization" excluded, only "Accept" is logged while the forwarded request still carries "Authorization: secret" |
| Scenarios.BasicLogsSummaryOnly | okhttp-logging-interceptor/src/main/java/smartdengg/okhttp3/logging/HttpLoggingInterceptor.java:45-49 | at BASIC, one request event and one response event are logged, with headers and body off |
| Scenarios.HealthCheckSkipped | okhttp-logging-interceptor/src/main/java/smartdengg/okhttp3/logging/HttpLoggingInterceptor.java:59-63 | with skip list ["/health"], a call to ".../health" logs nothing, proceeds once and returns the response unchanged |

## Left out

- Log line layout: what `RequestDelegate`/`ResponseDelegate.printLog` and the `Logger` implementations write is not part of this model. Each delegate call is one opaque event that carries the redacted headers.
- The failure line's text (`"<-- HTTP FAILED: " + e`) is an event carrying the exception. The hint line keeps the source's exact text.
- OkHttp's `Chain`, `Request`, `Response` and `Headers.Builder` are reduced to plain records. `proceed` is a given outcome, not a call into the network.
- Headers.RemoveAll: compares names by exact string equality. The name comparison inside OkHttp's `removeAll` is not part of this model. A case-insensitive library would also drop differently-cased spellings of an excluded name.
- Concurrency: the `volatile` level field, concurrent calls through one instance and the sink's thread safety are not modelled. A level is fixed per interceptor.
- The static `DEBUG` flag is a parameter of `Intercept`. `LOG_TAG` is not modelled.
- `Utils.requireNonNull` is reduced to "a null argument yields a `NullArgument` failure with the given message". The exception class it throws is not modelled.
- Null elements inside the URL or header-name lists are not modelled. In Java, `contains(null)` and `removeAll(null)` would throw.
- Logging.Intercept: the `catch (Exception e)` clause does not catch Java `Error`s. The model has a single failure kind, so a thrown `Error` escaping without the three failure lines is not represented.
- Logging.Intercept: delegate and logger calls are assumed to return normally. In Java none of them is guarded. If the request delegate's `printLog` (`:72`) throws, `proceed` is never called and that exception reaches the caller. If the logger throws while logging a failure (`:78-81`), its exception replaces the one from `proceed`. If the response delegate's `printLog` (`:91`) throws, the response is not returned.
- Logging.New: the three name lists are shared by reference in Java (`:41-43`, `:115`, `:123-124`). An application that changes its list after `setSkipUrls` or `build()` changes what later calls skip and redact. The model takes the lists' contents as they are when a call is intercepted.
