/** The per-call decision logic of the logging interceptor: whether a call is
    logged, which headers are shown, and what happens around the single
    `proceed` call. `intercept` is modelled as a pure function returning the
    outcome handed back to the caller, the requests passed to `proceed`, and
    the trace of log events. */
module Logging {
  import opened Wrappers
  import opened Headers
  import Text

  /** Verbosity levels; an interceptor's level may also be unset (`None`). */
  datatype LogLevel = NONE | BASIC | HEADERS | BODY

  /** Position in the verbosity order NONE < BASIC < HEADERS < BODY. */
  function Verbosity(l: LogLevel): nat
  {
    match l
    case NONE => 0
    case BASIC => 1
    case HEADERS => 2
    case BODY => 3
  }

  /** A log sink: an instance of the built-in logger, or one supplied by the
      application. Each carries an object identity, since every
      `new Logger.BuiltInLogger()` is a distinct sink. */
  datatype Logger = BuiltInLogger(instance: nat) | CustomLogger(id: nat)

  /** A request or response formatter, fixed at construction time. */
  datatype Delegate = Delegate(sink: Logger, logBody: bool, logHeaders: bool)

  datatype Request = Request(httpMethod: string, url: string, headers: seq<Header>)
  datatype Response = Response(code: int, headers: seq<Header>)
  datatype Exception = Exception(description: string)

  /** What `proceed` does, and what `intercept` hands back to its caller. */
  datatype Outcome = Returned(response: Response) | Thrown(error: Exception)

  /** The hint logged after a failure, before the exception is re-thrown. */
  const RethrowHint: string :=
    "--- we also re-throw this exception, please choose other tag under your monitor to see more information ---"

  /** One step of a call's log block. Delegate output is opaque: it is
      recorded together with the redacted headers the delegate was given. */
  datatype LogEvent =
    | RequestLogged(delegate: Delegate, request: Request, headers: seq<Header>)
    | FailureLine(sink: Logger, error: Exception)
    | HintLine(sink: Logger, text: string)
    | BottomBorder(sink: Logger)
    | ResponseLogged(delegate: Delegate, response: Response, headers: seq<Header>)

  /** The sink an event is written to. */
  function SinkOf(e: LogEvent): Logger
  {
    match e
    case RequestLogged(d, _, _) => d.sink
    case FailureLine(s, _) => s
    case HintLine(s, _) => s
    case BottomBorder(s) => s
    case ResponseLogged(d, _, _) => d.sink
  }

  /** The observable effect of one intercepted call. */
  datatype Call = Call(outcome: Outcome, proceeded: seq<Request>, trace: seq<LogEvent>)

  /** A constructed interceptor. The three name lists are the contents the
      configured lists hold when a call is intercepted. */
  datatype Interceptor = Interceptor(
    level: Option<LogLevel>,
    logger: Logger,
    ignoredUrls: Option<seq<string>>,
    exclusiveRequestHeaders: Option<seq<string>>,
    exclusiveResponseHeaders: Option<seq<string>>,
    requestDelegate: Delegate,
    responseDelegate: Delegate)

  /** The delegates agree with the level and the logger, as the constructor
      makes them. */
  ghost predicate Valid(ic: Interceptor)
  {
    && ic.requestDelegate.sink == ic.logger
    && ic.responseDelegate.sink == ic.logger
    && (ic.requestDelegate.logBody <==> ic.level == Some(BODY))
    && (ic.responseDelegate.logBody <==> ic.level == Some(BODY))
    && (ic.requestDelegate.logHeaders <==> ic.level == Some(HEADERS) || ic.level == Some(BODY))
    && (ic.responseDelegate.logHeaders <==> ic.level == Some(HEADERS) || ic.level == Some(BODY))
  }

  /** The private constructor: stores the configuration as given (an unset
      level stays unset) and derives both delegates' flags from the level. */
  function New(level: Option<LogLevel>, logger: Logger, ignoredUrls: Option<seq<string>>,
               excludeRequestHeaders: Option<seq<string>>,
               excludeResponseHeaders: Option<seq<string>>): (ic: Interceptor)
    ensures Valid(ic)
    ensures ic.level == level && ic.logger == logger && ic.ignoredUrls == ignoredUrls
    ensures ic.exclusiveRequestHeaders == excludeRequestHeaders
    ensures ic.exclusiveResponseHeaders == excludeResponseHeaders
    ensures ic.requestDelegate.sink == ic.responseDelegate.sink == logger
    ensures ic.requestDelegate.logBody == ic.responseDelegate.logBody
    ensures ic.requestDelegate.logHeaders == ic.responseDelegate.logHeaders
    ensures ic.requestDelegate.logBody ==> ic.requestDelegate.logHeaders
    ensures ic.requestDelegate.logHeaders <==> level.Some? && Verbosity(level.value) >= Verbosity(HEADERS)
    ensures ic.requestDelegate.logBody <==> level.Some? && Verbosity(level.value) >= Verbosity(BODY)
  {
    var logBody := level == Some(BODY);
    var logHeaders := logBody || level == Some(HEADERS);
    Interceptor(level, logger, ignoredUrls, excludeRequestHeaders, excludeResponseHeaders,
                Delegate(logger, logBody, logHeaders), Delegate(logger, logBody, logHeaders))
  }

  /** The default factory: level BODY, a new built-in logger (identified by
      `instance`), no exclusions. */
  function CreateDefault(instance: nat): (ic: Interceptor)
    ensures Valid(ic)
    ensures ic.level == Some(BODY) && ic.logger == BuiltInLogger(instance)
    ensures ic.requestDelegate.logBody && ic.requestDelegate.logHeaders
    ensures ic.responseDelegate.logBody && ic.responseDelegate.logHeaders
    ensures ic.ignoredUrls.None? && ic.exclusiveRequestHeaders.None? && ic.exclusiveResponseHeaders.None?
  {
    New(Some(BODY), BuiltInLogger(instance), None, None, None)
  }

  /** The request URL contains some entry of a non-null, non-empty ignore list. */
  function IsIgnored(url: string, ignoredUrls: Option<seq<string>>): (r: bool)
    ensures r <==> ignoredUrls.Some? && exists i :: 0 <= i < |ignoredUrls.value|
                                                   && Text.OccursIn(ignoredUrls.value[i], url)
  {
    ignoredUrls.Some? && |ignoredUrls.value| > 0 && AnyContained(url, ignoredUrls.value)
  }

  /** Scans the patterns in order for one that `url` contains. */
  function AnyContained(url: string, patterns: seq<string>): (r: bool)
    ensures r <==> exists i :: 0 <= i < |patterns| && Text.OccursIn(patterns[i], url)
    decreases |patterns|
  {
    if |patterns| == 0 then false
    else if Text.Contains(url, patterns[0]) then true
    else
      var rest := AnyContained(url, patterns[1..]);
      assert forall i :: 1 <= i < |patterns| ==> patterns[1..][i - 1] == patterns[i];
      rest
  }

  /** The call is forwarded without any logging: the global flag is off, the
      level is NONE, or the URL is ignored. An unset level is not NONE. */
  predicate Silent(debug: bool, ic: Interceptor, request: Request)
  {
    !debug || ic.level == Some(NONE) || IsIgnored(request.url, ic.ignoredUrls)
  }

  /** One pass of `intercept`, given the outcome `proceed` produces. */
  function Intercept(debug: bool, ic: Interceptor, request: Request, proceed: Outcome): (c: Call)
    ensures c.proceeded == [request]
    ensures c.outcome == proceed
    ensures |c.trace| == 0 <==> Silent(debug, ic, request)
    ensures Valid(ic) ==> forall k :: 0 <= k < |c.trace| ==> SinkOf(c.trace[k]) == ic.logger
  {
    if !debug || ic.level == Some(NONE) then
      Call(proceed, [request], [])
    else if IsIgnored(request.url, ic.ignoredUrls) then
      Call(proceed, [request], [])
    else
      var logged := RequestLogged(ic.requestDelegate, request,
                                  Redact(request.headers, ic.exclusiveRequestHeaders));
      match proceed
      case Thrown(e) =>
        Call(proceed, [request],
             [logged, FailureLine(ic.logger, e), HintLine(ic.logger, RethrowHint), BottomBorder(ic.logger)])
      case Returned(response) =>
        Call(proceed, [request],
             [logged, ResponseLogged(ic.responseDelegate, response,
                                     Redact(response.headers, ic.exclusiveResponseHeaders))])
  }

  // ---------------------------------------------------------------------------
  // Properties of intercept

  /** Global flag off or level NONE: one `proceed` with the original request,
      its outcome returned, nothing logged. */
  lemma GatedCallIsSilent(debug: bool, ic: Interceptor, request: Request, proceed: Outcome)
    requires !debug || ic.level == Some(NONE)
    ensures Intercept(debug, ic, request, proceed) == Call(proceed, [request], [])
  {
  }

  /** A URL containing any ignore-list entry is forwarded untouched and
      nothing is logged. */
  lemma IgnoredUrlIsSilent(debug: bool, ic: Interceptor, request: Request, proceed: Outcome, i: nat)
    requires ic.ignoredUrls.Some? && i < |ic.ignoredUrls.value|
    requires Text.OccursIn(ic.ignoredUrls.value[i], request.url)
    ensures Intercept(debug, ic, request, proceed) == Call(proceed, [request], [])
  {
  }

  /** A null or empty ignore list never skips: with the flag on and a level
      other than NONE, the request is always logged. */
  lemma NoIgnoreListNeverSkips(ic: Interceptor, request: Request, proceed: Outcome)
    requires ic.ignoredUrls.None? || |ic.ignoredUrls.value| == 0
    requires ic.level != Some(NONE)
    ensures var c := Intercept(true, ic, request, proceed);
            |c.trace| > 0 && c.trace[0].RequestLogged?
  {
  }

  /** When a call is logged, the first event is the request delegate's, with
      the request headers redacted by the request exclusion list only; the
      logged headers are exactly the non-excluded entries, in order. */
  lemma LoggedRequestHeaders(debug: bool, ic: Interceptor, request: Request, proceed: Outcome)
    requires !Silent(debug, ic, request)
    ensures var c := Intercept(debug, ic, request, proceed);
            && c.trace[0] == RequestLogged(ic.requestDelegate, request,
                                           Keep(request.headers, Excluded(ic.exclusiveRequestHeaders)))
            && forall h :: h in c.trace[0].headers <==>
                 h in request.headers && !(ic.exclusiveRequestHeaders.Some? && h.name in ic.exclusiveRequestHeaders.value)
  {
    forall h {
      RedactMembers(request.headers, ic.exclusiveRequestHeaders, h);
    }
  }

  /** Redaction affects only what is logged: the request forwarded to
      `proceed` is the original one, excluded headers included. */
  lemma ForwardsOriginalRequest(debug: bool, ic: Interceptor, request: Request, proceed: Outcome, h: Header)
    requires h in request.headers
    ensures var c := Intercept(debug, ic, request, proceed);
            |c.proceeded| == 1 && h in c.proceeded[0].headers
  {
  }

  /** Failure path: after the request event come exactly the failure line,
      the hint line and the bottom border; the same exception is re-thrown
      and no response is logged. */
  lemma FailurePath(debug: bool, ic: Interceptor, request: Request, e: Exception)
    requires !Silent(debug, ic, request)
    ensures var c := Intercept(debug, ic, request, Thrown(e));
            && c.outcome == Thrown(e)
            && c.proceeded == [request]
            && |c.trace| == 4
            && c.trace[0].RequestLogged?
            && c.trace[1..] == [FailureLine(ic.logger, e), HintLine(ic.logger, RethrowHint), BottomBorder(ic.logger)]
            && forall k :: 0 <= k < |c.trace| ==> !c.trace[k].ResponseLogged?
  {
  }

  /** Success path: the response is logged with headers redacted by the
      response exclusion list only, and the returned response is exactly the
      one `proceed` produced. */
  lemma SuccessPath(debug: bool, ic: Interceptor, request: Request, response: Response)
    requires !Silent(debug, ic, request)
    ensures var c := Intercept(debug, ic, request, Returned(response));
            && c.outcome == Returned(response)
            && |c.trace| == 2
            && c.trace[1] == ResponseLogged(ic.responseDelegate, response,
                                            Keep(response.headers, Excluded(ic.exclusiveResponseHeaders)))
            && forall k :: 0 <= k < |c.trace| ==> !c.trace[k].FailureLine? && !c.trace[k].BottomBorder?
  {
  }

  /** The request exclusion list has no influence on the logged response. */
  lemma ResponseIgnoresRequestExclusions(debug: bool, ic: Interceptor, names: Option<seq<string>>,
                                         request: Request, response: Response)
    requires !Silent(debug, ic, request)
    ensures Intercept(debug, ic, request, Returned(response)).trace[1]
         == Intercept(debug, ic.(exclusiveRequestHeaders := names), request, Returned(response)).trace[1]
  {
  }

  /** An unset level is not NONE: with the flag on, such an interceptor logs,
      and its trace is the one a BASIC interceptor with the same settings
      would produce. */
  lemma UnsetLevelLogsLikeBasic(ic: Interceptor, request: Request, proceed: Outcome)
    requires ic.level.None?
    requires !IsIgnored(request.url, ic.ignoredUrls)
    ensures |Intercept(true, ic, request, proceed).trace| > 0
    ensures var basic := New(Some(BASIC), ic.logger, ic.ignoredUrls,
                             ic.exclusiveRequestHeaders, ic.exclusiveResponseHeaders);
            Valid(ic) ==> Intercept(true, ic, request, proceed) == Intercept(true, basic, request, proceed)
  {
  }
}
