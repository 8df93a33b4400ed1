/** The fluent builder. Each setter rejects a null argument at once; `Build`
    supplies the built-in logger when none was set and passes every other
    field, an unset level included, to the constructor as it is. */
module InterceptorBuilder {
  import opened Wrappers
  import opened Headers
  import opened Logging

  /** Fields left null until their setter is called. */
  datatype Builder = Builder(
    logger: Option<Logger>,
    logLevel: Option<LogLevel>,
    excludeRequestHeaders: Option<seq<string>>,
    excludeResponseHeaders: Option<seq<string>>,
    skipUrls: Option<seq<string>>)

  /** The argument check's failure, carrying its message. */
  datatype NullArgument = NullArgument(message: string)

  /** A fresh builder: nothing set. */
  function NewBuilder(): (b: Builder)
    ensures b.logger.None? && b.logLevel.None? && b.skipUrls.None?
    ensures b.excludeRequestHeaders.None? && b.excludeResponseHeaders.None?
  {
    Builder(None, None, None, None, None)
  }

  function SetLogLevel(b: Builder, level: Option<LogLevel>): (r: Result<Builder, NullArgument>)
    ensures r.Failure? <==> level.None?
    ensures r.Failure? ==> r.error == NullArgument("level is null")
    ensures r.Success? ==> r.value == b.(logLevel := level) && r.value.logLevel.Some?
  {
    if level.None? then Failure(NullArgument("level is null"))
    else Success(b.(logLevel := level))
  }

  function SetSkipUrls(b: Builder, urls: Option<seq<string>>): (r: Result<Builder, NullArgument>)
    ensures r.Failure? <==> urls.None?
    ensures r.Failure? ==> r.error == NullArgument("urls is null")
    ensures r.Success? ==> r.value == b.(skipUrls := urls) && r.value.skipUrls.Some?
  {
    if urls.None? then Failure(NullArgument("urls is null"))
    else Success(b.(skipUrls := urls))
  }

  /** Both lists are checked before either is stored, the request list first. */
  function SetExclusiveHeaders(b: Builder, requestHeaders: Option<seq<string>>,
                               responseHeaders: Option<seq<string>>): (r: Result<Builder, NullArgument>)
    ensures r.Failure? <==> requestHeaders.None? || responseHeaders.None?
    ensures requestHeaders.None? ==> r == Failure(NullArgument("requestHeaders is null"))
    ensures requestHeaders.Some? && responseHeaders.None? ==> r == Failure(NullArgument("responseHeaders is null"))
    ensures r.Success? ==> r.value == b.(excludeRequestHeaders := requestHeaders,
                                         excludeResponseHeaders := responseHeaders)
  {
    if requestHeaders.None? then Failure(NullArgument("requestHeaders is null"))
    else if responseHeaders.None? then Failure(NullArgument("responseHeaders is null"))
    else Success(b.(excludeRequestHeaders := requestHeaders, excludeResponseHeaders := responseHeaders))
  }

  function SetLogger(b: Builder, logger: Option<Logger>): (r: Result<Builder, NullArgument>)
    ensures r.Failure? <==> logger.None?
    ensures r.Failure? ==> r.error == NullArgument("logger is null")
    ensures r.Success? ==> r.value == b.(logger := logger) && r.value.logger.Some?
  {
    if logger.None? then Failure(NullArgument("logger is null"))
    else Success(b.(logger := logger))
  }

  /** `build()` also stores the default logger back into the builder, so the
      builder after the call is part of the result. `instance` is the identity
      the built-in logger gets if this call has to create one. */
  datatype Built = Built(next: Builder, interceptor: Interceptor)

  function Build(b: Builder, instance: nat): (r: Built)
    ensures Valid(r.interceptor)
    ensures r.interceptor.logger == if b.logger.Some? then b.logger.value else BuiltInLogger(instance)
    ensures r.interceptor.level == b.logLevel
    ensures r.interceptor.ignoredUrls == b.skipUrls
    ensures r.interceptor.exclusiveRequestHeaders == b.excludeRequestHeaders
    ensures r.interceptor.exclusiveResponseHeaders == b.excludeResponseHeaders
    ensures r.next == b.(logger := Some(r.interceptor.logger))
  {
    var logger := if b.logger.None? then BuiltInLogger(instance) else b.logger.value;
    var next := b.(logger := Some(logger));
    Built(next, New(next.logLevel, logger, next.skipUrls, next.excludeRequestHeaders,
                    next.excludeResponseHeaders))
  }

  // ---------------------------------------------------------------------------
  // Properties of the builder

  /** A builder with nothing set yields an interceptor with the built-in
      logger and an unset level, which (with the flag on) logs every call. */
  lemma DefaultBuildLogs(instance: nat, request: Request, proceed: Outcome)
    ensures var ic := Build(NewBuilder(), instance).interceptor;
            && ic.logger == BuiltInLogger(instance)
            && ic.level.None?
            && |Intercept(true, ic, request, proceed).trace| > 0
  {
  }

  /** Building twice from the same builder gives the same interceptor: the
      built-in logger the first build created and stored is the very instance
      the second build uses, whatever instance the second call would create. */
  lemma RebuildIsStable(b: Builder, first: nat, second: nat)
    ensures Build(Build(b, first).next, second).interceptor == Build(b, first).interceptor
    ensures Build(Build(b, first).next, second).next == Build(b, first).next
  {
  }

  /** A level set through the builder reaches the delegates' flags: body iff
      BODY, headers iff HEADERS or BODY. */
  lemma BuiltLevelFlags(b: Builder, level: LogLevel)
    ensures SetLogLevel(b, Some(level)).Success?
    ensures var ic := Build(SetLogLevel(b, Some(level)).value, 0).interceptor;
            && (ic.requestDelegate.logBody <==> level == BODY)
            && (ic.requestDelegate.logHeaders <==> level == HEADERS || level == BODY)
            && (ic.responseDelegate.logBody <==> level == BODY)
            && (ic.responseDelegate.logHeaders <==> level == HEADERS || level == BODY)
  {
  }

  /** What the logger, skip-list and header-list setters configure is what a
      call through the built interceptor uses: every event goes to the set
      logger, a URL containing a skip entry is not logged, the logged headers
      are filtered by the lists given to `SetExclusiveHeaders` (request list
      for the request, response list for the response), and `proceed` gets
      the original request once. */
  lemma SettersReachIntercept(b: Builder, l: Logger, urls: seq<string>, rq: seq<string>, rs: seq<string>,
                              instance: nat, request: Request, proceed: Outcome)
    ensures SetLogger(b, Some(l)).Success?
    ensures SetSkipUrls(SetLogger(b, Some(l)).value, Some(urls)).Success?
    ensures SetExclusiveHeaders(SetSkipUrls(SetLogger(b, Some(l)).value, Some(urls)).value, Some(rq), Some(rs)).Success?
    ensures var ic := Build(SetExclusiveHeaders(SetSkipUrls(SetLogger(b, Some(l)).value, Some(urls)).value,
                                                Some(rq), Some(rs)).value, instance).interceptor;
            var c := Intercept(true, ic, request, proceed);
            && ic.level == b.logLevel
            && c.proceeded == [request]
            && c.outcome == proceed
            && (forall k :: 0 <= k < |c.trace| ==> SinkOf(c.trace[k]) == l)
            && (IsIgnored(request.url, Some(urls)) ==> c.trace == [])
            && (b.logLevel != Some(NONE) && !IsIgnored(request.url, Some(urls)) ==>
                  && |c.trace| > 0
                  && c.trace[0].headers == Keep(request.headers, set n | n in rq))
            && (b.logLevel != Some(NONE) && !IsIgnored(request.url, Some(urls)) && proceed.Returned? ==>
                  && |c.trace| == 2
                  && c.trace[1].headers == Keep(proceed.response.headers, set n | n in rs))
  {
  }
}
