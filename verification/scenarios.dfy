/** Concrete calls: request-header redaction at HEADERS, the BASIC level, and
    a skipped health-check URL. */
module Scenarios {
  import opened Wrappers
  import opened Headers
  import opened Logging
  import opened InterceptorBuilder

  /** HEADERS level with "Authorization" excluded from request logging: the
      logged request headers keep "Accept" and drop "Authorization", while the
      forwarded request still carries it. */
  lemma AuthorizationRedacted(response: Response)
    ensures var request := Request("GET", "https://example.com/api",
                                   [Header("Authorization", "secret"), Header("Accept", "*/*")]);
            var ic := New(Some(HEADERS), BuiltInLogger(0), None, Some(["Authorization"]), Some([]));
            var c := Intercept(true, ic, request, Returned(response));
            && c.trace[0] == RequestLogged(Delegate(BuiltInLogger(0), false, true), request,
                                           [Header("Accept", "*/*")])
            && c.proceeded[0].headers[0] == Header("Authorization", "secret")
  {
    var hs := [Header("Authorization", "secret"), Header("Accept", "*/*")];
    var ex := Excluded(Some(["Authorization"]));
    assert "Authorization" in ex;
    assert "Accept" !in ex;
    assert hs[1..] == [Header("Accept", "*/*")];
    assert Keep(hs, ex) == Keep(hs[1..], ex);
    assert Keep([Header("Accept", "*/*")], ex) == [Header("Accept", "*/*")] + Keep([], ex);
  }

  /** BASIC level: exactly one request event and one response event, with
      neither headers nor body enabled. */
  lemma BasicLogsSummaryOnly(request: Request, response: Response)
    ensures var ic := New(Some(BASIC), BuiltInLogger(0), None, None, None);
            var c := Intercept(true, ic, request, Returned(response));
            && |c.trace| == 2
            && c.trace[0].RequestLogged? && c.trace[1].ResponseLogged?
            && !c.trace[0].delegate.logHeaders && !c.trace[0].delegate.logBody
            && !c.trace[1].delegate.logHeaders && !c.trace[1].delegate.logBody
  {
  }

  /** A skip list of ["/health"] silences a call to ".../health": nothing is
      logged, `proceed` runs once and its response is returned unchanged. */
  lemma HealthCheckSkipped(response: Response)
    ensures var built := Build(SetSkipUrls(SetLogLevel(NewBuilder(), Some(BODY)).value, Some(["/health"])).value, 0);
            var request := Request("GET", "https://example.com/health", []);
            Intercept(true, built.interceptor, request, Returned(response))
              == Call(Returned(response), [request], [])
  {
    var url := "https://example.com/health";
    assert "/health" <= url[19..];
    assert Text.Contains(url, "/health");
  }
}
