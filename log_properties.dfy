/**
 * Properties of the logging middleware that span both hooks or pin down how
 * the exclusion patterns and the content-type tests behave on concrete
 * inputs.
 */
module LogProperties {
  import opened Wrappers
  import opened LogMiddleware

  /** Paths the prefix patterns exclude: static files, the admin's script
      translations, and the token endpoint. */
  lemma ExcludedExamples()
    ensures Excluded("/static/css/base.css")
    ensures Excluded("/admin/jsi18n/")
    ensures Excluded("/api/token/refresh/")
  {
    assert PrefixLine("/static/css/base.css", "/static/");
    assert StartsWith("/admin/jsi18n/", "/admin/jsi18n/");
    assert PrefixLine("/api/token/refresh/", "/api/token/");
  }

  /** The admin's style sheets are excluded, `/css/` being found inside the
      path rather than at its start. */
  lemma AdminStyleSheetsExcluded()
    ensures Excluded("/admin/auth/css/base.css")
  {
    var cssRest := "/admin/auth/css/base.css"[7..];
    assert cssRest == "auth/css/base.css";
    assert CssSplit(cssRest, 4);
    assert AdminCss("/admin/auth/css/base.css");
  }

  /** The blocked-page style sheet is excluded under any admin path. */
  lemma BlockedPageExcluded()
    ensures Excluded("/admin/todos/blockedPage.css")
  {
    var path := "/admin/todos/blockedPage.css";
    assert path == AdminPrefix + "todos" + "/blockedPage.css";
    BlockedPageUnder(AdminPrefix + "todos");
  }

  /** Appending "/blockedPage.css" to an admin path without newlines gives an
      excluded path. */
  lemma BlockedPageUnder(dir: string)
    requires StartsWith(dir, AdminPrefix) && NoNewline(dir)
    ensures Excluded(dir + "/blockedPage.css")
  {
    var path := dir + "/blockedPage.css";
    assert path[..|AdminPrefix|] == dir[..|AdminPrefix|];
    assert path[|AdminPrefix|..][|path| - |AdminPrefix| - 16..] == "/blockedPage.css";
    assert NoNewline("/blockedPage.css");
  }

  /** `.*$` accepts one final newline after a static path. */
  lemma TrailingNewlineStillExcluded()
    ensures Excluded("/static/app.js\n")
  {
  }

  /** The API itself and the admin index are logged. */
  lemma LoggedExamples()
    ensures !Excluded("/api/todos/")
    ensures !Excluded("/admin/")
  {
    assert "/api/todos/"[1] == 'a';
    assert "/api/todos/"[7] != "/api/token/"[7];
    assert |"/admin/"| == 7;
  }

  /** Every path of the API's own endpoints is logged, whatever follows the
      prefix: none of them lies under "/static/", "/admin/" or "/api/token/". */
  lemma ApiPathsLogged(path: string)
    requires StartsWith(path, "/api/todos/")
    ensures !Excluded(path)
  {
    assert path[..11] == "/api/todos/";
    assert path[1] == 'a' && path[2] == 'p' && path[7] == 'd';
  }

  /** A newline inside a static path defeats the pattern, since `.` does not
      match it: the path is logged. */
  lemma InnerNewlineDefeatsExclusion()
    ensures !Excluded("/static/app.js\nx")
  {
    var path := "/static/app.js\nx";
    var rest := path[8..];
    assert rest[6] == '\n';
    assert path[1] == 's';
  }

  /** The two hooks test the Content-Type differently: a header that merely
      mentions the JSON type is JSON to the request hook (a substring test)
      and not to the response hook (a prefix test). */
  lemma ContentTypeTestsDiffer()
    ensures RequestBodyKind("text/plain; profile=application/json") == JsonBody
    ensures !IsJsonResponse(Some("text/plain; profile=application/json"))
  {
    assert OccursAt("text/plain; profile=application/json", "application/json", 20);
    assert "text/plain; profile=application/json"[0] != "application/json"[0];
  }

  /** A request with both markers in its Content-Type is treated as JSON:
      the JSON test comes first. */
  lemma JsonTestComesFirst(contentType: string)
    requires Contains(contentType, "application/json") && Contains(contentType, "multipart/form-data")
    ensures RequestBodyKind(contentType) == JsonBody
  {
  }

  /** For an excluded path neither hook logs anything. */
  lemma ExcludedPathIsSilent(o: Oracles, path: string, httpMethod: string, contentType: Option<string>, body: Bytes,
                             form: string, user: Principal, startTime: Option<Time>, response: HttpResponse, t0: Time, t1: Time)
    requires Excluded(path)
    ensures RequestEntries(o, path, httpMethod, contentType, body, form, t0) == []
    ensures ResponseEntries(o, path, httpMethod, user, startTime, response, t1) == []
  {
  }

  /** A logged GET yields exactly three entries over its request and its
      response: the separator, the request line and the status line. */
  lemma GetCycleLogsThree(o: Oracles, path: string, contentType: Option<string>, body: Bytes, form: string,
                          user: Principal, response: HttpResponse, t0: Time, t1: Time)
    requires !Excluded(path)
    ensures RequestEntries(o, path, "GET", contentType, body, form, t0)
            + ResponseEntries(o, path, "GET", user, Some(t0), response, t1)
         == [Rule(SeparatorLine),
             RequestLine(t0, "GET", path),
             ResponseLine(response.statusCode, response.reasonPhrase, t1 - t0, GetUser(user))]
  {
  }

  /** One logged request never produces more than seven entries, and only
      decoding failures are logged at error level. */
  lemma CycleBounds(o: Oracles, path: string, httpMethod: string, contentType: Option<string>, body: Bytes,
                    form: string, user: Principal, response: HttpResponse, t0: Time, t1: Time)
    ensures var entries := RequestEntries(o, path, httpMethod, contentType, body, form, t0)
                           + ResponseEntries(o, path, httpMethod, user, Some(t0), response, t1);
      && |entries| <= 7
      && forall i :: 0 <= i < |entries| && LevelOf(entries[i]) == Error ==>
           entries[i] == JsonDecodeFailed || entries[i] == JsonResponseDecodeFailed
  {
  }

  /** The separator is thirty equals signs. */
  lemma SeparatorShape()
    ensures |SeparatorLine| == 30
    ensures forall i :: 0 <= i < |SeparatorLine| ==> SeparatorLine[i] == '='
  {
  }

  /**
   * The framework's call of the hooks around a view that returns `response`:
   * the request hook stamps the request, so the response hook never meets a
   * missing start time and returns the response it was given.
   */
  method HandleCycle(mw: CustomLoggingMiddleware, request: HttpRequest, response: HttpResponse, t0: Time, t1: Time)
    returns (outcome: Outcome<HttpResponse>)
    modifies mw`log, request`startTime
    ensures outcome == Returned(response)
    ensures mw.log == old(mw.log)
                      + RequestEntries(mw.oracles, request.path, request.httpMethod, request.contentType, request.body, request.form, t0)
                      + ResponseEntries(mw.oracles, request.path, request.httpMethod, request.user,
                                        if Excluded(request.path) then old(request.startTime) else Some(t0), response, t1)
  {
    mw.ProcessRequest(request, t0);
    outcome := mw.ProcessResponse(request, response, t1);
  }
}
