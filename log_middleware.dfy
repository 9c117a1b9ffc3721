/**
 * CustomLoggingMiddleware (TodoAPI/middleware/log_middleware.py): the hooks
 * that log every request and response, except those whose path matches one
 * of the excluded patterns. The logger is a sequence of entries that the
 * hooks append to; an entry is recorded by its kind and payload rather than
 * by its rendered text.
 */
module LogMiddleware {
  import opened Wrappers

  newtype byte = x: int | 0 <= x < 256

  type Bytes = seq<byte>

  /** A reading of the wall clock. */
  type Time = int

  // ---------------------------------------------------------------------------
  // Strings
  // ---------------------------------------------------------------------------

  /** `s.startswith(prefix)` */
  predicate StartsWith(s: string, prefix: string) {
    |prefix| <= |s| && s[..|prefix|] == prefix
  }

  /** `s.endswith(suffix)` */
  predicate EndsWith(s: string, suffix: string) {
    |suffix| <= |s| && s[|s| - |suffix|..] == suffix
  }

  /** `sub` occurs in `s` starting at index `i`. */
  predicate OccursAt(s: string, sub: string, i: nat) {
    i + |sub| <= |s| && s[i..i + |sub|] == sub
  }

  /** `sub in s` */
  predicate Contains(s: string, sub: string) {
    exists i: nat | i <= |s| :: OccursAt(s, sub, i)
  }

  /** `s[:n]` */
  function Take(s: string, n: nat): (r: string)
    ensures |r| <= n && |r| <= |s| && r == s[..|r|]
    ensures |s| <= n ==> r == s
    ensures n <= |s| ==> |r| == n
  {
    if |s| <= n then s else s[..n]
  }

  // ---------------------------------------------------------------------------
  // EXCLUDED_PATHS, with the meaning Python's re.match gives the patterns:
  // `^` anchors at the start, `.` matches anything but a newline, and `$`
  // matches at the end or just before one final newline.
  // ---------------------------------------------------------------------------

  predicate NoNewline(s: string) {
    forall i :: 0 <= i < |s| ==> s[i] != '\n'
  }

  // What `.*$` accepts as the remainder of the path: no newline anywhere
  // except, possibly, as its last character.
  function RestOfLine(s: string): (b: bool)
    ensures b <==> forall i :: 0 <= i < |s| - 1 ==> s[i] != '\n'
  {
    NoNewline(s) || (|s| > 0 && s[|s| - 1] == '\n' && NoNewline(s[..|s| - 1]))
  }

  // The pattern `^prefix.*$`: the path starts with the prefix and no newline
  // follows it, except one that ends the path.
  function PrefixLine(path: string, prefix: string): (b: bool)
    ensures b <==> StartsWith(path, prefix) && forall i :: |prefix| <= i < |path| - 1 ==> path[i] != '\n'
  {
    StartsWith(path, prefix) && RestOfLine(path[|prefix|..])
  }

  /** A prefix of a prefix is a prefix. */
  lemma StartsWithPrefix(s: string, longer: string, shorter: string)
    requires StartsWith(s, longer) && StartsWith(longer, shorter)
    ensures StartsWith(s, shorter)
  {
    assert s[..|shorter|] == s[..|longer|][..|shorter|];
  }

  /** A string contains each of its prefixes. */
  lemma StartsWithContains(s: string, sub: string)
    ensures StartsWith(s, sub) ==> Contains(s, sub)
  {
    if StartsWith(s, sub) {
      assert OccursAt(s, sub, 0);
    }
  }

  const AdminPrefix: string := "/admin/"

  /** `rest` splits into a line fragment, "/css/" at index `k`, and the rest of the line. */
  predicate CssSplit(rest: string, k: nat) {
    OccursAt(rest, "/css/", k) && NoNewline(rest[..k]) && RestOfLine(rest[k + 5..])
  }

  /** On a line without newlines, every occurrence of "/css/" splits it as the
      pattern asks. */
  lemma CssSplitOnLine(rest: string)
    ensures NoNewline(rest) && Contains(rest, "/css/") ==> exists k: nat | k <= |rest| :: CssSplit(rest, k)
  {
    if NoNewline(rest) && Contains(rest, "/css/") {
      var k: nat :| k <= |rest| && OccursAt(rest, "/css/", k);
      assert CssSplit(rest, k);
    }
  }

  // The pattern `^/admin/.*/css/.*$`: below "/admin/", "/css/" occurs, and on
  // a path without newlines every such occurrence is enough.
  function AdminCss(path: string): (b: bool)
    ensures b ==> StartsWith(path, AdminPrefix) && Contains(path[|AdminPrefix|..], "/css/")
    ensures StartsWith(path, AdminPrefix) && NoNewline(path) && Contains(path[|AdminPrefix|..], "/css/") ==> b
  {
    StartsWith(path, AdminPrefix) &&
    var rest := path[|AdminPrefix|..];
    CssSplitOnLine(rest);
    exists k: nat | k <= |rest| :: CssSplit(rest, k)
  }

  // The pattern `^/admin/.*/blockedPage\.css$`: below "/admin/", the path
  // ends in "/blockedPage.css", or in that and one final newline.
  function AdminBlockedPage(path: string): (b: bool)
    ensures b ==> StartsWith(path, AdminPrefix) &&
                  (EndsWith(path, "/blockedPage.css") || EndsWith(path, "/blockedPage.css\n"))
    ensures StartsWith(path, AdminPrefix) && NoNewline(path) && EndsWith(path[|AdminPrefix|..], "/blockedPage.css") ==> b
  {
    StartsWith(path, AdminPrefix) &&
    var rest := path[|AdminPrefix|..];
    var line := if |rest| > 0 && rest[|rest| - 1] == '\n' then rest[..|rest| - 1] else rest;
    EndsWith(line, "/blockedPage.css") && NoNewline(line[..|line| - 16])
  }

  /** Whether a path matches any of the excluded patterns. Everything excluded
      lies under "/static/", "/admin/" or "/api/token/"; a path without
      newlines under one of the prefix patterns is excluded, and so is every
      path under "/admin/jsi18n/", whose pattern has no `$`. */
  function Excluded(path: string): (b: bool)
    ensures b ==> StartsWith(path, "/static/") || StartsWith(path, AdminPrefix) || StartsWith(path, "/api/token/")
    ensures StartsWith(path, "/admin/jsi18n/") ==> b
    ensures (NoNewline(path) &&
             (|| StartsWith(path, "/static/") || StartsWith(path, "/admin/login/") || StartsWith(path, "/api/token/")
              || StartsWith(path, "/admin/logout/") || StartsWith(path, "/admin/password_change/"))) ==> b
  {
    ExcludedUnderAdmin(path);
    || PrefixLine(path, "/static/")
    || StartsWith(path, "/admin/jsi18n/")
    || AdminCss(path)
    || PrefixLine(path, "/admin/login/")
    || PrefixLine(path, "/api/token/")
    || PrefixLine(path, "/admin/logout/")
    || PrefixLine(path, "/admin/password_change/")
    || AdminBlockedPage(path)
  }

  /** The admin patterns with a longer prefix all lie under "/admin/". */
  lemma ExcludedUnderAdmin(path: string)
    ensures (|| StartsWith(path, "/admin/jsi18n/") || StartsWith(path, "/admin/login/")
             || StartsWith(path, "/admin/logout/") || StartsWith(path, "/admin/password_change/")) ==> StartsWith(path, AdminPrefix)
  {
    if StartsWith(path, "/admin/jsi18n/") {
      StartsWithPrefix(path, "/admin/jsi18n/", AdminPrefix);
    } else if StartsWith(path, "/admin/login/") {
      StartsWithPrefix(path, "/admin/login/", AdminPrefix);
    } else if StartsWith(path, "/admin/logout/") {
      StartsWithPrefix(path, "/admin/logout/", AdminPrefix);
    } else if StartsWith(path, "/admin/password_change/") {
      StartsWithPrefix(path, "/admin/password_change/", AdminPrefix);
    }
  }

  // ---------------------------------------------------------------------------
  // Entries
  // ---------------------------------------------------------------------------

  datatype Level = Info | Error

  datatype Entry =
    | Rule(text: string)                                                     // "=" * 30
    | RequestLine(startTime: Time, httpMethod: string, path: string)             // "<time> - Request: <method> <path>"
    | Body(parsed: string)                                                   // "Body: <parsed json>"
    | JsonDecodeFailed                                                       // "Could not decode JSON"
    | RawBody(body: Bytes)                                                   // "Raw body: <bytes>"
    | MultipartBody(form: string)                                            // "Multipart body: <form>"
    | ResponseLine(status: int, reason: string, duration: int, user: string) // "Response: ... User: <user>"
    | JsonResponseDecodeFailed                                               // "Could not decode JSON response content"
    | RawResponseContent(content: string)                                    // "Raw response content: <text>"
    | ResponseContent(shown: string)                                         // "Response content: <parsed or text>"
    | ExceptionRaised(description: string)                                   // "Exception: <exception>"

  /** The logger method each entry is written with. */
  function LevelOf(e: Entry): (l: Level)
    ensures l == Error <==> e.JsonDecodeFailed? || e.JsonResponseDecodeFailed? || e.ExceptionRaised?
  {
    match e
    case JsonDecodeFailed => Error
    case JsonResponseDecodeFailed => Error
    case ExceptionRaised(_) => Error
    case _ => Info
  }

  const SeparatorLine: string := "=============================="

  const ContentLimit: nat := 1000

  const HtmlDoctype: string := "<!DOCTYPE html>"

  /**
   * The library calls the middleware relies on: `json.loads` on the raw
   * request body and on decoded response text (the parsed value's rendering,
   * or None when it raises JSONDecodeError), and decoding response bytes as
   * UTF-8 with undecodable bytes dropped.
   */
  datatype Oracles = Oracles(
    loadsBytes: Bytes -> Option<string>,
    loadsText: string -> Option<string>,
    decode: Bytes -> string)

  // ---------------------------------------------------------------------------
  // Users
  // ---------------------------------------------------------------------------

  datatype Principal = AnonymousUser | AuthenticatedUser(username: string)

  /** `get_user`: the user's string form, or "Anonymous" for an anonymous one. */
  function GetUser(user: Principal): (name: string)
    ensures user.AuthenticatedUser? ==> name == user.username
    ensures user.AnonymousUser? ==> name == "Anonymous"
  {
    match user
    case AuthenticatedUser(username) => username
    case AnonymousUser => "Anonymous"
  }

  // ---------------------------------------------------------------------------
  // What process_request logs
  // ---------------------------------------------------------------------------

  /** A request body is examined only for a writing method with a non-empty
      Content-Type header. */
  function LogsBody(httpMethod: string, contentType: Option<string>): (b: bool)
    ensures b ==> contentType.Some? && |contentType.value| > 0
    ensures b ==> httpMethod == "POST" || httpMethod == "PUT" || httpMethod == "PATCH"
    ensures (httpMethod == "POST" || httpMethod == "PUT" || httpMethod == "PATCH") && contentType.Some? && |contentType.value| > 0 ==> b
  {
    httpMethod in ["POST", "PUT", "PATCH"] && contentType.Some? && contentType.value != ""
  }

  datatype BodyKind = JsonBody | MultipartForm | OtherBody

  /** The request side classifies the Content-Type by substring, JSON first. */
  function RequestBodyKind(contentType: string): (k: BodyKind)
    ensures k == JsonBody <==> Contains(contentType, "application/json")
    ensures k == MultipartForm <==> !Contains(contentType, "application/json") && Contains(contentType, "multipart/form-data")
  {
    if Contains(contentType, "application/json") then JsonBody
    else if Contains(contentType, "multipart/form-data") then MultipartForm
    else OtherBody
  }

  /** The entries logged for a request body. */
  function BodyEntries(o: Oracles, contentType: string, body: Bytes, form: string): (r: seq<Entry>)
    ensures 1 <= |r| <= 2
    ensures |r| == 2 <==> RequestBodyKind(contentType) == JsonBody && o.loadsBytes(body).None?
    ensures |r| == 2 ==> r == [JsonDecodeFailed, RawBody(body)]
    ensures RequestBodyKind(contentType) == JsonBody && o.loadsBytes(body).Some? ==> r == [Body(o.loadsBytes(body).value)]
    ensures RequestBodyKind(contentType) == MultipartForm ==> r == [MultipartBody(form)]
    ensures RequestBodyKind(contentType) == OtherBody ==> r == [RawBody(body)]
  {
    match RequestBodyKind(contentType)
    case JsonBody =>
      (match o.loadsBytes(body)
       case Some(parsed) => [Body(parsed)]
       case None => [JsonDecodeFailed, RawBody(body)])
    case MultipartForm => [MultipartBody(form)]
    case OtherBody => [RawBody(body)]
  }

  /** Everything `process_request` appends for one request. */
  function RequestEntries(o: Oracles, path: string, httpMethod: string, contentType: Option<string>,
                          body: Bytes, form: string, now: Time): (r: seq<Entry>)
    ensures Excluded(path) ==> r == []
    ensures !Excluded(path) ==> 2 <= |r| <= 4 && r[0] == Rule(SeparatorLine) && r[1] == RequestLine(now, httpMethod, path)
    ensures !Excluded(path) ==> (|r| == 2 <==> !LogsBody(httpMethod, contentType))
    ensures !Excluded(path) && LogsBody(httpMethod, contentType) ==> r[2..] == BodyEntries(o, contentType.value, body, form)
  {
    if Excluded(path) then []
    else
      [Rule(SeparatorLine), RequestLine(now, httpMethod, path)]
      + (if LogsBody(httpMethod, contentType) then BodyEntries(o, contentType.value, body, form) else [])
  }

  // ---------------------------------------------------------------------------
  // What process_response logs
  // ---------------------------------------------------------------------------

  datatype HttpResponse = HttpResponse(
    statusCode: int,
    reasonPhrase: string,
    contentType: Option<string>,  // the Content-Type header, if set
    content: Option<Bytes>)       // None for a response without a `content` attribute (a streamed one)

  /** The response side classifies the Content-Type by prefix, a missing header
      counting as empty. */
  function IsJsonResponse(contentType: Option<string>): (b: bool)
    ensures b <==> contentType.Some? && StartsWith(contentType.value, "application/json")
    ensures contentType.None? ==> !b
    ensures b ==> RequestBodyKind(contentType.value) == JsonBody
  {
    StartsWithContains(contentType.GetOr(""), "application/json");
    StartsWith(contentType.GetOr(""), "application/json")
  }

  /** The entries logged for the content of a non-GET response. */
  function ContentEntries(o: Oracles, contentType: Option<string>, content: Bytes): (r: seq<Entry>)
    ensures |r| <= 2
    ensures r == [] <==> !IsJsonResponse(contentType) && StartsWith(o.decode(content), HtmlDoctype)
    ensures |r| == 2 <==> IsJsonResponse(contentType) && o.loadsText(o.decode(content)).None?
    ensures |r| == 2 ==> r == [JsonResponseDecodeFailed, RawResponseContent(o.decode(content))]
    ensures IsJsonResponse(contentType) && o.loadsText(o.decode(content)).Some? ==>
      r == [ResponseContent(o.loadsText(o.decode(content)).value)]
    ensures !IsJsonResponse(contentType) && r != [] ==>
      var text := o.decode(content);
      && |r| == 1 && r[0].ResponseContent?
      && |r[0].shown| <= ContentLimit && StartsWith(text, r[0].shown)
      && (|text| <= ContentLimit ==> r[0].shown == text)
      && (ContentLimit <= |text| ==> |r[0].shown| == ContentLimit)
  {
    var text := o.decode(content);
    if IsJsonResponse(contentType) then
      match o.loadsText(text)
      case Some(parsed) => [ResponseContent(parsed)]
      case None => [JsonResponseDecodeFailed, RawResponseContent(text)]
    else if StartsWith(text, HtmlDoctype) then []
    else [ResponseContent(Take(text, ContentLimit))]
  }

  /** `process_response` reads the start time its request hook stored; when
      that hook never ran for a logged path, the read raises before anything
      is logged. */
  function MissingStartTime(path: string, startTime: Option<Time>): (b: bool)
    ensures startTime.Some? ==> !b
    ensures Excluded(path) ==> !b
    ensures b <==> !Excluded(path) && startTime.None?
  {
    !Excluded(path) && startTime.None?
  }

  /** Everything `process_response` appends for one response. */
  function ResponseEntries(o: Oracles, path: string, httpMethod: string, user: Principal, startTime: Option<Time>,
                           response: HttpResponse, now: Time): (r: seq<Entry>)
    ensures Excluded(path) || startTime.None? ==> r == []
    ensures !Excluded(path) && startTime.Some? ==>
      1 <= |r| <= 3 &&
      r[0] == ResponseLine(response.statusCode, response.reasonPhrase, now - startTime.value, GetUser(user))
    ensures httpMethod == "GET" || response.content.None? ==> |r| <= 1
    ensures !Excluded(path) && startTime.Some? && httpMethod != "GET" && response.content.Some? ==>
      r[1..] == ContentEntries(o, response.contentType, response.content.value)
  {
    if Excluded(path) || startTime.None? then []
    else
      [ResponseLine(response.statusCode, response.reasonPhrase, now - startTime.value, GetUser(user))]
      + (if httpMethod == "GET" || response.content.None? then []
         else ContentEntries(o, response.contentType, response.content.value))
  }

  // ---------------------------------------------------------------------------
  // The middleware
  // ---------------------------------------------------------------------------

  /** The parts of an HTTP request the middleware reads, and the start time it
      stores on the request. */
  class HttpRequest {
    const path: string
    const httpMethod: string
    const contentType: Option<string>  // the Content-Type header, if sent
    const body: Bytes
    const form: string                 // the rendering of `request.POST`, as the framework filled it
    const user: Principal
    var startTime: Option<Time>

    constructor (path: string, httpMethod: string, contentType: Option<string>, body: Bytes, form: string, user: Principal)
      ensures this.path == path && this.httpMethod == httpMethod && this.contentType == contentType
      ensures this.body == body && this.form == form && this.user == user
      ensures startTime == None
    {
      this.path, this.httpMethod, this.contentType := path, httpMethod, contentType;
      this.body, this.form, this.user := body, form, user;
      startTime := None;
    }
  }

  /** How a hook ends: by returning a value or by raising. */
  datatype Outcome<T> = Returned(value: T) | Raised(error: string)

  class CustomLoggingMiddleware {
    const oracles: Oracles
    var log: seq<Entry>

    constructor (oracles: Oracles)
      ensures this.oracles == oracles && log == []
    {
      this.oracles := oracles;
      log := [];
    }

    /** `process_request`: stamps the request and logs it. */
    method ProcessRequest(request: HttpRequest, now: Time)
      modifies this`log, request`startTime
      ensures request.startTime == if Excluded(request.path) then old(request.startTime) else Some(now)
      ensures log == old(log) + RequestEntries(oracles, request.path, request.httpMethod, request.contentType,
                                               request.body, request.form, now)
    {
      if Excluded(request.path) {
        return;
      }
      request.startTime := Some(now);
      log := log + [Rule(SeparatorLine)];
      log := log + [RequestLine(now, request.httpMethod, request.path)];
      if request.httpMethod in ["POST", "PUT", "PATCH"] {
        var contentType := request.contentType;
        if contentType.Some? && contentType.value != "" {
          if Contains(contentType.value, "application/json") {
            var parsed := oracles.loadsBytes(request.body);
            if parsed.Some? {
              log := log + [Body(parsed.value)];
            } else {
              log := log + [JsonDecodeFailed];
              log := log + [RawBody(request.body)];
            }
          } else if Contains(contentType.value, "multipart/form-data") {
            log := log + [MultipartBody(request.form)];
          } else {
            log := log + [RawBody(request.body)];
          }
        }
      }
    }

    /** `process_response`: logs the response and hands it back unchanged. */
    method ProcessResponse(request: HttpRequest, response: HttpResponse, now: Time) returns (outcome: Outcome<HttpResponse>)
      modifies this`log
      ensures outcome == if MissingStartTime(request.path, request.startTime)
                         then Raised("AttributeError") else Returned(response)
      ensures log == old(log) + ResponseEntries(oracles, request.path, request.httpMethod, request.user,
                                                request.startTime, response, now)
    {
      if Excluded(request.path) {
        return Returned(response);
      }
      if request.startTime.None? {
        return Raised("AttributeError");
      }
      var duration := now - request.startTime.value;
      log := log + [ResponseLine(response.statusCode, response.reasonPhrase, duration, GetUser(request.user))];
      if request.httpMethod == "GET" {
        return Returned(response);
      }
      if response.content.Some? {
        var content := oracles.decode(response.content.value);
        if StartsWith(response.contentType.GetOr(""), "application/json") {
          var parsed := oracles.loadsText(content);
          if parsed.Some? {
            log := log + [ResponseContent(parsed.value)];
          } else {
            log := log + [JsonResponseDecodeFailed];
            log := log + [RawResponseContent(content)];
          }
        } else if StartsWith(content, HtmlDoctype) {
          // rendered HTML pages are not logged
        } else {
          log := log + [ResponseContent(Take(content, ContentLimit))];
        }
      }
      return Returned(response);
    }

    /** `process_exception`: logs the exception and returns nothing, so the
        exception propagates. It does not consult the excluded paths. */
    method ProcessException(request: HttpRequest, exception: string) returns (r: Option<HttpResponse>)
      modifies this`log
      ensures r == None
      ensures log == old(log) + [ExceptionRaised(exception)]
    {
      log := log + [ExceptionRaised(exception)];
      r := None;
    }
  }
}
