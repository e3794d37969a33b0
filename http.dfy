/**
 * The transport adapter: the response wrapper used in tests, and `HttpClient`,
 * which holds a mutable default timeout, resolves the timeout of each call,
 * upper-cases the method and decides which headers may be logged. Handing the
 * request to the HTTP library is not modelled: `Request` returns the `Outgoing`
 * request it would hand over.
 */
module Http {
  import opened Wrappers
  import opened Strings

  /** A `(key, value)` item of a headers dictionary, in insertion order. */
  type Header = (string, string)

  /** A value in a query-parameter or body dictionary. */
  datatype Value = NoneValue | StrValue(s: string) | ObjectValue(text: string)

  type Params = map<string, Value>

  /** The body of a response: a string, or another object known by its `str()`. */
  datatype Payload = StrPayload(s: string) | ObjectPayload(text: string)

  /** Python's `str(content)`. */
  function Show(p: Payload): string {
    match p
    case StrPayload(s) => s
    case ObjectPayload(t) => t
  }

  /** `HttpResponse`: the response stand-in, with `ok` fixed at construction. */
  datatype HttpResponse = HttpResponse(statusCode: int, content: Payload, headers: Option<seq<Header>>, ok: bool)

  function NewHttpResponse(statusCode: int, content: Payload, headers: Option<seq<Header>>): (r: HttpResponse)
    ensures r.statusCode == statusCode && r.content == content && r.headers == headers
    ensures r.ok <==> statusCode < 400
  {
    HttpResponse(statusCode, content, headers, statusCode < 400)
  }

  /** `response.text`: the string form of the content; a string body is its own text. */
  function Text(r: HttpResponse): (t: string)
    ensures r.content.StrPayload? ==> t == r.content.s
  {
    Show(r.content)
  }

  /** `response.json()`: the content, untouched. */
  function Json(r: HttpResponse): (p: Payload)
    ensures Show(p) == Text(r)
    ensures p == r.content
  {
    r.content
  }

  /** `repr(response)`: `HTTP <status> <content>`. */
  function Repr(r: HttpResponse): (s: string)
    ensures Contains(s, IntToString(r.statusCode)) && Contains(s, Text(r))
  {
    var code := IntToString(r.statusCode);
    ContainsInfix("HTTP ", code, " " + Show(r.content));
    ContainsInfix("HTTP " + code + " ", Show(r.content), "");
    assert "HTTP " + code + (" " + Show(r.content)) == "HTTP " + code + " " + Show(r.content);
    assert "HTTP " + code + " " + Show(r.content) + "" == "HTTP " + code + " " + Show(r.content);
    "HTTP " + code + " " + Show(r.content)
  }

  // ---------------------------------------------------------------------------
  // Header logging filter

  /** Headers whose lower-cased key contains `authorization` are never logged. */
  predicate IsAuthorizationKey(key: string)
    ensures |key| < |"authorization"| ==> !IsAuthorizationKey(key)
    ensures Contains(key, "authorization") || Contains(key, "Authorization") || Contains(key, "AUTHORIZATION") ==>
      IsAuthorizationKey(key)
  {
    AuthorizationSpellings(key);
    Contains(Lower(key), "authorization")
  }

  lemma AuthorizationSpellings(key: string)
    ensures Contains(key, "authorization") || Contains(key, "Authorization") || Contains(key, "AUTHORIZATION") ==>
      Contains(Lower(key), "authorization")
  {
    assert Lower("authorization") == "authorization";
    assert Lower("Authorization") == "authorization";
    assert Lower("AUTHORIZATION") == "authorization";
    if Contains(key, "authorization") {
      LowerKeepsOccurrence(key, "authorization");
    } else if Contains(key, "Authorization") {
      LowerKeepsOccurrence(key, "Authorization");
    } else if Contains(key, "AUTHORIZATION") {
      LowerKeepsOccurrence(key, "AUTHORIZATION");
    }
  }

  /** The headers `log_request` writes out, in order. */
  function LoggableHeaders(headers: seq<Header>): (logged: seq<Header>)
    ensures |logged| <= |headers|
    ensures forall i :: 0 <= i < |logged| ==> !IsAuthorizationKey(logged[i].0)
    ensures forall i :: 0 <= i < |logged| ==> logged[i] in headers
    decreases |headers|
  {
    if headers == [] then []
    else
      var last := headers[|headers| - 1];
      LoggableHeaders(headers[..|headers| - 1]) + (if IsAuthorizationKey(last.0) then [] else [last])
  }

  /** A header is logged exactly when it is sent and its key is not an authorization key. */
  lemma {:induction false} LoggableHeadersExact(headers: seq<Header>, h: Header)
    ensures h in LoggableHeaders(headers) <==> h in headers && !IsAuthorizationKey(h.0)
    decreases |headers|
  {
    if headers != [] {
      var init := headers[..|headers| - 1];
      LoggableHeadersExact(init, h);
      assert headers == init + [headers[|headers| - 1]];
    }
  }

  /** Case does not matter and the word may sit anywhere in the key. */
  lemma AuthorizationKeyExamples()
    ensures IsAuthorizationKey("Authorization")
    ensures IsAuthorizationKey("Proxy-Authorization")
    ensures !IsAuthorizationKey("Host")
  {
  }

  // ---------------------------------------------------------------------------
  // Timeout policy and dispatch

  /** `ValueError(timeout)`. */
  datatype ValueError = ValueError(timeout: real)

  /** Basic-auth credentials passed through to the HTTP library. */
  datatype Auth = Auth(user: string, password: string)

  /** The request `HttpClient.request` hands to the HTTP session, with the timeout
      and redirect policy it sends it under and the headers it logged. */
  datatype Outgoing = Outgoing(
    httpMethod: string,
    url: string,
    params: Option<Params>,
    data: Option<Params>,
    headers: Option<seq<Header>>,
    auth: Option<Auth>,
    timeout: Option<real>,
    allowRedirects: bool,
    loggedHeaders: seq<Header>)

  /** What the constructor accepts: no timeout, or a positive one. */
  predicate ValidTimeout(timeout: Option<real>) {
    timeout.None? || timeout.value > 0.0
  }

  /** The timeout a call is sent with: a given one must be positive and wins; a missing one
      falls back to the client's field, whatever that holds. */
  function EffectiveTimeout(perCall: Option<real>, configured: Option<real>): (r: Result<Option<real>, ValueError>)
    ensures r.Failure? <==> !ValidTimeout(perCall)
    ensures r.Failure? ==> r.error == ValueError(perCall.value)
    ensures r.Success? && perCall.Some? ==> r.value == perCall
    ensures r.Success? && perCall.None? ==> r.value == configured
  {
    match perCall
    case None => Success(configured)
    case Some(t) => if t <= 0.0 then Failure(ValueError(t)) else Success(perCall)
  }

  /** A client whose field was set by the constructor never sends a non-positive timeout;
      the field alone is not checked again, so a field later set to 0 is sent as it is. */
  lemma EffectiveTimeoutValid(perCall: Option<real>, configured: Option<real>)
    ensures ValidTimeout(configured) && EffectiveTimeout(perCall, configured).Success? ==>
      ValidTimeout(EffectiveTimeout(perCall, configured).value)
    ensures EffectiveTimeout(None, Some(0.0)) == Success(Some(0.0))
  {
  }

  /** The whole of `HttpClient.request` up to the hand-over to the session. */
  function Dispatch(configured: Option<real>, httpMethod: string, url: string,
                    params: Option<Params>, data: Option<Params>, headers: Option<seq<Header>>,
                    auth: Option<Auth>, timeout: Option<real>, allowRedirects: bool): (r: Result<Outgoing, ValueError>)
    ensures r.Failure? <==> EffectiveTimeout(timeout, configured).Failure?
    ensures r.Failure? ==> r.error == EffectiveTimeout(timeout, configured).error
    ensures r.Success? ==>
      && r.value.httpMethod == Upper(httpMethod)
      && r.value.url == url && r.value.params == params && r.value.data == data
      && r.value.headers == headers && r.value.auth == auth
      && r.value.timeout == EffectiveTimeout(timeout, configured).value
      && r.value.allowRedirects == allowRedirects
      && r.value.loggedHeaders == (if headers.Some? then LoggableHeaders(headers.value) else [])
  {
    match EffectiveTimeout(timeout, configured)
    case Failure(err) => Failure(err)
    case Success(t) =>
      Success(Outgoing(Upper(httpMethod), url, params, data, headers, auth, t, allowRedirects,
                       if headers.Some? then LoggableHeaders(headers.value) else []))
  }

  class HttpClient {
    /** The default timeout; callers may reassign it at any time. */
    var timeout: Option<real>

    constructor (timeout: Option<real>)
      requires ValidTimeout(timeout)
      ensures this.timeout == timeout
    {
      this.timeout := timeout;
    }

    /** `HttpClient(timeout)`: raises `ValueError(timeout)` for a non-positive timeout. */
    static method New(timeout: Option<real>) returns (r: Result<HttpClient, ValueError>)
      ensures r.Failure? <==> !ValidTimeout(timeout)
      ensures r.Failure? ==> r.error == ValueError(timeout.value)
      ensures r.Success? ==> fresh(r.value) && r.value.timeout == timeout
    {
      if timeout.Some? && timeout.value <= 0.0 {
        return Failure(ValueError(timeout.value));
      }
      var client := new HttpClient(timeout);
      return Success(client);
    }

    /** `request`: resolves the timeout (raising before anything is logged or sent),
        upper-cases the method and logs the request. */
    method Request(httpMethod: string, url: string, params: Option<Params>, data: Option<Params>,
                   headers: Option<seq<Header>>, auth: Option<Auth>, timeout: Option<real>,
                   allowRedirects: bool) returns (r: Result<Outgoing, ValueError>)
      ensures r == Dispatch(this.timeout, httpMethod, url, params, data, headers, auth, timeout, allowRedirects)
    {
      var t := timeout;
      if t.None? {
        t := this.timeout;
      } else if t.value <= 0.0 {
        return Failure(ValueError(t.value));
      }
      var logged := LogRequestHeaders(headers);
      r := Success(Outgoing(Upper(httpMethod), url, params, data, headers, auth, t, allowRedirects, logged));
    }

    /** The header part of `log_request`: the headers it writes out, in order. */
    method LogRequestHeaders(headers: Option<seq<Header>>) returns (logged: seq<Header>)
      ensures headers.None? ==> logged == []
      ensures headers.Some? ==> logged == LoggableHeaders(headers.value)
    {
      logged := [];
      if headers.Some? && |headers.value| > 0 {
        var items := headers.value;
        var i := 0;
        while i < |items|
          invariant 0 <= i <= |items|
          invariant logged == LoggableHeaders(items[..i])
        {
          assert items[..i + 1][..i] == items[..i];
          if !IsAuthorizationKey(items[i].0) {
            logged := logged + [items[i]];
          }
          i := i + 1;
        }
        assert items[..|items|] == items;
      }
    }
  }

  /** The timeout scenarios the transport's own tests walk through. */
  method TimeoutScenarios()
  {
    var client := new HttpClient(None);
    var r := client.Request("doesnt matter", "doesnt matter", None, None, None, None, Some(0.0), false);
    assert r == Failure(ValueError(0.0));
    client.timeout := Some(30.0);
    r := client.Request("doesnt matter", "doesnt matter", None, None, None, None, None, false);
    assert r.Success? && r.value.timeout == Some(30.0);
    r := client.Request("doesnt matter", "doesnt matter", None, None, None, None, Some(15.0), false);
    assert r.Success? && r.value.timeout == Some(15.0);
    client.timeout := Some(0.0);
    r := client.Request("doesnt matter", "doesnt matter", None, None, None, None, None, false);
    assert r.Success? && r.value.timeout == Some(0.0);
  }
}
