/**
 * `SemaphoreClient`: resolves its credentials from explicit arguments or an
 * environment mapping, joins endpoint paths onto the API's base URI, and injects
 * the API key (and, for POST bodies, the sender name) into every request.
 */
module Client {
  import opened Wrappers
  import opened Strings
  import Exceptions
  import opened Http

  const BaseUri := "http://api.semaphore.co/api/v4/"
  const ApiKeyVariable := "SEMAPHORE_SMS_APIKEY"
  const SenderNameVariable := "SEMAPHORE_SMS_SENDERNAME"
  const ApiKeyField := "apikey"
  const SenderNameField := "sendername"
  /** The timeout `SemaphoreClient.request` passes on when the caller gives none. */
  const DefaultTimeout: real := 10.0

  /** An environment mapping such as `os.environ`. */
  type Environment = map<string, string>

  /** Python truthiness of an optional string: present and non-empty. */
  predicate Truthy(s: Option<string>) {
    s.Some? && s.value != ""
  }

  /** `environment or os.environ`: a missing or empty mapping is replaced by the process environment. */
  function ChooseEnvironment(environment: Option<Environment>, processEnvironment: Environment): (env: Environment)
    ensures environment.Some? && |environment.value| > 0 ==> env == environment.value
    ensures environment.None? || environment.value == map[] ==> env == processEnvironment
  {
    if environment.Some? && |environment.value| > 0 then environment.value else processEnvironment
  }

  /** `explicit or env.get(name)`: a truthy explicit value wins, anything else falls through. */
  function Resolve(explicit: Option<string>, env: Environment, name: string): (r: Option<string>)
    ensures Truthy(explicit) ==> r == explicit
    ensures !Truthy(explicit) && name in env ==> r == Some(env[name])
    ensures !Truthy(explicit) && name !in env ==> r == None
  {
    if Truthy(explicit) then explicit else if name in env then Some(env[name]) else None
  }

  datatype Credentials = Credentials(apiKey: string, senderName: Option<string>)

  /** The credentials `SemaphoreClient.__init__` stores, or the exception it raises. */
  function ResolveCredentials(apiKey: Option<string>, senderName: Option<string>,
                              environment: Option<Environment>, processEnvironment: Environment)
    : (r: Result<Credentials, Exceptions.SemaphoreError>)
    ensures var env := ChooseEnvironment(environment, processEnvironment);
      r.Failure? <==> !Truthy(apiKey) && (ApiKeyVariable !in env || env[ApiKeyVariable] == "")
    ensures r.Failure? ==>
      r.error == Exceptions.NewSemaphoreException(Some(Exceptions.CredentialsRequired))
      && Exceptions.ClassOf(r.error) == Exceptions.SemaphoreExceptionClass
    ensures r.Success? ==> r.value.apiKey != ""
    ensures r.Success? && Truthy(apiKey) ==> r.value.apiKey == apiKey.value
    ensures r.Success? && !Truthy(apiKey) ==>
      r.value.apiKey == ChooseEnvironment(environment, processEnvironment)[ApiKeyVariable]
    ensures r.Success? ==>
      r.value.senderName == Resolve(senderName, ChooseEnvironment(environment, processEnvironment), SenderNameVariable)
  {
    var env := ChooseEnvironment(environment, processEnvironment);
    var key := Resolve(apiKey, env, ApiKeyVariable);
    if !Truthy(key) then
      Failure(Exceptions.NewSemaphoreException(Some(Exceptions.CredentialsRequired)))
    else
      Success(Credentials(key.value, Resolve(senderName, env, SenderNameVariable)))
  }

  /** `f'{BASE_URI}{uri}/'`. */
  function Url(uri: string): (url: string)
    ensures |url| == |BaseUri| + |uri| + 1
    ensures url[..|BaseUri|] == BaseUri && url[|BaseUri|..|url| - 1] == uri && url[|url| - 1] == '/'
  {
    BaseUri + uri + "/"
  }

  /** Distinct endpoint paths give distinct URLs. */
  lemma UrlInjective(a: string, b: string)
    requires Url(a) == Url(b)
    ensures a == b
  {
  }

  /** `{**params, 'apikey': api_key}`: a copy of the caller's map whose `apikey` is the client's key. */
  function WithApiKey(params: Params, apiKey: string): (r: Params)
    ensures r.Keys == params.Keys + {ApiKeyField}
    ensures r[ApiKeyField] == StrValue(apiKey)
    ensures forall k :: k in params && k != ApiKeyField ==> r[k] == params[k]
  {
    params[ApiKeyField := StrValue(apiKey)]
  }

  /** Python's value for an optional string: the string, or `None`. */
  function OptionalValue(s: Option<string>): Value {
    if s.Some? then StrValue(s.value) else NoneValue
  }

  /** `{**data, 'apikey': api_key, 'sendername': sender_name}`: the injected entries override the caller's. */
  function WithCredentials(data: Params, apiKey: string, senderName: Option<string>): (r: Params)
    ensures r.Keys == data.Keys + {ApiKeyField, SenderNameField}
    ensures r[ApiKeyField] == StrValue(apiKey)
    ensures r[SenderNameField] == OptionalValue(senderName)
    ensures forall k :: k in data && k != ApiKeyField && k != SenderNameField ==> r[k] == data[k]
  {
    data[ApiKeyField := StrValue(apiKey)][SenderNameField := OptionalValue(senderName)]
  }

  /** A `sendername` in the caller's body never survives: it is replaced by the client's
      sender name, even when that is `None`. */
  lemma PostOverridesCallerSenderName(data: Params, apiKey: string, name: string)
    ensures WithCredentials(data[SenderNameField := StrValue(name)], apiKey, None)[SenderNameField] == NoneValue
  {
  }

  class SemaphoreClient {
    const apiKey: string
    const senderName: Option<string>
    const httpClient: HttpClient

    constructor (credentials: Credentials)
      requires credentials.apiKey != ""
      ensures apiKey == credentials.apiKey && senderName == credentials.senderName
      ensures fresh(httpClient) && httpClient.timeout == None
    {
      apiKey := credentials.apiKey;
      senderName := credentials.senderName;
      httpClient := new HttpClient(None);
    }

    /** `SemaphoreClient(api_key, sender_name, environment)`, with `os.environ` passed in. */
    static method New(apiKey: Option<string>, senderName: Option<string>,
                      environment: Option<Environment>, processEnvironment: Environment)
      returns (r: Result<SemaphoreClient, Exceptions.SemaphoreError>)
      ensures var expected := ResolveCredentials(apiKey, senderName, environment, processEnvironment);
        && (r.Failure? <==> expected.Failure?)
        && (r.Failure? ==> r.error == expected.error)
        && (r.Success? ==>
              && fresh(r.value) && fresh(r.value.httpClient)
              && r.value.apiKey == expected.value.apiKey
              && r.value.senderName == expected.value.senderName
              && r.value.httpClient.timeout == None)
    {
      var resolved := ResolveCredentials(apiKey, senderName, environment, processEnvironment);
      if resolved.Failure? {
        return Failure(resolved.error);
      }
      var client := new SemaphoreClient(resolved.value);
      return Success(client);
    }

    /** `request`: the path becomes a full URL; everything else goes to the transport unchanged. */
    method Request(httpMethod: string, uri: string, params: Option<Params>, data: Option<Params>,
                   timeout: Option<real>, allowRedirects: bool) returns (r: Result<Outgoing, ValueError>)
      ensures r == Dispatch(httpClient.timeout, httpMethod, Url(uri), params, data, None, None, timeout, allowRedirects)
    {
      r := httpClient.Request(httpMethod, Url(uri), params, data, None, None, timeout, allowRedirects);
    }

    /** `get`: a GET with the API key added to the query parameters, no body and the default timeout. */
    method Get(uri: string, params: Params) returns (r: Result<Outgoing, ValueError>)
      ensures r == Success(Outgoing("GET", Url(uri), Some(WithApiKey(params, apiKey)), None, None, None,
                                    Some(DefaultTimeout), false, []))
    {
      r := Request("get", uri, Some(WithApiKey(params, apiKey)), None, Some(DefaultTimeout), false);
      assert Upper("get") == "GET";
    }

    /** `post`: a POST with the API key and sender name added to the body, no query and the default timeout. */
    method Post(uri: string, data: Params) returns (r: Result<Outgoing, ValueError>)
      ensures r == Success(Outgoing("POST", Url(uri), None, Some(WithCredentials(data, apiKey, senderName)),
                                    None, None, Some(DefaultTimeout), false, []))
    {
      r := Request("post", uri, None, Some(WithCredentials(data, apiKey, senderName)), Some(DefaultTimeout), false);
      assert Upper("post") == "POST";
    }
  }
}
