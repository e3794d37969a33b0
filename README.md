# Semaphore SMS client core, modelled in Dafny

This project models the decision logic of a small Python binding for the Semaphore SMS
gateway's REST API (`http://api.semaphore.co/api/v4/`):

- **client construction and request shaping** (`SemaphoreClient`): the API key and sender
  name come from explicit arguments or, failing that, from an environment mapping; the
  client refuses to exist without a non-empty API key; endpoint paths are joined onto the
  base URI; `get` injects the API key into the query parameters and `post` injects the API key
  and sender name into the body, overriding whatever the caller put under those names;
- **the exception taxonomy**: the ten exception classes as one datatype, their two-level
  class hierarchy, each constructor's default message and field normalisation
  (`recipients or []`, `int(retry_after) if retry_after else None`, the fixed status 0 of a
  network error) and each class's `__str__`;
- **the transport adapter** (`HttpClient`): its mutable default timeout, the per-call
  timeout rule (a given timeout must be positive and wins; a missing one falls back to the
  field without any check), method upper-casing, the response wrapper `HttpResponse`
  (`ok`, `text`, `json()`, `repr`) and the rule that headers whose key mentions
  `authorization` are never logged.

Files: `wrappers.dfy` (Option, Result), `strings.dfy` (the Python string built-ins the core
relies on: `str(int)`, `int(str)` on digit strings, ASCII `upper`/`lower`, `in` on strings,
`repr` of a list of strings), `exceptions.dfy`, `http.dfy`, `client.dfy`.

Python defaults are modelled with `Option`. For the exception constructors' messages,
`RateLimitError`'s status code and `HttpClient`'s timeouts, `None` stands for an argument left
at its default. Where the argument is typed `Optional[...]` and defaults to `None`, that
default is also Python's `None`. `SemaphoreClient.request` is the exception: its `timeout`
defaults to 10, and in the model `None` is an explicitly passed `None`, which falls back to
the `HttpClient` field. Values the
core only passes through or prints (the wrapped transport exception, a response body, a
dictionary value) are datatypes known by their `str()` form. Timeouts are `real`, as they
are only compared with zero. The process environment is a parameter of construction.
Maps are values in Dafny, so `get` and `post` building a fresh dictionary and never
changing the caller's (including a shared `dict()` default) holds by construction.

The `AuthenticationError` docstring says it is raised when no API key is given and none is
found in the environment (src/semaphore_sms/exceptions.py:79-89). The client's constructor
instead raises the base `SemaphoreException` in that case (src/semaphore_sms/client.py:32-33).
The model follows the constructor.

A `sendername` that the caller puts in a POST body is always replaced by the client's sender
name, even when that is `None` (src/semaphore_sms/client.py:78-82;
`Client.PostOverridesCallerSenderName`).

The method `Http.TimeoutScenarios` replays the transport's timeout tests
(tests/test_http_client.py:40-82) against the `HttpClient` class. With no field timeout, a
per-call timeout of 0 raises `ValueError(0)` (lines 40-49). With the field set to 30, a call
without a timeout sends 30 (lines 51-59) and a per-call timeout of 15 is sent as 15
(lines 71-82). With the field later set to 0, a call without a timeout sends 0 (lines 61-69).

## Model

| member | source | states |
|---|---|---|
| `Client.ChooseEnvironment` | src/semaphore_sms/client.py:28 | a missing or empty environment mapping is replaced by the process environment; a non-empty one is used as given |
| `Client.Resolve` | src/semaphore_sms/client.py:29-30 | `explicit or env.get(name)`: a truthy explicit value wins; `None` or `""` falls through to the environment entry, or to `None` when it is absent |
| `Client.ResolveCredentials` | src/semaphore_sms/client.py:28-33 | construction fails exactly when neither a non-empty explicit key nor a non-empty environment key exists, and then with the base `SemaphoreException` carrying "Credentials are required..."; otherwise the stored key is non-empty, is the explicit key when that is truthy and the environment's otherwise, and the sender name resolves the same way and may be `None` |
| `Client.SemaphoreClient.New` | src/semaphore_sms/client.py:15-35 | the constructor raises exactly what `ResolveCredentials` says, and otherwise stores the resolved key and sender name and a fresh `HttpClient` with no timeout |
| `Client.Url` | src/semaphore_sms/client.py:58 | the URL is the base URI, then the path, then `/` |
| `Client.UrlInjective` | src/semaphore_sms/client.py:58 | distinct paths give distinct URLs |
| `Client.WithApiKey` | src/semaphore_sms/client.py:70-73 | the outgoing query has the caller's keys plus `apikey`, `apikey` is the client's key whatever the caller gave, and every other entry is unchanged |
| `Client.WithCredentials` | src/semaphore_sms/client.py:78-82 | the outgoing body has the caller's keys plus `apikey` and `sendername`, both set to the client's values (overriding the caller's), every other entry unchanged |
| `Client.PostOverridesCallerSenderName` | src/semaphore_sms/client.py:78-82 | a caller's `sendername` is replaced by the client's sender name even when that is `None` |
| `Client.SemaphoreClient.Request` | src/semaphore_sms/client.py:37-67 | the transport receives the full URL, the caller's method, params, data, timeout and redirect flag, and no headers or auth |
| `Client.SemaphoreClient.Get` | src/semaphore_sms/client.py:69-75 | a GET always succeeds in shaping: method `GET`, the joined URL, the caller's params with the key injected, no body, timeout 10, no redirects |
| `Client.SemaphoreClient.Post` | src/semaphore_sms/client.py:77-84 | a POST always succeeds in shaping: method `POST`, the joined URL, no query, the caller's data with key and sender name injected, timeout 10, no redirects |
| `Exceptions.Parent` | src/semaphore_sms/exceptions.py:7-17 | only `SemaphoreException` has no base class among the ten, and every base class is one level nearer the root |
| `Exceptions.Hierarchy` | src/semaphore_sms/exceptions.py:7-17 | every class is a subclass of `SemaphoreException`; the subclasses of `ValidationError` are exactly it, `InvalidPhoneNumberError` and `EmptyMessageError`; those of `APIError` are exactly it and the authorization, rate-limit, server and network errors; `AuthenticationError` has none |
| `Exceptions.IsSubclass` | src/semaphore_sms/exceptions.py:7-17 | `issubclass`: every class is a subclass of `SemaphoreException`, an ancestor is never deeper than its descendant, and a class's only subclass at its own depth is itself |
| `Exceptions.IsInstance` | src/semaphore_sms/exceptions.py:55-314 | `isinstance`: every value is an instance of its own class and of `SemaphoreException`, and never of a class deeper than its own |
| `Exceptions.Str` | src/semaphore_sms/exceptions.py:73-74 | `str(e)`, the four `__str__` methods (exceptions.py:73-74, 142-145, 194-195 and 311-314): the four classes without their own `__str__` print the message; `InvalidPhoneNumberError` prints the message, with more exactly when there are recipients; `NetworkError` prints the message alone without an original exception and the message, `": "` and the original exception otherwise; the other HTTP errors name the status code and any non-empty response text |
| `Exceptions.Classification` | src/semaphore_sms/exceptions.py:55-314 | every exception value is caught as a `SemaphoreException`; `except ValidationError` and `except APIError` catch exactly the constructors of their families, and never the same value |
| `Exceptions.HttpStr` | src/semaphore_sms/exceptions.py:194-195 | the string form of an HTTP error is exactly "HTTP {code}" when the response text is empty and "HTTP {code}: {text}" otherwise |
| `Exceptions.StrOfMessage` | src/semaphore_sms/exceptions.py:73-74 | classes without their own `__str__` print their message; the HTTP error classes other than `NetworkError` print status and text, never their message |
| `Exceptions.NewSemaphoreException` | src/semaphore_sms/exceptions.py:69-74 | the message is the given one or "An error occurred with the Semaphore API", and `str()` is that message |
| `Exceptions.NewAuthenticationError` | src/semaphore_sms/exceptions.py:92-93 | a given message replaces the default "Credentials are required to create a SemaphoreClient", and `str()` is the message |
| `Exceptions.NewValidationError` | src/semaphore_sms/exceptions.py:111-112 | the message defaults to "Validation error", and `str()` is the message |
| `Exceptions.NewInvalidPhoneNumberError` | src/semaphore_sms/exceptions.py:134-145 | a missing recipient list is stored as `[]`; the message defaults to the invalid-phone text; `str()` is the message alone for no recipients and the message, `": "` and the list otherwise |
| `Exceptions.InvalidPhoneStrListsRecipients` | src/semaphore_sms/exceptions.py:142-145 | every offending recipient occurs in the string form of the error |
| `Exceptions.NewEmptyMessageError` | src/semaphore_sms/exceptions.py:159-160 | the message defaults to "Cannot send a blank message", and `str()` is the message |
| `Exceptions.NewAPIError` | src/semaphore_sms/exceptions.py:182-195 | status code and response text are stored as given; the message defaults to "Request failed: HTTP {code} {text}"; `str()` is exactly "HTTP {code}" when the text is empty and "HTTP {code}: {text}" otherwise |
| `Exceptions.NewAuthorizationError` | src/semaphore_sms/exceptions.py:214-222 | an `APIError` with the given status and text; the message defaults to "Authorization failed: HTTP {code}"; `str()` names the code |
| `Exceptions.NewServerError` | src/semaphore_sms/exceptions.py:275-283 | an `APIError` with the given status and text; the message defaults to "Server error: HTTP {code}"; `str()` names the code |
| `Exceptions.NormaliseRetryAfter` | src/semaphore_sms/exceptions.py:252 | `retry_after` is `None` exactly when the argument is falsy (`None`, `0`, `""`); otherwise it is the integer, or the integer value of the digit string |
| `Exceptions.RetryAfterStringAgreesWithInt` | src/semaphore_sms/exceptions.py:252 | the decimal string of `n` normalises to `n` (so `"0"` gives `0`, not `None`), the integer `n` likewise unless it is `0`, which gives `None` |
| `Exceptions.NewRateLimitError` | src/semaphore_sms/exceptions.py:245-258 | status defaults to 429; `retry_after` is normalised; the default message mentions the seconds only when the normalised value is non-zero, and is "Rate limit exceeded" otherwise; `str()` names the status code |
| `Exceptions.NewNetworkError` | src/semaphore_sms/exceptions.py:302-314 | status code 0 and empty response text whatever the arguments; the message defaults to "Network error occurred"; `str()` is the message, followed by `": "` and the original exception when there is one |
| `Http.NewHttpResponse` | src/semaphore_sms/http.py:20-29 | the fields are stored as given and `ok` holds exactly when the status is below 400 |
| `Http.Text` | src/semaphore_sms/http.py:31-33 | `text` is the string form of the content; a string body is its own text |
| `Http.Json` | src/semaphore_sms/http.py:35-36 | `json()` returns the content unchanged, whose string form is `text` |
| `Http.Repr` | src/semaphore_sms/http.py:38-39 | `repr` names the status code and the text |
| `Http.IsAuthorizationKey` | src/semaphore_sms/http.py:152 | a key shorter than `authorization` is never an authorization key; a key containing `authorization`, `Authorization` or `AUTHORIZATION` always is |
| `Http.LoggableHeaders` | src/semaphore_sms/http.py:148-153 | the logged headers are at most the sent ones, all taken from the sent ones, and none has an authorization key |
| `Http.LoggableHeadersExact` | src/semaphore_sms/http.py:148-153 | a header is logged exactly when it was passed and its lower-cased key does not contain `authorization` |
| `Http.AuthorizationKeyExamples` | src/semaphore_sms/http.py:150-152 | `Authorization` and `Proxy-Authorization` are kept out of the log whatever their case; `Host` is logged |
| `Http.HttpClient.LogRequestHeaders` | src/semaphore_sms/http.py:148-153 | the loop over the header items logs, in order, exactly the non-authorization headers, and nothing when there are no headers |
| `Http.EffectiveTimeout` | src/semaphore_sms/http.py:96-99 | a per-call timeout that is not positive raises `ValueError` with that value; a positive one wins over the field; a missing one yields the field as it is |
| `Http.EffectiveTimeoutValid` | src/semaphore_sms/http.py:62-64 | with a field the constructor accepted, every timeout sent is missing or positive, but a field later set to 0 is sent as 0 |
| `Http.HttpClient.New` | src/semaphore_sms/http.py:47-64 | construction raises `ValueError(timeout)` exactly when the timeout is given and not positive, and otherwise stores it |
| `Http.Dispatch` | src/semaphore_sms/http.py:96-108 | a request fails exactly when its timeout is rejected, before anything is logged or sent; otherwise it goes out with the upper-cased method, every other argument unchanged, the resolved timeout and the loggable headers |
| `Http.HttpClient.Request` | src/semaphore_sms/http.py:70-108 | the request built from the current value of the field is the one `Dispatch` describes |
| `Strings.NatToString` | src/semaphore_sms/exceptions.py:191 | the decimal form used in messages is a non-empty digit string without a leading zero |
| `Strings.ParseNatToString` | src/semaphore_sms/exceptions.py:252 | `int()` of the decimal form of `n` is `n` |
| `Strings.IntToStringInjective` | src/semaphore_sms/exceptions.py:191 | distinct status codes have distinct decimal forms |
| `Strings.Upper` | src/semaphore_sms/http.py:102 | upper-casing keeps the length, turns each lower-case ASCII letter into its capital and changes nothing else |
| `Strings.Lower` | src/semaphore_sms/http.py:152 | lower-casing keeps the length, turns each upper-case ASCII letter into its small letter and changes nothing else |
| `Strings.ContainsAt` | src/semaphore_sms/http.py:152 | `sub in s` holds whenever `sub` occurs at some position of `s` |
| `Strings.ReprListContains` | src/semaphore_sms/exceptions.py:144 | every element of a list of strings occurs in the list's string form |

## Left out

- The HTTP transport: `Session`, `prepare_request`, `merge_environment_settings`, `send`, the response object and `HTTPAdapter` mounting for `max_retries` are calls into the `requests` library; `HttpClient.Request` returns the request it would hand over (`Outgoing`) instead.
- Logging: only which headers `log_request` writes is modelled; the other log lines, `urlencode` of the query and `log_response` are output only.
- `os.environ`: passed in as the `processEnvironment` parameter.
- The endpoint methods (send, priority, OTP, messages, account, transactions, sender names, users), phone-number validation and the mapping from HTTP status to exception class: `client.py` as it stands defines none of them.
- Exceptions.NewRateLimitError: a string `retry_after` is restricted to ASCII digits; Python's `int()` also accepts signs, surrounding whitespace, other Unicode digits and single underscores between digits (`"1_000"` is 1000), and raises `ValueError` on anything else.
- Strings.ReprStr: Python's `repr` of a string that contains quotes, backslashes or unprintable characters escapes them or switches quote style; the model quotes with `'` and escapes nothing.
- Strings.Upper, Strings.Lower: only ASCII letters change case; Python also maps other Unicode letters, some to several characters.
- The wrapped transport exception is known only by its `str()` (`Cause.text`); Python's exception objects are always truthy, which is what `Option` presence models.
- Explicitly passing `None` as the message of `SemaphoreException`, `AuthenticationError`, `ValidationError`, `EmptyMessageError`, or `InvalidPhoneNumberError` without recipients makes Python store `None` and fail later in `__str__`. With recipients, `InvalidPhoneNumberError` prints `None: [...]`. `NetworkError(message=None)` gets `APIError`'s default "Request failed: HTTP 0 ". The model covers only an omitted message.
- Client.SemaphoreClient.Request: its timeout and redirect flag are always passed explicitly. The Python defaults (timeout 10, no redirects) are modelled only where `Get` and `Post` supply them.
- Exceptions.NewInvalidPhoneNumberError: Python stores a non-empty recipient list as the caller's own object, so later changes to that list show up in `e.recipients`; the model stores a copy.
- Client.WithApiKey, Client.WithCredentials: a Python dict keeps insertion order (the caller's keys, then `apikey`, then `sendername`), and `requests` encodes the query and body in that order. A Dafny map has no order, so the model does not capture the order in which parameters are encoded.
- `HttpResponse` headers are carried but never inspected, since nothing in the core reads them; later mutation of a response's `status_code` (which would leave `ok` stale) is not modelled.
