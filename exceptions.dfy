/**
 * The exception hierarchy of the Semaphore SMS binding: one constructor per
 * exception class, the class hierarchy as data, the constructors' default
 * messages and field normalisation, and each class's `__str__`.
 */
module Exceptions {
  import opened Wrappers
  import opened Strings

  const DefaultMessage := "An error occurred with the Semaphore API"
  const CredentialsRequired := "Credentials are required to create a SemaphoreClient"
  const DefaultValidationMessage := "Validation error"
  const InvalidPhoneMessage := "You supplied an invalid Philippine phone number in `recipients`"
  const BlankMessage := "Cannot send a blank message"
  const RateLimitExceeded := "Rate limit exceeded"
  const DefaultNetworkMessage := "Network error occurred"
  /** The status code a `RateLimitError` gets when none is given. */
  const TooManyRequests := 429

  /** An exception raised by the transport, known only through its `str()`. */
  datatype Cause = Cause(text: string)

  /** The two argument types `RateLimitError` accepts for `retry_after`. */
  datatype RetryAfterArg = IntArg(n: int) | StrArg(s: string)

  /** One constructor per exception class, holding that class's attributes. */
  datatype SemaphoreError =
    | SemaphoreException(message: string)
    | AuthenticationError(message: string)
    | ValidationError(message: string)
    | InvalidPhoneNumberError(message: string, recipients: seq<string>)
    | EmptyMessageError(message: string)
    | APIError(message: string, statusCode: int, responseText: string)
    | AuthorizationError(message: string, statusCode: int, responseText: string)
    | RateLimitError(message: string, statusCode: int, responseText: string, retryAfter: Option<int>)
    | ServerError(message: string, statusCode: int, responseText: string)
    | NetworkError(message: string, statusCode: int, responseText: string, originalException: Option<Cause>)

  // ---------------------------------------------------------------------------
  // The class hierarchy

  datatype ErrorClass =
    | SemaphoreExceptionClass
    | AuthenticationErrorClass
    | ValidationErrorClass
    | InvalidPhoneNumberErrorClass
    | EmptyMessageErrorClass
    | APIErrorClass
    | AuthorizationErrorClass
    | RateLimitErrorClass
    | ServerErrorClass
    | NetworkErrorClass

  /** Distance of a class from the base `SemaphoreException`. */
  function Depth(c: ErrorClass): nat {
    match c
    case SemaphoreExceptionClass => 0
    case AuthenticationErrorClass => 1
    case ValidationErrorClass => 1
    case APIErrorClass => 1
    case _ => 2
  }

  /** The direct base class (the base class's own base, `Exception`, is not modelled). */
  function Parent(c: ErrorClass): (p: Option<ErrorClass>)
    ensures p.None? <==> c == SemaphoreExceptionClass
    ensures p.Some? ==> Depth(p.value) + 1 == Depth(c)
  {
    match c
    case SemaphoreExceptionClass => None
    case AuthenticationErrorClass => Some(SemaphoreExceptionClass)
    case ValidationErrorClass => Some(SemaphoreExceptionClass)
    case APIErrorClass => Some(SemaphoreExceptionClass)
    case InvalidPhoneNumberErrorClass => Some(ValidationErrorClass)
    case EmptyMessageErrorClass => Some(ValidationErrorClass)
    case _ => Some(APIErrorClass)
  }

  /** Python's `issubclass(c, d)`: `d` is `c` or one of its ancestors. */
  predicate IsSubclass(c: ErrorClass, d: ErrorClass)
    ensures d == SemaphoreExceptionClass ==> IsSubclass(c, d)
    ensures IsSubclass(c, d) ==> Depth(d) <= Depth(c)
    ensures IsSubclass(c, d) && Depth(d) == Depth(c) ==> c == d
    decreases Depth(c)
  {
    c == d || (Parent(c).Some? && IsSubclass(Parent(c).value, d))
  }

  /** The class an exception value is an instance of. */
  function ClassOf(e: SemaphoreError): ErrorClass {
    match e
    case SemaphoreException(_) => SemaphoreExceptionClass
    case AuthenticationError(_) => AuthenticationErrorClass
    case ValidationError(_) => ValidationErrorClass
    case InvalidPhoneNumberError(_, _) => InvalidPhoneNumberErrorClass
    case EmptyMessageError(_) => EmptyMessageErrorClass
    case APIError(_, _, _) => APIErrorClass
    case AuthorizationError(_, _, _) => AuthorizationErrorClass
    case RateLimitError(_, _, _, _) => RateLimitErrorClass
    case ServerError(_, _, _) => ServerErrorClass
    case NetworkError(_, _, _, _) => NetworkErrorClass
  }

  /** Python's `isinstance(e, c)`. */
  predicate IsInstance(e: SemaphoreError, c: ErrorClass)
    ensures c == ClassOf(e) || c == SemaphoreExceptionClass ==> IsInstance(e, c)
    ensures IsInstance(e, c) ==> Depth(c) <= Depth(ClassOf(e))
  {
    IsSubclass(ClassOf(e), c)
  }

  /** Caught by `except ValidationError`. */
  predicate IsValidation(e: SemaphoreError) {
    IsInstance(e, ValidationErrorClass)
  }

  /** Caught by `except APIError`. */
  predicate IsAPI(e: SemaphoreError) {
    IsInstance(e, APIErrorClass)
  }

  /** The hierarchy is the documented two-level tree under `SemaphoreException`. */
  lemma Hierarchy()
    ensures forall c :: IsSubclass(c, SemaphoreExceptionClass)
    ensures forall c :: IsSubclass(c, ValidationErrorClass) <==>
      c in {ValidationErrorClass, InvalidPhoneNumberErrorClass, EmptyMessageErrorClass}
    ensures forall c :: IsSubclass(c, APIErrorClass) <==>
      c in {APIErrorClass, AuthorizationErrorClass, RateLimitErrorClass, ServerErrorClass, NetworkErrorClass}
    ensures forall c :: IsSubclass(c, AuthenticationErrorClass) <==> c == AuthenticationErrorClass
  {
  }

  /** Every exception value of the binding is caught by `except SemaphoreException`,
      and the validation and API families are disjoint and exactly what their names say. */
  lemma Classification(e: SemaphoreError)
    ensures IsInstance(e, SemaphoreExceptionClass)
    ensures IsValidation(e) <==> e.ValidationError? || e.InvalidPhoneNumberError? || e.EmptyMessageError?
    ensures IsAPI(e) <==> e.APIError? || e.AuthorizationError? || e.RateLimitError? || e.ServerError? || e.NetworkError?
    ensures !(IsValidation(e) && IsAPI(e))
  {
  }

  // ---------------------------------------------------------------------------
  // String forms

  /** `APIError.__str__`: the status code, then the response text when there is one. */
  function HttpStr(statusCode: int, responseText: string): (s: string)
    ensures Contains(s, IntToString(statusCode))
    ensures responseText != "" ==> Contains(s, responseText)
    ensures s == "HTTP " + IntToString(statusCode) <==> responseText == ""
    ensures responseText != "" ==> s == "HTTP " + IntToString(statusCode) + ": " + responseText
  {
    var code := IntToString(statusCode);
    if responseText != "" then
      ContainsInfix("HTTP ", code, ": " + responseText);
      ContainsInfix("HTTP " + code + ": ", responseText, "");
      assert "HTTP " + code + (": " + responseText) == "HTTP " + code + ": " + responseText;
      assert "HTTP " + code + ": " + responseText + "" == "HTTP " + code + ": " + responseText;
      "HTTP " + code + ": " + responseText
    else
      ContainsInfix("HTTP ", code, "");
      assert "HTTP " + code + "" == "HTTP " + code;
      "HTTP " + code
  }

  /** Python's `str(e)`, following which class overrides `__str__`. */
  function Str(e: SemaphoreError): (s: string)
    ensures e.SemaphoreException? || e.AuthenticationError? || e.ValidationError? || e.EmptyMessageError? ==>
      s == e.message
    ensures e.InvalidPhoneNumberError? || e.NetworkError? ==> Contains(s, e.message)
    ensures e.InvalidPhoneNumberError? ==> (s == e.message <==> e.recipients == [])
    ensures e.NetworkError? ==> (s == e.message <==> e.originalException.None?)
    ensures e.NetworkError? && e.originalException.Some? ==>
      s == e.message + ": " + e.originalException.value.text
    ensures e.NetworkError? && e.originalException.Some? ==> Contains(s, e.originalException.value.text)
    ensures e.APIError? || e.AuthorizationError? || e.RateLimitError? || e.ServerError? ==>
      Contains(s, IntToString(e.statusCode)) && (e.responseText != "" ==> Contains(s, e.responseText))
  {
    match e
    case InvalidPhoneNumberError(m, rs) =>
      ContainsStart(m, if |rs| > 0 then ": " + ReprList(rs) else "");
      assert m + "" == m;
      assert m + (": " + ReprList(rs)) == m + ": " + ReprList(rs);
      if |rs| > 0 then m + ": " + ReprList(rs) else m
    case APIError(_, c, t) => HttpStr(c, t)
    case AuthorizationError(_, c, t) => HttpStr(c, t)
    case RateLimitError(_, c, t, _) => HttpStr(c, t)
    case ServerError(_, c, t) => HttpStr(c, t)
    case NetworkError(m, _, _, o) =>
      ContainsStart(m, if o.Some? then ": " + o.value.text else "");
      assert m + "" == m;
      if o.Some? then
        ContainsInfix(m + ": ", o.value.text, "");
        assert m + ": " + o.value.text + "" == m + ": " + o.value.text;
        assert m + (": " + o.value.text) == m + ": " + o.value.text;
        m + ": " + o.value.text
      else m
    case _ => e.message
  }

  /** Classes that do not override `__str__` show their message; the HTTP error classes
      (except `NetworkError`) show status and text and never their message. */
  lemma StrOfMessage(e: SemaphoreError)
    ensures e.SemaphoreException? || e.AuthenticationError? || e.ValidationError? || e.EmptyMessageError? ==>
      Str(e) == e.message
    ensures IsAPI(e) && !e.NetworkError? ==> Str(e) == HttpStr(e.statusCode, e.responseText)
  {
  }

  // ---------------------------------------------------------------------------
  // Constructors (`None` for an argument means it was left at its default)

  function NewSemaphoreException(message: Option<string>): (e: SemaphoreError)
    ensures ClassOf(e) == SemaphoreExceptionClass
    ensures Str(e) == e.message == if message.Some? then message.value else DefaultMessage
  {
    SemaphoreException(message.GetOr(DefaultMessage))
  }

  function NewAuthenticationError(message: Option<string>): (e: SemaphoreError)
    ensures ClassOf(e) == AuthenticationErrorClass
    ensures Str(e) == e.message == if message.Some? then message.value else CredentialsRequired
  {
    AuthenticationError(message.GetOr(CredentialsRequired))
  }

  function NewValidationError(message: Option<string>): (e: SemaphoreError)
    ensures ClassOf(e) == ValidationErrorClass
    ensures Str(e) == e.message == if message.Some? then message.value else DefaultValidationMessage
  {
    ValidationError(message.GetOr(DefaultValidationMessage))
  }

  /** `recipients or []`: a missing list is stored as the empty list. */
  function NewInvalidPhoneNumberError(recipients: Option<seq<string>>, message: Option<string>): (e: SemaphoreError)
    ensures ClassOf(e) == InvalidPhoneNumberErrorClass
    ensures e.recipients == if recipients.Some? then recipients.value else []
    ensures e.message == if message.Some? then message.value else InvalidPhoneMessage
    ensures e.recipients == [] ==> Str(e) == e.message
    ensures e.recipients != [] ==> Str(e) == e.message + ": " + ReprList(e.recipients)
  {
    InvalidPhoneNumberError(message.GetOr(InvalidPhoneMessage), recipients.GetOr([]))
  }

  /** Each offending recipient appears in the error's string form. */
  lemma InvalidPhoneStrListsRecipients(recipients: seq<string>, message: Option<string>, k: nat)
    requires k < |recipients|
    ensures Contains(Str(NewInvalidPhoneNumberError(Some(recipients), message)), recipients[k])
  {
    var e := NewInvalidPhoneNumberError(Some(recipients), message);
    ReprListContains(recipients, k);
    ContainsSuffix(e.message + ": ", ReprList(recipients), recipients[k]);
  }

  function NewEmptyMessageError(message: Option<string>): (e: SemaphoreError)
    ensures ClassOf(e) == EmptyMessageErrorClass
    ensures Str(e) == e.message == if message.Some? then message.value else BlankMessage
  {
    EmptyMessageError(message.GetOr(BlankMessage))
  }

  /** `APIError(status_code, response_text, message)`; `message` is Python's `Optional[str]`. */
  function NewAPIError(statusCode: int, responseText: string, message: Option<string>): (e: SemaphoreError)
    ensures ClassOf(e) == APIErrorClass
    ensures e.statusCode == statusCode && e.responseText == responseText
    ensures e.message == if message.Some? then message.value
                         else "Request failed: HTTP " + IntToString(statusCode) + " " + responseText
    ensures Contains(Str(e), IntToString(statusCode))
    ensures responseText != "" ==> Contains(Str(e), responseText)
    ensures responseText == "" ==> Str(e) == "HTTP " + IntToString(statusCode)
  {
    APIError(message.GetOr("Request failed: HTTP " + IntToString(statusCode) + " " + responseText),
             statusCode, responseText)
  }

  function NewAuthorizationError(statusCode: int, responseText: string, message: Option<string>): (e: SemaphoreError)
    ensures ClassOf(e) == AuthorizationErrorClass && IsAPI(e)
    ensures e.statusCode == statusCode && e.responseText == responseText
    ensures e.message == if message.Some? then message.value
                         else "Authorization failed: HTTP " + IntToString(statusCode)
    ensures Contains(Str(e), IntToString(statusCode))
  {
    AuthorizationError(message.GetOr("Authorization failed: HTTP " + IntToString(statusCode)),
                       statusCode, responseText)
  }

  function NewServerError(statusCode: int, responseText: string, message: Option<string>): (e: SemaphoreError)
    ensures ClassOf(e) == ServerErrorClass && IsAPI(e)
    ensures e.statusCode == statusCode && e.responseText == responseText
    ensures e.message == if message.Some? then message.value
                         else "Server error: HTTP " + IntToString(statusCode)
    ensures Contains(Str(e), IntToString(statusCode))
  {
    ServerError(message.GetOr("Server error: HTTP " + IntToString(statusCode)), statusCode, responseText)
  }

  /** Python truthiness of the `retry_after` argument: not `None`, not `0`, not `""`. */
  predicate RetryAfterGiven(retryAfter: Option<RetryAfterArg>) {
    match retryAfter
    case None => false
    case Some(IntArg(n)) => n != 0
    case Some(StrArg(s)) => s != ""
  }

  /** A `retry_after` argument `int()` accepts: an integer or a string of ASCII digits. */
  predicate ParsableRetryAfter(retryAfter: Option<RetryAfterArg>) {
    retryAfter.Some? && retryAfter.value.StrArg? ==> IsDigitString(retryAfter.value.s)
  }

  /** `int(retry_after) if retry_after else None`. */
  function NormaliseRetryAfter(retryAfter: Option<RetryAfterArg>): (r: Option<int>)
    requires ParsableRetryAfter(retryAfter)
    ensures r.None? <==> !RetryAfterGiven(retryAfter)
    ensures r.Some? && retryAfter.value.IntArg? ==> r.value == retryAfter.value.n
    ensures r.Some? && retryAfter.value.StrArg? ==> r.value == ParseNat(retryAfter.value.s) >= 0
  {
    match retryAfter
    case None => None
    case Some(IntArg(n)) => if n != 0 then Some(n) else None
    case Some(StrArg(s)) => if s != "" then Some(ParseNat(s)) else None
  }

  /** The decimal string of a count normalises to the same value as the count itself;
      only the string `"0"` differs, as it is truthy and so becomes `Some(0)`, not `None`. */
  lemma RetryAfterStringAgreesWithInt(n: nat)
    ensures NormaliseRetryAfter(Some(StrArg(NatToString(n)))) == Some(n)
    ensures n != 0 ==> NormaliseRetryAfter(Some(IntArg(n))) == Some(n)
    ensures NormaliseRetryAfter(Some(IntArg(0))) == None
  {
    ParseNatToString(n);
  }

  /** `RateLimitError(status_code=429, response_text="", retry_after=None, message=None)`. */
  function NewRateLimitError(statusCode: Option<int>, responseText: string,
                             retryAfter: Option<RetryAfterArg>, message: Option<string>): (e: SemaphoreError)
    requires ParsableRetryAfter(retryAfter)
    ensures ClassOf(e) == RateLimitErrorClass && IsAPI(e)
    ensures e.statusCode == (if statusCode.Some? then statusCode.value else TooManyRequests)
    ensures e.responseText == responseText
    ensures e.retryAfter == NormaliseRetryAfter(retryAfter)
    ensures message.Some? ==> e.message == message.value
    ensures message.None? && e.retryAfter.Some? && e.retryAfter.value != 0 ==>
      e.message == RateLimitExceeded + ". Retry after " + IntToString(e.retryAfter.value) + " seconds"
    ensures message.None? && (e.retryAfter.None? || e.retryAfter.value == 0) ==> e.message == RateLimitExceeded
    ensures Contains(Str(e), IntToString(e.statusCode))
  {
    var after := NormaliseRetryAfter(retryAfter);
    var defaultMessage :=
      if after.Some? && after.value != 0
      then RateLimitExceeded + ". Retry after " + IntToString(after.value) + " seconds"
      else RateLimitExceeded;
    RateLimitError(message.GetOr(defaultMessage), statusCode.GetOr(TooManyRequests), responseText, after)
  }

  /** `NetworkError(message, original_exception)`: no HTTP response, so status 0 and no text. */
  function NewNetworkError(message: Option<string>, originalException: Option<Cause>): (e: SemaphoreError)
    ensures ClassOf(e) == NetworkErrorClass && IsAPI(e)
    ensures e.statusCode == 0 && e.responseText == ""
    ensures e.originalException == originalException
    ensures e.message == if message.Some? then message.value else DefaultNetworkMessage
    ensures Contains(Str(e), e.message)
    ensures originalException.Some? ==> Contains(Str(e), originalException.value.text)
    ensures originalException.None? ==> Str(e) == e.message
    ensures originalException.Some? ==> Str(e) == e.message + ": " + originalException.value.text
  {
    var m := message.GetOr(DefaultNetworkMessage);
    if originalException.Some? then
      ContainsInfix("", m, ": " + originalException.value.text);
      ContainsInfix(m + ": ", originalException.value.text, "");
      assert "" + m + (": " + originalException.value.text) == m + ": " + originalException.value.text;
      assert m + ": " + originalException.value.text + "" == m + ": " + originalException.value.text;
      NetworkError(m, 0, "", originalException)
    else
      ContainsInfix("", m, "");
      assert "" + m + "" == m;
      NetworkError(m, 0, "", originalException)
  }
}
