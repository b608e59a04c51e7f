/**
 * The HTTP status codes the server uses, grouped as in section 10 of
 * RFC 2616: one enumeration per status class, each case with its raw value.
 * `FromRawValue` is the failable initialiser Swift derives for an
 * enumeration with raw values.
 */
module StatusCodes {
  import opened Wrappers

  /** Successful 2xx (section 10.2 of RFC 2616). */
  datatype SuccessfulStatus = Ok
  {
    function RawValue(): (code: int)
      ensures 200 <= code < 300
    {
      200
    }

    static function FromRawValue(code: int): (status: Option<SuccessfulStatus>)
      ensures status.Some? ==> status.value.RawValue() == code
      ensures status.None? ==> forall s: SuccessfulStatus :: s.RawValue() != code
    {
      if code == 200 then Some(Ok) else None
    }
  }

  /** Redirection 3xx (section 10.3 of RFC 2616). */
  datatype RedirectionStatus = NotModified
  {
    function RawValue(): (code: int)
      ensures 300 <= code < 400
    {
      304
    }

    static function FromRawValue(code: int): (status: Option<RedirectionStatus>)
      ensures status.Some? ==> status.value.RawValue() == code
      ensures status.None? ==> forall s: RedirectionStatus :: s.RawValue() != code
    {
      if code == 304 then Some(NotModified) else None
    }
  }

  /** Client error 4xx (section 10.4 of RFC 2616). */
  datatype ClientErrorStatus = BadRequest | Unauthorized | PreconditionFailed
  {
    function RawValue(): (code: int)
      ensures 400 <= code < 500
    {
      match this
      case BadRequest => 400
      case Unauthorized => 401
      case PreconditionFailed => 412
    }

    static function FromRawValue(code: int): (status: Option<ClientErrorStatus>)
      ensures status.Some? ==> status.value.RawValue() == code
      ensures status.None? ==> forall s: ClientErrorStatus :: s.RawValue() != code
    {
      if code == 400 then Some(BadRequest)
      else if code == 401 then Some(Unauthorized)
      else if code == 412 then Some(PreconditionFailed)
      else None
    }
  }

  /** Server error 5xx (section 10.5 of RFC 2616). */
  datatype ServerErrorStatus = InternalServerError | NotImplemented
  {
    function RawValue(): (code: int)
      ensures 500 <= code < 600
    {
      match this
      case InternalServerError => 500
      case NotImplemented => 501
    }

    static function FromRawValue(code: int): (status: Option<ServerErrorStatus>)
      ensures status.Some? ==> status.value.RawValue() == code
      ensures status.None? ==> forall s: ServerErrorStatus :: s.RawValue() != code
    {
      if code == 500 then Some(InternalServerError)
      else if code == 501 then Some(NotImplemented)
      else None
    }
  }

  /** Any of the constants above, tagged with its class. */
  datatype AnyStatus =
    | Successful(successful: SuccessfulStatus)
    | Redirection(redirection: RedirectionStatus)
    | ClientError(clientError: ClientErrorStatus)
    | ServerError(serverError: ServerErrorStatus)
  {
    function RawValue(): (code: int)
      ensures Successful? <==> 200 <= code < 300
      ensures Redirection? <==> 300 <= code < 400
      ensures ClientError? <==> 400 <= code < 500
      ensures ServerError? <==> 500 <= code < 600
    {
      match this
      case Successful(s) => s.RawValue()
      case Redirection(r) => r.RawValue()
      case ClientError(c) => c.RawValue()
      case ServerError(e) => e.RawValue()
    }
  }

  /** The constants and their values, as the enumerations declare them. */
  lemma DeclaredValues()
    ensures Ok.RawValue() == 200
    ensures NotModified.RawValue() == 304
    ensures BadRequest.RawValue() == 400 && Unauthorized.RawValue() == 401
    ensures PreconditionFailed.RawValue() == 412
    ensures InternalServerError.RawValue() == 500 && NotImplemented.RawValue() == 501
  {
  }

  /** `ok` is the only successful constant: every successful status is 200. */
  lemma OnlySuccessfulIsOk(status: AnyStatus)
    ensures 200 <= status.RawValue() < 300 <==> status == Successful(Ok)
  {
  }

  /** No two constants share a raw value, within a class or across classes. */
  lemma RawValuesDistinct(a: AnyStatus, b: AnyStatus)
    ensures a.RawValue() == b.RawValue() ==> a == b
  {
  }

  /** Reading a constant back from its raw value gives the constant. */
  lemma RawValueRoundTrip(status: AnyStatus)
    ensures match status
      case Successful(s) => SuccessfulStatus.FromRawValue(s.RawValue()) == Some(s)
      case Redirection(r) => RedirectionStatus.FromRawValue(r.RawValue()) == Some(r)
      case ClientError(c) => ClientErrorStatus.FromRawValue(c.RawValue()) == Some(c)
      case ServerError(e) => ServerErrorStatus.FromRawValue(e.RawValue()) == Some(e)
  {
    match status
    case Successful(s) => assert s == Ok;
    case Redirection(r) => assert r == NotModified;
    case ClientError(c) =>
    case ServerError(e) =>
  }
}
