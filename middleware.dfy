/** ExceptionHandlingMiddleware: the outermost request wrapper that turns an
    escaped exception into a JSON error response. */
module Middleware {
  import opened Wrappers

  const BadRequestCode: int := 400
  const InternalServerErrorCode: int := 500
  const GenericMessage: string := "An unexpected error occurred."
  const JsonContentType: string := "application/json"

  /** A .NET exception class: `BaseException` is System.Exception itself; every
      other class derives from a base class. */
  datatype ExceptionType = BaseException | Derived(name: string, baseType: ExceptionType)

  const ApplicationExceptionType: ExceptionType := Derived("System.ApplicationException", BaseException)

  /** The `is` test: `t` is `ancestor` or derives from it, directly or not. */
  predicate IsA(t: ExceptionType, ancestor: ExceptionType)
    decreases t
  {
    t == ancestor || (t.Derived? && IsA(t.baseType, ancestor))
  }

  datatype Exception = Exception(exceptionType: ExceptionType, message: string)

  /** The error body `{ StatusCode, Message }`. */
  datatype ErrorResponse = ErrorResponse(statusCode: int, message: string)

  /** The status code and message HandleExceptionAsync chooses: 500 with a
      fixed text, replaced by 400 and the exception's own message when the
      exception is an ApplicationException. */
  function ChooseError(ex: Exception): (e: ErrorResponse)
    ensures IsA(ex.exceptionType, ApplicationExceptionType) ==> e == ErrorResponse(BadRequestCode, ex.message)
    ensures !IsA(ex.exceptionType, ApplicationExceptionType) ==> e == ErrorResponse(InternalServerErrorCode, GenericMessage)
  {
    var code, message := InternalServerErrorCode, GenericMessage;
    if IsA(ex.exceptionType, ApplicationExceptionType) then ErrorResponse(BadRequestCode, ex.message)
    else ErrorResponse(code, message)
  }

  /** Deriving is transitive. */
  lemma {:induction false} IsATransitive(a: ExceptionType, b: ExceptionType, c: ExceptionType)
    requires IsA(a, b) && IsA(b, c)
    ensures IsA(a, c)
    decreases a
  {
    if a != b {
      IsATransitive(a.baseType, b, c);
    }
  }

  /** An exception of any class deriving, at any depth, from
      ApplicationException gets 400 and its own message. */
  lemma {:induction false} SubclassesAreClientErrors(t: ExceptionType, message: string)
    requires IsA(t, ApplicationExceptionType)
    ensures forall name :: ChooseError(Exception(Derived(name, t), message)) == ErrorResponse(BadRequestCode, message)
  {
    forall name ensures IsA(Derived(name, t), ApplicationExceptionType) {
      assert IsA(Derived(name, t), t);
      IsATransitive(Derived(name, t), t, ApplicationExceptionType);
    }
  }

  /** The status is 400 or 500, and a 500 never carries the exception's text. */
  lemma NoDetailLeaks(ex: Exception)
    ensures ChooseError(ex).statusCode in {BadRequestCode, InternalServerErrorCode}
    ensures ChooseError(ex).statusCode == InternalServerErrorCode ==> ChooseError(ex).message == GenericMessage
  {
  }

  /** The response object of the current request. */
  class HttpResponse {
    var statusCode: int
    var contentType: Option<string>
    /** The JSON documents written to the body, before serialisation. */
    var written: seq<ErrorResponse>

    constructor (statusCode: int, contentType: Option<string>, written: seq<ErrorResponse>)
      ensures this.statusCode == statusCode && this.contentType == contentType && this.written == written
    {
      this.statusCode, this.contentType, this.written := statusCode, contentType, written;
    }
  }

  /** What the rest of the pipeline did: returned normally, or threw. */
  datatype NextOutcome = Completed | Threw(exception: Exception)

  /** The events the middleware produces, in order. */
  datatype Event = LoggedError(exception: Exception) | WroteError(body: ErrorResponse)

  class ExceptionHandlingMiddleware {
    ghost var events: seq<Event>

    constructor ()
      ensures events == []
    {
      events := [];
    }

    /** `HandleExceptionAsync`: sets content type and status, then writes the body. */
    method HandleException(response: HttpResponse, ex: Exception)
      modifies this, response
      ensures response.contentType == Some(JsonContentType)
      ensures response.statusCode == ChooseError(ex).statusCode
      ensures response.written == old(response.written) + [ChooseError(ex)]
      ensures response.written[|response.written| - 1].statusCode == response.statusCode
      ensures events == old(events) + [WroteError(ChooseError(ex))]
    {
      var body := ChooseError(ex);
      response.contentType := Some(JsonContentType);
      response.statusCode := body.statusCode;
      response.written := response.written + [body];
      events := events + [WroteError(body)];
    }

    /** `InvokeAsync`: runs the rest of the pipeline; only an exception that
        escapes it is logged and then translated. */
    method Invoke(response: HttpResponse, next: NextOutcome)
      modifies this, response
      ensures next.Completed? ==>
        && events == old(events)
        && response.statusCode == old(response.statusCode)
        && response.contentType == old(response.contentType)
        && response.written == old(response.written)
      ensures next.Threw? ==>
        && events == old(events) + [LoggedError(next.exception), WroteError(ChooseError(next.exception))]
        && response.contentType == Some(JsonContentType)
        && response.statusCode == ChooseError(next.exception).statusCode
        && response.written == old(response.written) + [ChooseError(next.exception)]
    {
      match next
      case Completed =>
      case Threw(ex) =>
        events := events + [LoggedError(ex)];
        HandleException(response, ex);
    }
  }
}
