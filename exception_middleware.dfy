/**
 * The back-end's `ExceptionMiddleware` (WebApi/Middleware/
 * ExceptionMiddleware.cs): an exception escaping the rest of the pipeline
 * becomes a JSON problem-details response whose status code depends on the
 * exception's class, and whose text is hidden for server errors.
 */
module ExceptionMiddlewares {
  import opened Wrappers

  /**
   * The exception classes the middleware distinguishes, with the .NET
   * subclasses that a type pattern also matches.
   */
  datatype ExceptionClass =
    | UnauthorizedAccess
    | InvalidOperation | ObjectDisposed
    | Argument | ArgumentNull | ArgumentOutOfRange
    | KeyNotFound
    | Other(name: string)

  /** `is InvalidOperationException` */
  predicate IsInvalidOperation(c: ExceptionClass)
  {
    c.InvalidOperation? || c.ObjectDisposed?
  }

  /** `is ArgumentException` */
  predicate IsArgument(c: ExceptionClass)
  {
    c.Argument? || c.ArgumentNull? || c.ArgumentOutOfRange?
  }

  datatype Exception = Exception(cls: ExceptionClass, message: string, stackTrace: Option<string>)

  datatype ProblemDetails = ProblemDetails(status: Option<int>, title: Option<string>, detail: Option<string>)

  const Unauthorized: int := 401
  const BadRequest: int := 400
  const NotFound: int := 404
  const InternalServerError: int := 500

  const GenericTitle: string := "An internal server error occurred"
  const GenericDetail: string := "Please try again later."

  /** The `switch` on the exception's class; the first matching arm wins. */
  function StatusFor(c: ExceptionClass): (code: int)
    ensures code in {Unauthorized, BadRequest, NotFound, InternalServerError}
  {
    if c.UnauthorizedAccess? then Unauthorized
    else if IsInvalidOperation(c) then BadRequest
    else if IsArgument(c) then BadRequest
    else if c.KeyNotFound? then NotFound
    else InternalServerError
  }

  /** Each status code is produced by exactly the classes the `switch` names for it. */
  lemma StatusForClasses(c: ExceptionClass)
    ensures StatusFor(c) == Unauthorized <==> c.UnauthorizedAccess?
    ensures StatusFor(c) == BadRequest <==> IsInvalidOperation(c) || IsArgument(c)
    ensures StatusFor(c) == NotFound <==> c.KeyNotFound?
    ensures StatusFor(c) == InternalServerError <==> c.Other?
  {
  }

  /** The body written for an exception answered with status `code`. */
  function Problem(e: Exception, code: int): (p: ProblemDetails)
    ensures p.status == Some(code)
    ensures code == InternalServerError ==> p.title == Some(GenericTitle) && p.detail == Some(GenericDetail)
    ensures code != InternalServerError ==> p.title == Some(e.message) && p.detail == e.stackTrace
  {
    var p := ProblemDetails(Some(code), Some(e.message), e.stackTrace);
    if code == InternalServerError then p.(title := Some(GenericTitle), detail := Some(GenericDetail)) else p
  }

  /**
   * A server error never reveals the exception: two exceptions of
   * unmapped classes produce the same body, whatever their text.
   */
  lemma ServerErrorHidesException(e1: Exception, e2: Exception)
    requires e1.cls.Other? && e2.cls.Other?
    ensures Problem(e1, StatusFor(e1.cls)) == Problem(e2, StatusFor(e2.cls))
  {
  }

  /** The content type `WriteAsJsonAsync` sets, replacing the one set before it. */
  const JsonContentType := "application/json; charset=utf-8"

  /** What ASP.NET Core throws when a header is set after the response has started. */
  const HeadersReadOnly := "Headers are read-only, response has already started."

  /** The HTTP response the middleware writes to. */
  class Response {
    var hasStarted: bool
    var statusCode: int
    var contentType: Option<string>
    var body: Option<ProblemDetails>

    constructor()
      ensures !hasStarted && statusCode == 200 && contentType == None && body == None
    {
      hasStarted := false;
      statusCode := 200;
      contentType := None;
      body := None;
    }

    /**
     * `HandleExceptionAsync`: status from the class, the problem details
     * written as JSON. Once the response has started, setting the content
     * type throws, the exception leaves the middleware and nothing changes.
     */
    method HandleException(e: Exception) returns (r: Result<(), string>)
      modifies this
      ensures old(hasStarted) ==> r == Err(HeadersReadOnly)
      ensures old(hasStarted) ==> statusCode == old(statusCode) && contentType == old(contentType) && body == old(body)
      ensures !old(hasStarted) ==> r == Ok(())
      ensures !old(hasStarted) ==>
                && hasStarted
                && contentType == Some(JsonContentType)
                && statusCode == StatusFor(e.cls)
                && body == Some(Problem(e, statusCode))
    {
      if hasStarted {
        return Err(HeadersReadOnly);
      }
      contentType := Some("application/json");
      statusCode := StatusFor(e.cls);
      var problem := ProblemDetails(Some(statusCode), Some(e.message), e.stackTrace);
      if statusCode == InternalServerError {
        problem := problem.(title := Some(GenericTitle));
        problem := problem.(detail := Some(GenericDetail));
      }
      // WriteAsJsonAsync
      contentType := Some(JsonContentType);
      body := Some(problem);
      hasStarted := true;
      r := Ok(());
    }

    /**
     * `InvokeAsync`: `thrown` is what the next middleware threw, if
     * anything; the response is left to it when nothing was thrown, and an
     * exception from the handler itself propagates.
     */
    method Invoke(thrown: Option<Exception>) returns (r: Result<(), string>)
      modifies this
      ensures thrown.None? ==> r == Ok(()) && hasStarted == old(hasStarted)
      ensures thrown.None? || old(hasStarted) ==>
                statusCode == old(statusCode) && contentType == old(contentType) && body == old(body)
      ensures thrown.Some? && old(hasStarted) ==> r == Err(HeadersReadOnly)
      ensures thrown.Some? && !old(hasStarted) ==>
                && r == Ok(())
                && contentType == Some(JsonContentType)
                && statusCode == StatusFor(thrown.value.cls)
                && body == Some(Problem(thrown.value, statusCode))
    {
      r := Ok(());
      if thrown.Some? {
        r := HandleException(thrown.value);
      }
    }
  }
}
