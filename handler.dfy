/** GlobalExceptionHandler: turns a thrown exception into an HTTP status and
    an `ErrorResponse(status, message)` body. */
module GlobalExceptionHandler {
  import opened Model

  /** `ResponseEntity<ErrorResponse>`: an HTTP status and the error body. */
  datatype ErrorEntity = ErrorEntity(status: int, body: ErrorResponse)

  /** handleBadHeaderException: the stored status is both the HTTP status and
      the body's status; the stored message is passed through. */
  function HandleBadHeaderException(ex: BadHeaderException): (e: ErrorEntity)
    ensures e.status == ex.status
    ensures e.body == ErrorResponse(ex.status, ex.message)
  {
    var errorResponse := ErrorResponse(ex.status, ex.message);
    ErrorEntity(ex.status, errorResponse)
  }

  /** handleUserNotFoundException: as for a bad header, from the exception's own fields. */
  function HandleUserNotFoundException(ex: UserNotFoundException): (e: ErrorEntity)
    ensures e.status == ex.status
    ensures e.body == ErrorResponse(ex.status, ex.message)
  {
    var errorResponse := ErrorResponse(ex.status, ex.message);
    ErrorEntity(ex.status, errorResponse)
  }

  /** handleGeneralException: any other exception is a 500 carrying its message verbatim. */
  function HandleGeneralException(message: string): (e: ErrorEntity)
    ensures e.status == HttpInternalServerError
    ensures e.body == ErrorResponse(500, message)
  {
    var errorResponse := ErrorResponse(HttpInternalServerError, message);
    ErrorEntity(HttpInternalServerError, errorResponse)
  }

  /** The handler Spring selects for an exception: the one registered for its
      own class, and the general one for everything else. */
  function Handle(f: Failure): (e: ErrorEntity)
    ensures e.body.status == e.status
    ensures f.BadHeader? ==>
              e == ErrorEntity(f.badHeader.status, ErrorResponse(f.badHeader.status, f.badHeader.message))
    ensures f.UserNotFound? ==>
              e == ErrorEntity(f.notFound.status, ErrorResponse(f.notFound.status, f.notFound.message))
    ensures f.Error? ==> e == ErrorEntity(500, ErrorResponse(500, f.message))
  {
    match f
    case BadHeader(ex) => HandleBadHeaderException(ex)
    case UserNotFound(ex) => HandleUserNotFoundException(ex)
    case Error(message) => HandleGeneralException(message)
  }

}
