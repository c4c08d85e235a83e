/** Optional values, results, and the failures the services raise.

    The services signal failure by throwing NestJS HTTP exceptions. Each
    distinct rule that throws is one `Error` here, except that every missing
    record, whatever its collection, is the one `NotFound`; `HttpStatus` says
    which exception class carries each. */
module Outcomes {

  datatype Option<+T> = None | Some(value: T)

  datatype Error =
    | NotFound             // NotFoundException: "... not found"
    | LockerUnavailable    // ConflictException: locker not available for the requested time
    | DurationTooLong      // BadRequestException: maximum rental duration is 10 hours
    | ActiveBookingLocked  // BadRequestException: cannot modify active booking
    | NotOwner             // BadRequestException: you can only cancel your own bookings
    | AlreadyClosed        // BadRequestException: cannot cancel completed or already cancelled booking
    | TooLateToCancel      // BadRequestException: cannot cancel within 1 hour of start time
    | InvalidLockerUpdate  // BadRequestException: invalid locker availability update
    | EmailTaken           // ConflictException: user with this email already exists
    | WrongPassword        // ConflictException: current password is incorrect
    | ValidationFailed     // the document store's schema validation refused the record on save

  datatype Result<+T> = Ok(value: T) | Err(error: Error)

  /** The HTTP status code of the exception that carries `e`
      (a schema validation error is not an HTTP exception and surfaces as 500). */
  function HttpStatus(e: Error): (code: int)
    ensures code == 404 <==> e == NotFound
    ensures code == 409 <==> e in {LockerUnavailable, EmailTaken, WrongPassword}
    ensures code == 500 <==> e == ValidationFailed
    ensures code in {400, 404, 409, 500}
  {
    match e
    case NotFound => 404
    case LockerUnavailable => 409
    case EmailTaken => 409
    case WrongPassword => 409
    case ValidationFailed => 500
    case _ => 400
  }
}
