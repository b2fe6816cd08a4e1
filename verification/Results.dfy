/** Results of service calls: a value, or the error the service raises. */
module Results {

  datatype Option<+T> = None | Some(value: T) {
    function GetOr(default: T): T {
      if Some? then value else default
    }
  }

  /** `ConstraintViolated` is a unique index, foreign key or enumeration of the schema refusing a write. */
  datatype Error = NotFound | BadRequest | Conflict | Unauthorized | ConstraintViolated

  datatype Result<+T> = Ok(value: T) | Err(error: Error)

  datatype Outcome = Done | Refused(error: Error)
}
