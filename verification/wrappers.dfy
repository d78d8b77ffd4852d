/** The optional-value and result types shared by every module of the model. */
module Wrappers {

  datatype Option<+T> = None | Some(value: T)

  /** The outcome of a request handler: a value, or the error the route reports. */
  datatype Result<+T> = Success(value: T) | Failure(error: Error)

  /**
   * The errors the routes can report: a zod validation failure (HTTP 400)
   * and a missing database row (the ORM's "record not found" on update).
   */
  datatype Error = ValidationError | NotFound
}
