/** Failure values shared by the whole evaluation pipeline.

    The application signals failure by raising: `ValueError` from the colour
    helper, a user-facing `UserException` from the results view, and whatever
    the external spreadsheet service raises when it cannot produce a mass.
    Here each raise becomes an `Err` value that the caller must propagate. */
module Errors {

  datatype Option<+T> = None | Some(value: T)

  datatype Error =
    | ValueError(message: string)     // get_color called outside 0..100
    | UserError(message: string)      // shown to the user, e.g. "Add at least 1 case."
    | CalculationServiceError         // the delegated spreadsheet calculation failed

  datatype Result<+T> = Ok(value: T) | Err(error: Error)
}
