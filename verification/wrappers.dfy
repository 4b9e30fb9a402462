/** Small result types shared by the other modules. */
module Wrappers {
  datatype Option<+T> = None | Some(value: T)

  datatype Result<+T> = Ok(value: T) | Err

  /** How one call to Kuma or to the API server can end. A `Lost` call reports an
      error to its caller although its effect took place. */
  datatype Outcome = Succeeded | Failed | Lost
}
