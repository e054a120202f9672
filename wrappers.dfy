/** Option and Result, the failure-carrying datatypes the rest of the model uses. */
module Wrappers {

  datatype Option<+T> = None | Some(value: T)

  /** What PHP throws: every exception in the client is a plain `\Exception`
      with a message; a transport failure is raised by the request object. */
  datatype Error = Exception(message: string) | TransportError

  datatype Result<+T> = Ok(value: T) | Err(error: Error)
}
