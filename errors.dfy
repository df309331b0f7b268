/** The exceptions the wrapper can raise to its caller. */
module Errors {

  const URL_NOT_SET := "Environment variable WAVEFRONT_URL is not set."
  const TOKEN_NOT_SET := "Environment variable WAVEFRONT_API_TOKEN is not set."

  /** A Python object the handler returns or raises, identified by its repr. */
  type PyObject = string

  datatype Error =
    | ValueError(message: string)      // a required environment variable is missing
    | IndexError                       // the ARN has too few `:`-separated segments
    | TargetRaised(exception: PyObject) // re-raised unchanged from the wrapped handler
}
