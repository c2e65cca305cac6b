/** The exceptions the FreeCert core lets escape, collected into one datatype,
    and the Option/Result wrappers the model returns them in. */
module Failures {

  /** One constructor per exception class the core raises or lets through. */
  datatype Error =
    | FreeCertError(message: string)   // FreeCertException thrown by the builder
    | ArgumentNull(paramName: string)  // ArgumentNullException
    | FileNotFound(path: string)       // FileNotFoundException from File.ReadAllText
    | UriFormat(text: string)          // UriFormatException from `new Uri(text)`
    | NoElements                       // InvalidOperationException from First() on an empty list
    | IndexOutOfRange                  // IndexOutOfRangeException from an array index

  /** A value that may be absent (a C# null). */
  datatype Option<+T> = None | Some(value: T)

  /** Either the value an operation returns or the exception it throws. */
  datatype Result<+T> = Ok(value: T) | Err(error: Error)
}
