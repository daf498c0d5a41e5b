/** Values shared by every part of the certificate buddy: opaque keys and
    certificates, the error values the Go code returns, and the runtime
    panics it can run into. */
module Types {

  type byte = x: int | 0 <= x < 256

  datatype Option<+T> = None | Some(value: T)

  /** A private key is opaque: only its algorithm matters to the model. */
  datatype PrivateKey = RsaKey(id: nat) | EcKey(id: nat)

  /** An X.509 certificate as an opaque value with the fields the core reads:
      the validity window (nanoseconds since the epoch) and the signature. */
  datatype Certificate = Certificate(serial: nat, signature: seq<byte>, notBefore: int, notAfter: int)

  /** Runtime panics of the Go program. A panic is not returned to the
      caller: it unwinds the whole process. */
  datatype Panic =
    | NilPemBlock        // pem.Decode found no block and its nil result was dereferenced
    | IndexOutOfRange    // certs[0] on an empty slice
    | NilPointer         // a method called on a nil *CAResult

  datatype Error =
    | NotFound(path: string)               // the file or its directory does not exist
    | PermissionDenied(path: string)       // the filesystem refused a write or a mkdir
    | NotADirectory(path: string)          // a path component is a regular file
    | IsADirectory(path: string)           // a write aimed at a directory
    | UnknownPemHeader                     // sentinel error of utils.go
    | UnparseableCertificate               // sentinel error of utils.go
    | MalformedKey                         // the DER payload of a key block does not parse
    | External(reason: string)             // an error produced by a collaborator (CA, RNG, agent)
    | Message(text: string)                // errors.New / fmt.Errorf
    | Wrapped(context: string, cause: Error) // errors.Wrap
    | Crash(panic: Panic)                  // the process panicked

  datatype Result<+T> = Ok(value: T) | Err(error: Error)

  /** errors.Wrap: adds context to an error. A panic is never wrapped: it
      propagates as it is. */
  function Wrap(context: string, e: Error): (r: Error)
    ensures e.Crash? ==> r == e
    ensures !e.Crash? ==> r.Wrapped? && r.cause == e && r.context == context
  {
    if e.Crash? then e else Wrapped(context, e)
  }

  /** Wrap on an optional error; errors.Wrap(nil, ...) is nil. */
  function WrapOpt(context: string, e: Option<Error>): (r: Option<Error>)
    ensures r.None? <==> e.None?
  {
    if e.None? then None else Some(Wrap(context, e.value))
  }
}
