/**
 * The error values that reach the HTTP error encoder, and the two collaborators
 * of the encoder that live outside the transport file: HTTPStatusFromCode and
 * the errors package's FromError. Their bodies are not part of this model, so
 * they are carried as function values.
 */
module Failures {
  import opened Wrappers

  /** errors.Errors: one structured sub-error, with an optional field name. */
  datatype SubError = SubError(field: Option<string>, message: string)

  /** The gRPC status codes (codes.Code). */
  datatype Code =
    | OK | Canceled | Unknown | InvalidArgument | DeadlineExceeded | NotFound
    | AlreadyExists | PermissionDenied | ResourceExhausted | FailedPrecondition
    | Aborted | OutOfRange | Unimplemented | Internal | Unavailable | DataLoss
    | Unauthenticated

  /**
   * An error value, by the way httpEncodeError tells errors apart: a gRPC
   * status (status.FromError succeeds), the domain type errors.Error, the
   * sentinels io.EOF, io.ErrUnexpectedEOF and kitjwt.ErrTokenContextMissing,
   * the two json decoding error types, and everything else.
   */
  datatype Err =
    | RpcStatus(code: Code, message: string)
    | Domain(msg: string, errs: seq<SubError>)
    | EOF
    | UnexpectedEOF
    | TokenContextMissing
    | JsonSyntax(text: string)
    | JsonUnmarshalType(text: string)
    | Other(text: string)
  {
    /** Neither a gRPC status nor a domain error: the errors the type switch's default arm handles. */
    predicate IsPlain() {
      !RpcStatus? && !Domain?
    }

    /** err.Error() for the plain errors */
    function Error(): string
      requires IsPlain()
    {
      match this
      case EOF => "EOF"
      case UnexpectedEOF => "unexpected EOF"
      case TokenContextMissing => "token up for parsing was not passed through the context"
      case JsonSyntax(text) => text
      case JsonUnmarshalType(text) => text
      case Other(text) => text
    }
  }

  /** HTTPStatusFromCode and errors.FromError, as the error encoder receives them. */
  datatype Collaborators = Collaborators(
    httpStatusFromCode: Code -> int,
    fromError: string -> seq<SubError>)
  {
    /** FromError always yields at least one sub-error (the encoder reads its first element unchecked). */
    ghost predicate Valid() {
      forall s :: |fromError(s)| > 0
    }
  }
}
