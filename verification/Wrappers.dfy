/** Failure-compatible datatypes shared by every module. */
module Wrappers {

  datatype Option<+T> = None | Some(value: T)

  /** Why a frame or a field was refused: one name for each `anyhow!` error of the two requests. */
  datatype Reason =
    | FrameTooBig
    | Undecodable
    | MissingField
    | UnexpectedType
    | BadEndpointInfo
    | BadVersion
    | BadRandom
    | BadCipher
    | BadNextProtocol
    | BadCommitment
    | BadPoint
    | ConnectionDenied
    | BadSignature
    | BadIv
    | BadPadding
    | BadSequence
    | PayloadTooLarge
    | BadOffset
    | ExcessBytes
    | UnknownPayload

  /** The `unwrap` calls and checked additions at which a request can abort instead of returning an error. */
  datatype Abort = NoSessionKeys | NoHandshakeData | NoOpenFile | PointOffCurve | Overflow

  datatype Failure =
    | NotAnError          // the session ended on purpose
    | Refused(reason: Reason)
    | Io                  // a socket or file operation failed
    | Panic(abort: Abort)

  datatype Outcome = Ok | Err(error: Failure)
  {
    predicate IsFailure() {
      Err?
    }

    function PropagateFailure(): Outcome
      requires Err?
    {
      this
    }
  }
}
