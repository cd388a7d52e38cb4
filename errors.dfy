/** The error vocabulary every fallible operation of the dataflow core reports
    (zenoh-flow/src/types.rs:35-99), and the result types built on it. */
module Errors {

  /** flume's receive error: its only case is that every sender is gone. */
  datatype FlumeRecvError = RecvDisconnected

  /** flume's non-blocking receive error: the channel is disconnected, or it is
      only empty for now. */
  datatype FlumeTryRecvError = Disconnected | Empty

  /** One flat enumeration of failure kinds; the string-carrying cases keep a
      human-readable description. */
  datatype ZFError =
    | GenericError
    | SerializationError
    | DeseralizationError
    | MissingState
    | InvalidState
    | Unimplemented
    | Empty
    | MissingConfiguration
    | VersionMismatch
    | Disconnected
    | Uncompleted(description: string)
    | PortTypeNotMatching(fromPort: string, toPort: string)
    | OperatorNotFound(operator: string)
    | PortNotFound(operator: string, port: string)
    | RecvError(cause: FlumeRecvError)
    | SendError(description: string)
    | MissingInput(description: string)
    | MissingOutput(description: string)
    | InvalidData(description: string)
    | IOError(description: string)
    | ZenohError(description: string)
    | LoadingError(description: string)
    | ParsingError(description: string)

  /** ZFResult: a value, or the kind of failure. */
  datatype Result<+T> = Ok(value: T) | Err(error: ZFError)

  datatype Option<+T> = None | Some(value: T)

  /** The channel conditions a scheduler treats as "try again later" rather than
      as fatal. The partial inverse of FromTryRecvError. */
  function AsTryRecvError(e: ZFError): Option<FlumeTryRecvError>
  {
    match e
    case Disconnected => Some(FlumeTryRecvError.Disconnected)
    case Empty => Some(FlumeTryRecvError.Empty)
    case _ => None
  }

  /** Converts a failed non-blocking receive into the core's error kinds, case by
      case; nothing is lost on the way. */
  function FromTryRecvError(err: FlumeTryRecvError): (e: ZFError)
    ensures e.Disconnected? || e.Empty?
    ensures AsTryRecvError(e) == Some(err)
  {
    match err
    case Disconnected => ZFError.Disconnected
    case Empty => ZFError.Empty
  }
}
