/** The exceptions thrown by the pipeline, and the message text each one carries. */
module Errors {

  datatype Error =
    | InvalidMessage                // a message failed schema validation
    | InvalidStateName(state: string) // a state outside the chain, named in the message
    | InvalidStateNameBare          // clear's own check, whose message names no state
    | InvalidSourceState            // getNextStateName on a state outside the chain
    | InvalidKeyFormat              // parseKey on a key that is not 8 parts

  /** The `message` of the thrown `Error`. */
  function Text(e: Error): string
  {
    match e
    case InvalidMessage => "Invalid message"
    case InvalidStateName(s) => "Invalid state name - " + s
    case InvalidStateNameBare => "Invalid state name"
    case InvalidSourceState => "Invalid source state name"
    case InvalidKeyFormat => "Invalid key format"
  }
}
