/** The exceptions the orchestrator and the configuration lookup raise. */
module Errors {

  datatype Error =
    /** `MultipassException(stderr)`: a piped provider command exited with a nonzero status. */
    | MultipassException(stderr: string)
    /** `ConfigException(message)`: no configuration exists for the requested target. */
    | ConfigException(message: string)
    /** Python's `TypeError(message)`, raised by a call with the wrong number of arguments. */
    | TypeError(message: string)
}
