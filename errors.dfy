/** The failures the CURAND random-stream core can raise, and the wrappers that carry them. */
module Errors {

  datatype Error =
    /** a Python `assert` failed: the op's dtype is not float32, or the stream's size argument is malformed */
    | AssertionError
    /** `get_vector_length` could not tell how long the size vector is */
    | VectorLengthUnknown
    /** ValueError "size must be vector" raised by the kernel */
    | SizeNotVector
    /** ValueError "size must have length %i (not %i)" raised by the kernel */
    | SizeLengthMismatch(expected: nat, actual: nat)
    /** ValueError "size must be int32" raised by the kernel */
    | SizeNotInt32
    /** the device could not allocate the sample buffer */
    | SampleAllocationFailed
    /** RuntimeError "Failed to initialize curand generator" */
    | GeneratorInitFailed
    /** RuntimeError "Failed to set curand generator seed" */
    | GeneratorSeedFailed
    /** RuntimeError raised when the CURAND draw itself reports an error */
    | GenerationFailed
    /** NotImplementedError "non-destructive CURAND generation" */
    | NonDestructiveGeneration
    /** NotImplementedError raised by the stream when the scaled result broadcasts differently */
    | BroadcastMismatch

  datatype Option<+T> = None | Some(value: T)

  datatype Result<+T> = Ok(value: T) | Err(error: Error)

  datatype Outcome = Pass | Fail(error: Error)
}
