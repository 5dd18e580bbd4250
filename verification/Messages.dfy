/** Control messages, submissions and the libcurl result codes the reactor itself produces. */
module Messages {

  datatype Option<+T> = None | Some(value: T)

  /** The opaque pointers of an EXECUTE payload; equal handles are the same object. */
  type Handle = nat

  /** A thread. */
  type Pid = nat

  /** A non-null StablePtr with its capability. */
  type Waker = nat

  const CURLE_OK: int := 0
  const CURLE_FAILED_INIT: int := 2
  const CURLE_OUT_OF_MEMORY: int := 27
  const CURLE_ABORTED_BY_CALLBACK: int := 42

  /** An EXECUTE payload; None is a null pointer. */
  datatype Submission = Submission(
    id: nat,
    easy: Option<Handle>,
    result: Option<Handle>,
    download: Option<Handle>,
    upload: Option<Handle>)

  datatype Message =
    | Execute(payload: Submission)
    | Cancel(id: nat)
    | Resume(id: nat)
    | Stop
}
