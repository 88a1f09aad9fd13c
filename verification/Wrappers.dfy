/** Option, what a remote call can come back with, and how a task can end. */
module Wrappers {

  datatype Option<+T> = None | Some(value: T)

  /** What became of a call on a remote system.
      Rejected: an error came back and nothing happened.
      Lost:     an error came back, yet the call had already taken effect. */
  datatype Outcome = Done | Rejected | Lost
  {
    /** The caller sees success. */
    predicate Seen() { Done? }

    /** The remote system changed. */
    predicate Effective() { Done? || Lost? }
  }

  /** How a task handler ends, as asynq reads its error. */
  datatype Verdict =
    | Success
    | SkipRetry                                       // archived, never run again
    | Retry                                           // run again with backoff
    | RateLimited(retryAfterMs: int, bucket: string)  // run again after exactly this delay

  lemma SubsetSize<T>(a: set<T>, b: set<T>)
    requires a <= b
    ensures |a| <= |b|
    ensures a < b ==> |a| < |b|
  {
    assert b == a + (b - a);
  }
}
