/**
 * Retry classification (main.go). A failed tick is retried instead of charged
 * to the budget only when its captured output says the CLI session expired;
 * the HTTP probe never retries.
 */
module Retry {
  import opened Strings

  /** The exact text, with two spaces after the first full stop, that marks an expired session. */
  const AuthFailedMessage := "Authentication has expired.  Please log back in to re-authenticate."

  /** The retry predicate given to every command-driven probe. */
  function AuthFailedRetry(stdOut: string, stdErr: string): (r: bool)
    ensures r <==> ((exists i: nat :: OccursAt(stdOut, AuthFailedMessage, i))
                    || (exists i: nat :: OccursAt(stdErr, AuthFailedMessage, i)))
  {
    ContainsIffOccurs(stdOut, AuthFailedMessage);
    ContainsIffOccurs(stdErr, AuthFailedMessage);
    Contains(stdOut, AuthFailedMessage) || Contains(stdErr, AuthFailedMessage)
  }

  /** The retry predicate given to the HTTP availability probe. */
  function NeverRetry(stdOut: string, stdErr: string): (r: bool)
    ensures !r
  {
    false
  }

  /** Which of the two predicates a periodic measurement was built with. */
  datatype RetryPolicy = NoRetry | RetryOnAuthFailure

  /** Whether a failed tick with this output is retried rather than counted. */
  function ShouldRetry(policy: RetryPolicy, stdOut: string, stdErr: string): (r: bool)
    ensures r <==> policy.RetryOnAuthFailure?
                   && ((exists i: nat :: OccursAt(stdOut, AuthFailedMessage, i))
                       || (exists i: nat :: OccursAt(stdErr, AuthFailedMessage, i)))
  {
    match policy
    case NoRetry => NeverRetry(stdOut, stdErr)
    case RetryOnAuthFailure => AuthFailedRetry(stdOut, stdErr)
  }

  /** The message anywhere in either stream triggers a retry. */
  lemma AuthFailedRetryOnEitherStream(a: string, b: string, other: string)
    ensures AuthFailedRetry(a + AuthFailedMessage + b, other)
    ensures AuthFailedRetry(other, a + AuthFailedMessage + b)
  {
    ContainsInfix(a, AuthFailedMessage, b);
  }

  /** Output shorter than the message on both streams is never retried. */
  lemma ShortOutputNotRetried(stdOut: string, stdErr: string)
    requires |stdOut| < |AuthFailedMessage| && |stdErr| < |AuthFailedMessage|
    ensures !AuthFailedRetry(stdOut, stdErr)
  {
  }
}
