/** The three retry-delay loops: pending references, outbox rows and SQS messages. */
module Backoff {
  import opened Common

  const BASE: int := 5 * SECOND
  const CAP: int := 60 * SECOND

  function Pow2(n: nat): (p: nat)
    ensures p >= 1
  {
    if n == 0 then 1 else 2 * Pow2(n - 1)
  }

  function Min(a: int, b: int): int { if a <= b then a else b }

  /** 5 s doubled for every attempt after the first, and never more than a minute. */
  function Delay(attempt: int): int {
    if attempt <= 1 then BASE else Min(CAP, BASE * Pow2(attempt - 1))
  }

  lemma {:induction false} Pow2Monotone(m: nat, n: nat)
    requires m <= n
    ensures Pow2(m) <= Pow2(n)
  {
    if m < n { Pow2Monotone(m, n - 1); }
  }

  /** internal/application/wagering/pending_reference_resolver.go */
  method ReferenceRetryBackoff(attempt: int) returns (delay: int)
    ensures delay == Delay(attempt)
  {
    if attempt <= 1 { return BASE; }
    delay := BASE;
    var i := 1;
    while i < attempt
      invariant 1 <= i <= attempt
      invariant delay == BASE * Pow2(i - 1) <= CAP
    {
      if delay >= CAP / 2 {
        Pow2Monotone(i, attempt - 1);
        return CAP;
      }
      delay := delay * 2;
      i := i + 1;
    }
    if delay > CAP { return CAP; }
  }

  /** internal/infrastructure/messaging/outbox/publisher.go */
  method OutboxRetryDelay(attempt: int) returns (delay: int)
    ensures delay == Delay(attempt)
  {
    if attempt <= 1 { return BASE; }
    delay := BASE;
    var i := 1;
    while i < attempt
      invariant 1 <= i <= attempt
      invariant delay == BASE * Pow2(i - 1) < CAP
    {
      delay := delay * 2;
      if delay >= CAP {
        Pow2Monotone(i, attempt - 1);
        return CAP;
      }
      i := i + 1;
    }
  }

  /** internal/infrastructure/messaging/sqs/consumer.go: whole seconds, held in an
      int32 that the guard keeps below 120. */
  method RetryVisibility(receiveCount: int) returns (seconds: int)
    ensures seconds * SECOND == Delay(receiveCount)
  {
    var count := if receiveCount < 1 then 1 else receiveCount;
    seconds := 5;
    var attempt := 1;
    while attempt < count && seconds < 60
      invariant 1 <= attempt <= count
      invariant seconds == 5 * Pow2(attempt - 1) < 120
    {
      seconds := seconds * 2;
      attempt := attempt + 1;
    }
    Pow2Monotone(attempt - 1, count - 1);
    if seconds > 60 { return 60; }
  }
}
