/** For which attempt limits the worker can never ask for a delay that overflows. */
module BackoffSafety {
  import opened Common
  import opened QueueProtocol
  import opened QueueInvariant
  import QueueRuns
  import Backoff

  // Computing a retry delay never panics, in any state the queue can reach.
  ghost predicate NeverPanics(c: Config) {
    forall s, w: nat, draw: nat :: Reachable(c, s) && InPhase(s, w, NeedsBackoff) ==>
      Backoff.Spec(s.loops[w].batch[0].attempts, draw).Some?
  }

  // The clamp in the code does not save it: exactly the limits up to 29 are safe.
  lemma SafeExactlyUpTo29(c: Config)
    requires ConfigOk(c)
    ensures NeverPanics(c) <==> c.maxAttempts <= 29
  {
    if c.maxAttempts <= 29 {
      forall s, w: nat, draw: nat | Reachable(c, s) && InPhase(s, w, NeedsBackoff)
        ensures Backoff.Spec(s.loops[w].batch[0].attempts, draw).Some?
      {
        ReachableInv(c, s);
        assert LoopOk(c, s.now, s.rows, s.calls, s.loops[w]);
      }
    } else {
      var t := QueueRuns.Attempted(c, 29, Retryable, Retryable);
      assert InPhase(t, 0, NeedsBackoff) && Backoff.Spec(t.loops[0].batch[0].attempts, 0).None?;
    }
  }
}
