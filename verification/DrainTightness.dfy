/** The bound on claims and settlements is the exact one wherever the worker survives its own delays. */
module DrainTightness {
  import opened Common
  import opened Runs
  import opened NotificationQueries
  import opened QueueProtocol
  import opened QueueProgress
  import opened QueueDelivery
  import opened QueueRuns

  // The time one mail may need for all its attempts.
  const SPAN := 29 * ROUND

  // The first n rows have used up all their attempts, and nothing else is in the queue.
  ghost predicate ExhaustedBy(c: Config, s: State, n: nat, now: int) {
    && s.now <= now && Upto(s.rows.Keys, n)
    && (forall id :: id in s.rows ==> s.rows[id].status.Dead? && s.rows[id].attempts == c.maxAttempts)
    && |s.loops| == c.loops
    && forall w :: 0 <= w < |s.loops| ==> s.loops[w].Idle?
  }

  // The last attempt of a waiting mail fails too.
  lemma GiveUpLast(c: Config, s: State, id: NotificationId, due: int) returns (tr: seq<Step>, t: State)
    requires ConfigOk(c) && Waits(c, s, id, c.maxAttempts - 1, due) && due < MAX_CLOCK
    ensures Exec(c, s, tr) == Some(t) && OneMail(c, t, id, c.maxAttempts) && OthersKept(s, t, id)
    ensures t.rows[id].status.Dead? && t.loops[0].Idle? && t.now <= due
  {
    var first, mid := Attempt(c, s, id, c.maxAttempts - 1, due, Retryable);
    var second, end := Settle(c, mid, id, c.maxAttempts, ToDead);
    RunConcat(Transition(c), s, first, second);
    tr, t := first + second, end;
  }

  lemma TryAllButLast(c: Config, s: State, id: NotificationId, due: int) returns (tr: seq<Step>, t: State)
    requires ConfigOk(c) && c.maxAttempts <= 29 && Waits(c, s, id, 0, due) && due + SPAN < MAX_CLOCK
    ensures Exec(c, s, tr) == Some(t) && Waits(c, t, id, c.maxAttempts - 1, due + SPAN) && OthersKept(s, t, id)
  {
    tr, t := RetriedFrom(c, s, id, c.maxAttempts - 1, due, Retryable);
  }

  lemma TryAll(c: Config, s: State, id: NotificationId, due: int) returns (tr: seq<Step>, t: State)
    requires ConfigOk(c) && c.maxAttempts <= 29 && Waits(c, s, id, 0, due) && due + SPAN < MAX_CLOCK
    ensures Exec(c, s, tr) == Some(t) && OneMail(c, t, id, c.maxAttempts) && OthersKept(s, t, id)
    ensures t.rows[id].status.Dead? && t.loops[0].Idle? && t.now <= due + SPAN
  {
    var first, mid := TryAllButLast(c, s, id, due);
    var second, end := GiveUpLast(c, mid, id, due + SPAN);
    RunConcat(Transition(c), s, first, second);
    tr, t := first + second, end;
  }

  lemma ExhaustOne(c: Config, s: State, n: nat, now: int) returns (tr: seq<Step>, t: State)
    requires ConfigOk(c) && c.maxAttempts <= 29 && ExhaustedBy(c, s, n, now) && now + SPAN < MAX_CLOCK
    ensures Exec(c, s, tr) == Some(t) && ExhaustedBy(c, t, n + 1, now + SPAN)
  {
    var first, mid := Queued(c, s, n);
    var second, end := TryAll(c, mid, n, s.now);
    RunConcat(Transition(c), s, first, second);
    tr, t := first + second, end;
  }

  lemma {:induction false} Exhaust(c: Config, start: int, n: nat) returns (tr: seq<Step>, s: State)
    requires ConfigOk(c) && c.maxAttempts <= 29 && start + SPAN * n < MAX_CLOCK
    ensures Exec(c, Init(c, start), tr) == Some(s) && ExhaustedBy(c, s, n, start + SPAN * n)
  {
    if n == 0 {
      tr, s := [], Init(c, start);
    } else {
      var before, mid := Exhaust(c, start, n - 1);
      var more, end := ExhaustOne(c, mid, n - 1, start + SPAN * (n - 1));
      RunConcat(Transition(c), Init(c, start), before, more);
      tr, s := before + more, end;
    }
  }

  // A run that enqueues n notifications and needs as many claims and settlements for them as the bound allows.
  ghost predicate Reaches(c: Config, now: int, tr: seq<Step>, n: nat) {
    && Exec(c, Init(c, now), tr).Some? && Enqueued(tr) == n
    && HandledIn(c, Init(c, now), tr) == 2 * c.maxAttempts * n
  }

  lemma ReachesAll(c: Config, n: nat) returns (now: int, tr: seq<Step>)
    requires ConfigOk(c) && c.maxAttempts <= 29
    ensures Reaches(c, now, tr, n)
  {
    now := -SPAN * n;
    var s;
    tr, s := Exhaust(c, now, n);
    QueueDrains(c, now, tr);
    UptoSize(s.rows.Keys, n);
    assert |s.rows| == |s.rows.Keys|;
  }

  lemma NeverReached(c: Config, now: int, tr: seq<Step>, n: nat)
    requires ConfigOk(c) && c.maxAttempts > 29 && n > 0
    ensures !Reaches(c, now, tr, n)
  {
    if Exec(c, Init(c, now), tr).Some? && Enqueued(tr) == n {
      QueueDrains(c, now, tr);
      var s := Exec(c, Init(c, now), tr).value;
      assert Reachable(c, s);
      ReachableTracked(c, s);
      var id :| id in s.rows;
      assert Tracked(c, s.calls, id, s.rows[id]);
    }
  }

  // For any number of notifications the bound is reached by some run, exactly if the attempt limit is at most 29.
  // (Beyond that no notification lives to see its last attempt.)
  lemma DrainBoundIsReached(c: Config, n: nat)
    requires ConfigOk(c) && n > 0
    ensures (exists now, tr :: Reaches(c, now, tr, n)) <==> c.maxAttempts <= 29
  {
    if c.maxAttempts <= 29 {
      var now, tr := ReachesAll(c, n);
    } else {
      forall now, tr ensures !Reaches(c, now, tr, n) {
        NeverReached(c, now, tr, n);
      }
    }
  }
}
