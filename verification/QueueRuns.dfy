/** Runs of the queue that carry one mail through its attempts, for the results that need a witness. */
module QueueRuns {
  import opened Common
  import opened Runs
  import opened NotificationQueries
  import opened QueueProtocol
  import Backoff

  const SHORTEST := 30 * SECOND
  const ROUND := 1800 * SECOND

  ghost predicate Upto(ids: set<NotificationId>, n: nat) {
    forall id: NotificationId :: id in ids <==> id < n
  }

  lemma {:induction false} UptoSize(ids: set<NotificationId>, n: nat)
    requires Upto(ids, n)
    ensures |ids| == n
    decreases n
  {
    if n == 0 {
      assert ids == {};
    } else {
      UptoSize(ids - {n - 1}, n - 1);
    }
  }

  predicate Mailable(r: Row) {
    r.kind == ConfirmEmail && r.toEmail == "" && r.payload == BroadcastMail("")
  }

  // The mail `id` has been claimed k times, all other mails are dead, and every loop but perhaps the first is idle.
  ghost predicate OneMail(c: Config, s: State, id: NotificationId, k: nat) {
    && id in s.rows && Mailable(s.rows[id]) && s.rows[id].attempts == k
    && (forall other :: other in s.rows && other != id ==> s.rows[other].status.Dead?)
    && |s.loops| == c.loops && |s.loops| >= 1
    && forall w :: 1 <= w < |s.loops| ==> s.loops[w].Idle?
  }

  // It waits, and can be claimed at time `due`.
  ghost predicate Waits(c: Config, s: State, id: NotificationId, k: nat, due: int) {
    && OneMail(c, s, id, k) && s.loops[0].Idle?
    && s.rows[id].status.Pending? && s.rows[id].lockedUntil.None?
    && s.now <= due && s.rows[id].nextAttemptAt <= due
  }

  ghost predicate Picked(c: Config, s: State, id: NotificationId, k: nat) {
    && OneMail(c, s, id, k) && s.loops[0] == Selecting([id], s.now)
    && s.rows[id].status.Pending?
  }

  // The first loop holds it.
  ghost predicate InHand(c: Config, s: State, id: NotificationId, k: nat, phase: Phase) {
    && OneMail(c, s, id, k) && s.rows[id].status.Sending?
    && s.loops[0] == Holding([Returned(s.rows, id)], phase)
  }

  // Only the row of the mail has changed.
  ghost predicate OthersKept(s: State, t: State, id: NotificationId) {
    id in t.rows && t.rows == s.rows[id := t.rows[id]]
  }

  lemma Pick(c: Config, s: State, id: NotificationId, k: nat, due: int) returns (tr: seq<Step>, t: State)
    requires ConfigOk(c) && Waits(c, s, id, k, due) && due < MAX_CLOCK
    ensures Exec(c, s, tr) == Some(t) && Picked(c, t, id, k) && t.calls == s.calls && t.rows == s.rows
    ensures s.now <= t.now <= due && s.rows[id].nextAttemptAt <= t.now
  {
    var later := if s.now >= s.rows[id].nextAttemptAt then s.now else s.rows[id].nextAttemptAt;
    var s1 := s.(now := later);
    RunOne(Transition(c), s, [], Advance(later));
    tr := [] + [Advance(later)];

    var s2 := Move(s1, 0, Checked);
    assert SentSince(s1.rows, later - DAY) == {};
    assert Apply(c, s1, CapCheck(0, later)) == s2;
    RunOne(Transition(c), s, tr, CapCheck(0, later));
    tr := tr + [CapCheck(0, later)];

    t := Move(s2, 0, Selecting([id], later));
    assert LockedIds(s2.loops) == {};
    RunOne(Transition(c), s, tr, Select(0, later, [id]));
    tr := tr + [Select(0, later, [id])];
  }

  lemma Post(c: Config, s: State, id: NotificationId, k: nat, outcome: Outcome) returns (tr: seq<Step>, t: State)
    requires ConfigOk(c) && Picked(c, s, id, k)
    ensures Exec(c, s, tr) == Some(t) && InHand(c, t, id, k + 1, Judge(c, k + 1, outcome, t.now))
    ensures t.now == s.now && OthersKept(s, t, id)
    ensures t.calls == s.calls + [CallFor(Returned(t.rows, id), outcome, t.now)]
  {
    var s1 := Committed(c, s, 0);
    assert s1.loops[0].batch == [Returned(s1.rows, id)];
    RunOne(Transition(c), s, [], Commit(0));
    tr := [] + [Commit(0)];
    t := Dispatched(c, s1, 0, outcome);
    RunOne(Transition(c), s, tr, Dispatch(0, outcome));
    tr := tr + [Dispatch(0, outcome)];
  }

  // One attempt: a claim and a request to the provider.
  lemma Attempt(c: Config, s: State, id: NotificationId, k: nat, due: int, outcome: Outcome)
    returns (tr: seq<Step>, t: State)
    requires ConfigOk(c) && Waits(c, s, id, k, due) && due < MAX_CLOCK
    ensures Exec(c, s, tr) == Some(t) && InHand(c, t, id, k + 1, Judge(c, k + 1, outcome, t.now))
    ensures s.now <= t.now <= due && s.rows[id].nextAttemptAt <= t.now && OthersKept(s, t, id)
    ensures t.calls == s.calls + [CallFor(Returned(t.rows, id), outcome, t.now)]
  {
    var first, mid := Pick(c, s, id, k, due);
    var second, end := Post(c, mid, id, k, outcome);
    RunConcat(Transition(c), s, first, second);
    tr, t := first + second, end;
  }

  // The delay is computed without jitter and written back.
  lemma PutBack(c: Config, s: State, id: NotificationId, k: nat, due: int) returns (tr: seq<Step>, t: State)
    requires ConfigOk(c) && InHand(c, s, id, k, NeedsBackoff) && k <= Backoff.LAST_SAFE_ATTEMPT && s.now <= due
    ensures Exec(c, s, tr) == Some(t) && Waits(c, t, id, k, due + ROUND) && t.calls == s.calls && t.now == s.now
    ensures s.now + SHORTEST <= t.rows[id].nextAttemptAt && OthersKept(s, t, id)
  {
    RunOne(Transition(c), s, [], Plan(0, 0));
    tr := [] + [Plan(0, 0)];
    var s1 := Apply(c, s, Plan(0, 0));
    assert SHORTEST <= Backoff.Spec(k, 0).value <= ROUND;
    RunOne(Transition(c), s, tr, Write(0, s.now));
    tr := tr + [Write(0, s.now)];
    t := Apply(c, s1, Write(0, s.now));
  }

  lemma Settle(c: Config, s: State, id: NotificationId, k: nat, verdict: Verdict) returns (tr: seq<Step>, t: State)
    requires ConfigOk(c) && InHand(c, s, id, k, Decided(verdict, s.now))
    ensures Exec(c, s, tr) == Some(t) && OneMail(c, t, id, k) && t.calls == s.calls && t.now == s.now
    ensures t.loops[0] == Idle && t.rows == s.rows[id := WrittenRow(s.rows[id], verdict, s.now)]
  {
    RunOne(Transition(c), s, [], Write(0, s.now));
    tr := [] + [Write(0, s.now)];
    t := Apply(c, s, Write(0, s.now));
  }

  // The requests from the one numbered `first` on were made for the mail, under its key, and ended alike; they are
  // apart by the shortest delay, and the next one will be too.
  ghost predicate Tries(calls: seq<Call>, first: nat, id: NotificationId, outcome: Outcome, since: int, next: int) {
    && first <= |calls|
    && (forall i :: first <= i < |calls| ==>
          && calls[i].row == id && calls[i].key == id && calls[i].outcome == outcome
          && since <= calls[i].at && calls[i].at + SHORTEST <= next)
    && forall i, j :: first <= i < j < |calls| ==> calls[i].at + SHORTEST <= calls[j].at
  }

  // One attempt that the worker sees fail, and the delay after it.
  lemma Retry(c: Config, s: State, id: NotificationId, k: nat, due: int, outcome: Outcome)
    returns (tr: seq<Step>, t: State)
    requires ConfigOk(c) && Waits(c, s, id, k, due) && due < MAX_CLOCK
    requires outcome.SeenRetryable() && k < Backoff.LAST_SAFE_ATTEMPT && k + 1 < c.maxAttempts
    ensures Exec(c, s, tr) == Some(t) && Waits(c, t, id, k + 1, due + ROUND) && OthersKept(s, t, id)
    ensures |t.calls| == |s.calls| + 1 && t.calls[..|s.calls|] == s.calls && s.now <= t.now
    ensures var call := t.calls[|s.calls|];
            && call.row == id && call.key == id && call.outcome == outcome && call.at == t.now
            && s.rows[id].nextAttemptAt <= call.at && call.at + SHORTEST <= t.rows[id].nextAttemptAt
  {
    var first, mid := Attempt(c, s, id, k, due, outcome);
    var second, end := PutBack(c, mid, id, k + 1, due);
    RunConcat(Transition(c), s, first, second);
    tr, t := first + second, end;
  }

  lemma OneMoreTry(calls: seq<Call>, more: seq<Call>, first: nat, id: NotificationId, outcome: Outcome, since: int,
                   next: int, next': int)
    requires Tries(calls, first, id, outcome, since, next)
    requires |more| == |calls| + 1 && more[..|calls|] == calls
    requires var call := more[|calls|];
             && call.row == id && call.key == id && call.outcome == outcome
             && since <= call.at && next <= call.at && call.at + SHORTEST <= next'
    ensures Tries(more, first, id, outcome, since, next')
  {
    assert forall i :: 0 <= i < |calls| ==> more[i] == calls[i];
  }

  // From `s` on, the mail has been tried k times, and it waits again.
  ghost predicate TriedAgain(c: Config, s: State, t: State, id: NotificationId, k: nat, due: int, outcome: Outcome) {
    && Waits(c, t, id, k, due) && OthersKept(s, t, id) && s.now <= t.now
    && |t.calls| == |s.calls| + k && t.calls[..|s.calls|] == s.calls
    && Tries(t.calls, |s.calls|, id, outcome, s.now, t.rows[id].nextAttemptAt)
    && (k > 0 ==> t.calls[|t.calls| - 1].at == t.now)
  }

  lemma TriedOnceMore(c: Config, s: State, mid: State, id: NotificationId, k: nat, due: int, outcome: Outcome)
    returns (tr: seq<Step>, t: State)
    requires ConfigOk(c) && TriedAgain(c, s, mid, id, k, due, outcome) && due < MAX_CLOCK
    requires outcome.SeenRetryable() && k < Backoff.LAST_SAFE_ATTEMPT && k + 1 < c.maxAttempts
    ensures Exec(c, mid, tr) == Some(t) && TriedAgain(c, s, t, id, k + 1, due + ROUND, outcome)
  {
    tr, t := Retry(c, mid, id, k, due, outcome);
    OneMoreTry(mid.calls, t.calls, |s.calls|, id, outcome, s.now, mid.rows[id].nextAttemptAt,
               t.rows[id].nextAttemptAt);
    assert t.calls[..|s.calls|] == mid.calls[..|s.calls|];
  }

  lemma {:induction false} RetriedFrom(c: Config, s: State, id: NotificationId, k: nat, due: int, outcome: Outcome)
    returns (tr: seq<Step>, t: State)
    requires ConfigOk(c) && Waits(c, s, id, 0, due) && due + ROUND * k < MAX_CLOCK
    requires k <= Backoff.LAST_SAFE_ATTEMPT && k < c.maxAttempts && outcome.SeenRetryable()
    ensures Exec(c, s, tr) == Some(t) && TriedAgain(c, s, t, id, k, due + ROUND * k, outcome)
  {
    if k == 0 {
      tr, t := [], s;
    } else {
      var before, mid := RetriedFrom(c, s, id, k - 1, due, outcome);
      var more, end := TriedOnceMore(c, s, mid, id, k - 1, due + ROUND * (k - 1), outcome);
      RunConcat(Transition(c), s, before, more);
      tr, t := before + more, end;
    }
  }

  // A new mail is queued while all others are dead and all loops are idle.
  lemma Queued(c: Config, s: State, id: NotificationId) returns (tr: seq<Step>, t: State)
    requires ConfigOk(c) && id !in s.rows && |s.loops| == c.loops
    requires forall other :: other in s.rows ==> s.rows[other].status.Dead?
    requires forall w :: 0 <= w < |s.loops| ==> s.loops[w].Idle?
    ensures Exec(c, s, tr) == Some(t) && Waits(c, t, id, 0, s.now) && t.calls == s.calls && t.now == s.now
    ensures OthersKept(s, t, id)
  {
    var step := Enqueue(id, ConfirmEmail, "", BroadcastMail(""), s.now);
    RunOne(Transition(c), s, [], step);
    tr := [] + [step];
    t := Apply(c, s, step);
  }

  // The only mail waits after k attempts that the worker saw fail.
  lemma Retried(c: Config, start: int, k: nat, outcome: Outcome) returns (tr: seq<Step>, s: State)
    requires ConfigOk(c) && k <= Backoff.LAST_SAFE_ATTEMPT && k < c.maxAttempts && outcome.SeenRetryable()
    requires start + ROUND * k < MAX_CLOCK
    ensures Exec(c, Init(c, start), tr) == Some(s) && Waits(c, s, 0, k, start + ROUND * k) && s.rows.Keys == {0}
    ensures |s.calls| == k && Tries(s.calls, 0, 0, outcome, start, s.rows[0].nextAttemptAt)
    ensures start <= s.now && (k > 0 ==> s.calls[k - 1].at == s.now)
  {
    var first, mid := Queued(c, Init(c, start), 0);
    var more, end := RetriedFrom(c, mid, 0, k, start, outcome);
    RunConcat(Transition(c), Init(c, start), first, more);
    tr, s := first + more, end;
  }

  lemma RetriedReachably(c: Config, k: nat, outcome: Outcome) returns (s: State)
    requires ConfigOk(c) && k <= Backoff.LAST_SAFE_ATTEMPT && k < c.maxAttempts && outcome.SeenRetryable()
    ensures Reachable(c, s) && Waits(c, s, 0, k, ROUND * k) && s.rows.Keys == {0} && s.now >= 0
    ensures |s.calls| == k && Tries(s.calls, 0, 0, outcome, 0, s.rows[0].nextAttemptAt)
  {
    var tr;
    tr, s := Retried(c, 0, k, outcome);
  }

  lemma TriesBefore(calls: seq<Call>, id: NotificationId, outcome: Outcome, since: int, next: int, at: int)
    requires Tries(calls, 0, id, outcome, since, next) && next <= at
    ensures Tries(calls, 0, id, outcome, since, at)
  {
  }

  // The only mail is in hand after k attempts, the last of which ended in `last`.
  lemma Attempted(c: Config, k: nat, outcome: Outcome, last: Outcome) returns (s: State)
    requires ConfigOk(c) && 1 <= k <= c.maxAttempts && k <= Backoff.LAST_SAFE_ATTEMPT + 1 && outcome.SeenRetryable()
    ensures Reachable(c, s) && InHand(c, s, 0, k, Judge(c, k, last, s.now)) && s.rows.Keys == {0}
    ensures |s.calls| == k && Tries(s.calls[..k - 1], 0, 0, outcome, 0, s.calls[k - 1].at)
    ensures s.calls[k - 1] == CallFor(Returned(s.rows, 0), last, s.now) && 0 <= s.now <= ROUND * (k - 1)
  {
    var before := RetriedReachably(c, k - 1, outcome);
    var tr;
    tr, s := Attempt(c, before, 0, k - 1, ROUND * (k - 1), last);
    Onward(c, before, tr, s);
    assert s.calls[..k - 1] == before.calls;
    TriesBefore(before.calls, 0, outcome, 0, before.rows[0].nextAttemptAt, s.now);
  }
}
