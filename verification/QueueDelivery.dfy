/** Mails that reach their recipient, whether or not the worker learns of it. The provider delivers an accepted request
    unless it remembers having delivered one with the same idempotency key. */
module QueueDelivery {
  import opened Common
  import opened Runs
  import opened NotificationQueries
  import opened QueueProtocol
  import opened QueueInvariant
  import opened QueueRuns
  import Backoff

  // ---- The provider ----

  // `memory` is for how long the provider remembers a key, `None` meaning for ever.
  predicate Remembered(memory: Option<int>, delivered: seq<Call>, call: Call) {
    exists i :: && 0 <= i < |delivered| && delivered[i].key == call.key
                && (memory.None? || call.at < delivered[i].at + memory.value)
  }

  function Delivered(memory: Option<int>, calls: seq<Call>): seq<Call> {
    if calls == [] then [] else
    var front, last := Delivered(memory, calls[..|calls| - 1]), calls[|calls| - 1];
    if last.outcome.Delivers() && !Remembered(memory, front, last) then front + [last] else front
  }

  // Some request for the row was accepted, with or without the worker's knowledge.
  ghost predicate WasDelivered(calls: seq<Call>, id: NotificationId) {
    exists k :: 0 <= k < |calls| && calls[k].row == id && calls[k].outcome.Delivers()
  }

  ghost predicate Keyed(calls: seq<Call>) {
    forall k :: 0 <= k < |calls| ==> calls[k].key == calls[k].row
  }

  lemma {:induction false} DeliveredKeyed(memory: Option<int>, calls: seq<Call>)
    requires Keyed(calls)
    ensures Keyed(Delivered(memory, calls))
    ensures forall i :: 0 <= i < |Delivered(memory, calls)| ==> Delivered(memory, calls)[i].outcome.Delivers()
    decreases |calls|
  {
    if calls != [] {
      DeliveredKeyed(memory, calls[..|calls| - 1]);
    }
  }

  ghost predicate Among(delivered: seq<Call>, id: NotificationId) {
    exists i :: 0 <= i < |delivered| && delivered[i].row == id
  }

  // Whether anything is delivered for a row does not depend on how long the provider remembers.
  lemma {:induction false} DeliveredSomething(memory: Option<int>, calls: seq<Call>, id: NotificationId)
    requires Keyed(calls)
    ensures Among(Delivered(memory, calls), id) <==> WasDelivered(calls, id)
    decreases |calls|
  {
    if calls != [] {
      var before, last := calls[..|calls| - 1], calls[|calls| - 1];
      var front := Delivered(memory, before);
      assert calls == before + [last];
      DeliveredSomething(memory, before, id);
      DeliveredKeyed(memory, before);
      DeliveredAppend(before, last, id);
      AmongAppend(front, last, id);
      if !Among(front, id) && last.row == id {
        assert !Remembered(memory, front, last) by {
          assert forall i :: 0 <= i < |front| ==> front[i].key == front[i].row && front[i].row != id;
        }
      }
    }
  }

  lemma AmongAppend(delivered: seq<Call>, call: Call, id: NotificationId)
    ensures Among(delivered + [call], id) <==> Among(delivered, id) || call.row == id
  {
    var all := delivered + [call];
    assert all[|delivered|] == call;
    assert forall i :: 0 <= i < |delivered| ==> all[i] == delivered[i];
  }

  lemma {:induction false} KeptApart(memory: Option<int>, calls: seq<Call>, i: nat, j: nat)
    requires Keyed(calls) && i < j < |Delivered(memory, calls)|
    requires Delivered(memory, calls)[i].row == Delivered(memory, calls)[j].row
    ensures memory.Some? && Delivered(memory, calls)[j].at >= Delivered(memory, calls)[i].at + memory.value
    decreases |calls|
  {
    var before, last := calls[..|calls| - 1], calls[|calls| - 1];
    var front := Delivered(memory, before);
    DeliveredKeyed(memory, before);
    if j < |front| {
      KeptApart(memory, before, i, j);
    } else {
      assert !Remembered(memory, front, last) && Delivered(memory, calls)[i] == front[i];
    }
  }

  // ---- At most one mail for each row ----

  // Over any run, two mails of one row are at least the provider's memory apart; all carry the same key and content.
  lemma DeliveriesApart(c: Config, memory: Option<int>, s: State, i: nat, j: nat)
    requires ConfigOk(c) && Reachable(c, s) && i < j < |Delivered(memory, s.calls)|
    requires Delivered(memory, s.calls)[i].row == Delivered(memory, s.calls)[j].row
    ensures memory.Some? && Delivered(memory, s.calls)[j].at >= Delivered(memory, s.calls)[i].at + memory.value
  {
    ReachableInv(c, s);
    KeptApart(memory, s.calls, i, j);
  }

  ghost predicate Single(delivered: seq<Call>) {
    forall i, j :: 0 <= i < j < |delivered| ==> delivered[i].row != delivered[j].row
  }

  ghost predicate OneMailPerRow(c: Config, memory: Option<int>) {
    forall s :: Reachable(c, s) ==> Single(Delivered(memory, s.calls))
  }

  lemma {:induction false} FewerDelivered(memory: Option<int>, calls: seq<Call>, id: NotificationId)
    ensures CallsFor(Delivered(memory, calls), id) <= CallsFor(calls, id)
    decreases |calls|
  {
    if calls != [] {
      var front := Delivered(memory, calls[..|calls| - 1]);
      FewerDelivered(memory, calls[..|calls| - 1], id);
      CallCounts(front, calls[|calls| - 1], id);
    }
  }

  lemma {:induction false} CountsAll(calls: seq<Call>, i: nat, j: nat)
    requires i < |calls| && j < |calls| && calls[i].row == calls[j].row
    ensures CallsFor(calls, calls[i].row) >= if i == j then 1 else 2
    decreases |calls|
  {
    var n := |calls| - 1;
    if i < n && j < n {
      CountsAll(calls[..n], i, j);
    } else if i < n {
      CountsAll(calls[..n], i, i);
    } else if j < n {
      CountsAll(calls[..n], j, j);
    }
  }

  // Two requests that the provider accepts while the worker sees them time out, further apart than the provider
  // remembers.
  lemma MailedTwice(c: Config, memory: int) returns (s: State)
    requires ConfigOk(c) && c.maxAttempts >= 2
    ensures Reachable(c, s) && !Single(Delivered(Some(memory), s.calls))
  {
    var wait := if memory > 0 then memory else 0;
    var start := -wait - 1800 * SECOND;
    var tr, waiting := Retried(c, start, 1, ReplyLost);
    var later := waiting.(now := waiting.now + wait);
    RunOne(Transition(c), Init(c, start), tr, Advance(later.now));
    var more, t := Attempt(c, later, 0, 1, start + 1800 * SECOND + wait, ReplyLost);
    RunConcat(Transition(c), Init(c, start), tr + [Advance(later.now)], more);
    s := t;
    assert Exec(c, Init(c, start), tr + [Advance(later.now)] + more) == Some(s);
    AllDelivered(memory, s.calls);
  }

  // Requests that are accepted are all delivered if those with the same key are far enough apart.
  lemma {:induction false} AllDelivered(memory: int, calls: seq<Call>)
    requires forall i :: 0 <= i < |calls| ==> calls[i].outcome.Delivers()
    requires forall i, j :: 0 <= i < j < |calls| && calls[i].key == calls[j].key ==>
               calls[i].at + memory <= calls[j].at
    ensures Delivered(Some(memory), calls) == calls
    decreases |calls|
  {
    if calls != [] {
      var front, last := calls[..|calls| - 1], calls[|calls| - 1];
      AllDelivered(memory, front);
      assert !Remembered(Some(memory), front, last);
      assert front + [last] == calls;
    }
  }

  // Every recipient gets at most one mail for each notification, in every run, exactly if the provider never forgets a
  // key or no notification is ever tried twice.
  lemma OneMailPerRowExactly(c: Config, memory: Option<int>)
    requires ConfigOk(c)
    ensures OneMailPerRow(c, memory) <==> memory.None? || c.maxAttempts == 1
  {
    if memory.Some? && c.maxAttempts >= 2 {
      var s := MailedTwice(c, memory.value);
      assert !Single(Delivered(memory, s.calls));
    } else {
      forall s | Reachable(c, s) ensures Single(Delivered(memory, s.calls)) {
        forall i, j | 0 <= i < j < |Delivered(memory, s.calls)|
          ensures Delivered(memory, s.calls)[i].row != Delivered(memory, s.calls)[j].row
        {
          NeverTwice(c, memory, s, i, j);
        }
      }
    }
  }

  lemma NeverTwice(c: Config, memory: Option<int>, s: State, i: nat, j: nat)
    requires ConfigOk(c) && Reachable(c, s) && (memory.None? || c.maxAttempts == 1)
    requires i < j < |Delivered(memory, s.calls)|
    ensures Delivered(memory, s.calls)[i].row != Delivered(memory, s.calls)[j].row
  {
    var id := Delivered(memory, s.calls)[i].row;
    if id == Delivered(memory, s.calls)[j].row {
      DeliveriesApart(c, memory, s, i, j);
      CountsAll(Delivered(memory, s.calls), i, j);
      FewerDelivered(memory, s.calls, id);
      AtMostAttempts(c, s, id);
      assert false;
    }
  }

  lemma AtMostAttempts(c: Config, s: State, id: NotificationId)
    requires ConfigOk(c) && Reachable(c, s)
    ensures CallsFor(s.calls, id) <= c.maxAttempts
  {
    ReachableInv(c, s);
    if id in s.rows {
      assert RowOk(c, s.now, s.rows[id]) && RowCallsOk(s.rows[id], CallsFor(s.calls, id), AcceptedFor(s.calls, id));
    } else {
      NoCalls(s.calls, id);
    }
  }

  // ---- Which rows may have been delivered ----

  predicate Buildable(r: Row) {
    !r.kind.Unknown? && !r.payload.Malformed?
  }

  // A row that was given up for good, and not for want of attempts, was delivered only if an earlier attempt was made.
  ghost predicate Tracked(c: Config, calls: seq<Call>, id: NotificationId, r: Row) {
    && (r.status.Pending? ==> r.attempts <= Backoff.LAST_SAFE_ATTEMPT)
    && r.attempts <= Backoff.LAST_SAFE_ATTEMPT + 1
    && (CallsFor(calls, id) > 0 ==> Buildable(r))
    && (r.status.Failed? && WasDelivered(calls, id) ==> 2 <= r.attempts < c.maxAttempts)
  }

  ghost predicate TrackedLoop(c: Config, calls: seq<Call>, l: Loop) {
    l.Holding? && l.batch != [] && l.phase.Decided? ==>
      var head := l.batch[0];
      && (l.phase.verdict.ToRetry? ==> head.attempts <= Backoff.LAST_SAFE_ATTEMPT)
      && (l.phase.verdict.ToFailed? && WasDelivered(calls, head.id) ==> 2 <= head.attempts < c.maxAttempts)
  }

  ghost predicate TrackedAll(c: Config, s: State) {
    && (forall id :: id in s.rows ==> Tracked(c, s.calls, id, s.rows[id]))
    && (forall w :: 0 <= w < |s.loops| ==> TrackedLoop(c, s.calls, s.loops[w]))
  }

  lemma DeliveredCounts(calls: seq<Call>, id: NotificationId)
    requires WasDelivered(calls, id)
    ensures CallsFor(calls, id) >= 1
  {
    var k :| 0 <= k < |calls| && calls[k].row == id && calls[k].outcome.Delivers();
    CountsAll(calls, k, k);
  }

  lemma DeliveredAppend(calls: seq<Call>, call: Call, id: NotificationId)
    ensures WasDelivered(calls + [call], id) <==> WasDelivered(calls, id) || (call.row == id && call.outcome.Delivers())
  {
    var all := calls + [call];
    assert all[|calls|] == call;
    if WasDelivered(calls, id) {
      var k :| 0 <= k < |calls| && calls[k].row == id && calls[k].outcome.Delivers();
      assert all[k] == calls[k];
    }
  }

  lemma RowUntouched(c: Config, calls: seq<Call>, call: Call, id: NotificationId, r: Row)
    requires Tracked(c, calls, id, r) && call.row != id
    ensures Tracked(c, calls + [call], id, r)
  {
    CallCounts(calls, call, id);
    DeliveredAppend(calls, call, id);
  }

  lemma EnqueueKeepsTracked(c: Config, s: State, step: Step)
    requires ConfigOk(c) && Inv(c, s) && TrackedAll(c, s) && step.Enqueue? && Enabled(c, s, step)
    ensures TrackedAll(c, Apply(c, s, step))
  {
    NoCalls(s.calls, step.id);
  }

  lemma CommitKeepsTracked(c: Config, s: State, w: nat)
    requires Inv(c, s) && TrackedAll(c, s) && Enabled(c, s, Commit(w))
    ensures TrackedAll(c, Apply(c, s, Commit(w)))
  {
    var t := Committed(c, s, w);
    assert LoopOk(c, s.now, s.rows, s.calls, s.loops[w]);
    forall id | id in s.rows ensures Tracked(c, s.calls, id, t.rows[id]) {
      assert Tracked(c, s.calls, id, s.rows[id]);
      if id in s.loops[w].ids {
        var i :| 0 <= i < |s.loops[w].ids| && s.loops[w].ids[i] == id;
        assert Due(s.rows[id], s.loops[w].at);
      }
    }
  }

  lemma DispatchKeepsTracked(c: Config, s: State, w: nat, outcome: Outcome)
    requires Inv(c, s) && TrackedAll(c, s) && Enabled(c, s, Dispatch(w, outcome))
    ensures TrackedAll(c, Apply(c, s, Dispatch(w, outcome)))
  {
    var t := Dispatched(c, s, w, outcome);
    var head := s.loops[w].batch[0];
    assert LoopOk(c, s.now, s.rows, s.calls, s.loops[w]) && Held(s.rows, head);
    DispatchTracksHead(c, s, w, outcome);
    forall id | id in s.rows ensures Tracked(c, t.calls, id, s.rows[id]) {
      assert Tracked(c, s.calls, id, s.rows[id]);
      if id != head.id && Builds(head) {
        RowUntouched(c, s.calls, CallFor(head, outcome, s.now), id, s.rows[id]);
      }
    }
    forall v | 0 <= v < |s.loops| && v != w ensures TrackedLoop(c, t.calls, s.loops[v]) {
      DispatchSparesLoop(c, s, w, outcome, v);
    }
  }

  lemma DispatchTracksHead(c: Config, s: State, w: nat, outcome: Outcome)
    requires Inv(c, s) && TrackedAll(c, s) && Enabled(c, s, Dispatch(w, outcome))
    ensures var t := Dispatched(c, s, w, outcome); TrackedLoop(c, t.calls, t.loops[w])
  {
    var head := s.loops[w].batch[0];
    assert LoopOk(c, s.now, s.rows, s.calls, s.loops[w]) && Held(s.rows, head);
    assert Tracked(c, s.calls, head.id, s.rows[head.id]);
    DeliveredAppend(s.calls, CallFor(head, outcome, s.now), head.id);
    if WasDelivered(s.calls, head.id) {
      DeliveredCounts(s.calls, head.id);
    }
  }

  lemma DispatchSparesLoop(c: Config, s: State, w: nat, outcome: Outcome, v: nat)
    requires Inv(c, s) && TrackedAll(c, s) && Enabled(c, s, Dispatch(w, outcome)) && v < |s.loops| && v != w
    ensures TrackedLoop(c, Dispatched(c, s, w, outcome).calls, s.loops[v])
  {
    var head := s.loops[w].batch[0];
    assert TrackedLoop(c, s.calls, s.loops[v]);
    if s.loops[v].Holding? && s.loops[v].batch != [] {
      assert head.id in Owned(s.loops[w]) && s.loops[v].batch[0].id in Owned(s.loops[v]);
      assert Owned(s.loops[v]) !! Owned(s.loops[w]);
      DeliveredAppend(s.calls, CallFor(head, outcome, s.now), s.loops[v].batch[0].id);
    }
  }

  lemma WriteKeepsTracked(c: Config, s: State, w: nat, at: int)
    requires Inv(c, s) && TrackedAll(c, s) && Enabled(c, s, Write(w, at))
    ensures TrackedAll(c, Apply(c, s, Write(w, at)))
  {
    var t := Apply(c, s, Write(w, at));
    var head := s.loops[w].batch[0];
    assert LoopOk(c, s.now, s.rows, s.calls, s.loops[w]) && Held(s.rows, head);
    assert TrackedLoop(c, s.calls, s.loops[w]);
    forall id | id in s.rows ensures Tracked(c, s.calls, id, t.rows[id]) {
      assert Tracked(c, s.calls, id, s.rows[id]);
    }
  }

  lemma PlanKeepsTracked(c: Config, s: State, w: nat, draw: nat)
    requires TrackedAll(c, s) && Enabled(c, s, Plan(w, draw))
    ensures TrackedAll(c, Apply(c, s, Plan(w, draw)))
  {
  }

  lemma GiveUpKeepsTracked(c: Config, s: State, w: nat)
    requires TrackedAll(c, s) && Enabled(c, s, GiveUp(w))
    ensures TrackedAll(c, Apply(c, s, GiveUp(w)))
  {
  }

  lemma StepKeepsTracked(c: Config, s: State, step: Step)
    requires ConfigOk(c) && Inv(c, s) && TrackedAll(c, s) && Enabled(c, s, step)
    ensures TrackedAll(c, Apply(c, s, step))
  {
    match step
    case Enqueue(_, _, _, _, _) => EnqueueKeepsTracked(c, s, step);
    case Commit(w) => CommitKeepsTracked(c, s, w);
    case Dispatch(w, outcome) => DispatchKeepsTracked(c, s, w, outcome);
    case Plan(w, draw) => PlanKeepsTracked(c, s, w, draw);
    case Write(w, at) => WriteKeepsTracked(c, s, w, at);
    case GiveUp(w) => GiveUpKeepsTracked(c, s, w);
    case Advance(_) =>
    case CapCheck(w, _) => MoveKeepsTracked(c, s, w, Checked);
    case Select(w, at, ids) => MoveKeepsTracked(c, s, w, Selecting(ids, at));
    case Crash(w) => MoveKeepsTracked(c, s, w, Idle);
  }

  lemma MoveKeepsTracked(c: Config, s: State, w: nat, l: Loop)
    requires TrackedAll(c, s) && w < |s.loops| && !l.Holding?
    ensures TrackedAll(c, Move(s, w, l))
  {
  }

  lemma {:induction false} RunKeepsTracked(c: Config, s: State, tr: seq<Step>)
    requires ConfigOk(c) && Inv(c, s) && TrackedAll(c, s) && Exec(c, s, tr).Some?
    ensures TrackedAll(c, Exec(c, s, tr).value)
    decreases |tr|
  {
    if tr != [] {
      var front := tr[..|tr| - 1];
      RunKeepsTracked(c, s, front);
      RunKeeps(c, s, front);
      StepKeepsTracked(c, Exec(c, s, front).value, tr[|tr| - 1]);
    }
  }

  lemma ReachableTracked(c: Config, s: State)
    requires ConfigOk(c) && Reachable(c, s)
    ensures TrackedAll(c, s)
  {
    var t: int, tr: seq<Step> :| Exec(c, Init(c, t), tr) == Some(s);
    InitInv(c, t);
    RunKeepsTracked(c, Init(c, t), tr);
  }

  // Whether a row of that status with that many attempts can have reached its recipient.
  predicate MayHaveArrived(c: Config, status: Status, attempts: int) {
    && attempts <= Backoff.LAST_SAFE_ATTEMPT + 1
    && match status
       case Pending => 1 <= attempts < c.maxAttempts && attempts <= Backoff.LAST_SAFE_ATTEMPT
       case Sending => 1 <= attempts <= c.maxAttempts
       case Sent => 1 <= attempts <= c.maxAttempts
       case Failed => 2 <= attempts < c.maxAttempts
       case Dead => attempts == c.maxAttempts
  }

  ghost predicate Arrived(s: State, id: NotificationId, status: Status, attempts: int) {
    && id in s.rows && s.rows[id].status == status && s.rows[id].attempts == attempts
    && WasDelivered(s.calls, id)
  }

  lemma ArrivedOnlyIf(c: Config, s: State, id: NotificationId, status: Status, attempts: int)
    requires ConfigOk(c) && Reachable(c, s) && Arrived(s, id, status, attempts)
    ensures MayHaveArrived(c, status, attempts)
  {
    ReachableTracked(c, s);
    ReachableInv(c, s);
    assert RowOk(c, s.now, s.rows[id]) && Tracked(c, s.calls, id, s.rows[id]);
    DeliveredCounts(s.calls, id);
    assert RowCallsOk(s.rows[id], CallsFor(s.calls, id), AcceptedFor(s.calls, id));
  }

  lemma ArrivedIf(c: Config, status: Status, attempts: int) returns (s: State)
    requires ConfigOk(c) && MayHaveArrived(c, status, attempts)
    ensures Reachable(c, s) && Arrived(s, 0, status, attempts)
  {
    match status
    case Pending =>
      var tr;
      tr, s := Retried(c, 0, attempts, ReplyLost);
      assert s.calls[0].row == 0 && s.calls[0].outcome.Delivers();
    case Sending =>
      s := Attempted(c, attempts, Retryable, Accepted);
    case Sent =>
      s := AttemptedAndSettled(c, attempts, Retryable, Accepted, ToSent);
    case Failed =>
      s := AttemptedAndSettled(c, attempts, ReplyLost, Permanent, ToFailed);
    case Dead =>
      s := AttemptedAndSettled(c, attempts, Retryable, ReplyLost, ToDead);
  }

  lemma AttemptedAndSettled(c: Config, k: nat, outcome: Outcome, last: Outcome, verdict: Verdict) returns (s: State)
    requires ConfigOk(c) && 1 <= k <= c.maxAttempts && k <= Backoff.LAST_SAFE_ATTEMPT + 1 && outcome.SeenRetryable()
    requires forall now :: Judge(c, k, last, now) == Decided(verdict, now)
    requires last.Delivers() || (k > 1 && outcome.Delivers())
    ensures Reachable(c, s) && 0 in s.rows && s.rows[0].attempts == k && WasDelivered(s.calls, 0)
    ensures exists row, at :: s.rows[0] == WrittenRow(row, verdict, at)
  {
    var before := Attempted(c, k, outcome, last);
    var tr;
    tr, s := Settle(c, before, 0, k, verdict);
    Onward(c, before, tr, s);
    assert if last.Delivers() then s.calls[k - 1].row == 0 && s.calls[k - 1].outcome.Delivers()
           else s.calls[0].row == 0 && s.calls[0].outcome.Delivers();
  }

  // Exactly the rows with these statuses and attempts can have reached their recipient, marked as sent or not.
  lemma ArrivedExactly(c: Config, status: Status, attempts: int)
    requires ConfigOk(c)
    ensures (exists s, id :: Reachable(c, s) && Arrived(s, id, status, attempts))
       <==> MayHaveArrived(c, status, attempts)
  {
    if MayHaveArrived(c, status, attempts) {
      var s := ArrivedIf(c, status, attempts);
      assert Reachable(c, s) && Arrived(s, 0, status, attempts);
    } else {
      forall s, id | Reachable(c, s) ensures !Arrived(s, id, status, attempts) {
        if Arrived(s, id, status, attempts) {
          ArrivedOnlyIf(c, s, id, status, attempts);
          assert false;
        }
      }
    }
  }

  // A row marked as sent did reach its recipient; any other did exactly if some reply was lost, or if the acceptance of
  // a row still being sent is not marked.
  lemma ArrivedUnmarked(c: Config, s: State, id: NotificationId)
    requires ConfigOk(c) && Reachable(c, s) && id in s.rows
    ensures s.rows[id].status.Sent? ==> WasDelivered(s.calls, id)
    ensures WasDelivered(s.calls, id) <==> ReplyWasLost(s.calls, id) || AcceptedFor(s.calls, id) == 1
    ensures AcceptedFor(s.calls, id) == 1 ==> s.rows[id].status.Sent? || s.rows[id].status.Sending?
  {
    ReachableInv(c, s);
    assert RowCallsOk(s.rows[id], CallsFor(s.calls, id), AcceptedFor(s.calls, id));
    AcceptedCounts(s.calls, id);
  }

  ghost predicate ReplyWasLost(calls: seq<Call>, id: NotificationId) {
    exists k :: 0 <= k < |calls| && calls[k].row == id && calls[k].outcome.ReplyLost?
  }

  lemma {:induction false} AcceptedCounts(calls: seq<Call>, id: NotificationId)
    ensures AcceptedFor(calls, id) >= 1 <==>
            exists k :: 0 <= k < |calls| && calls[k].row == id && calls[k].outcome.Accepted?
  {
    if calls != [] {
      var before, last := calls[..|calls| - 1], calls[|calls| - 1];
      AcceptedCounts(before, id);
      assert forall k :: 0 <= k < |before| ==> before[k] == calls[k];
      assert calls[|calls| - 1] == last;
    }
  }
}
