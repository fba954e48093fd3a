/** How early claims can happen: the delays between the attempts of a row. */
module QueueTiming {
  import opened Common
  import opened NotificationQueries
  import opened QueueProtocol
  import opened QueueInvariant
  import Backoff

  ghost predicate SpacedRow(now: int, r: Row) {
    && (r.status.Pending? ==> r.nextAttemptAt >= r.createdAt + Backoff.MinDelay(r.attempts))
    && (r.attempts >= 1 ==> now >= r.createdAt + Backoff.MinDelay(r.attempts - 1))
  }

  ghost predicate SpacedLoop(rows: Table, l: Loop) {
    l.Holding? && l.batch != [] && l.phase.Decided? && l.phase.verdict.ToRetry? ==>
      var head := l.batch[0];
      head.id in rows && l.phase.verdict.next >= rows[head.id].createdAt + Backoff.MinDelay(head.attempts)
  }

  ghost predicate Spaced(s: State) {
    && (forall id :: id in s.rows ==> SpacedRow(s.now, s.rows[id]))
    && (forall w :: 0 <= w < |s.loops| ==> SpacedLoop(s.rows, s.loops[w]))
  }

  lemma StepKeepsSpaced(c: Config, s: State, step: Step)
    requires ConfigOk(c) && Inv(c, s) && Spaced(s) && Enabled(c, s, step)
    ensures Spaced(Apply(c, s, step))
  {
    var t := Apply(c, s, step);
    StepKeepsRowsSpaced(c, s, step);
    forall w | 0 <= w < |t.loops| ensures SpacedLoop(t.rows, t.loops[w]) {
      assert SpacedLoop(s.rows, s.loops[w]);
      StepKeepsLoopSpaced(c, s, step, w);
    }
  }

  lemma LaterSpaced(now: int, later: int, row: Row)
    requires SpacedRow(now, row) && now <= later
    ensures SpacedRow(later, row)
  {
  }

  lemma ClaimSpaced(now: int, row: Row, at: int, leaseSeconds: int)
    requires SpacedRow(now, row) && Due(row, at) && at <= now
    ensures SpacedRow(now, Claim(row, at, leaseSeconds))
  {
  }

  lemma WriteSpaced(now: int, row: Row, verdict: Verdict, at: int)
    requires SpacedRow(now, row)
    requires verdict.ToRetry? ==> verdict.next >= row.createdAt + Backoff.MinDelay(row.attempts)
    ensures SpacedRow(now, WrittenRow(row, verdict, at))
  {
  }

  lemma StepKeepsRowsSpaced(c: Config, s: State, step: Step)
    requires ConfigOk(c) && Inv(c, s) && Spaced(s) && Enabled(c, s, step)
    ensures var t := Apply(c, s, step); forall id :: id in t.rows ==> SpacedRow(t.now, t.rows[id])
  {
    match step
    case Advance(to) =>
      forall id | id in s.rows ensures SpacedRow(to, s.rows[id]) {
        LaterSpaced(s.now, to, s.rows[id]);
      }
    case Enqueue(_, _, _, _, _) =>
    case Commit(w) => CommitKeepsRowsSpaced(c, s, w);
    case Write(w, at) => WriteKeepsRowsSpaced(c, s, w, at);
    case CapCheck(_, _) =>
    case Select(_, _, _) =>
    case Dispatch(_, _) =>
    case Plan(_, _) =>
    case GiveUp(_) =>
    case Crash(_) =>
  }

  lemma CommitKeepsRowsSpaced(c: Config, s: State, w: nat)
    requires Inv(c, s) && Spaced(s) && Enabled(c, s, Commit(w))
    ensures var t := Committed(c, s, w); forall id :: id in t.rows ==> SpacedRow(t.now, t.rows[id])
  {
    var ids, at := s.loops[w].ids, s.loops[w].at;
    assert LoopOk(c, s.now, s.rows, s.calls, s.loops[w]);
    forall id | id in s.rows ensures SpacedRow(s.now, Committed(c, s, w).rows[id]) {
      if id in ids {
        var i :| 0 <= i < |ids| && ids[i] == id;
        assert Due(s.rows[ids[i]], at);
        ClaimSpaced(s.now, s.rows[id], at, c.leaseSeconds);
      }
    }
  }

  lemma WriteKeepsRowsSpaced(c: Config, s: State, w: nat, at: int)
    requires Inv(c, s) && Spaced(s) && Enabled(c, s, Write(w, at))
    ensures var t := Apply(c, s, Write(w, at)); forall id :: id in t.rows ==> SpacedRow(t.now, t.rows[id])
  {
    var head, verdict := s.loops[w].batch[0], s.loops[w].phase.verdict;
    assert LoopOk(c, s.now, s.rows, s.calls, s.loops[w]) && Held(s.rows, head);
    assert SpacedLoop(s.rows, s.loops[w]);
    WriteSpaced(s.now, s.rows[head.id], verdict, at);
  }

  lemma StepKeepsLoopSpaced(c: Config, s: State, step: Step, w: nat)
    requires ConfigOk(c) && Inv(c, s) && Spaced(s) && Enabled(c, s, step) && w < |s.loops|
    ensures var t := Apply(c, s, step); |t.loops| == |s.loops| && SpacedLoop(t.rows, t.loops[w])
  {
    var t := Apply(c, s, step);
    StepKeepsCreation(c, s, step);
    assert SpacedLoop(s.rows, s.loops[w]);
    if step.Plan? && step.w == w {
      var head := s.loops[w].batch[0];
      assert LoopOk(c, s.now, s.rows, s.calls, s.loops[w]) && Held(s.rows, head);
      assert SpacedRow(s.now, s.rows[head.id]) && RowOk(c, s.now, s.rows[head.id]);
      PlanIsSpaced(s.now, s.rows[head.id], step.draw);
    } else {
      StepPlansElsewhere(c, s, step, w);
    }
  }

  lemma StepKeepsCreation(c: Config, s: State, step: Step)
    requires Enabled(c, s, step)
    ensures var t := Apply(c, s, step);
            forall id :: id in s.rows ==> id in t.rows && t.rows[id].createdAt == s.rows[id].createdAt
  {
  }

  // Only the loop's own plan gives it a retry to write.
  lemma StepPlansElsewhere(c: Config, s: State, step: Step, w: nat)
    requires Enabled(c, s, step) && w < |s.loops| && !(step.Plan? && step.w == w)
    ensures var l := Apply(c, s, step).loops;
            && |l| == |s.loops|
            && (l[w] == s.loops[w] || (l[w].Holding? && l[w].phase.Decided? ==> !l[w].phase.verdict.ToRetry?))
  {
  }

  lemma PlanIsSpaced(now: int, row: Row, draw: nat)
    requires SpacedRow(now, row) && row.attempts >= 1 && Backoff.Spec(row.attempts, draw).Some?
    ensures now + Backoff.Spec(row.attempts, draw).value >= row.createdAt + Backoff.MinDelay(row.attempts)
  {
  }

  lemma {:induction false} RunKeepsSpaced(c: Config, s: State, tr: seq<Step>)
    requires ConfigOk(c) && Inv(c, s) && Spaced(s) && Exec(c, s, tr).Some?
    ensures Spaced(Exec(c, s, tr).value)
    decreases |tr|
  {
    if tr != [] {
      var front := tr[..|tr| - 1];
      RunKeepsSpaced(c, s, front);
      RunKeeps(c, s, front);
      StepKeepsSpaced(c, Exec(c, s, front).value, tr[|tr| - 1]);
    }
  }

  lemma ReachableSpaced(c: Config, s: State)
    requires ConfigOk(c) && Reachable(c, s)
    ensures Inv(c, s) && Spaced(s)
  {
    var t: int, tr: seq<Step> :| Exec(c, Init(c, t), tr) == Some(s);
    InitInv(c, t);
    RunKeeps(c, Init(c, t), tr);
    RunKeepsSpaced(c, Init(c, t), tr);
  }

  // Claim number m of a row is made no earlier than the first m - 1 delays after the row was created, whatever the
  // jitter; `attempts` still is m - 1 when the claim commits.
  lemma ClaimSpacing(c: Config, s: State, w: nat, id: NotificationId)
    requires ConfigOk(c) && Reachable(c, s) && Enabled(c, s, Commit(w)) && id in s.loops[w].ids
    ensures s.loops[w].at >= s.rows[id].createdAt + Backoff.MinDelay(s.rows[id].attempts)
    ensures Apply(c, s, Commit(w)).rows[id].attempts == s.rows[id].attempts + 1
  {
    ReachableSpaced(c, s);
    assert LoopOk(c, s.now, s.rows, s.calls, s.loops[w]);
    var i :| 0 <= i < |s.loops[w].ids| && s.loops[w].ids[i] == id;
    assert Due(s.rows[s.loops[w].ids[i]], s.loops[w].at);
    assert SpacedRow(s.now, s.rows[id]);
  }

  // ---- The jitter ----

  // For the first row of a batch, the plan that some draw makes is to try again at `next`.
  ghost predicate Plannable(c: Config, s: State, w: nat, next: int) {
    exists draw: nat :: PlansFor(c, s, w, draw, next)
  }

  ghost predicate PlansFor(c: Config, s: State, w: nat, draw: nat, next: int) {
    && Enabled(c, s, Plan(w, draw))
    && Apply(c, s, Plan(w, draw)).loops[w] == s.loops[w].(phase := Decided(ToRetry(next), s.now))
  }

  // After attempt k the retry can be planned for exactly the times from the ideal delay on up to a quarter of it later,
  // below 37.5 minutes; after attempt 28 for none.
  lemma PlansExactly(c: Config, s: State, w: nat, next: int)
    requires InPhase(s, w, NeedsBackoff)
    ensures var k := s.loops[w].batch[0].attempts;
            Plannable(c, s, w, next) <==> k <= 28 && Backoff.InRange(Backoff.IdealBase(k), next - s.now)
  {
    var k := s.loops[w].batch[0].attempts;
    Backoff.DelayRange(k, next - s.now);
    forall draw: nat ensures PlansFor(c, s, w, draw, next) <==> Backoff.Spec(k, draw) == Some(next - s.now) {
    }
    if draw: nat :| Backoff.Spec(k, draw) == Some(next - s.now) {
      assert PlansFor(c, s, w, draw, next);
    }
  }

  // And written back, the row can be claimed exactly from that time on.
  lemma RetryIsScheduled(c: Config, s: State, w: nat, at: int, later: int)
    requires ConfigOk(c) && Reachable(c, s) && Enabled(c, s, Write(w, at)) && s.loops[w].phase.verdict.ToRetry?
    ensures var row := Apply(c, s, Write(w, at)).rows[s.loops[w].batch[0].id];
            Due(row, later) <==> s.loops[w].phase.verdict.next <= later
  {
  }

  // A row is not dead before all its delays have passed: 31 minutes with the six attempts of production.
  lemma DeadTakesTime(c: Config, s: State, id: NotificationId)
    requires ConfigOk(c) && Reachable(c, s) && id in s.rows && s.rows[id].status.Dead?
    ensures s.now >= s.rows[id].createdAt + Backoff.MinDelay(c.maxAttempts - 1)
    ensures c.maxAttempts == 6 ==> s.now >= s.rows[id].createdAt + 1860 * SECOND
  {
    ReachableSpaced(c, s);
    assert RowOk(c, s.now, s.rows[id]) && SpacedRow(s.now, s.rows[id]);
    Backoff.FiveDelays();
  }
}
