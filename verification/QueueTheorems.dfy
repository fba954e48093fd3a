/** What the queue guarantees over whole runs. */
module QueueTheorems {
  import opened Common
  import opened NotificationQueries
  import opened QueueProtocol
  import opened QueueInvariant

  // ---- Ownership and finality ----

  // The updates by id alone only ever hit a row that is still as its writer claimed it and that no other loop owns.
  lemma WritesHitOwnRow(c: Config, s: State, w: nat)
    requires ConfigOk(c) && Reachable(c, s) && CanWrite(s, w)
    ensures var head := s.loops[w].batch[0];
            && head.id in s.rows
            && s.rows[head.id].status.Sending?
            && head == Returned(s.rows, head.id)
            && forall v :: 0 <= v < |s.loops| && v != w ==> head.id !in Owned(s.loops[v])
  {
    ReachableInv(c, s);
    var head := s.loops[w].batch[0];
    assert LoopOk(c, s.now, s.rows, s.calls, s.loops[w]) && Held(s.rows, head);
    assert head.id in Owned(s.loops[w]);
  }

  // A write settles its row and touches no other: the row was being sent, it loses its lease and its owner, keeps its
  // content and its attempts, and gains its first and only audit row exactly if it is finished.
  lemma WriteSettlesRow(c: Config, s: State, w: nat, at: int)
    requires ConfigOk(c) && Reachable(c, s) && Enabled(c, s, Write(w, at))
    ensures var id := s.loops[w].batch[0].id;
            var t := Apply(c, s, Write(w, at));
            && t.rows.Keys == s.rows.Keys
            && s.rows[id].status.Sending? && !t.rows[id].status.Sending? && t.rows[id].lockedUntil.None?
            && SameContent(s.rows[id], t.rows[id]) && t.rows[id].attempts == s.rows[id].attempts
            && t.rows[id].updatedAt == at
            && LogFor(s.log, id) == [] && |LogFor(t.log, id)| == (if t.rows[id].status.Terminal() then 1 else 0)
            && (forall v :: 0 <= v < |t.loops| ==> id !in Owned(t.loops[v]))
            && forall k :: k in s.rows && k != id ==> t.rows[k] == s.rows[k] && LogFor(t.log, k) == LogFor(s.log, k)
  {
    WriteSettlesOwn(c, s, w, at);
    WriterLetsGo(c, s, w, at);
    forall k | k in s.rows && k != s.loops[w].batch[0].id
      ensures Apply(c, s, Write(w, at)).rows[k] == s.rows[k]
      ensures LogFor(Apply(c, s, Write(w, at)).log, k) == LogFor(s.log, k)
    {
      WriteSparesOther(c, s, w, at, k);
    }
  }

  lemma WriteSettlesOwn(c: Config, s: State, w: nat, at: int)
    requires ConfigOk(c) && Reachable(c, s) && Enabled(c, s, Write(w, at))
    ensures var id := s.loops[w].batch[0].id;
            var t := Apply(c, s, Write(w, at));
            && t.rows.Keys == s.rows.Keys
            && s.rows[id].status.Sending? && !t.rows[id].status.Sending? && t.rows[id].lockedUntil.None?
            && SameContent(s.rows[id], t.rows[id]) && t.rows[id].attempts == s.rows[id].attempts
            && t.rows[id].updatedAt == at
            && LogFor(s.log, id) == [] && |LogFor(t.log, id)| == (if t.rows[id].status.Terminal() then 1 else 0)
  {
    var head, verdict := s.loops[w].batch[0], s.loops[w].phase.verdict;
    WriteTouchesOne(c, s, w, at);
    WriterFindsOwn(c, s, w);
    WriteLogs(s.log, head, verdict, head.id);
  }

  lemma WriteSparesOther(c: Config, s: State, w: nat, at: int, k: NotificationId)
    requires Enabled(c, s, Write(w, at)) && k in s.rows && k != s.loops[w].batch[0].id
    ensures var t := Apply(c, s, Write(w, at)); t.rows[k] == s.rows[k] && LogFor(t.log, k) == LogFor(s.log, k)
  {
    WriteTouchesOne(c, s, w, at);
    WriteLogs(s.log, s.loops[w].batch[0], s.loops[w].phase.verdict, k);
  }

  lemma WriteTouchesOne(c: Config, s: State, w: nat, at: int)
    requires Enabled(c, s, Write(w, at))
    ensures var head, verdict := s.loops[w].batch[0], s.loops[w].phase.verdict;
            var t := Apply(c, s, Write(w, at));
            && t.rows == s.rows[head.id := WrittenRow(s.rows[head.id], verdict, at)]
            && t.log == WrittenLog(s.log, head, verdict)
  {
  }

  lemma WriterFindsOwn(c: Config, s: State, w: nat)
    requires ConfigOk(c) && Reachable(c, s) && CanWrite(s, w)
    ensures var id := s.loops[w].batch[0].id;
            id in s.rows && s.rows[id].status.Sending? && LogFor(s.log, id) == []
  {
    WritesHitOwnRow(c, s, w);
    AuditExact(c, s, s.loops[w].batch[0].id);
  }

  ghost predicate LogAfterWrite(log: seq<LogRow>, head: ClaimedRow, verdict: Verdict, id: NotificationId) {
    var after := LogFor(WrittenLog(log, head, verdict), id);
    if id == head.id && !verdict.ToRetry? then |after| == |LogFor(log, id)| + 1 else after == LogFor(log, id)
  }

  lemma WriteLogs(log: seq<LogRow>, head: ClaimedRow, verdict: Verdict, id: NotificationId)
    ensures LogAfterWrite(log, head, verdict, id)
  {
    var log' := WrittenLog(log, head, verdict);
    if !verdict.ToRetry? {
      LogAppend(log, log'[|log|], id);
    }
  }

  ghost predicate SameContent(a: Row, b: Row) {
    b.kind == a.kind && b.toEmail == a.toEmail && b.payload == a.payload && b.createdAt == a.createdAt
  }

  lemma WriterLetsGo(c: Config, s: State, w: nat, at: int)
    requires ConfigOk(c) && Reachable(c, s) && Enabled(c, s, Write(w, at))
    ensures var t := Apply(c, s, Write(w, at));
            forall v :: 0 <= v < |t.loops| ==> s.loops[w].batch[0].id !in Owned(t.loops[v])
  {
    var t := Apply(c, s, Write(w, at));
    var id := s.loops[w].batch[0].id;
    ReachableInv(c, s);
    assert LoopOk(c, s.now, s.rows, s.calls, s.loops[w]) && id in Owned(s.loops[w]);
    forall v | 0 <= v < |t.loops| ensures id !in Owned(t.loops[v]) {
      if v != w {
        assert t.loops[v] == s.loops[v] && Owned(s.loops[v]) !! Owned(s.loops[w]);
      } else {
        assert t.loops[w] == AfterHead(s.loops[w].batch);
      }
    }
  }

  // A claim takes exactly the rows it locked, still pending and due when it commits, leases them for the configured
  // time, counts an attempt, and puts them into its own loop's hands.
  lemma ClaimTakesRows(c: Config, s: State, w: nat, id: NotificationId)
    requires ConfigOk(c) && Reachable(c, s) && Enabled(c, s, Commit(w)) && id in s.rows
    ensures var t := Apply(c, s, Commit(w));
            && id in t.rows && SameContent(s.rows[id], t.rows[id])
            && if id in s.loops[w].ids
               then && Due(s.rows[id], s.loops[w].at) && t.rows[id].status.Sending?
                    && t.rows[id].lockedUntil == Some(s.loops[w].at + c.leaseSeconds * SECOND)
                    && t.rows[id].updatedAt == s.loops[w].at
                    && t.rows[id].attempts == s.rows[id].attempts + 1 <= c.maxAttempts && id in Owned(t.loops[w])
               else t.rows[id] == s.rows[id] && id !in Owned(t.loops[w])
  {
    ReachableInv(c, s);
    ClaimOwns(c, s, w, id);
    ClaimLeases(c, s, w, id);
  }

  lemma ClaimLeases(c: Config, s: State, w: nat, id: NotificationId)
    requires Inv(c, s) && Enabled(c, s, Commit(w)) && id in s.rows
    ensures var t := Committed(c, s, w);
            && id in t.rows && SameContent(s.rows[id], t.rows[id])
            && if id in s.loops[w].ids
               then && Due(s.rows[id], s.loops[w].at) && t.rows[id].status.Sending?
                    && t.rows[id].lockedUntil == Some(s.loops[w].at + c.leaseSeconds * SECOND)
                    && t.rows[id].updatedAt == s.loops[w].at
                    && t.rows[id].attempts == s.rows[id].attempts + 1 <= c.maxAttempts
               else t.rows[id] == s.rows[id]
  {
    var ids := s.loops[w].ids;
    assert LoopOk(c, s.now, s.rows, s.calls, s.loops[w]) && RowOk(c, s.now, s.rows[id]);
    if id in ids {
      var i :| 0 <= i < |ids| && ids[i] == id;
      assert Due(s.rows[ids[i]], s.loops[w].at);
    }
  }

  lemma ClaimOwns(c: Config, s: State, w: nat, id: NotificationId)
    requires Inv(c, s) && Enabled(c, s, Commit(w)) && id in s.rows
    ensures id in Owned(Committed(c, s, w).loops[w]) <==> id in s.loops[w].ids
  {
    ClaimFillsBatch(c, s, w);
    if id in s.loops[w].ids {
      var i :| 0 <= i < |s.loops[w].ids| && s.loops[w].ids[i] == id;
      assert Committed(c, s, w).loops[w].batch[i].id == id;
    }
  }

  ghost predicate Abandoned(s: State, id: NotificationId) {
    && id in s.rows
    && s.rows[id].status.Sending?
    && forall w :: 0 <= w < |s.loops| ==> id !in Owned(s.loops[w])
  }

  // Rows the queue is done with, whether it knows it or not.
  ghost predicate Frozen(s: State, id: NotificationId) {
    (id in s.rows && s.rows[id].status.Terminal()) || Abandoned(s, id)
  }

  lemma OwnedIsNotFrozen(c: Config, s: State, id: NotificationId, w: nat)
    requires Inv(c, s) && w < |s.loops| && id in Owned(s.loops[w])
    ensures !Frozen(s, id)
  {
    assert LoopOk(c, s.now, s.rows, s.calls, s.loops[w]);
    if s.loops[w].Holding? {
      var b :| b in s.loops[w].batch && b.id == id;
      assert Held(s.rows, b);
    }
  }

  // A frozen row is in nobody's hands.
  lemma FrozenIsUnowned(c: Config, s: State, id: NotificationId, w: nat)
    requires Inv(c, s) && Frozen(s, id) && w < |s.loops|
    ensures id !in Owned(s.loops[w])
  {
    if id in Owned(s.loops[w]) {
      OwnedIsNotFrozen(c, s, id, w);
      assert false;
    }
  }

  ghost predicate SameHistory(s: State, t: State, id: NotificationId) {
    && id in s.rows && id in t.rows
    && t.rows[id] == s.rows[id]
    && LogFor(t.log, id) == LogFor(s.log, id)
    && CallsFor(t.calls, id) == CallsFor(s.calls, id)
    && AcceptedFor(t.calls, id) == AcceptedFor(s.calls, id)
  }

  lemma StepSparesFrozen(c: Config, s: State, step: Step, id: NotificationId)
    requires ConfigOk(c) && Inv(c, s) && Enabled(c, s, step) && Frozen(s, id)
    ensures Frozen(Apply(c, s, step), id) && SameHistory(s, Apply(c, s, step), id)
  {
    StepSparesHistory(c, s, step, id);
    StepKeepsUnowned(c, s, step, id);
  }

  lemma StepSparesHistory(c: Config, s: State, step: Step, id: NotificationId)
    requires ConfigOk(c) && Inv(c, s) && Enabled(c, s, step) && Frozen(s, id)
    ensures SameHistory(s, Apply(c, s, step), id)
  {
    match step
    case Commit(w) => CommitSparesHistory(c, s, w, id);
    case Dispatch(w, outcome) => DispatchSparesHistory(c, s, w, outcome, id);
    case Write(w, at) => WriteSparesHistory(c, s, w, at, id);
    case _ =>
  }

  lemma CommitSparesHistory(c: Config, s: State, w: nat, id: NotificationId)
    requires Inv(c, s) && Enabled(c, s, Commit(w)) && Frozen(s, id)
    ensures SameHistory(s, Apply(c, s, Commit(w)), id)
  {
    FrozenIsUnowned(c, s, id, w);
    assert id !in s.loops[w].ids;
  }

  // The head of a batch is not a frozen row.
  lemma HeadIsOther(c: Config, s: State, w: nat, id: NotificationId)
    requires Inv(c, s) && Frozen(s, id) && w < |s.loops| && s.loops[w].Holding? && s.loops[w].batch != []
    ensures s.loops[w].batch[0].id != id
  {
    FrozenIsUnowned(c, s, id, w);
    assert s.loops[w].batch[0].id in Owned(s.loops[w]);
  }

  lemma DispatchSparesHistory(c: Config, s: State, w: nat, outcome: Outcome, id: NotificationId)
    requires Inv(c, s) && Enabled(c, s, Dispatch(w, outcome)) && Frozen(s, id)
    ensures SameHistory(s, Apply(c, s, Dispatch(w, outcome)), id)
  {
    HeadIsOther(c, s, w, id);
    var head := s.loops[w].batch[0];
    var t := Dispatched(c, s, w, outcome);
    assert t.rows == s.rows && t.log == s.log;
    if Builds(head) {
      var call := CallFor(head, outcome, s.now);
      assert t.calls == s.calls + [call];
      CallCounts(s.calls, call, id);
    } else {
      assert t.calls == s.calls;
    }
  }

  lemma WriteSparesHistory(c: Config, s: State, w: nat, at: int, id: NotificationId)
    requires Inv(c, s) && Enabled(c, s, Write(w, at)) && Frozen(s, id)
    ensures SameHistory(s, Apply(c, s, Write(w, at)), id)
  {
    HeadIsOther(c, s, w, id);
    WriteLogs(s.log, s.loops[w].batch[0], s.loops[w].phase.verdict, id);
  }

  lemma StepKeepsUnowned(c: Config, s: State, step: Step, id: NotificationId)
    requires ConfigOk(c) && Inv(c, s) && Enabled(c, s, step) && Frozen(s, id)
    ensures var t := Apply(c, s, step); forall v :: 0 <= v < |t.loops| ==> id !in Owned(t.loops[v])
  {
    var t := Apply(c, s, step);
    if step.Advance? || step.Enqueue? {
      forall v | 0 <= v < |s.loops| ensures id !in Owned(t.loops[v]) {
        FrozenIsUnowned(c, s, id, v);
      }
    } else {
      if step.Select? {
        SelectionIsPending(s, step.at, step.ids, id);
      } else {
        StepOwnsNoMore(c, s, step);
      }
      LoopMoves(c, s, step);
      MoveSparesFrozen(c, s, step.w, t.loops, id);
    }
  }

  // A step of a loop moves that loop and no other.
  lemma LoopMoves(c: Config, s: State, step: Step)
    requires Enabled(c, s, step) && !step.Advance? && !step.Enqueue?
    ensures var loops := Apply(c, s, step).loops;
            step.w < |s.loops| == |loops| && loops == s.loops[step.w := loops[step.w]]
  {
  }

  lemma SelectionIsPending(s: State, at: int, ids: seq<NotificationId>, id: NotificationId)
    requires Lockable(s.rows, at, LockedIds(s.loops), CLAIM_LIMIT, ids) && Frozen(s, id)
    ensures id !in Owned(Selecting(ids, at))
  {
  }

  lemma StepOwnsNoMore(c: Config, s: State, step: Step)
    requires ConfigOk(c) && Inv(c, s) && Enabled(c, s, step)
    requires !step.Advance? && !step.Enqueue? && !step.Select?
    ensures Owned(Apply(c, s, step).loops[step.w]) <= Owned(s.loops[step.w])
  {
    assert LoopOk(c, s.now, s.rows, s.calls, s.loops[step.w]);
    match step
    case Commit(w) =>
      ClaimFillsBatch(c, s, w);
    case Write(w, _) =>
      assert Apply(c, s, step).loops[w] == AfterHead(s.loops[w].batch);
      DropHead(c, s, w, s.rows);
    case GiveUp(w) =>
      assert Apply(c, s, step).loops[w] == AfterHead(s.loops[w].batch);
      DropHead(c, s, w, s.rows);
    case CapCheck(w, at) =>
    case Dispatch(w, _) =>
      assert Apply(c, s, step).loops[w].batch == s.loops[w].batch;
    case Plan(w, _) =>
      assert Apply(c, s, step).loops[w].batch == s.loops[w].batch;
    case Crash(w) =>
  }

  lemma MoveSparesFrozen(c: Config, s: State, w: nat, loops: seq<Loop>, id: NotificationId)
    requires Inv(c, s) && Frozen(s, id) && w < |s.loops| == |loops| && loops == s.loops[w := loops[w]]
    requires id in Owned(loops[w]) ==> id in Owned(s.loops[w])
    ensures forall v :: 0 <= v < |loops| ==> id !in Owned(loops[v])
  {
    forall v | 0 <= v < |loops| ensures id !in Owned(loops[v]) {
      FrozenIsUnowned(c, s, id, v);
    }
  }

  // Finality: over any run a terminal row, and any row its loop abandoned while sending, keeps its content, its audit
  // trail and its calls. In particular no lease expiry ever hands an abandoned row out again.
  lemma {:induction false} FrozenForever(c: Config, s: State, tr: seq<Step>, id: NotificationId)
    requires ConfigOk(c) && Inv(c, s) && Frozen(s, id) && Exec(c, s, tr).Some?
    ensures var t := Exec(c, s, tr).value; Frozen(t, id) && SameHistory(s, t, id)
    decreases |tr|
  {
    if tr != [] {
      var front := tr[..|tr| - 1];
      FrozenForever(c, s, front, id);
      RunKeeps(c, s, front);
      StepSparesFrozen(c, Exec(c, s, front).value, tr[|tr| - 1], id);
    }
  }

  // What a crash or a lost batch does to the rows in hand: a row only locked becomes claimable again at once, a row
  // already claimed never does.
  lemma CrashOutcome(c: Config, s: State, w: nat, id: NotificationId)
    requires ConfigOk(c) && Reachable(c, s) && w < |s.loops| && id in Owned(s.loops[w])
    ensures var t := Apply(c, s, Crash(w));
            && id in s.rows
            && (s.loops[w].Selecting? ==> Due(t.rows[id], t.now) && id !in LockedIds(t.loops))
            && (s.loops[w].Holding? ==> Abandoned(t, id))
  {
    ReachableInv(c, s);
    var t := Apply(c, s, Crash(w));
    assert LoopOk(c, s.now, s.rows, s.calls, s.loops[w]);
    forall v | 0 <= v < |t.loops| ensures id !in Owned(t.loops[v]) {
      assert v != w ==> Owned(s.loops[v]) !! Owned(s.loops[w]);
    }
    if s.loops[w].Selecting? {
      var i :| 0 <= i < |s.loops[w].ids| && s.loops[w].ids[i] == id;
      assert Due(s.rows[id], s.loops[w].at);
    } else {
      var b :| b in s.loops[w].batch && b.id == id;
      assert Held(s.rows, b);
    }
  }

  // ---- Audit trail, attempts and calls ----

  // One audit row per finished notification, none for any other, and it names the same outcome and recipient.
  lemma AuditExact(c: Config, s: State, id: NotificationId)
    requires ConfigOk(c) && Reachable(c, s) && id in s.rows
    ensures s.rows[id].status.Terminal() ==> LogFor(s.log, id) == [LogRow(id, s.rows[id].toEmail, s.rows[id].status)]
    ensures !s.rows[id].status.Terminal() ==> LogFor(s.log, id) == []
    ensures forall k :: 0 <= k < |s.log| ==> s.log[k].notification in s.rows
  {
    ReachableInv(c, s);
  }

  lemma AttemptCeiling(c: Config, s: State, id: NotificationId)
    requires ConfigOk(c) && Reachable(c, s) && id in s.rows
    ensures 0 <= s.rows[id].attempts <= c.maxAttempts
    ensures s.rows[id].status.Pending? ==> s.rows[id].attempts < c.maxAttempts
    ensures s.rows[id].status.Dead? ==> s.rows[id].attempts == c.maxAttempts
    ensures s.rows[id].lockedUntil.Some? <==> s.rows[id].status.Sending?
  {
    ReachableInv(c, s);
    assert RowOk(c, s.now, s.rows[id]);
  }

  // What the worker knows: the provider is asked at most once per attempt, always with the row's own id as the key and
  // the row's own recipient and content, and answers that it accepted the mail at most once: for a sent row exactly
  // once, for a failed, dead or waiting row never.
  lemma CallsPerRow(c: Config, s: State, id: NotificationId)
    requires ConfigOk(c) && Reachable(c, s) && id in s.rows
    ensures CallsFor(s.calls, id) <= s.rows[id].attempts
    ensures AcceptedFor(s.calls, id) <= 1
    ensures s.rows[id].status.Sent? ==> AcceptedFor(s.calls, id) == 1
    ensures AcceptedFor(s.calls, id) == 1 ==> s.rows[id].status.Sent? || s.rows[id].status.Sending?
    ensures forall k :: 0 <= k < |s.calls| ==>
              && (s.calls[k].row == id <==> s.calls[k].key == id)
              && (s.calls[k].row == id ==>
                    s.calls[k].to == s.rows[id].toEmail && s.calls[k].payload == s.rows[id].payload)
  {
    ReachableInv(c, s);
    assert RowCallsOk(s.rows[id], CallsFor(s.calls, id), AcceptedFor(s.calls, id));
  }

  // ---- Claims ----

  // The lease never decides a claim, because only rows that are being sent carry one.
  lemma LeaseIsRedundant(c: Config, s: State, id: NotificationId, at: int)
    requires ConfigOk(c) && Reachable(c, s) && id in s.rows
    ensures Due(s.rows[id], at) <==> s.rows[id].status.Pending? && s.rows[id].nextAttemptAt <= at
  {
    ReachableInv(c, s);
    assert RowOk(c, s.now, s.rows[id]);
  }

  lemma ConcurrentClaimsDisjoint(c: Config, s: State, v: nat, w: nat, id: NotificationId)
    requires ConfigOk(c) && Reachable(c, s) && v < w < |s.loops|
    ensures !(id in Owned(s.loops[v]) && id in Owned(s.loops[w]))
  {
    ReachableInv(c, s);
  }

  // Without ties the claim has no freedom: any two admissible selections hold the same rows.
  lemma ChoiceIsUnique(rows: Table, at: int, locked: set<NotificationId>, limit: nat,
                       a: seq<NotificationId>, b: seq<NotificationId>)
    requires DueChoice(rows, at, locked, limit, a) && DueChoice(rows, at, locked, limit, b)
    requires forall i, j :: i in rows && j in rows && i != j ==> rows[i].nextAttemptAt != rows[j].nextAttemptAt
    ensures forall id :: id in a <==> id in b
  {
    forall id | id in a ensures id in b {
      ChosenByBoth(rows, at, locked, limit, a, b, id);
    }
    forall id | id in b ensures id in a {
      ChosenByBoth(rows, at, locked, limit, b, a, id);
    }
  }

  lemma ChosenByBoth(rows: Table, at: int, locked: set<NotificationId>, limit: nat,
                     a: seq<NotificationId>, b: seq<NotificationId>, id: NotificationId)
    requires DueChoice(rows, at, locked, limit, a) && DueChoice(rows, at, locked, limit, b) && id in a
    requires forall i, j :: i in rows && j in rows && i != j ==> rows[i].nextAttemptAt != rows[j].nextAttemptAt
    ensures id in b
  {
    if id !in b {
      Candidate(rows, at, locked, limit, a, id);
      var other := SomeMissing(a, b, id);
      Candidate(rows, at, locked, limit, b, other);
      NotLater(rows, at, locked, limit, b, other, id);
      NotLater(rows, at, locked, limit, a, id, other);
      assert false;
    }
  }

  lemma Candidate(rows: Table, at: int, locked: set<NotificationId>, limit: nat, ids: seq<NotificationId>,
                  id: NotificationId)
    requires DueChoice(rows, at, locked, limit, ids) && id in ids
    ensures id in rows && id !in locked && Due(rows[id], at)
  {
    var i :| 0 <= i < |ids| && ids[i] == id;
    assert ids[i] in rows;
  }

  lemma NotLater(rows: Table, at: int, locked: set<NotificationId>, limit: nat, ids: seq<NotificationId>,
                 chosen: NotificationId, left: NotificationId)
    requires DueChoice(rows, at, locked, limit, ids) && chosen in ids && left !in ids
    requires left in rows && left !in locked && Due(rows[left], at)
    ensures chosen in rows && rows[chosen].nextAttemptAt <= rows[left].nextAttemptAt
  {
    var i :| 0 <= i < |ids| && ids[i] == chosen;
    assert ids[i] in rows;
  }

  // A duplicate-free list that is full lacks an element of any other such list it differs from.
  lemma SomeMissing(a: seq<NotificationId>, b: seq<NotificationId>, id: NotificationId) returns (other: NotificationId)
    requires Distinct(a) && Distinct(b) && |a| <= |b| && id in a && id !in b
    ensures other in b && other !in a
  {
    DistinctSize(a);
    DistinctSize(b);
    assert Elements(a) == (Elements(a) - {id}) + {id};
    if Elements(b) <= Elements(a) - {id} {
      SubsetSize(Elements(b), Elements(a) - {id});
      assert false;
    }
    other :| other in Elements(b) && other !in Elements(a) - {id};
  }

  function Elements(s: seq<NotificationId>): set<NotificationId> {
    set x | x in s
  }

  lemma {:induction false} DistinctSize(s: seq<NotificationId>)
    requires Distinct(s)
    ensures |Elements(s)| == |s|
  {
    if s != [] {
      var front, last := s[..|s| - 1], s[|s| - 1];
      DistinctSize(front);
      assert last !in front && s == front + [last];
      assert Elements(s) == Elements(front) + {last};
    }
  }
}
