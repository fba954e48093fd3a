/** What every step of the queue protocol keeps. */
module QueueInvariant {
  import opened Common
  import opened NotificationQueries
  import opened QueueProtocol

  // ---- Counting calls, log rows, sends and unspent sends ----

  function CallsFor(calls: seq<Call>, id: NotificationId): (n: nat) {
    if calls == [] then 0 else
    CallsFor(calls[..|calls| - 1], id) + if calls[|calls| - 1].row == id then 1 else 0
  }

  function AcceptedFor(calls: seq<Call>, id: NotificationId): (n: nat) {
    if calls == [] then 0 else
    var last := calls[|calls| - 1];
    AcceptedFor(calls[..|calls| - 1], id) + if last.row == id && last.outcome.Accepted? then 1 else 0
  }

  function LogFor(log: seq<LogRow>, id: NotificationId): (r: seq<LogRow>) {
    if log == [] then [] else
    var last := log[|log| - 1];
    var front := LogFor(log[..|log| - 1], id);
    if last.notification == id then front + [last] else front
  }

  // How many sends a loop that passed the cap test may still make.
  function Unspent(l: Loop): nat {
    match l
    case Idle => 0
    case Checked => CLAIM_LIMIT
    case Selecting(ids, _) => |ids|
    case Holding(batch, _) => |batch|
  }

  function Budget(loops: seq<Loop>): nat {
    if loops == [] then 0 else Unspent(loops[0]) + Budget(loops[1..])
  }

  lemma {:induction false} BudgetMove(loops: seq<Loop>, w: nat, l: Loop)
    requires w < |loops|
    ensures Budget(loops[w := l]) == Budget(loops) - Unspent(loops[w]) + Unspent(l)
  {
    if w == 0 {
      assert loops[w := l][1..] == loops[1..];
    } else {
      assert loops[w := l][1..] == loops[1..][w - 1 := l];
      BudgetMove(loops[1..], w - 1, l);
    }
  }

  lemma {:induction false} BudgetBound(loops: seq<Loop>)
    requires forall w :: 0 <= w < |loops| ==> Unspent(loops[w]) <= CLAIM_LIMIT
    ensures Budget(loops) <= CLAIM_LIMIT * |loops|
  {
    if loops != [] {
      BudgetBound(loops[1..]);
    }
  }

  // ---- The invariant ----

  ghost predicate RowOk(c: Config, now: int, r: Row) {
    && 0 <= r.attempts <= c.maxAttempts
    && (r.status.Pending? ==> r.attempts < c.maxAttempts)
    && (!r.status.Pending? ==> r.attempts >= 1)
    && (r.status.Dead? ==> r.attempts == c.maxAttempts)
    && (r.status.Sending? <==> r.lockedUntil.Some?)
    && r.createdAt <= now && r.updatedAt <= now
  }

  ghost predicate CallsOk(rows: Table, calls: seq<Call>) {
    && (forall k :: 0 <= k < |calls| ==>
          && calls[k].row in rows
          && calls[k].key == calls[k].row
          && calls[k].to == rows[calls[k].row].toEmail
          && calls[k].payload == rows[calls[k].row].payload)
    && (forall id :: id in rows ==> RowCallsOk(rows[id], CallsFor(calls, id), AcceptedFor(calls, id)))
  }

  ghost predicate RowCallsOk(row: Row, calls: nat, accepted: nat) {
    && calls <= row.attempts
    && accepted <= 1
    && (row.status.Sent? ==> accepted == 1)
    && (accepted == 1 ==> row.status.Sent? || row.status.Sending?)
  }

  ghost predicate LogOk(rows: Table, log: seq<LogRow>) {
    && (forall k :: 0 <= k < |log| ==> log[k].notification in rows)
    && (forall id :: id in rows ==> LogFor(log, id) == ExpectedLog(id, rows[id]))
  }

  function ExpectedLog(id: NotificationId, row: Row): seq<LogRow> {
    if row.status.Terminal() then [LogRow(id, row.toEmail, row.status)] else []
  }

  ghost predicate PhaseOk(c: Config, calls: seq<Call>, head: ClaimedRow, phase: Phase)
  {
    var accepted := AcceptedFor(calls, head.id);
    match phase
    case Fresh => CallsFor(calls, head.id) < head.attempts && accepted == 0
    case NeedsBackoff => head.attempts < c.maxAttempts && accepted == 0
    case Decided(ToSent, _) => accepted == 1
    case Decided(ToFailed, _) => accepted == 0
    case Decided(ToDead, _) => head.attempts == c.maxAttempts && accepted == 0
    case Decided(ToRetry(_), _) => head.attempts < c.maxAttempts && accepted == 0
  }

  // A claimed row that waits in a batch is as it was claimed.
  ghost predicate Held(rows: Table, b: ClaimedRow) {
    && b.id in rows
    && rows[b.id].status.Sending?
    && b == Returned(rows, b.id)
  }

  ghost predicate SelectionOk(now: int, rows: Table, ids: seq<NotificationId>, at: int) {
    && |ids| <= CLAIM_LIMIT && Distinct(ids) && at <= now
    && forall i :: 0 <= i < |ids| ==> ids[i] in rows && Due(rows[ids[i]], at)
  }

  ghost predicate BatchOk(rows: Table, calls: seq<Call>, batch: seq<ClaimedRow>) {
    && 1 <= |batch| <= CLAIM_LIMIT
    && (forall i, j :: 0 <= i < j < |batch| ==> batch[i].id != batch[j].id)
    && (forall i :: 0 <= i < |batch| ==> Held(rows, batch[i]))
    && (forall i :: 1 <= i < |batch| ==>
          CallsFor(calls, batch[i].id) < batch[i].attempts && AcceptedFor(calls, batch[i].id) == 0)
  }

  ghost predicate LoopOk(c: Config, now: int, rows: Table, calls: seq<Call>, l: Loop) {
    match l
    case Idle => true
    case Checked => true
    case Selecting(ids, at) => SelectionOk(now, rows, ids, at)
    case Holding(batch, phase) =>
      && BatchOk(rows, calls, batch) && Held(rows, batch[0]) && PhaseOk(c, calls, batch[0], phase)
      && (phase.Decided? ==> phase.since <= now)
  }

  // The rows a loop has locked or must still settle.
  function Owned(l: Loop): set<NotificationId> {
    match l
    case Idle => {}
    case Checked => {}
    case Selecting(ids, _) => set id | id in ids
    case Holding(batch, _) => set b | b in batch :: b.id
  }

  ghost predicate Exclusive(loops: seq<Loop>) {
    forall v, w :: 0 <= v < w < |loops| ==> Owned(loops[v]) !! Owned(loops[w])
  }

  ghost predicate CapOk(c: Config, now: int, rows: Table, loops: seq<Loop>) {
    c.dailyCap >= 1 ==> SendsLastDay(rows, now) + Budget(loops) <= c.dailyCap - 1 + CLAIM_LIMIT * |loops|
  }

  ghost predicate RowsOk(c: Config, now: int, rows: Table) {
    forall id :: id in rows ==> RowOk(c, now, rows[id])
  }

  ghost predicate LoopsOk(c: Config, now: int, rows: Table, calls: seq<Call>, loops: seq<Loop>) {
    forall w :: 0 <= w < |loops| ==> LoopOk(c, now, rows, calls, loops[w])
  }

  ghost predicate Inv(c: Config, s: State) {
    && |s.loops| == c.loops
    && RowsOk(c, s.now, s.rows)
    && CallsOk(s.rows, s.calls)
    && LogOk(s.rows, s.log)
    && LoopsOk(c, s.now, s.rows, s.calls, s.loops)
    && Exclusive(s.loops)
    && CapOk(c, s.now, s.rows, s.loops)
  }

  lemma {:induction false} InitInv(c: Config, now: int)
    requires ConfigOk(c)
    ensures Inv(c, Init(c, now))
  {
    var s := Init(c, now);
    assert SentSince(s.rows, now - DAY) == {};
    assert forall w :: 0 <= w < |s.loops| ==> s.loops[w] == Idle;
    IdleBudget(s.loops);
  }

  lemma {:induction false} IdleBudget(loops: seq<Loop>)
    requires forall w :: 0 <= w < |loops| ==> loops[w] == Idle
    ensures Budget(loops) == 0
  {
    if loops != [] {
      IdleBudget(loops[1..]);
    }
  }

  // ---- What one step leaves alone ----

  // Moving one loop to a state that owns no more than before keeps ownership exclusive.
  lemma ShrinkKeepsExclusive(loops: seq<Loop>, w: nat, l: Loop)
    requires w < |loops| && Exclusive(loops) && Owned(l) <= Owned(loops[w])
    ensures Exclusive(loops[w := l])
  {
  }

  // A loop stays in order while the rows it owns and their calls stay as they are.
  lemma LoopFrame(c: Config, now: int, rows: Table, calls: seq<Call>,
                  now': int, rows': Table, calls': seq<Call>, l: Loop)
    requires LoopOk(c, now, rows, calls, l) && now <= now'
    requires forall id :: id in Owned(l) && id in rows ==> id in rows' && rows'[id] == rows[id]
    requires forall id :: id in Owned(l) ==>
                            && CallsFor(calls', id) == CallsFor(calls, id)
                            && AcceptedFor(calls', id) == AcceptedFor(calls, id)
    ensures LoopOk(c, now', rows', calls', l)
  {
    match l
    case Idle =>
    case Checked =>
    case Selecting(ids, at) =>
      forall i | 0 <= i < |ids| ensures ids[i] in rows' && Due(rows'[ids[i]], at) {
        assert ids[i] in Owned(l);
      }
    case Holding(batch, phase) =>
      forall i | 0 <= i < |batch| ensures Held(rows', batch[i]) && batch[i].id in Owned(l) {
        assert Held(rows, batch[i]);
      }
  }

  // What one loop does to the rows it owns does not disturb the other loops.
  lemma OtherLoops(c: Config, now: int, rows: Table, calls: seq<Call>, loops: seq<Loop>,
                   rows': Table, calls': seq<Call>, w: nat, l: Loop)
    requires w < |loops| && Exclusive(loops) && LoopsOk(c, now, rows, calls, loops)
    requires forall id :: id in rows && id !in Owned(loops[w]) ==> id in rows' && rows'[id] == rows[id]
    requires forall id :: id !in Owned(loops[w]) ==>
                            && CallsFor(calls', id) == CallsFor(calls, id)
                            && AcceptedFor(calls', id) == AcceptedFor(calls, id)
    requires LoopOk(c, now, rows', calls', l)
    ensures LoopsOk(c, now, rows', calls', loops[w := l])
  {
    forall v | 0 <= v < |loops| && v != w ensures LoopOk(c, now, rows', calls', loops[v]) {
      assert Owned(loops[v]) !! Owned(loops[w]);
      LoopFrame(c, now, rows, calls, now, rows', calls', loops[v]);
    }
  }

  // A move that spends no more than the loop had left keeps the cap.
  lemma MoveKeepsCap(c: Config, now: int, rows: Table, rows': Table, loops: seq<Loop>, w: nat, l: Loop)
    requires w < |loops| && CapOk(c, now, rows, loops)
    requires SendsLastDay(rows', now) + Unspent(l) <= SendsLastDay(rows, now) + Unspent(loops[w])
    ensures CapOk(c, now, rows', loops[w := l])
  {
    BudgetMove(loops, w, l);
  }

  lemma EarlierWindow(rows: Table, at: int, now: int)
    requires at <= now
    ensures SendsLastDay(rows, now) <= SendsLastDay(rows, at)
  {
    SubsetSize(SentSince(rows, now - DAY), SentSince(rows, at - DAY));
  }

  // ---- Preservation, one lemma per kind of step ----

  lemma AdvanceKeeps(c: Config, s: State, to: int)
    requires Inv(c, s) && Enabled(c, s, Advance(to))
    ensures Inv(c, Apply(c, s, Advance(to)))
  {
    EarlierWindow(s.rows, s.now, to);
    forall w | 0 <= w < |s.loops| ensures LoopOk(c, to, s.rows, s.calls, s.loops[w]) {
      LoopFrame(c, s.now, s.rows, s.calls, to, s.rows, s.calls, s.loops[w]);
    }
  }

  lemma EnqueueKeeps(c: Config, s: State, step: Step)
    requires ConfigOk(c) && Inv(c, s) && step.Enqueue? && Enabled(c, s, step)
    ensures Inv(c, Apply(c, s, step))
  {
    var row := Inserted(step.kind, step.toEmail, step.payload, step.at);
    var rows := s.rows[step.id := row];
    assert Apply(c, s, step) == s.(rows := rows);
    InsertKeepsRecords(s.rows, s.calls, s.log, step.id, row);
    InsertKeepsRows(c, s.now, s.rows, step.id, row);
    LoopsFrame(c, s.now, s.rows, s.calls, s.loops, rows);
    InsertKeepsSends(s.rows, step.id, row, s.now);
  }

  lemma InsertKeepsSends(rows: Table, id: NotificationId, row: Row, at: int)
    requires id !in rows && !row.status.Sent?
    ensures SendsLastDay(rows[id := row], at) == SendsLastDay(rows, at)
  {
    assert SentSince(rows[id := row], at - DAY) == SentSince(rows, at - DAY);
  }

  lemma InsertKeepsRows(c: Config, now: int, rows: Table, id: NotificationId, row: Row)
    requires RowsOk(c, now, rows) && RowOk(c, now, row)
    ensures RowsOk(c, now, rows[id := row])
  {
  }

  lemma LoopsFrame(c: Config, now: int, rows: Table, calls: seq<Call>, loops: seq<Loop>, rows': Table)
    requires LoopsOk(c, now, rows, calls, loops)
    requires forall id :: id in rows ==> id in rows' && rows'[id] == rows[id]
    ensures LoopsOk(c, now, rows', calls, loops)
  {
    forall w | 0 <= w < |loops| ensures LoopOk(c, now, rows', calls, loops[w]) {
      LoopFrame(c, now, rows, calls, now, rows', calls, loops[w]);
    }
  }

  lemma InsertKeepsRecords(rows: Table, calls: seq<Call>, log: seq<LogRow>, id: NotificationId, row: Row)
    requires CallsOk(rows, calls) && LogOk(rows, log) && id !in rows && row.status.Pending? && row.attempts == 0
    ensures CallsOk(rows[id := row], calls) && LogOk(rows[id := row], log)
  {
    NoCalls(calls, id);
    NoLog(log, id);
  }

  lemma {:induction false} NoCalls(calls: seq<Call>, id: NotificationId)
    requires forall k :: 0 <= k < |calls| ==> calls[k].row != id
    ensures CallsFor(calls, id) == 0 && AcceptedFor(calls, id) == 0
  {
    if calls != [] {
      NoCalls(calls[..|calls| - 1], id);
    }
  }

  lemma {:induction false} NoLog(log: seq<LogRow>, id: NotificationId)
    requires forall k :: 0 <= k < |log| ==> log[k].notification != id
    ensures LogFor(log, id) == []
  {
    if log != [] {
      NoLog(log[..|log| - 1], id);
    }
  }

  lemma CapCheckKeeps(c: Config, s: State, w: nat, at: int)
    requires Inv(c, s) && Enabled(c, s, CapCheck(w, at))
    ensures Inv(c, Apply(c, s, CapCheck(w, at)))
  {
    if BelowCap(c, s, at) {
      assert Apply(c, s, CapCheck(w, at)) == Move(s, w, Checked);
      ShrinkKeepsExclusive(s.loops, w, Checked);
      OtherLoops(c, s.now, s.rows, s.calls, s.loops, s.rows, s.calls, w, Checked);
      CheckOpensBudget(c, s, w, at);
    }
  }

  // A loop that has seen fewer sends than the cap may open its whole budget, whatever the other loops still hold.
  lemma CheckOpensBudget(c: Config, s: State, w: nat, at: int)
    requires LoopsOk(c, s.now, s.rows, s.calls, s.loops) && w < |s.loops| && at <= s.now && BelowCap(c, s, at)
    ensures CapOk(c, s.now, s.rows, s.loops[w := Checked])
  {
    if c.dailyCap >= 1 {
      EarlierWindow(s.rows, at, s.now);
      var loops := s.loops[w := Checked];
      forall v | 0 <= v < |loops| ensures Unspent(loops[v]) <= CLAIM_LIMIT {
        assert v != w ==> LoopOk(c, s.now, s.rows, s.calls, s.loops[v]);
      }
      BudgetBound(loops);
    }
  }

  lemma SelectKeeps(c: Config, s: State, w: nat, at: int, ids: seq<NotificationId>)
    requires Inv(c, s) && Enabled(c, s, Select(w, at, ids))
    ensures Inv(c, Apply(c, s, Select(w, at, ids)))
  {
    var l := Selecting(ids, at);
    forall v | 0 <= v < |s.loops| && v != w ensures Owned(s.loops[v]) !! Owned(l) {
      ChosenIsUnowned(c, s, v, w, at, ids);
    }
    OtherLoops(c, s.now, s.rows, s.calls, s.loops, s.rows, s.calls, w, l);
    MoveKeepsCap(c, s.now, s.rows, s.rows, s.loops, w, l);
  }

  // SKIP LOCKED keeps a selection apart from other selections; the status test keeps it apart from claimed rows.
  lemma ChosenIsUnowned(c: Config, s: State, v: nat, w: nat, at: int, ids: seq<NotificationId>)
    requires Inv(c, s) && Enabled(c, s, Select(w, at, ids)) && v < |s.loops| && v != w
    ensures Owned(s.loops[v]) !! Owned(Selecting(ids, at))
  {
    forall id | id in Owned(s.loops[v]) ensures id !in ids {
      assert LoopOk(c, s.now, s.rows, s.calls, s.loops[v]);
      if s.loops[v].Holding? {
        var b :| b in s.loops[v].batch && b.id == id;
        assert Held(s.rows, b);
      } else {
        assert id in LockedIds(s.loops);
      }
    }
  }

  lemma CommitKeeps(c: Config, s: State, w: nat)
    requires Inv(c, s) && Enabled(c, s, Commit(w))
    ensures Inv(c, Apply(c, s, Commit(w)))
  {
    var t := Apply(c, s, Commit(w));
    var ids, at := s.loops[w].ids, s.loops[w].at;
    assert LoopOk(c, s.now, s.rows, s.calls, s.loops[w]);
    ClaimKeepsRecords(c, s.now, s.rows, s.calls, s.log, ids, at);
    ClaimFillsBatch(c, s, w);
    ClaimKeepsSends(s.rows, ids, at, c.leaseSeconds, s.now);
    ShrinkKeepsExclusive(s.loops, w, t.loops[w]);
    OtherLoops(c, s.now, s.rows, s.calls, s.loops, t.rows, t.calls, w, t.loops[w]);
    MoveKeepsCap(c, s.now, s.rows, t.rows, s.loops, w, t.loops[w]);
  }

  lemma ClaimKeepsSends(rows: Table, ids: seq<NotificationId>, at: int, leaseSeconds: int, now: int)
    requires forall id :: id in ids && id in rows ==> !rows[id].status.Sent?
    ensures SendsLastDay(ClaimRows(rows, ids, at, leaseSeconds), now) == SendsLastDay(rows, now)
  {
    assert SentSince(ClaimRows(rows, ids, at, leaseSeconds), now - DAY) == SentSince(rows, now - DAY);
  }

  lemma ClaimKeepsRecords(c: Config, now: int, rows: Table, calls: seq<Call>, log: seq<LogRow>,
                          ids: seq<NotificationId>, at: int)
    requires RowsOk(c, now, rows) && CallsOk(rows, calls) && LogOk(rows, log) && SelectionOk(now, rows, ids, at)
    ensures var rows' := ClaimRows(rows, ids, at, c.leaseSeconds);
            RowsOk(c, now, rows') && CallsOk(rows', calls) && LogOk(rows', log)
  {
    var rows' := ClaimRows(rows, ids, at, c.leaseSeconds);
    forall id | id in rows
      ensures RowOk(c, now, rows'[id])
      ensures RowCallsOk(rows'[id], CallsFor(calls, id), AcceptedFor(calls, id))
      ensures ExpectedLog(id, rows'[id]) == ExpectedLog(id, rows[id])
    {
      assert RowOk(c, now, rows[id]);
      if id in ids {
        var i :| 0 <= i < |ids| && ids[i] == id;
        assert Due(rows[ids[i]], at);
      }
    }
  }

  lemma ClaimFillsBatch(c: Config, s: State, w: nat)
    requires Inv(c, s) && Enabled(c, s, Commit(w))
    ensures var t := Committed(c, s, w);
            && LoopOk(c, t.now, t.rows, t.calls, t.loops[w])
            && Owned(t.loops[w]) <= Owned(s.loops[w])
            && Unspent(t.loops[w]) == Unspent(s.loops[w])
  {
    var t := Committed(c, s, w);
    var ids := s.loops[w].ids;
    assert LoopOk(c, s.now, s.rows, s.calls, s.loops[w]);
    if ids != [] {
      var batch := t.loops[w].batch;
      forall i | 0 <= i < |batch|
        ensures Held(t.rows, batch[i]) && batch[i].id == ids[i]
        ensures CallsFor(s.calls, ids[i]) < batch[i].attempts && AcceptedFor(s.calls, ids[i]) == 0
      {
        assert Due(s.rows[ids[i]], s.loops[w].at);
        assert RowCallsOk(s.rows[ids[i]], CallsFor(s.calls, ids[i]), AcceptedFor(s.calls, ids[i]));
      }
    }
  }

  lemma DispatchKeeps(c: Config, s: State, w: nat, outcome: Outcome)
    requires Inv(c, s) && Enabled(c, s, Dispatch(w, outcome))
    ensures Inv(c, Apply(c, s, Dispatch(w, outcome)))
  {
    var t := Apply(c, s, Dispatch(w, outcome));
    var head := s.loops[w].batch[0];
    assert LoopOk(c, s.now, s.rows, s.calls, s.loops[w]);
    assert RowOk(c, s.now, s.rows[head.id]);
    if Builds(head) {
      CallKeepsRecords(s.rows, s.calls, head, outcome, s.now);
    }
    assert head.id in Owned(s.loops[w]);
    HeadPhase(c, s, w, t.calls, t.loops[w].phase);
    ShrinkKeepsExclusive(s.loops, w, t.loops[w]);
    OtherLoops(c, s.now, s.rows, s.calls, s.loops, t.rows, t.calls, w, t.loops[w]);
    MoveKeepsCap(c, s.now, s.rows, t.rows, s.loops, w, t.loops[w]);
  }

  lemma CallCounts(calls: seq<Call>, call: Call, id: NotificationId)
    ensures CallsFor(calls + [call], id) == CallsFor(calls, id) + if call.row == id then 1 else 0
    ensures AcceptedFor(calls + [call], id)
         == AcceptedFor(calls, id) + if call.row == id && call.outcome.Accepted? then 1 else 0
  {
    assert (calls + [call])[..|calls|] == calls;
  }

  lemma CallKeepsRecords(rows: Table, calls: seq<Call>, head: ClaimedRow, outcome: Outcome, now: int)
    requires CallsOk(rows, calls) && Held(rows, head)
    requires CallsFor(calls, head.id) < head.attempts && AcceptedFor(calls, head.id) == 0
    ensures var calls' := calls + [CallFor(head, outcome, now)];
            && CallsOk(rows, calls')
            && (forall id :: id != head.id ==>
                  && CallsFor(calls', id) == CallsFor(calls, id)
                  && AcceptedFor(calls', id) == AcceptedFor(calls, id))
            && AcceptedFor(calls', head.id) == if outcome.Accepted? then 1 else 0
  {
    var call := CallFor(head, outcome, now);
    forall id ensures CallsFor(calls + [call], id) == CallsFor(calls, id) + if call.row == id then 1 else 0
              ensures AcceptedFor(calls + [call], id)
                   == AcceptedFor(calls, id) + if call.row == id && call.outcome.Accepted? then 1 else 0
    {
      CallCounts(calls, call, id);
    }
  }

  // Only the phase of the first row changes, and only its calls.
  lemma HeadPhase(c: Config, s: State, w: nat, calls: seq<Call>, phase: Phase)
    requires w < |s.loops| && s.loops[w].Holding? && LoopOk(c, s.now, s.rows, s.calls, s.loops[w])
    requires PhaseOk(c, calls, s.loops[w].batch[0], phase) && (phase.Decided? ==> phase.since <= s.now)
    requires forall id :: id != s.loops[w].batch[0].id ==>
                            && CallsFor(calls, id) == CallsFor(s.calls, id)
                            && AcceptedFor(calls, id) == AcceptedFor(s.calls, id)
    ensures LoopOk(c, s.now, s.rows, calls, s.loops[w].(phase := phase))
  {
  }

  lemma PlanKeeps(c: Config, s: State, w: nat, draw: nat)
    requires Inv(c, s) && Enabled(c, s, Plan(w, draw))
    ensures Inv(c, Apply(c, s, Plan(w, draw)))
  {
    var t := Apply(c, s, Plan(w, draw));
    var head := s.loops[w].batch[0];
    assert LoopOk(c, s.now, s.rows, s.calls, s.loops[w]);
    assert RowOk(c, s.now, s.rows[head.id]);
    HeadPhase(c, s, w, s.calls, t.loops[w].phase);
    ShrinkKeepsExclusive(s.loops, w, t.loops[w]);
    OtherLoops(c, s.now, s.rows, s.calls, s.loops, t.rows, t.calls, w, t.loops[w]);
    MoveKeepsCap(c, s.now, s.rows, t.rows, s.loops, w, t.loops[w]);
  }

  lemma DropHead(c: Config, s: State, w: nat, rows: Table)
    requires w < |s.loops| && s.loops[w].Holding? && LoopOk(c, s.now, s.rows, s.calls, s.loops[w])
    requires forall id :: id in s.rows && id != s.loops[w].batch[0].id ==> id in rows && rows[id] == s.rows[id]
    ensures var l := AfterHead(s.loops[w].batch);
            && LoopOk(c, s.now, rows, s.calls, l)
            && Owned(l) <= Owned(s.loops[w])
            && Unspent(l) == Unspent(s.loops[w]) - 1
  {
    var batch := s.loops[w].batch;
    if |batch| > 1 {
      var rest := batch[1..];
      forall i | 0 <= i < |rest| ensures Held(rows, rest[i]) && rest[i] in batch {
        assert rest[i] == batch[i + 1] && Held(s.rows, batch[i + 1]);
      }
      assert rest[0] == batch[1];
    }
  }

  lemma GiveUpKeeps(c: Config, s: State, w: nat)
    requires Inv(c, s) && Enabled(c, s, GiveUp(w))
    ensures Inv(c, Apply(c, s, GiveUp(w)))
  {
    var l := AfterHead(s.loops[w].batch);
    assert LoopOk(c, s.now, s.rows, s.calls, s.loops[w]);
    DropHead(c, s, w, s.rows);
    ShrinkKeepsExclusive(s.loops, w, l);
    OtherLoops(c, s.now, s.rows, s.calls, s.loops, s.rows, s.calls, w, l);
    MoveKeepsCap(c, s.now, s.rows, s.rows, s.loops, w, l);
  }

  lemma CrashKeeps(c: Config, s: State, w: nat)
    requires Inv(c, s) && Enabled(c, s, Crash(w))
    ensures Inv(c, Apply(c, s, Crash(w)))
  {
    ShrinkKeepsExclusive(s.loops, w, Idle);
    OtherLoops(c, s.now, s.rows, s.calls, s.loops, s.rows, s.calls, w, Idle);
    MoveKeepsCap(c, s.now, s.rows, s.rows, s.loops, w, Idle);
  }

  lemma WriteKeeps(c: Config, s: State, w: nat, at: int)
    requires Inv(c, s) && Enabled(c, s, Write(w, at))
    ensures Inv(c, Apply(c, s, Write(w, at)))
  {
    var head, verdict := s.loops[w].batch[0], s.loops[w].phase.verdict;
    var t := Written(s, head, verdict, at);
    var l := AfterHead(s.loops[w].batch);
    assert LoopOk(c, s.now, s.rows, s.calls, s.loops[w]);
    assert Apply(c, s, Write(w, at)) == Move(t, w, l);
    WrittenRowOk(c, s.now, s.rows, s.calls, head, verdict, at);
    ReplaceKeepsRows(c, s.now, s.rows, s.calls, head.id, WrittenRow(s.rows[head.id], verdict, at));
    WrittenLogOk(s.rows, s.log, head, verdict, at);
    DropHead(c, s, w, t.rows);
    assert head.id in Owned(s.loops[w]);
    ShrinkKeepsExclusive(s.loops, w, l);
    OtherLoops(c, s.now, s.rows, s.calls, s.loops, t.rows, t.calls, w, l);
    WriteAddsOneSend(s, head, verdict, at);
    MoveKeepsCap(c, s.now, s.rows, t.rows, s.loops, w, l);
  }

  lemma LogAppend(log: seq<LogRow>, entry: LogRow, id: NotificationId)
    ensures LogFor(log + [entry], id) == if entry.notification == id then LogFor(log, id) + [entry] else LogFor(log, id)
  {
    assert (log + [entry])[..|log|] == log;
  }

  lemma WrittenRowOk(c: Config, now: int, rows: Table, calls: seq<Call>, head: ClaimedRow, verdict: Verdict, at: int)
    requires RowsOk(c, now, rows) && CallsOk(rows, calls)
    requires Held(rows, head) && PhaseOk(c, calls, head, Decided(verdict, at)) && at <= now
    ensures var row := WrittenRow(rows[head.id], verdict, at);
            && RowOk(c, now, row)
            && RowCallsOk(row, CallsFor(calls, head.id), AcceptedFor(calls, head.id))
  {
    assert RowOk(c, now, rows[head.id]);
    assert RowCallsOk(rows[head.id], CallsFor(calls, head.id), AcceptedFor(calls, head.id));
  }

  lemma WrittenLogOk(rows: Table, log: seq<LogRow>, head: ClaimedRow, verdict: Verdict, at: int)
    requires LogOk(rows, log) && Held(rows, head)
    ensures LogOk(rows[head.id := WrittenRow(rows[head.id], verdict, at)], WrittenLog(log, head, verdict))
  {
    var row := WrittenRow(rows[head.id], verdict, at);
    var log' := WrittenLog(log, head, verdict);
    assert LogFor(log, head.id) == [];
    if !verdict.ToRetry? {
      var entry := LogRow(head.id, head.toEmail, row.status);
      assert log' == log + [entry];
      forall k ensures LogFor(log', k) == if k == head.id then LogFor(log, k) + [entry] else LogFor(log, k) {
        LogAppend(log, entry, k);
      }
    }
    ReplaceKeepsLog(rows, log, log', head.id, row);
  }

  lemma ReplaceKeepsRows(c: Config, now: int, rows: Table, calls: seq<Call>, id: NotificationId, row: Row)
    requires RowsOk(c, now, rows) && CallsOk(rows, calls) && id in rows
    requires RowOk(c, now, row) && RowCallsOk(row, CallsFor(calls, id), AcceptedFor(calls, id))
    requires row.toEmail == rows[id].toEmail && row.payload == rows[id].payload
    ensures RowsOk(c, now, rows[id := row]) && CallsOk(rows[id := row], calls)
  {
  }

  lemma ReplaceKeepsLog(rows: Table, log: seq<LogRow>, log': seq<LogRow>, id: NotificationId, row: Row)
    requires LogOk(rows, log) && id in rows && LogFor(log', id) == ExpectedLog(id, row)
    requires forall k :: k in rows && k != id ==> LogFor(log', k) == LogFor(log, k)
    requires forall k :: 0 <= k < |log'| ==> log'[k].notification in rows
    ensures LogOk(rows[id := row], log')
  {
  }

  lemma WriteAddsOneSend(s: State, head: ClaimedRow, verdict: Verdict, at: int)
    requires Held(s.rows, head)
    ensures SendsLastDay(Written(s, head, verdict, at).rows, s.now) <= SendsLastDay(s.rows, s.now) + 1
  {
    var rows := Written(s, head, verdict, at).rows;
    SubsetSize(SentSince(rows, s.now - DAY), SentSince(s.rows, s.now - DAY) + {head.id});
  }

  // ---- Every step, every run ----

  lemma StepKeeps(c: Config, s: State, step: Step)
    requires ConfigOk(c) && Inv(c, s) && Enabled(c, s, step)
    ensures Inv(c, Apply(c, s, step))
  {
    match step
    case Advance(to) => AdvanceKeeps(c, s, to);
    case Enqueue(_, _, _, _, _) => EnqueueKeeps(c, s, step);
    case CapCheck(w, at) => CapCheckKeeps(c, s, w, at);
    case Select(w, at, ids) => SelectKeeps(c, s, w, at, ids);
    case Commit(w) => CommitKeeps(c, s, w);
    case Dispatch(w, outcome) => DispatchKeeps(c, s, w, outcome);
    case Plan(w, draw) => PlanKeeps(c, s, w, draw);
    case Write(w, at) => WriteKeeps(c, s, w, at);
    case GiveUp(w) => GiveUpKeeps(c, s, w);
    case Crash(w) => CrashKeeps(c, s, w);
  }

  lemma {:induction false} RunKeeps(c: Config, s: State, tr: seq<Step>)
    requires ConfigOk(c) && Inv(c, s) && Exec(c, s, tr).Some?
    ensures Inv(c, Exec(c, s, tr).value)
    decreases |tr|
  {
    if tr != [] {
      var front := tr[..|tr| - 1];
      RunKeeps(c, s, front);
      StepKeeps(c, Exec(c, s, front).value, tr[|tr| - 1]);
    }
  }

  lemma ReachableInv(c: Config, s: State)
    requires ConfigOk(c) && Reachable(c, s)
    ensures Inv(c, s)
  {
    var t: int, tr: seq<Step> :| Exec(c, Init(c, t), tr) == Some(s);
    InitInv(c, t);
    RunKeeps(c, Init(c, t), tr);
  }
}
