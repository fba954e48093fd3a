/** How many rows are mailed in a day, as opposed to how many say so. (`MailVolume` counts the mails.) */
module QueueVolume {
  import opened Common
  import opened Runs
  import opened NotificationQueries
  import opened QueueProtocol
  import opened QueueInvariant
  import opened DailyCap
  import opened QueueTheorems
  import opened QueueDelivery
  import QueueRuns

  // The rows for which the provider accepted a request after `since`.
  function Mailed(calls: seq<Call>, since: int): (ids: set<NotificationId>)
    ensures forall id :: id in ids <==>
              exists k :: 0 <= k < |calls| && calls[k].row == id && calls[k].outcome.Delivers() && calls[k].at > since
  {
    set k | 0 <= k < |calls| && calls[k].outcome.Delivers() && calls[k].at > since :: calls[k].row
  }

  function MailedLastDay(s: State): set<NotificationId> {
    Mailed(s.calls, s.now - DAY)
  }

  // Rows mailed in the last day that the cap never counts, or does not count yet: nobody marked them, and nobody is
  // about to.
  function Uncounted(s: State): set<NotificationId> {
    set id | id in MailedLastDay(s) && !(id in s.rows && s.rows[id].status.Sent?) && id !in MarkingAny(s.loops)
  }

  // ---- Marks come after the mails they stand for ----

  ghost predicate MadeBefore(calls: seq<Call>, id: NotificationId, at: int) {
    forall k :: 0 <= k < |calls| && calls[k].row == id ==> calls[k].at <= at
  }

  ghost predicate TimedLoop(calls: seq<Call>, l: Loop) {
    l.Holding? && l.batch != [] && l.phase.Decided? ==> MadeBefore(calls, l.batch[0].id, l.phase.since)
  }

  ghost predicate Timed(s: State) {
    && (forall k :: 0 <= k < |s.calls| ==> s.calls[k].at <= s.now)
    && (forall id :: id in s.rows && s.rows[id].status.Sent? ==> MadeBefore(s.calls, id, s.rows[id].updatedAt))
    && (forall w :: 0 <= w < |s.loops| ==> TimedLoop(s.calls, s.loops[w]))
  }

  lemma EnqueueKeepsTimed(c: Config, s: State, step: Step)
    requires Timed(s) && step.Enqueue? && Enabled(c, s, step)
    ensures Timed(Apply(c, s, step))
  {
  }

  lemma CommitKeepsTimed(c: Config, s: State, w: nat)
    requires Inv(c, s) && Timed(s) && Enabled(c, s, Commit(w))
    ensures Timed(Apply(c, s, Commit(w)))
  {
  }

  lemma DispatchKeepsTimed(c: Config, s: State, w: nat, outcome: Outcome)
    requires Inv(c, s) && Timed(s) && Enabled(c, s, Dispatch(w, outcome))
    ensures Timed(Apply(c, s, Dispatch(w, outcome)))
  {
    var t := Dispatched(c, s, w, outcome);
    var head := s.loops[w].batch[0];
    assert LoopOk(c, s.now, s.rows, s.calls, s.loops[w]) && Held(s.rows, head);
    DispatchSparesRows(c, s, w, outcome);
    forall v | 0 <= v < |s.loops| && v != w ensures TimedLoop(t.calls, t.loops[v]) {
      DispatchSparesTimed(c, s, w, outcome, v);
    }
  }

  lemma DispatchSparesRows(c: Config, s: State, w: nat, outcome: Outcome)
    requires Timed(s) && Enabled(c, s, Dispatch(w, outcome))
    requires var id := s.loops[w].batch[0].id; id in s.rows && s.rows[id].status.Sending?
    ensures var t := Dispatched(c, s, w, outcome);
            && t.rows == s.rows && t.now == s.now
            && (forall k :: 0 <= k < |t.calls| ==> t.calls[k].at <= t.now)
            && (forall id :: id in s.rows && s.rows[id].status.Sent? ==> MadeBefore(t.calls, id, s.rows[id].updatedAt))
  {
  }

  lemma DispatchSparesTimed(c: Config, s: State, w: nat, outcome: Outcome, v: nat)
    requires Inv(c, s) && Timed(s) && Enabled(c, s, Dispatch(w, outcome)) && v < |s.loops| && v != w
    ensures TimedLoop(Dispatched(c, s, w, outcome).calls, s.loops[v])
  {
    assert TimedLoop(s.calls, s.loops[v]);
    if s.loops[v].Holding? && s.loops[v].batch != [] {
      assert s.loops[w].batch[0].id in Owned(s.loops[w]) && s.loops[v].batch[0].id in Owned(s.loops[v]);
      assert Owned(s.loops[v]) !! Owned(s.loops[w]);
    }
  }

  lemma PlanKeepsTimed(c: Config, s: State, w: nat, draw: nat)
    requires Timed(s) && Enabled(c, s, Plan(w, draw))
    ensures Timed(Apply(c, s, Plan(w, draw)))
  {
  }

  lemma WriteKeepsTimed(c: Config, s: State, w: nat, at: int)
    requires Timed(s) && Enabled(c, s, Write(w, at))
    ensures Timed(Apply(c, s, Write(w, at)))
  {
    assert TimedLoop(s.calls, s.loops[w]);
  }

  lemma GiveUpKeepsTimed(c: Config, s: State, w: nat)
    requires Timed(s) && Enabled(c, s, GiveUp(w))
    ensures Timed(Apply(c, s, GiveUp(w)))
  {
  }

  lemma MoveKeepsTimed(s: State, w: nat, l: Loop)
    requires Timed(s) && w < |s.loops| && !l.Holding?
    ensures Timed(Move(s, w, l))
  {
  }

  lemma StepKeepsTimed(c: Config, s: State, step: Step)
    requires Inv(c, s) && Timed(s) && Enabled(c, s, step)
    ensures Timed(Apply(c, s, step))
  {
    match step
    case Advance(_) =>
    case Enqueue(_, _, _, _, _) => EnqueueKeepsTimed(c, s, step);
    case CapCheck(w, _) => MoveKeepsTimed(s, w, Checked);
    case Select(w, at, ids) => MoveKeepsTimed(s, w, Selecting(ids, at));
    case Commit(w) => CommitKeepsTimed(c, s, w);
    case Dispatch(w, outcome) => DispatchKeepsTimed(c, s, w, outcome);
    case Plan(w, draw) => PlanKeepsTimed(c, s, w, draw);
    case Write(w, at) => WriteKeepsTimed(c, s, w, at);
    case GiveUp(w) => GiveUpKeepsTimed(c, s, w);
    case Crash(w) => MoveKeepsTimed(s, w, Idle);
  }

  lemma {:induction false} RunKeepsTimed(c: Config, s: State, tr: seq<Step>)
    requires ConfigOk(c) && Inv(c, s) && Timed(s) && Exec(c, s, tr).Some?
    ensures Timed(Exec(c, s, tr).value)
    decreases |tr|
  {
    if tr != [] {
      var front := tr[..|tr| - 1];
      RunKeepsTimed(c, s, front);
      RunKeeps(c, s, front);
      StepKeepsTimed(c, Exec(c, s, front).value, tr[|tr| - 1]);
    }
  }

  lemma ReachableTimed(c: Config, s: State)
    requires ConfigOk(c) && Reachable(c, s)
    ensures Timed(s)
  {
    var t: int, tr: seq<Step> :| Exec(c, Init(c, t), tr) == Some(s);
    InitInv(c, t);
    RunKeepsTimed(c, Init(c, t), tr);
  }

  // ---- The bound ----

  lemma ThreeParts(whole: set<NotificationId>, a: set<NotificationId>, b: set<NotificationId>, d: set<NotificationId>)
    requires whole <= a + b + d
    ensures |whole| <= |a| + |b| + |d|
  {
    SubsetSize(whole, a + b + d);
  }

  lemma MailedIsCounted(s: State, id: NotificationId)
    requires Timed(s) && id in MailedLastDay(s)
    ensures id in SentSince(s.rows, s.now - DAY) + MarkingAny(s.loops) + Uncounted(s)
  {
    var k :| 0 <= k < |s.calls| && s.calls[k].row == id && s.calls[k].outcome.Delivers() && s.calls[k].at > s.now - DAY;
    assert id in s.rows && s.rows[id].status.Sent? ==> MadeBefore(s.calls, id, s.rows[id].updatedAt);
  }

  lemma CapLeaves(c: Config, s: State)
    requires ConfigOk(c) && Reachable(c, s) && c.dailyCap >= 1
    ensures SendsLastDay(s.rows, s.now) + Budget(s.loops) <= c.dailyCap - 1 + CLAIM_LIMIT * c.loops
  {
    ReachableInv(c, s);
  }

  lemma AllCounted(s: State)
    requires Timed(s)
    ensures MailedLastDay(s) <= SentSince(s.rows, s.now - DAY) + MarkingAny(s.loops) + Uncounted(s)
  {
    forall id | id in MailedLastDay(s)
      ensures id in SentSince(s.rows, s.now - DAY) + MarkingAny(s.loops) + Uncounted(s)
    {
      MailedIsCounted(s, id);
    }
  }

  lemma CountedParts(loops: seq<Loop>, mailed: set<NotificationId>, sent: set<NotificationId>,
                     rest: set<NotificationId>)
    requires mailed <= sent + MarkingAny(loops) + rest
    ensures |mailed| <= |sent| + Budget(loops) + |rest|
  {
    MarkingIsUnspent(loops);
    ThreeParts(mailed, sent, MarkingAny(loops), rest);
  }

  lemma VolumeParts(s: State, sent: set<NotificationId>)
    requires Timed(s) && sent == SentSince(s.rows, s.now - DAY)
    ensures |MailedLastDay(s)| <= |sent| + Budget(s.loops) + |Uncounted(s)|
  {
    AllCounted(s);
    CountedParts(s.loops, MailedLastDay(s), sent, Uncounted(s));
  }

  // The rows mailed in the last day exceed the bound on marked rows only by those that nobody marked.
  lemma DailyVolume(c: Config, s: State)
    requires ConfigOk(c) && Reachable(c, s) && c.dailyCap >= 1
    ensures |MailedLastDay(s)| <= c.dailyCap - 1 + CLAIM_LIMIT * c.loops + |Uncounted(s)|
  {
    CapLeaves(c, s);
    ReachableTimed(c, s);
    VolumeParts(s, SentSince(s.rows, s.now - DAY));
  }

  // Such a row had a reply that was lost, or it was abandoned before it could be marked.
  lemma UncountedWasLost(c: Config, s: State, id: NotificationId)
    requires ConfigOk(c) && Reachable(c, s) && id in Uncounted(s)
    ensures ReplyWasLost(s.calls, id) || (Abandoned(s, id) && AcceptedFor(s.calls, id) == 1)
  {
    ReachableInv(c, s);
    var k :| 0 <= k < |s.calls| && s.calls[k].row == id && s.calls[k].outcome.Delivers();
    if !ReplyWasLost(s.calls, id) {
      AcceptedCounts(s.calls, id);
      assert id in s.rows && RowCallsOk(s.rows[id], CallsFor(s.calls, id), AcceptedFor(s.calls, id));
      forall w | 0 <= w < |s.loops| ensures id !in Owned(s.loops[w]) {
        AcceptedIsMarking(c, s, id, w);
      }
    }
  }

  // A loop that owns a row whose acceptance it knows is about to mark it.
  lemma AcceptedIsMarking(c: Config, s: State, id: NotificationId, w: nat)
    requires Inv(c, s) && id in s.rows && s.rows[id].status.Sending? && AcceptedFor(s.calls, id) == 1
    requires w < |s.loops| && id !in MarkingAny(s.loops)
    ensures id !in Owned(s.loops[w])
  {
    MarkingMember(s.loops, w);
    assert LoopOk(c, s.now, s.rows, s.calls, s.loops[w]);
    if s.loops[w].Holding? {
      forall b | b in s.loops[w].batch ensures b.id != id {
        var i :| 0 <= i < |s.loops[w].batch| && s.loops[w].batch[i] == b;
      }
    }
  }

  // ---- Nothing bounds the unmarked rows ----

  // Every loop is idle, and the first k rows were mailed at time 0 and abandoned before they could be marked.
  ghost predicate Lost(c: Config, s: State, k: nat) {
    && s.now == 0 && |s.loops| == c.loops
    && (forall w :: 0 <= w < |s.loops| ==> s.loops[w] == Idle)
    && (forall id: NotificationId :: id in s.rows <==> id < k)
    && (forall id: NotificationId :: id < k ==> s.rows[id].status.Sending?)
    && |s.calls| == k
    && forall i :: 0 <= i < k ==> s.calls[i].row == i && s.calls[i].outcome.Accepted? && s.calls[i].at == 0
  }

  // A new mail has been queued and the first loop has locked it.
  ghost predicate Chosen(s: State, t: State, k: nat) {
    && t.now == 0 && t.calls == s.calls && |t.loops| == |s.loops| >= 1
    && t.loops == s.loops[0 := Selecting([k], 0)]
    && t.rows == s.rows[k := Inserted(ConfirmEmail, "", BroadcastMail(""), 0)]
  }

  lemma Choose(c: Config, s: State, k: nat) returns (tr: seq<Step>, t: State)
    requires ConfigOk(c) && Lost(c, s, k)
    ensures Exec(c, s, tr) == Some(t) && Chosen(s, t, k)
  {
    var enqueue := Enqueue(k, ConfirmEmail, "", BroadcastMail(""), 0);
    RunOne(Transition(c), s, [], enqueue);
    tr := [] + [enqueue];
    var s1 := Apply(c, s, enqueue);
    assert SentSince(s1.rows, 0 - DAY) == {};
    RunOne(Transition(c), s, tr, CapCheck(0, 0));
    tr := tr + [CapCheck(0, 0)];
    var s2 := Move(s1, 0, Checked);
    assert LockedIds(s2.loops) == {};
    RunOne(Transition(c), s, tr, Select(0, 0, [k]));
    tr := tr + [Select(0, 0, [k])];
    t := Move(s2, 0, Selecting([k], 0));
  }

  lemma MailAndLose(c: Config, s: State, mid: State, k: nat) returns (tr: seq<Step>, t: State)
    requires ConfigOk(c) && Chosen(s, mid, k) && s.loops[0] == Idle
    ensures Exec(c, mid, tr) == Some(t) && t.now == 0 && t.loops == s.loops
    ensures k in t.rows && t.rows == s.rows[k := t.rows[k]] && t.rows[k].status.Sending?
    ensures t.calls == s.calls + [CallFor(Returned(t.rows, k), Accepted, 0)]
  {
    RunOne(Transition(c), mid, [], Commit(0));
    tr := [] + [Commit(0)];
    var s1 := Committed(c, mid, 0);
    assert s1.loops[0].batch == [Returned(s1.rows, k)];
    RunOne(Transition(c), mid, tr, Dispatch(0, Accepted));
    tr := tr + [Dispatch(0, Accepted)];
    var s2 := Dispatched(c, s1, 0, Accepted);
    RunOne(Transition(c), mid, tr, GiveUp(0));
    tr := tr + [GiveUp(0)];
    t := Apply(c, s2, GiveUp(0));
  }

  lemma LoseOne(c: Config, s: State, k: nat) returns (tr: seq<Step>, t: State)
    requires ConfigOk(c) && Lost(c, s, k)
    ensures Exec(c, s, tr) == Some(t) && Lost(c, t, k + 1)
  {
    var first, mid := Choose(c, s, k);
    var second, end := MailAndLose(c, s, mid, k);
    RunConcat(Transition(c), s, first, second);
    tr, t := first + second, end;
  }

  lemma {:induction false} LoseMany(c: Config, k: nat) returns (tr: seq<Step>, s: State)
    requires ConfigOk(c)
    ensures Exec(c, Init(c, 0), tr) == Some(s) && Lost(c, s, k)
  {
    if k == 0 {
      tr, s := [], Init(c, 0);
    } else {
      var before, mid := LoseMany(c, k - 1);
      var more, end := LoseOne(c, mid, k - 1);
      RunConcat(Transition(c), Init(c, 0), before, more);
      tr, s := before + more, end;
    }
  }

  // Whatever the cap, some run mails any number of rows in a day and has marked none of them: every write after an
  // accepted request failed. All these rows are abandoned.
  lemma CapDoesNotBoundMails(c: Config, k: nat) returns (s: State)
    requires ConfigOk(c)
    ensures Reachable(c, s) && SendsLastDay(s.rows, s.now) == 0
    ensures |MailedLastDay(s)| == k && Uncounted(s) == MailedLastDay(s)
    ensures forall id :: id in MailedLastDay(s) ==> Abandoned(s, id)
  {
    var tr;
    tr, s := LoseMany(c, k);
    assert SentSince(s.rows, s.now - DAY) == {};
    forall id: NotificationId ensures id in MailedLastDay(s) <==> id < k {
      if id < k {
        assert s.calls[id].row == id;
      }
    }
    QueueRuns.UptoSize(MailedLastDay(s), k);
    NobodyMarks(s.loops);
  }

  lemma {:induction false} NobodyMarks(loops: seq<Loop>)
    requires forall w :: 0 <= w < |loops| ==> loops[w] == Idle
    ensures MarkingAny(loops) == {}
  {
    if loops != [] {
      NobodyMarks(loops[1..]);
    }
  }
}
