/** The bound that the daily cap puts on every day, past or present. */
module DailyCap {
  import opened Common
  import opened Runs
  import opened NotificationQueries
  import opened QueueProtocol
  import opened QueueInvariant

  // The rows that were sent in the day ending at `t`, as the table shows them now.
  function SentInDay(rows: Table, t: int): set<NotificationId> {
    set id | id in rows && rows[id].status == Sent && t - 86_400 * SECOND < rows[id].updatedAt <= t
  }

  // The row a loop is about to mark as sent.
  function Marking(l: Loop): set<NotificationId> {
    if l.Holding? && l.batch != [] && l.phase.Decided? && l.phase.verdict.ToSent? then {l.batch[0].id} else {}
  }

  function MarkingAny(loops: seq<Loop>): set<NotificationId> {
    if loops == [] then {} else Marking(loops[0]) + MarkingAny(loops[1..])
  }

  lemma {:induction false} MarkingIsUnspent(loops: seq<Loop>)
    ensures |MarkingAny(loops)| <= Budget(loops)
  {
    if loops != [] {
      MarkingIsUnspent(loops[1..]);
      var first, rest := Marking(loops[0]), MarkingAny(loops[1..]);
      assert |first| <= Unspent(loops[0]);
      assert |first + rest| <= |first| + |rest|;
    }
  }

  lemma {:induction false} MarkingMember(loops: seq<Loop>, w: nat)
    requires w < |loops|
    ensures Marking(loops[w]) <= MarkingAny(loops)
  {
    if w > 0 {
      MarkingMember(loops[1..], w - 1);
    }
  }

  // A mark may carry a time before the moment it becomes visible, but not before the verdict it records. So a row may
  // still enter the day ending at `t` only if its acceptance was known by then.
  predicate Late(l: Loop, t: int) {
    l.Holding? && l.batch != [] && l.phase.Decided? && l.phase.verdict.ToSent? && l.phase.since <= t
  }

  function LateRows(loops: seq<Loop>, t: int): set<NotificationId> {
    set w | 0 <= w < |loops| && Late(loops[w], t) :: loops[w].batch[0].id
  }

  function Counted(s: State, t: int): set<NotificationId> {
    SentInDay(s.rows, t) + LateRows(s.loops, t)
  }

  // ---- A day that is over gains nothing ----

  lemma LateMove(s: State, w: nat, l: Loop, t: int)
    requires w < |s.loops| && (Late(l, t) ==> Late(s.loops[w], t) && l.batch[0].id == s.loops[w].batch[0].id)
    ensures LateRows(s.loops[w := l], t) <= LateRows(s.loops, t)
  {
    forall id | id in LateRows(s.loops[w := l], t) ensures id in LateRows(s.loops, t) {
      var v :| 0 <= v < |s.loops| && Late(s.loops[w := l][v], t) && s.loops[w := l][v].batch[0].id == id;
      assert v != w ==> Late(s.loops[v], t);
    }
  }

  lemma ClaimSendsNothing(c: Config, s: State, w: nat, t: int)
    requires Inv(c, s) && Enabled(c, s, Commit(w))
    ensures SentInDay(Committed(c, s, w).rows, t) <= SentInDay(s.rows, t)
  {
    assert LoopOk(c, s.now, s.rows, s.calls, s.loops[w]);
  }

  lemma WriteWasCounted(c: Config, s: State, w: nat, at: int, t: int)
    requires Inv(c, s) && Enabled(c, s, Write(w, at))
    ensures Counted(Apply(c, s, Write(w, at)), t) <= Counted(s, t)
  {
    var head := s.loops[w].batch[0];
    LateMove(s, w, AfterHead(s.loops[w].batch), t);
    if Late(s.loops[w], t) {
      assert head.id in LateRows(s.loops, t);
    }
  }

  lemma StepGainsNothing(c: Config, s: State, step: Step, t: int)
    requires Inv(c, s) && Enabled(c, s, step) && t < s.now
    ensures Counted(Apply(c, s, step), t) <= Counted(s, t)
  {
    match step
    case Advance(_) =>
    case Enqueue(_, _, _, _, _) =>
    case CapCheck(w, _) => LateMove(s, w, Checked, t);
    case Select(w, at, ids) => LateMove(s, w, Selecting(ids, at), t);
    case Commit(w) =>
      LateMove(s, w, Committed(c, s, w).loops[w], t);
      ClaimSendsNothing(c, s, w, t);
    case Dispatch(w, outcome) => LateMove(s, w, Dispatched(c, s, w, outcome).loops[w], t);
    case Plan(w, _) => LateMove(s, w, Apply(c, s, step).loops[w], t);
    case Write(w, at) => WriteWasCounted(c, s, w, at, t);
    case GiveUp(w) => LateMove(s, w, AfterHead(s.loops[w].batch), t);
    case Crash(w) => LateMove(s, w, Idle, t);
  }

  // ---- The current day ----

  lemma CountedIsPresent(s: State, t: int)
    requires s.now <= t
    ensures Counted(s, t) <= SentSince(s.rows, s.now - DAY) + MarkingAny(s.loops)
  {
    forall id | id in LateRows(s.loops, t) ensures id in MarkingAny(s.loops) {
      var w :| 0 <= w < |s.loops| && Late(s.loops[w], t) && s.loops[w].batch[0].id == id;
      MarkingMember(s.loops, w);
    }
  }

  lemma TwoParts(whole: set<NotificationId>, a: set<NotificationId>, b: set<NotificationId>)
    requires whole <= a + b
    ensures |whole| <= |a| + |b|
  {
    SubsetSize(whole, a + b);
  }

  lemma WithinBudget(loops: seq<Loop>, whole: set<NotificationId>, sent: set<NotificationId>)
    requires whole <= sent + MarkingAny(loops)
    ensures |whole| <= |sent| + Budget(loops)
  {
    MarkingIsUnspent(loops);
    TwoParts(whole, sent, MarkingAny(loops));
  }

  lemma PresentSize(s: State, t: int, sent: set<NotificationId>)
    requires s.now <= t && sent == SentSince(s.rows, s.now - DAY)
    ensures |Counted(s, t)| <= |sent| + Budget(s.loops)
  {
    CountedIsPresent(s, t);
    WithinBudget(s.loops, Counted(s, t), sent);
  }

  lemma PresentCounts(c: Config, s: State, t: int)
    requires |s.loops| == c.loops && CapOk(c, s.now, s.rows, s.loops) && c.dailyCap >= 1 && s.now <= t
    ensures |Counted(s, t)| <= c.dailyCap - 1 + CLAIM_LIMIT * c.loops
  {
    PresentSize(s, t, SentSince(s.rows, s.now - DAY));
  }

  // ---- Every day ----

  ghost predicate EveryDay(c: Config, s: State) {
    forall t :: |Counted(s, t)| <= c.dailyCap - 1 + CLAIM_LIMIT * c.loops
  }

  lemma StepKeepsDay(c: Config, s: State, step: Step, t: int)
    requires ConfigOk(c) && c.dailyCap >= 1 && Inv(c, s) && Enabled(c, s, step)
    requires |Counted(s, t)| <= c.dailyCap - 1 + CLAIM_LIMIT * c.loops
    ensures |Counted(Apply(c, s, step), t)| <= c.dailyCap - 1 + CLAIM_LIMIT * c.loops
  {
    var s' := Apply(c, s, step);
    if t < s.now {
      StepGainsNothing(c, s, step, t);
      SubsetSize(Counted(s', t), Counted(s, t));
    } else if step.Advance? {
      assert Counted(s', t) == Counted(s, t);
    } else {
      StepKeeps(c, s, step);
      PresentCounts(c, s', t);
    }
  }

  lemma StepKeepsDays(c: Config, s: State, step: Step)
    requires ConfigOk(c) && c.dailyCap >= 1 && Inv(c, s) && EveryDay(c, s) && Enabled(c, s, step)
    ensures EveryDay(c, Apply(c, s, step))
  {
    forall t ensures |Counted(Apply(c, s, step), t)| <= c.dailyCap - 1 + CLAIM_LIMIT * c.loops {
      StepKeepsDay(c, s, step, t);
    }
  }

  lemma {:induction false} RunKeepsDays(c: Config, s: State, tr: seq<Step>)
    requires ConfigOk(c) && c.dailyCap >= 1 && Inv(c, s) && EveryDay(c, s) && Exec(c, s, tr).Some?
    ensures EveryDay(c, Exec(c, s, tr).value)
    decreases |tr|
  {
    if tr != [] {
      var front := tr[..|tr| - 1];
      RunKeepsDays(c, s, front);
      RunKeeps(c, s, front);
      StepKeepsDays(c, Exec(c, s, front).value, tr[|tr| - 1]);
    }
  }

  lemma NothingSent(c: Config, now: int)
    requires ConfigOk(c) && c.dailyCap >= 1
    ensures EveryDay(c, Init(c, now))
  {
    forall t ensures Counted(Init(c, now), t) == {} {
    }
  }

  // However checks, claims, sends and the clock interleave, the rows marked as sent in a day overshoot the cap by at
  // most one batch per loop. That holds for the day ending at any `t`, and goes on holding for it, although a mark may
  // become visible after the time it carries. (`MailVolume` has the bound on the mails themselves.)
  lemma DailyCapHolds(c: Config, s: State, t: int)
    requires ConfigOk(c) && Reachable(c, s) && c.dailyCap >= 1
    ensures |SentInDay(s.rows, t)| <= c.dailyCap - 1 + 5 * c.loops
    ensures SendsLastDay(s.rows, s.now) <= c.dailyCap - 1 + 5 * c.loops
  {
    ReachableInv(c, s);
    var now: int, tr: seq<Step> :| Exec(c, Init(c, now), tr) == Some(s);
    InitInv(c, now);
    NothingSent(c, now);
    RunKeepsDays(c, Init(c, now), tr);
    SubsetSize(SentInDay(s.rows, t), Counted(s, t));
  }

  // ---- The test itself ----

  lemma SinceIsToday(c: Config, now: int, rows: Table)
    requires RowsOk(c, now, rows)
    ensures SentSince(rows, now - DAY) == SentInDay(rows, now)
  {
    forall id | id in rows ensures rows[id].updatedAt <= now {
      assert RowOk(c, now, rows[id]);
    }
  }

  // The query counts exactly the rows sent in the day that ends now.
  lemma LastDayCounts(c: Config, s: State)
    requires ConfigOk(c) && Reachable(c, s)
    ensures SendsLastDay(s.rows, s.now) == |SentInDay(s.rows, s.now)|
  {
    ReachableInv(c, s);
    SinceIsToday(c, s.now, s.rows);
  }

  // A loop passes the test exactly if there is no cap or fewer rows than the cap were sent in the day that ends now.
  lemma CapTestExactly(c: Config, s: State, w: nat)
    requires ConfigOk(c) && Reachable(c, s) && Enabled(c, s, CapCheck(w, s.now))
    ensures Apply(c, s, CapCheck(w, s.now)).loops[w]
         == if c.dailyCap <= 0 || |SentInDay(s.rows, s.now)| < c.dailyCap then Checked else Idle
  {
    LastDayCounts(c, s);
  }

  // A reached cap blocks nobody for longer than a day: whatever has been sent, a day later every idle loop passes.
  lemma CapRecovers(c: Config, s: State, w: nat, later: int)
    requires ConfigOk(c) && Reachable(c, s) && w < |s.loops| && s.loops[w].Idle?
    requires s.now + 86_400 * SECOND <= later < MAX_CLOCK
    ensures var tr := [Advance(later), CapCheck(w, later)];
            Exec(c, s, tr).Some? && Exec(c, s, tr).value.loops[w] == Checked
  {
    var advance, check := Advance(later), CapCheck(w, later);
    var mid := Apply(c, s, advance);
    RunOne(Transition(c), s, [], advance);
    assert [] + [advance] == [advance];
    RunOne(Transition(c), s, [advance], check);
    assert [advance] + [check] == [advance, check];
    assert Exec(c, s, [advance]) == Some(mid);
    Onward(c, s, [advance], mid);
    CapTestExactly(c, mid, w);
    NothingRecent(c, s, later);
  }

  lemma NothingRecent(c: Config, s: State, later: int)
    requires ConfigOk(c) && Reachable(c, s) && s.now + 86_400 * SECOND <= later
    ensures SentInDay(s.rows, later) == {}
  {
    ReachableInv(c, s);
    assert forall id :: id in s.rows ==> RowOk(c, s.now, s.rows[id]);
  }
}
