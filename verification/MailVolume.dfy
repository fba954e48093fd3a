/** When the bound on the daily cap bounds the mails that really go out. */
module MailVolume {
  import opened Common
  import opened Runs
  import opened NotificationQueries
  import opened QueueProtocol
  import opened QueueInvariant
  import opened QueueDelivery
  import opened QueueVolume
  import opened CapTightness
  import QueueRuns
  import Backoff

  // The positions of the mails that went out after `since`.
  function Recent(delivered: seq<Call>, since: int): set<nat> {
    set i: nat | i < |delivered| && delivered[i].at > since
  }

  function MailsLastDay(memory: Option<int>, s: State): nat {
    |Recent(Delivered(memory, s.calls), s.now - DAY)|
  }

  // ---- Where no row is mailed twice in a day ----

  ghost predicate InRange(delivered: seq<Call>, which: set<nat>) {
    forall i :: i in which ==> i < |delivered|
  }

  ghost function RowsOf(delivered: seq<Call>, which: set<nat>): set<NotificationId>
    requires InRange(delivered, which)
  {
    set i | i in which :: delivered[i].row
  }

  lemma {:induction false} AsManyRows(delivered: seq<Call>, which: set<nat>)
    requires InRange(delivered, which)
    requires forall i, j :: i in which && j in which && i < j ==> delivered[i].row != delivered[j].row
    ensures |RowsOf(delivered, which)| == |which|
    decreases |which|
  {
    if which == {} {
      assert RowsOf(delivered, which) == {};
    } else {
      var i :| i in which;
      AsManyRows(delivered, which - {i});
      assert RowsOf(delivered, which) == RowsOf(delivered, which - {i}) + {delivered[i].row};
      assert delivered[i].row !in RowsOf(delivered, which - {i});
    }
  }

  lemma {:induction false} DeliveredWasRequested(memory: Option<int>, calls: seq<Call>, i: nat)
    requires i < |Delivered(memory, calls)|
    ensures exists k :: 0 <= k < |calls| && calls[k] == Delivered(memory, calls)[i] && calls[k].outcome.Delivers()
    decreases |calls|
  {
    var front := calls[..|calls| - 1];
    if i < |Delivered(memory, front)| {
      DeliveredWasRequested(memory, front, i);
      var k :| 0 <= k < |front| && front[k] == Delivered(memory, front)[i] && front[k].outcome.Delivers();
      assert calls[k] == front[k];
    } else {
      assert Delivered(memory, calls)[i] == calls[|calls| - 1];
    }
  }

  predicate OncePerDay(c: Config, memory: Option<int>) {
    memory.None? || memory.value >= DAY || c.maxAttempts == 1
  }

  lemma OtherRow(c: Config, memory: Option<int>, s: State, i: nat, j: nat)
    requires ConfigOk(c) && Reachable(c, s) && OncePerDay(c, memory)
    requires i < j && i in Recent(Delivered(memory, s.calls), s.now - DAY)
    requires j in Recent(Delivered(memory, s.calls), s.now - DAY)
    ensures Delivered(memory, s.calls)[i].row != Delivered(memory, s.calls)[j].row
  {
    if memory.None? || c.maxAttempts == 1 {
      NeverTwice(c, memory, s, i, j);
    } else if Delivered(memory, s.calls)[i].row == Delivered(memory, s.calls)[j].row {
      DeliveriesApart(c, memory, s, i, j);
      ReachableTimed(c, s);
      DeliveredWasRequested(memory, s.calls, j);
      assert false;
    }
  }

  lemma MailsAreRows(c: Config, memory: Option<int>, s: State)
    requires ConfigOk(c) && Reachable(c, s) && OncePerDay(c, memory)
    ensures MailsLastDay(memory, s) <= |MailedLastDay(s)|
  {
    var delivered := Delivered(memory, s.calls);
    var which := Recent(delivered, s.now - DAY);
    forall i, j | i in which && j in which && i < j ensures delivered[i].row != delivered[j].row {
      OtherRow(c, memory, s, i, j);
    }
    AsManyRows(delivered, which);
    forall i | i in which ensures delivered[i].row in MailedLastDay(s) {
      DeliveredWasRequested(memory, s.calls, i);
    }
    SubsetSize(RowsOf(delivered, which), MailedLastDay(s));
  }

  // ---- Where some row can be ----

  lemma AllRecent(delivered: seq<Call>, since: int)
    requires forall i :: 0 <= i < |delivered| ==> delivered[i].at > since
    ensures |Recent(delivered, since)| == |delivered|
  {
    QueueRuns.UptoSize(Recent(delivered, since), |delivered|);
  }

  predicate FirstCall(call: Call, memory: int, now: int) {
    call.row == 0 && call.key == 0 && call.outcome.Delivers() && now - DAY < call.at && call.at + memory <= now
  }

  lemma WaitOn(c: Config, before: seq<Step>, waiting: State, wait: int) returns (tr: seq<Step>, s: State)
    requires Exec(c, Init(c, 0), before) == Some(waiting)
    requires QueueRuns.Waits(c, waiting, 0, 1, QueueRuns.ROUND) && waiting.rows.Keys == {0}
    requires QueueRuns.ROUND <= wait < DAY && 0 <= waiting.now
    ensures Exec(c, Init(c, 0), tr) == Some(s) && Starts(c, Origin(s.now, s.calls), s, 1)
    ensures s.now == waiting.now + wait && s.calls == waiting.calls
  {
    var later := Advance(waiting.now + wait);
    RunOne(Transition(c), Init(c, 0), before, later);
    tr, s := before + [later], Apply(c, waiting, later);
    assert s.calls == Origin(s.now, s.calls).calls + Requests(0, s.now);
  }

  // One mail is lost on its way back, and waits for its second attempt until the provider has forgotten the first.
  lemma LostOnce(c: Config, memory: int) returns (tr: seq<Step>, s: State)
    requires ConfigOk(c) && memory < DAY && c.maxAttempts >= 2
    ensures Exec(c, Init(c, 0), tr) == Some(s) && Starts(c, Origin(s.now, s.calls), s, 1)
    ensures |s.calls| == 1 && FirstCall(s.calls[0], memory, s.now)
  {
    var wait := if memory > QueueRuns.ROUND then memory else QueueRuns.ROUND;
    var before, waiting := QueueRuns.Retried(c, 0, 1, ReplyLost);
    tr, s := WaitOn(c, before, waiting, wait);
  }

  lemma AllMarked(s: State)
    requires forall i :: 0 <= i < |s.calls| ==> s.calls[i].row in s.rows && s.rows[s.calls[i].row].status.Sent?
    ensures Uncounted(s) == {}
  {
  }

  // The lost mail, and one request for each row.
  ghost predicate Twice(calls: seq<Call>, memory: int, n: nat, now: int) {
    && |calls| == n + 1 && FirstCall(calls[0], memory, now)
    && forall i :: 1 <= i <= n ==>
         calls[i].row == calls[i].key == i - 1 && calls[i].outcome.Accepted? && calls[i].at == now
  }

  lemma AfterTheFirst(memory: int, first: Call, n: nat, now: int)
    requires FirstCall(first, memory, now)
    ensures Twice([first] + Requests(n, now), memory, n, now)
  {
    var calls, sent := [first] + Requests(n, now), Requests(n, now);
    forall i | 1 <= i <= n ensures calls[i] == sent[i - 1] {
    }
  }

  lemma TwiceDelivered(memory: int, calls: seq<Call>, n: nat, now: int)
    requires Twice(calls, memory, n, now)
    ensures Delivered(Some(memory), calls) == calls && |Recent(calls, now - DAY)| == n + 1
  {
    forall i, j | 0 <= i < j < |calls| && calls[i].key == calls[j].key ensures calls[i].at + memory <= calls[j].at {
      assert calls[j].key == j - 1;
      if i > 0 {
        assert false;
      }
    }
    AllDelivered(memory, calls);
    AllRecent(calls, now - DAY);
  }

  lemma LastIsMore(memory: int, o: Origin, s: State, n: nat)
    requires Waiting(o, s, n, n) && |o.calls| == 1 && FirstCall(o.calls[0], memory, o.now) && n >= 1
    ensures Uncounted(s) == {} && MailsLastDay(Some(memory), s) == n + 1
  {
    assert o.calls == [o.calls[0]];
    AfterTheFirst(memory, o.calls[0], n, o.now);
    TwiceDelivered(memory, s.calls, n, o.now);
    AllMarked(s);
  }

  // Then the first loop fills the cap with it and others, and every loop sends a full batch: each row is marked, and
  // one has been mailed twice.
  lemma OneMailTooMany(c: Config, memory: int) returns (s: State)
    requires ConfigOk(c) && c.dailyCap >= 1 && memory < DAY && c.maxAttempts >= 2
    ensures Reachable(c, s) && Uncounted(s) == {}
    ensures MailsLastDay(Some(memory), s) == c.dailyCap - 1 + CLAIM_LIMIT * c.loops + 1
  {
    var before, start := LostOnce(c, memory);
    var more;
    assert Reachable(c, start);
    more, s := ToTheBound(c, Origin(start.now, start.calls), start, 1);
    Onward(c, start, more, s);
    LastIsMore(memory, Origin(start.now, start.calls), s, Bound(c));
  }

  ghost predicate LastAccepted(calls: seq<Call>, now: int) {
    calls != [] && 0 <= now < DAY &&
    var last := calls[|calls| - 1];
    && QueueRuns.Tries(calls[..|calls| - 1], 0, 0, ReplyLost, 0, last.at)
    && last.row == 0 && last.key == 0 && last.outcome.Accepted? && last.at == now
  }

  lemma TriesDelivered(memory: int, calls: seq<Call>, now: int)
    requires memory <= QueueRuns.SHORTEST && LastAccepted(calls, now)
    ensures Delivered(Some(memory), calls) == calls
    ensures forall i :: 0 <= i < |calls| ==> calls[i].row == 0 && calls[i].at > now - DAY
  {
    assert forall i :: 0 <= i < |calls| - 1 ==> calls[i] == calls[..|calls| - 1][i];
    AllDelivered(memory, calls);
  }

  lemma OneMarked(s: State)
    requires s.rows.Keys == {0} && s.rows[0].status.Sent? && s.rows[0].updatedAt == s.now
    requires forall i :: 0 <= i < |s.calls| ==> s.calls[i].row == 0
    ensures SendsLastDay(s.rows, s.now) == 1 && Uncounted(s) == {}
  {
    assert SentSince(s.rows, s.now - DAY) == {0};
    AllMarked(s);
  }

  lemma AcceptedAtLast(c: Config, k: nat) returns (s: State)
    requires ConfigOk(c) && 1 <= k <= c.maxAttempts && k <= Backoff.LAST_SAFE_ATTEMPT + 1
    ensures Reachable(c, s) && |s.calls| == k && LastAccepted(s.calls, s.now)
    ensures QueueRuns.InHand(c, s, 0, k, Decided(ToSent, s.now)) && s.rows.Keys == {0}
  {
    s := QueueRuns.Attempted(c, k, ReplyLost, Accepted);
  }

  lemma SentAtLast(c: Config, k: nat) returns (s: State)
    requires ConfigOk(c) && 1 <= k <= c.maxAttempts && k <= Backoff.LAST_SAFE_ATTEMPT + 1
    ensures Reachable(c, s) && |s.calls| == k && LastAccepted(s.calls, s.now)
    ensures s.rows.Keys == {0} && s.rows[0].status.Sent? && s.rows[0].updatedAt == s.now
  {
    var before := AcceptedAtLast(c, k);
    var tr;
    tr, s := QueueRuns.Settle(c, before, 0, k, ToSent);
    Onward(c, before, tr, s);
  }

  // The extreme case: with a memory below the shortest delay, a single row that was marked once stands for as many
  // mails as it had attempts.
  lemma OneRowManyMails(c: Config, memory: int, k: nat) returns (s: State)
    requires ConfigOk(c) && memory <= QueueRuns.SHORTEST
    requires 1 <= k <= c.maxAttempts && k <= Backoff.LAST_SAFE_ATTEMPT + 1
    ensures Reachable(c, s) && SendsLastDay(s.rows, s.now) == 1 && Uncounted(s) == {}
    ensures MailsLastDay(Some(memory), s) == k
  {
    s := SentAtLast(c, k);
    TriesDelivered(memory, s.calls, s.now);
    AllRecent(s.calls, s.now - DAY);
    OneMarked(s);
  }

  // ---- The exact condition ----

  ghost predicate VolumeBounded(c: Config, memory: Option<int>) {
    forall s :: Reachable(c, s) ==>
      MailsLastDay(memory, s) <= c.dailyCap - 1 + CLAIM_LIMIT * c.loops + |Uncounted(s)|
  }

  // In every reachable state the mails of the last day exceed the bound of the cap by no more than the rows that nobody
  // marked, exactly if the provider remembers a key for a day or no notification is ever tried twice.
  lemma VolumeBoundedExactly(c: Config, memory: Option<int>)
    requires ConfigOk(c) && c.dailyCap >= 1
    ensures VolumeBounded(c, memory) <==> memory.None? || memory.value >= DAY || c.maxAttempts == 1
  {
    if OncePerDay(c, memory) {
      forall s | Reachable(c, s)
        ensures MailsLastDay(memory, s) <= c.dailyCap - 1 + CLAIM_LIMIT * c.loops + |Uncounted(s)|
      {
        MailsAreRows(c, memory, s);
        DailyVolume(c, s);
      }
    } else {
      var s := OneMailTooMany(c, memory.value);
      assert |Uncounted(s)| == 0;
    }
  }
}
