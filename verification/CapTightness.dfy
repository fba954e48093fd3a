/** The bound on the daily cap is the exact one: a run that reaches it, for every cap and every number of loops. */
module CapTightness {
  import opened Common
  import opened Runs
  import opened NotificationQueries
  import opened QueueProtocol
  import opened QueueRuns

  /** Where the run starts. Everything then happens at the instant `now`. */
  datatype Origin = Origin(now: int, calls: seq<Call>)

  // One accepted request for each of the first `n` rows.
  function Requests(n: nat, at: int): (calls: seq<Call>)
    ensures |calls| == n
    ensures forall i :: 0 <= i < n ==> calls[i] == Call(i, i, "", BroadcastMail(""), Accepted, at)
  {
    if n == 0 then [] else Requests(n - 1, at) + [Call(n - 1, n - 1, "", BroadcastMail(""), Accepted, at)]
  }

  // The first `n` rows have been sent, one request for each.
  ghost predicate SentFirst(o: Origin, s: State, n: nat) {
    && s.now == o.now
    && (forall id: NotificationId :: id < n ==>
          id in s.rows && s.rows[id].status.Sent? && s.rows[id].updatedAt == s.now)
    && s.calls == o.calls + Requests(n, o.now)
  }

  // The rows from `n` up to `m` wait to be claimed.
  ghost predicate Waiting(o: Origin, s: State, n: nat, m: nat) {
    && n <= m && Upto(s.rows.Keys, m) && SentFirst(o, s, n)
    && forall id: NotificationId :: n <= id < m ==> Due(s.rows[id], s.now) && Mailable(s.rows[id])
  }

  lemma CountSent(o: Origin, s: State, n: nat, m: nat)
    requires Waiting(o, s, n, m)
    ensures SendsLastDay(s.rows, s.now) == n
  {
    UptoSize(SentSince(s.rows, s.now - DAY), n);
  }

  // ---- One loop delivers a batch ----

  lemma {:induction false} Feed(c: Config, o: Origin, s: State, n: nat, m: nat, k: nat)
    returns (tr: seq<Step>, t: State)
    requires Waiting(o, s, n, m)
    ensures Exec(c, s, tr) == Some(t) && Waiting(o, t, n, m + k) && t.loops == s.loops
  {
    if k == 0 {
      tr, t := [], s;
    } else {
      var before, mid := Feed(c, o, s, n, m, k - 1);
      var step := Enqueue(m + k - 1, ConfirmEmail, "", BroadcastMail(""), mid.now);
      RunOne(Transition(c), s, before, step);
      tr, t := before + [step], Apply(c, mid, step);
    }
  }

  function From(n: nat, k: nat): (ids: seq<NotificationId>)
    ensures |ids| == k && forall i :: 0 <= i < k ==> ids[i] == n + i
  {
    seq(k, i requires 0 <= i < k => n + i)
  }

  function Plain(id: NotificationId, attempts: int): ClaimedRow {
    ClaimedRow(id, ConfirmEmail, "", BroadcastMail(""), attempts)
  }

  // Loop `w` has `k` of the rows up to `m` in hand.
  ghost predicate Draining(o: Origin, s: State, w: nat, n: nat, k: nat, m: nat) {
    && n + k == m && Upto(s.rows.Keys, m) && SentFirst(o, s, n) && w < |s.loops|
    && if k == 0 then s.loops[w] == Idle
       else && s.loops[w].Holding? && s.loops[w].phase.Fresh? && |s.loops[w].batch| == k
            && forall i :: 0 <= i < k ==> s.loops[w].batch[i] == Plain(n + i, s.loops[w].batch[i].attempts)
  }

  lemma Claimed(c: Config, o: Origin, s: State, w: nat, n: nat, k: nat) returns (tr: seq<Step>, t: State)
    requires Waiting(o, s, n, n + k) && 1 <= k <= CLAIM_LIMIT
    requires w < |s.loops| && s.loops[w] == Checked && LockedIds(s.loops) == {}
    ensures Exec(c, s, tr) == Some(t) && Draining(o, t, w, n, k, n + k) && t.loops == s.loops[w := t.loops[w]]
  {
    var select, commit := Select(w, s.now, From(n, k)), Commit(w);
    Choosable(o, s, n, k);
    var mid := Apply(c, s, select);
    t := Apply(c, mid, commit);
    tr := [select] + [commit];
    assert Exec(c, s, tr) == Some(t) by {
      RunOne(Transition(c), s, [], select);
      assert [] + [select] == [select];
      RunOne(Transition(c), s, [select], commit);
    }
  }

  lemma Choosable(o: Origin, s: State, n: nat, k: nat)
    requires Waiting(o, s, n, n + k) && k <= CLAIM_LIMIT
    ensures Lockable(s.rows, s.now, {}, CLAIM_LIMIT, From(n, k))
  {
    var ids := From(n, k);
    forall id: NotificationId | n <= id < n + k ensures id in ids {
      assert ids[id - n] == id;
    }
  }

  lemma {:induction false} Drain(c: Config, o: Origin, s: State, w: nat, n: nat, k: nat, m: nat)
    returns (tr: seq<Step>, t: State)
    requires Draining(o, s, w, n, k, m)
    ensures Exec(c, s, tr) == Some(t) && Draining(o, t, w, m, 0, m) && t.loops == s.loops[w := Idle]
    decreases k
  {
    if k == 0 {
      tr, t := [], s;
      assert s.loops[w := Idle] == s.loops;
    } else {
      var first, mid := SendHead(c, o, s, w, n, k, m);
      var rest, end := Drain(c, o, mid, w, n + 1, k - 1, m);
      RunConcat(Transition(c), s, first, rest);
      tr, t := first + rest, end;
    }
  }

  lemma SendHead(c: Config, o: Origin, s: State, w: nat, n: nat, k: nat, m: nat) returns (tr: seq<Step>, t: State)
    requires Draining(o, s, w, n, k, m) && k > 0
    ensures Exec(c, s, tr) == Some(t) && Draining(o, t, w, n + 1, k - 1, m) && t.loops == s.loops[w := t.loops[w]]
  {
    var dispatch, write := Dispatch(w, Accepted), Write(w, s.now);
    var mid := Apply(c, s, dispatch);
    assert mid.loops[w].batch[0].id == n;
    t := Apply(c, mid, write);
    tr := [dispatch] + [write];
    assert Exec(c, s, tr) == Some(t) by {
      RunOne(Transition(c), s, [], dispatch);
      assert [] + [dispatch] == [dispatch];
      RunOne(Transition(c), s, [dispatch], write);
    }
    assert o.calls + Requests(n, o.now) + [CallFor(s.loops[w].batch[0], Accepted, o.now)]
        == o.calls + Requests(n + 1, o.now);
  }

  // A loop past the cap test delivers k mails, at most one of which was there before.
  lemma Deliver(c: Config, o: Origin, s: State, w: nat, n: nat, m: nat, k: nat) returns (tr: seq<Step>, t: State)
    requires Waiting(o, s, n, m) && 1 <= k <= CLAIM_LIMIT && m <= n + k
    requires w < |s.loops| && s.loops[w] == Checked && LockedIds(s.loops) == {}
    ensures Exec(c, s, tr) == Some(t) && Waiting(o, t, n + k, n + k) && t.loops == s.loops[w := Idle]
  {
    var a, s1 := Feed(c, o, s, n, m, n + k - m);
    var b, s2 := Claimed(c, o, s1, w, n, k);
    var d, s3 := Drain(c, o, s2, w, n, k, n + k);
    RunConcat(Transition(c), s, a, b);
    RunConcat(Transition(c), s, a + b, d);
    tr, t := a + b + d, s3;
  }

  // ---- The run ----

  ghost predicate AllIdle(loops: seq<Loop>) {
    forall w :: 0 <= w < |loops| ==> loops[w] == Idle
  }

  // A start with idle loops, where nothing has been sent and at most one mail waits.
  ghost predicate Starts(c: Config, o: Origin, s: State, m: nat) {
    Waiting(o, s, 0, m) && m <= 1 && |s.loops| == c.loops && AllIdle(s.loops)
  }

  function Rows(n: nat, m: nat): nat {
    if m <= n then n else m
  }

  // The first loop alone delivers n mails one at a time, each after its own cap test.
  lemma {:induction false} Fill(c: Config, o: Origin, s: State, m: nat, n: nat) returns (tr: seq<Step>, t: State)
    requires ConfigOk(c) && Starts(c, o, s, m) && n <= c.dailyCap - 1
    ensures Exec(c, s, tr) == Some(t) && Waiting(o, t, n, Rows(n, m)) && |t.loops| == c.loops && AllIdle(t.loops)
  {
    if n == 0 {
      tr, t := [], s;
    } else {
      var before, mid := Fill(c, o, s, m, n - 1);
      var more, end := CheckAndDeliver(c, o, mid, n - 1, Rows(n - 1, m));
      RunConcat(Transition(c), s, before, more);
      tr, t := before + more, end;
    }
  }

  lemma CheckAndDeliver(c: Config, o: Origin, s: State, n: nat, m: nat) returns (tr: seq<Step>, t: State)
    requires ConfigOk(c) && Waiting(o, s, n, m) && m <= n + 1 && n < c.dailyCap
    requires |s.loops| == c.loops && AllIdle(s.loops)
    ensures Exec(c, s, tr) == Some(t) && Waiting(o, t, n + 1, n + 1) && |t.loops| == c.loops && AllIdle(t.loops)
  {
    var check := CapCheck(0, s.now);
    CountSent(o, s, n, m);
    RunOne(Transition(c), s, [], check);
    var mid := Apply(c, s, check);
    assert LockedIds(mid.loops) == {};
    var more, end := Deliver(c, o, mid, 0, n, m, 1);
    RunConcat(Transition(c), s, [] + [check], more);
    tr, t := [] + [check] + more, end;
  }

  // The loops from `w` on have passed the test, those before are idle.
  ghost predicate PassedFrom(loops: seq<Loop>, w: nat) {
    forall v :: 0 <= v < |loops| ==> loops[v] == if v < w then Idle else Checked
  }

  // Then every loop passes the test before any of them sends.
  lemma {:induction false} CheckAll(c: Config, o: Origin, s: State, n: nat, m: nat, w: nat)
    returns (tr: seq<Step>, t: State)
    requires Waiting(o, s, n, m) && n < c.dailyCap && w <= |s.loops| && AllIdle(s.loops)
    ensures Exec(c, s, tr) == Some(t) && Waiting(o, t, n, m) && |t.loops| == |s.loops|
    ensures forall v :: 0 <= v < |s.loops| ==> t.loops[v] == if v < w then Checked else Idle
  {
    if w == 0 {
      tr, t := [], s;
    } else {
      var before, mid := CheckAll(c, o, s, n, m, w - 1);
      CountSent(o, mid, n, m);
      RunOne(Transition(c), s, before, CapCheck(w - 1, mid.now));
      tr, t := before + [CapCheck(w - 1, mid.now)], Apply(c, mid, CapCheck(w - 1, mid.now));
    }
  }

  // And each of them delivers a full batch.
  lemma {:induction false} Burst(c: Config, o: Origin, s: State, n: nat, m: nat, w: nat)
    returns (tr: seq<Step>, t: State)
    requires Waiting(o, s, n, m) && m <= n + 1 && PassedFrom(s.loops, 0) && w <= |s.loops|
    ensures Exec(c, s, tr) == Some(t) && Waiting(o, t, n + CLAIM_LIMIT * w, Rows(n + CLAIM_LIMIT * w, m))
    ensures |t.loops| == |s.loops| && PassedFrom(t.loops, w)
  {
    if w == 0 {
      tr, t := [], s;
    } else {
      var before, mid := Burst(c, o, s, n, m, w - 1);
      assert LockedIds(mid.loops) == {};
      var k := n + CLAIM_LIMIT * (w - 1);
      var more, end := Deliver(c, o, mid, w - 1, k, Rows(k, m), CLAIM_LIMIT);
      RunConcat(Transition(c), s, before, more);
      tr, t := before + more, end;
    }
  }

  function Bound(c: Config): int {
    c.dailyCap - 1 + CLAIM_LIMIT * c.loops
  }

  lemma ToTheBound(c: Config, o: Origin, s: State, m: nat) returns (tr: seq<Step>, t: State)
    requires ConfigOk(c) && c.dailyCap >= 1 && Starts(c, o, s, m)
    ensures Exec(c, s, tr) == Some(t) && Waiting(o, t, Bound(c), Bound(c)) && AllIdle(t.loops)
  {
    var n := c.dailyCap - 1;
    var a, s1 := Fill(c, o, s, m, n);
    var b, s2 := CheckAll(c, o, s1, n, Rows(n, m), c.loops);
    var d, s3 := Burst(c, o, s2, n, Rows(n, m), c.loops);
    RunConcat(Transition(c), s, a, b);
    RunConcat(Transition(c), s, a + b, d);
    tr, t := a + b + d, s3;
  }

  // For every cap and every number of loops some run marks exactly as many rows as sent in a day as the bound allows.
  lemma CapBoundIsReached(c: Config) returns (s: State)
    requires ConfigOk(c) && c.dailyCap >= 1
    ensures Reachable(c, s) && SendsLastDay(s.rows, s.now) == c.dailyCap - 1 + 5 * c.loops
  {
    var o := Origin(0, []);
    assert Upto(Init(c, 0).rows.Keys, 0);
    var tr;
    tr, s := ToTheBound(c, o, Init(c, 0), 0);
    CountSent(o, s, Bound(c), Bound(c));
  }
}
