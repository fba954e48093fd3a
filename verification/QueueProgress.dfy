/** Every claim and every settled claim is one unit of work, and the queue has a fixed amount of it. */
module QueueProgress {
  import opened Common
  import opened NotificationQueries
  import opened QueueProtocol
  import opened QueueInvariant

  // ---- Sums over the rows of a table ----

  ghost function Total(f: Row -> int, rows: Table): int
    decreases |rows|
  {
    if rows == map[] then 0 else
    var id :| id in rows;
    WithoutOne(rows, id);
    f(rows[id]) + Total(f, rows - {id})
  }

  lemma WithoutOne(rows: Table, id: NotificationId)
    requires id in rows
    ensures |rows - {id}| == |rows| - 1
  {
    assert rows == (rows - {id})[id := rows[id]];
  }

  lemma {:induction false} TotalWithout(f: Row -> int, rows: Table, id: NotificationId)
    requires id in rows
    ensures Total(f, rows) == f(rows[id]) + Total(f, rows - {id})
    decreases |rows|
  {
    var first :| first in rows && Total(f, rows) == f(rows[first]) + Total(f, rows - {first});
    if first != id {
      WithoutOne(rows, first);
      WithoutOne(rows, id);
      TotalWithout(f, rows - {first}, id);
      TotalWithout(f, rows - {id}, first);
      assert rows - {first} - {id} == rows - {id} - {first};
    }
  }

  lemma TotalReplace(f: Row -> int, rows: Table, id: NotificationId, row: Row)
    requires id in rows
    ensures Total(f, rows[id := row]) == Total(f, rows) - f(rows[id]) + f(row)
  {
    TotalWithout(f, rows, id);
    TotalWithout(f, rows[id := row], id);
    assert rows[id := row] - {id} == rows - {id};
  }

  lemma TotalInsert(f: Row -> int, rows: Table, id: NotificationId, row: Row)
    requires id !in rows
    ensures Total(f, rows[id := row]) == Total(f, rows) + f(row)
  {
    TotalWithout(f, rows[id := row], id);
    assert rows[id := row] - {id} == rows;
  }

  lemma ClaimLast(rows: Table, ids: seq<NotificationId>, at: int, lease: int)
    requires Distinct(ids) && ids != [] && forall id :: id in ids ==> id in rows
    ensures var front, last := ids[..|ids| - 1], ids[|ids| - 1];
            var before := ClaimRows(rows, front, at, lease);
            && Distinct(front) && before[last] == rows[last]
            && ClaimRows(rows, ids, at, lease) == before[last := Claim(rows[last], at, lease)]
  {
    var front, last := ids[..|ids| - 1], ids[|ids| - 1];
    assert ids == front + [last] && last !in front;
  }

  // Claiming each of the rows changes the sum by `d` if it changes each of them by `d`.
  lemma {:induction false} TotalClaim(f: Row -> int, d: int, rows: Table, ids: seq<NotificationId>, at: int, lease: int)
    requires Distinct(ids)
    requires forall id :: id in ids ==> id in rows && f(Claim(rows[id], at, lease)) == f(rows[id]) + d
    ensures Total(f, ClaimRows(rows, ids, at, lease)) == Total(f, rows) + d * |ids|
    decreases |ids|
  {
    if ids == [] {
      assert ClaimRows(rows, ids, at, lease) == rows;
    } else {
      var front, last := ids[..|ids| - 1], ids[|ids| - 1];
      ClaimLast(rows, ids, at, lease);
      TotalClaim(f, d, rows, front, at, lease);
      TotalReplace(f, ClaimRows(rows, front, at, lease), last, Claim(rows[last], at, lease));
      OneMore(d, |front|);
    }
  }

  lemma OneMore(m: int, n: int)
    ensures m * (n + 1) == m * n + m
  {
  }

  ghost predicate AllEqual(f: Row -> int, m: int, rows: Table) {
    forall id :: id in rows ==> f(rows[id]) == m
  }

  lemma AllEqualWithout(f: Row -> int, m: int, rows: Table, id: NotificationId)
    requires id in rows
    ensures AllEqual(f, m, rows) <==> f(rows[id]) == m && AllEqual(f, m, rows - {id})
  {
    if f(rows[id]) == m && AllEqual(f, m, rows - {id}) {
      forall other | other in rows ensures f(rows[other]) == m {
        assert other == id || other in rows - {id};
      }
    }
  }

  // A sum of numbers up to `m` is the largest possible exactly if each of them is `m`.
  lemma {:induction false} TotalBound(f: Row -> int, m: int, rows: Table)
    requires forall id :: id in rows ==> f(rows[id]) <= m
    ensures Total(f, rows) <= m * |rows|
    ensures Total(f, rows) == m * |rows| <==> AllEqual(f, m, rows)
    decreases |rows|
  {
    if rows == map[] {
      assert |rows| == 0 && m * 0 == 0;
    } else {
      var id :| id in rows;
      TotalWithout(f, rows, id);
      WithoutOne(rows, id);
      TotalBound(f, m, rows - {id});
      AllEqualWithout(f, m, rows, id);
      assert m * |rows| == m * |rows - {id}| + m by {
        OneMore(m, |rows - {id}|);
      }
    }
  }

  // ---- Claims and settlements ----

  // How many rows a step claims or settles.
  function Handled(s: State, step: Step): nat {
    match step
    case Commit(w) => if w < |s.loops| && s.loops[w].Selecting? then |s.loops[w].ids| else 0
    case Write(_, _) => 1
    case _ => 0
  }

  function HandledIn(c: Config, s: State, tr: seq<Step>): nat {
    if tr == [] then 0 else
    var front, last := tr[..|tr| - 1], tr[|tr| - 1];
    HandledIn(c, s, front) + match Exec(c, s, front) case Some(t) => Handled(t, last) case None => 0
  }

  function Enqueued(tr: seq<Step>): nat {
    if tr == [] then 0 else
    Enqueued(tr[..|tr| - 1]) + if tr[|tr| - 1].Enqueue? then 1 else 0
  }

  lemma CommitClaims(c: Config, s: State, w: nat, f: Row -> int, d: int)
    requires Inv(c, s) && Enabled(c, s, Commit(w))
    requires forall row: Row, at: int :: row.status.Pending? ==> f(Claim(row, at, c.leaseSeconds)) == f(row) + d
    ensures Total(f, Committed(c, s, w).rows) == Total(f, s.rows) + d * |s.loops[w].ids|
  {
    assert LoopOk(c, s.now, s.rows, s.calls, s.loops[w]);
    var ids, at := s.loops[w].ids, s.loops[w].at;
    forall id | id in ids ensures s.rows[id].status.Pending? {
      var i :| 0 <= i < |ids| && ids[i] == id;
      assert Due(s.rows[ids[i]], at);
    }
    TotalClaim(f, d, s.rows, ids, at, c.leaseSeconds);
  }

  // ---- What has been done ----

  // The claims of a row and their settlements, so far.
  function Done(row: Row): int {
    2 * row.attempts - if row.status.Sending? then 1 else 0
  }

  lemma WriteDone(c: Config, s: State, w: nat, at: int)
    requires Inv(c, s) && Enabled(c, s, Write(w, at))
    ensures Total(Done, Apply(c, s, Write(w, at)).rows) == Total(Done, s.rows) + 1
  {
    var head, verdict := s.loops[w].batch[0], s.loops[w].phase.verdict;
    assert LoopOk(c, s.now, s.rows, s.calls, s.loops[w]) && Held(s.rows, head);
    TotalReplace(Done, s.rows, head.id, WrittenRow(s.rows[head.id], verdict, at));
  }

  lemma StepDone(c: Config, s: State, step: Step)
    requires ConfigOk(c) && Inv(c, s) && Enabled(c, s, step)
    ensures Total(Done, Apply(c, s, step).rows) == Total(Done, s.rows) + Handled(s, step)
  {
    match step
    case Enqueue(id, kind, to, payload, at) =>
      TotalInsert(Done, s.rows, id, Inserted(kind, to, payload, at));
    case Commit(w) => CommitClaims(c, s, w, Done, 1);
    case Write(w, at) => WriteDone(c, s, w, at);
    case _ =>
  }

  lemma StepSize(c: Config, s: State, step: Step)
    requires Enabled(c, s, step)
    ensures |Apply(c, s, step).rows| == |s.rows| + if step.Enqueue? then 1 else 0
  {
    var rows := Apply(c, s, step).rows;
    if step.Enqueue? {
      WithoutOne(rows, step.id);
      assert rows - {step.id} == s.rows;
    } else {
      assert rows.Keys == s.rows.Keys;
      assert |rows| == |rows.Keys| && |s.rows| == |s.rows.Keys|;
    }
  }

  // Over any run the claims and settlements are exactly what its rows gained, and its rows what was enqueued.
  lemma {:induction false} RunDone(c: Config, s: State, tr: seq<Step>)
    requires ConfigOk(c) && Inv(c, s) && Exec(c, s, tr).Some?
    ensures Total(Done, Exec(c, s, tr).value.rows) == Total(Done, s.rows) + HandledIn(c, s, tr)
    ensures |Exec(c, s, tr).value.rows| == |s.rows| + Enqueued(tr)
    decreases |tr|
  {
    if tr != [] {
      var front := tr[..|tr| - 1];
      RunDone(c, s, front);
      RunKeeps(c, s, front);
      StepDone(c, Exec(c, s, front).value, tr[|tr| - 1]);
      StepSize(c, Exec(c, s, front).value, tr[|tr| - 1]);
    }
  }

  // A service that was ever given n notifications performs at most 2 * n * maxAttempts claims and settlements, and
  // exactly that many if and only if each of them has had all its attempts and every attempt was settled.
  lemma QueueDrains(c: Config, now: int, tr: seq<Step>)
    requires ConfigOk(c) && Exec(c, Init(c, now), tr).Some?
    ensures HandledIn(c, Init(c, now), tr) <= 2 * c.maxAttempts * Enqueued(tr)
    ensures var rows := Exec(c, Init(c, now), tr).value.rows;
            |rows| == Enqueued(tr)
    ensures var rows := Exec(c, Init(c, now), tr).value.rows;
            HandledIn(c, Init(c, now), tr) == 2 * c.maxAttempts * Enqueued(tr) <==>
            forall id :: id in rows ==> rows[id].attempts == c.maxAttempts && !rows[id].status.Sending?
  {
    InitInv(c, now);
    RunDone(c, Init(c, now), tr);
    RunKeeps(c, Init(c, now), tr);
    var rows := Exec(c, Init(c, now), tr).value.rows;
    forall id | id in rows
      ensures Done(rows[id]) <= 2 * c.maxAttempts
      ensures Done(rows[id]) == 2 * c.maxAttempts <==>
              rows[id].attempts == c.maxAttempts && !rows[id].status.Sending?
    {
      assert RowOk(c, Exec(c, Init(c, now), tr).value.now, rows[id]);
    }
    TotalBound(Done, 2 * c.maxAttempts, rows);
  }

  // ---- What is left ----

  // The claims and settlements that may still happen to a row.
  function Left(c: Config): Row -> int {
    (row: Row) => if row.status.Terminal() then 0
                  else 2 * (c.maxAttempts - row.attempts) + if row.status.Sending? then 1 else 0
  }

  lemma WriteLeft(c: Config, s: State, w: nat, at: int)
    requires Inv(c, s) && Enabled(c, s, Write(w, at))
    ensures Total(Left(c), Apply(c, s, Write(w, at)).rows) + 1 <= Total(Left(c), s.rows)
  {
    var head, verdict := s.loops[w].batch[0], s.loops[w].phase.verdict;
    assert LoopOk(c, s.now, s.rows, s.calls, s.loops[w]) && Held(s.rows, head);
    assert RowOk(c, s.now, s.rows[head.id]);
    TotalReplace(Left(c), s.rows, head.id, WrittenRow(s.rows[head.id], verdict, at));
  }

  lemma StepLeft(c: Config, s: State, step: Step)
    requires ConfigOk(c) && Inv(c, s) && Enabled(c, s, step)
    ensures Total(Left(c), Apply(c, s, step).rows) + Handled(s, step)
         <= Total(Left(c), s.rows) + if step.Enqueue? then 2 * c.maxAttempts else 0
  {
    match step
    case Enqueue(id, kind, to, payload, at) =>
      TotalInsert(Left(c), s.rows, id, Inserted(kind, to, payload, at));
    case Commit(w) =>
      CommitClaims(c, s, w, Left(c), -1);
    case Write(w, at) => WriteLeft(c, s, w, at);
    case _ =>
  }

  lemma {:induction false} TotalIsNat(f: Row -> int, rows: Table)
    requires forall id :: id in rows ==> f(rows[id]) >= 0
    ensures Total(f, rows) >= 0
    decreases |rows|
  {
    if rows != map[] {
      var id :| id in rows && Total(f, rows) == f(rows[id]) + Total(f, rows - {id});
      WithoutOne(rows, id);
      TotalIsNat(f, rows - {id});
    }
  }

  lemma LeftIsNat(c: Config, s: State)
    requires Inv(c, s)
    ensures Total(Left(c), s.rows) >= 0
  {
    forall id | id in s.rows ensures Left(c)(s.rows[id]) >= 0 {
      assert RowOk(c, s.now, s.rows[id]);
    }
    TotalIsNat(Left(c), s.rows);
  }

  lemma {:induction false} RunLeft(c: Config, s: State, tr: seq<Step>)
    requires ConfigOk(c) && Inv(c, s) && Exec(c, s, tr).Some?
    ensures Total(Left(c), Exec(c, s, tr).value.rows) + HandledIn(c, s, tr)
         <= Total(Left(c), s.rows) + 2 * c.maxAttempts * Enqueued(tr)
    decreases |tr|
  {
    if tr != [] {
      var front := tr[..|tr| - 1];
      RunLeft(c, s, front);
      RunKeeps(c, s, front);
      StepLeft(c, Exec(c, s, front).value, tr[|tr| - 1]);
      OneMore(2 * c.maxAttempts, Enqueued(front));
    }
  }

  // Over any run: what was handled plus what is left is at most what there was plus what came in.
  lemma RunWork(c: Config, s: State, tr: seq<Step>)
    requires ConfigOk(c) && Inv(c, s) && Exec(c, s, tr).Some?
    ensures 0 <= Total(Left(c), Exec(c, s, tr).value.rows)
    ensures Total(Left(c), Exec(c, s, tr).value.rows) + HandledIn(c, s, tr)
         <= Total(Left(c), s.rows) + 2 * c.maxAttempts * Enqueued(tr)
  {
    RunLeft(c, s, tr);
    RunKeeps(c, s, tr);
    LeftIsNat(c, Exec(c, s, tr).value);
  }
}
