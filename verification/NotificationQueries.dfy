/** The `notifications` and `email_log` tables and the meaning of each statement the queue runs on them. */
module NotificationQueries {
  import opened Common

  type NotificationId = nat

  datatype Kind = ConfirmEmail | Broadcast | Unknown(name: string)

  /** The stored JSON, as far as the worker and the mail's recipient can tell it apart. */
  datatype Payload =
    | ConfirmLinks(confirmToken: string, unsubscribeToken: string)
    | BroadcastMail(text: string)
    | Malformed

  datatype Status = Pending | Sending | Sent | Failed | Dead
  {
    predicate Terminal() {
      Sent? || Failed? || Dead?
    }

    // The statuses the per-address throttle counts.
    predicate Live() {
      Pending? || Sending? || Sent?
    }
  }

  datatype Row = Row(
    kind: Kind,
    toEmail: string,
    payload: Payload,
    status: Status,
    attempts: int,
    nextAttemptAt: int,
    lockedUntil: Option<int>,
    createdAt: int,
    updatedAt: int)

  type Table = map<NotificationId, Row>

  /** An audit row; `recipient` is the address whose keyed hash is stored. */
  datatype LogRow = LogRow(notification: NotificationId, recipient: string, status: Status)

  /** What `RETURNING` hands to the worker. */
  datatype ClaimedRow = ClaimedRow(
    id: NotificationId,
    kind: Kind,
    toEmail: string,
    payload: Payload,
    attempts: int)

  predicate Due(row: Row, at: int) {
    && row.status.Pending?
    && row.nextAttemptAt <= at
    && (row.lockedUntil.None? || row.lockedUntil.value <= at)
  }

  predicate Distinct<T(==)>(s: seq<T>) {
    forall i, j :: 0 <= i < j < |s| ==> s[i] != s[j]
  }

  /** The rows the common table expression of a claim may lock: due rows that nobody else has locked, no more than the
      limit. */
  predicate Lockable(rows: Table, at: int, locked: set<NotificationId>, limit: nat, ids: seq<NotificationId>) {
    && Distinct(ids)
    && |ids| <= limit
    && (forall i :: 0 <= i < |ids| ==> ids[i] in rows && ids[i] !in locked && Due(rows[ids[i]], at))
  }

  /** What a claim locks when its snapshot is still current: as many as the limit allows, the earliest first. Ties and
      the order of the result are left to the database. */
  predicate DueChoice(rows: Table, at: int, locked: set<NotificationId>, limit: nat, ids: seq<NotificationId>) {
    && Lockable(rows, at, locked, limit, ids)
    && (forall id :: id in rows && id !in locked && id !in ids && Due(rows[id], at) ==>
          && |ids| == limit
          && forall i :: 0 <= i < |ids| ==> rows[ids[i]].nextAttemptAt <= rows[id].nextAttemptAt)
  }

  function Claim(row: Row, at: int, leaseSeconds: int): Row {
    row.(status := Sending,
         attempts := row.attempts + 1,
         lockedUntil := Some(at + leaseSeconds * SECOND),
         updatedAt := at)
  }

  function ClaimRows(rows: Table, ids: seq<NotificationId>, at: int, leaseSeconds: int): (r: Table)
    ensures r.Keys == rows.Keys
    ensures forall id :: id in rows ==> r[id] == if id in ids then Claim(rows[id], at, leaseSeconds) else rows[id]
  {
    map id | id in rows :: if id in ids then Claim(rows[id], at, leaseSeconds) else rows[id]
  }

  function Returned(rows: Table, id: NotificationId): ClaimedRow
    requires id in rows
  {
    ClaimedRow(id, rows[id].kind, rows[id].toEmail, rows[id].payload, rows[id].attempts)
  }

  function Mark(row: Row, status: Status, at: int): Row {
    row.(status := status, lockedUntil := None, updatedAt := at)
  }

  function Reschedule(row: Row, next: int, at: int): Row {
    row.(status := Pending, nextAttemptAt := next, lockedUntil := None, updatedAt := at)
  }

  function Inserted(kind: Kind, toEmail: string, payload: Payload, at: int): Row {
    Row(kind, toEmail, payload, Pending, 0, at, None, at, at)
  }

  function SentSince(rows: Table, since: int): set<NotificationId> {
    set id | id in rows && rows[id].status.Sent? && rows[id].updatedAt > since
  }

  function SendsLastDay(rows: Table, at: int): nat {
    |SentSince(rows, at - DAY)|
  }

  predicate HasRecent(rows: Table, email: string, kind: Kind, windowSeconds: int, at: int) {
    exists id :: && id in rows
                 && rows[id].toEmail == email
                 && rows[id].kind == kind
                 && rows[id].createdAt > at - windowSeconds * SECOND
                 && rows[id].status.Live()
  }

  // How a claim can be computed: take the earliest unlocked due row until the limit is reached or none is left.
  method SelectDue(rows: Table, at: int, locked: set<NotificationId>, limit: nat) returns (ids: seq<NotificationId>)
    ensures DueChoice(rows, at, locked, limit, ids)
  {
    ids := [];
    var left := set id | id in rows && id !in locked && Due(rows[id], at);
    while |ids| < limit && left != {}
      invariant |ids| <= limit
      invariant Distinct(ids)
      invariant forall i :: 0 <= i < |ids| ==> ids[i] in rows && ids[i] !in locked && Due(rows[ids[i]], at)
      invariant forall id :: id in left <==> id in rows && id !in locked && Due(rows[id], at) && id !in ids
      invariant forall i, id :: 0 <= i < |ids| && id in left ==> rows[ids[i]].nextAttemptAt <= rows[id].nextAttemptAt
    {
      var first :| first in left;
      var rest := left - {first};
      while rest != {}
        invariant first in left && rest <= left
        invariant forall id :: id in left && id !in rest ==> rows[first].nextAttemptAt <= rows[id].nextAttemptAt
      {
        var id :| id in rest;
        if rows[id].nextAttemptAt < rows[first].nextAttemptAt {
          first := id;
        }
        rest := rest - {id};
      }
      ids := ids + [first];
      left := left - {first};
    }
  }
}
