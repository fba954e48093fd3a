/** The `subscribers` table and the meaning of the guarded statements the opt-in flow runs on it. */
module SubscriberQueries {
  import opened Common

  type SubscriberId = nat

  datatype Status = Pending | Confirmed | Unsubscribed

  datatype Subscriber = Subscriber(
    email: string,
    status: Status,
    confirmHash: Option<Bytes>,
    confirmExpiresAt: Option<int>,
    confirmedAt: Option<int>,
    unsubscribedAt: Option<int>,
    source: Option<string>,
    userId: Option<Bytes>,
    createdAt: int,
    updatedAt: int)

  type Table = map<SubscriberId, Subscriber>

  /** The arguments of the upsert. */
  datatype Upsert = Upsert(email: string, hash: Bytes, expiresAt: int, source: Option<string>, userId: Option<Bytes>)

  /** The table constraint `subscribers_pending_clean`. */
  predicate PendingClean(s: Subscriber) {
    || (s.status.Pending? && s.confirmedAt.None? && s.unsubscribedAt.None?)
    || (s.status.Confirmed? && s.confirmedAt.Some? && s.unsubscribedAt.None?)
    || (s.status.Unsubscribed? && s.unsubscribedAt.Some?)
  }

  function Coalesce<T>(a: Option<T>, b: Option<T>): Option<T> {
    if a.Some? then a else b
  }

  /** `id` is the row the upsert hits: the one with that address, or a new one if there is none. */
  predicate UpsertTarget(t: Table, email: string, id: SubscriberId) {
    if id in t then t[id].email == email else forall k :: k in t ==> t[k].email != email
  }

  // False when the conflicting row is not pending: the statement then changes nothing and returns no row.
  predicate UpsertReturns(t: Table, id: SubscriberId) {
    id in t ==> t[id].status.Pending?
  }

  function UpsertPending(t: Table, id: SubscriberId, u: Upsert, at: int): Table {
    if id !in t then
      t[id := Subscriber(u.email, Pending, Some(u.hash), Some(u.expiresAt), None, None, u.source, u.userId, at, at)]
    else if t[id].status.Pending? then
      t[id := t[id].(confirmHash := Some(u.hash),
                     confirmExpiresAt := Some(u.expiresAt),
                     source := Coalesce(t[id].source, u.source),
                     userId := Coalesce(t[id].userId, u.userId),
                     updatedAt := at)]
    else t
  }

  predicate HasPendingHash(t: Table, id: SubscriberId, hash: Bytes) {
    id in t && t[id].status.Pending? && t[id].confirmHash == Some(hash)
  }

  predicate ConfirmMatches(t: Table, id: SubscriberId) {
    id in t && (t[id].status.Pending? || t[id].status.Confirmed?) && t[id].unsubscribedAt.None?
  }

  function ConfirmById(t: Table, id: SubscriberId, at: int): Table {
    if ConfirmMatches(t, id) then
      t[id := t[id].(status := Confirmed,
                     confirmedAt := Coalesce(t[id].confirmedAt, Some(at)),
                     confirmHash := None,
                     confirmExpiresAt := None,
                     updatedAt := at)]
    else t
  }

  function UnsubscribeById(t: Table, id: SubscriberId, at: int): Table {
    if id in t && !t[id].status.Unsubscribed? then
      t[id := t[id].(status := Unsubscribed,
                     unsubscribedAt := Some(at),
                     confirmHash := None,
                     confirmExpiresAt := None,
                     updatedAt := at)]
    else t
  }
}
