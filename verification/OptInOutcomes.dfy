/** What each statement of the opt-in flow does to the tables, exactly. */
module OptInOutcomes {
  import opened Common
  import opened SubscriberQueries
  import opened OptInProtocol
  import opened OptInInvariant
  import N = NotificationQueries

  // ---- The throttle ----

  // A confirmation to that address that has not failed and was queued less than `seconds` before `at`.
  ghost predicate Recent(rows: N.Table, n: N.NotificationId, email: string, seconds: int, at: int) {
    && n in rows && rows[n].kind == N.ConfirmEmail && rows[n].toEmail == email
    && (rows[n].status == N.Pending || rows[n].status == N.Sending || rows[n].status == N.Sent)
    && at - rows[n].createdAt < seconds * 1_000_000_000
  }

  // The throttle window counts in whole seconds, and no further than an int32 can count.
  lemma WindowInSeconds(c: Config)
    requires c.throttleWindow > 0
    ensures -0x8000_0000 <= WindowSeconds(c) < 0x8000_0000
    ensures (c.throttleWindow / 1_000_000_000 - WindowSeconds(c)) % 0x1_0000_0000 == 0
    ensures c.throttleWindow < 0x8000_0000 * 1_000_000_000 ==> WindowSeconds(c) == c.throttleWindow / 1_000_000_000
  {
  }

  // The test ends a request exactly if the throttle is on and some confirmation mail to that very address is recent.
  lemma ThrottleExactly(c: Config, s: State, h: HandlerId, at: int)
    requires ConfigOk(c) && Reachable(c, s) && Enabled(c, s, Throttle(h, at))
    ensures var email := s.handlers[h].email;
            var stopped := c.throttleWindow > 0
                        && exists n :: n in s.mails && Recent(s.queue.rows, n, email, WindowSeconds(c), at);
            Apply(c, s, Throttle(h, at))
            == s.(handlers := if stopped then s.handlers - {h} else s.handlers[h := Unthrottled(email, at)])
  {
    ReachableInv(c, s);
    StepByTest(c, s, h, at);
    assert s.queue.rows.Keys == s.mails.Keys;
    TestExactly(s.queue.rows, s.handlers[h].email, WindowSeconds(c), at);
    if n :| Recent(s.queue.rows, n, s.handlers[h].email, WindowSeconds(c), at) {
      assert n in s.mails;
    }
  }

  lemma TestExactly(rows: N.Table, email: string, seconds: int, at: int)
    ensures N.HasRecent(rows, email, N.ConfirmEmail, seconds, at) <==> exists n :: Recent(rows, n, email, seconds, at)
  {
    if N.HasRecent(rows, email, N.ConfirmEmail, seconds, at) {
      var n :| && n in rows && rows[n].toEmail == email && rows[n].kind == N.ConfirmEmail
               && rows[n].createdAt > at - seconds * SECOND && rows[n].status.Live();
      assert Recent(rows, n, email, seconds, at);
    }
    if n :| Recent(rows, n, email, seconds, at) {
      assert rows[n].createdAt > at - seconds * SECOND;
    }
  }

  // Nothing but the recent confirmations to the address matters: two states that agree on these, reachable or not,
  // decide alike, whatever other addresses, other kinds of mail and failed mails they hold.
  lemma OthersNeverThrottle(c: Config, s: State, t: State, h: HandlerId, at: int)
    requires Enabled(c, s, Throttle(h, at)) && Enabled(c, t, Throttle(h, at)) && t.handlers == s.handlers
    requires forall n :: Recent(s.queue.rows, n, s.handlers[h].email, WindowSeconds(c), at)
                    <==> Recent(t.queue.rows, n, s.handlers[h].email, WindowSeconds(c), at)
    ensures Apply(c, s, Throttle(h, at)).handlers == Apply(c, t, Throttle(h, at)).handlers
  {
    StepByTest(c, s, h, at);
    StepByTest(c, t, h, at);
    SameTest(s.queue.rows, t.queue.rows, s.handlers[h].email, WindowSeconds(c), at);
  }

  lemma StepByTest(c: Config, s: State, h: HandlerId, at: int)
    requires Enabled(c, s, Throttle(h, at))
    ensures var email := s.handlers[h].email;
            var stopped := c.throttleWindow > 0
                        && N.HasRecent(s.queue.rows, email, N.ConfirmEmail, WindowSeconds(c), at);
            Apply(c, s, Throttle(h, at))
            == s.(handlers := if stopped then s.handlers - {h} else s.handlers[h := Unthrottled(email, at)])
  {
  }

  lemma SameTest(rows: N.Table, other: N.Table, email: string, seconds: int, at: int)
    requires forall n :: Recent(rows, n, email, seconds, at) <==> Recent(other, n, email, seconds, at)
    ensures N.HasRecent(rows, email, N.ConfirmEmail, seconds, at)
       <==> N.HasRecent(other, email, N.ConfirmEmail, seconds, at)
  {
    TestExactly(rows, email, seconds, at);
    TestExactly(other, email, seconds, at);
  }

  // ---- The secret ----

  // A secret is drawn together with its expiry, which is counted from that moment.
  lemma SecretExactly(c: Config, s: State, step: Step)
    requires Enabled(c, s, step) && (step.MakeSecret? || step.BeginResend?)
    ensures var hash := c.keys.sha(step.raw);
            && hash !in s.minted
            && Apply(c, s, step).minted == s.minted[hash := Mint(step.raw, s.queue.now, s.queue.now + c.confirmTtl)]
  {
  }

  // ---- The upsert ----

  ghost predicate OthersUntouched(a: Table, b: Table, id: SubscriberId) {
    forall k :: k != id ==> (k in a <==> k in b) && (k in a ==> b[k] == a[k])
  }

  // The first value wins.
  ghost predicate FirstOf<T>(stored: Option<T>, given: Option<T>, after: Option<T>) {
    && (stored.Some? ==> after == stored)
    && (stored.None? ==> after == given)
  }

  ghost predicate Refreshed(a: Subscriber, b: Subscriber, u: Upsert, at: int) {
    && b.status == Pending && b.email == a.email && b.createdAt == a.createdAt && b.updatedAt == at
    && b.confirmHash == Some(u.hash) && b.confirmExpiresAt == Some(u.expiresAt)
    && FirstOf(a.source, u.source, b.source) && FirstOf(a.userId, u.userId, b.userId)
    && b.confirmedAt == None && b.unsubscribedAt == None
  }

  ghost predicate Entered(b: Subscriber, u: Upsert, at: int) {
    && b.status == Pending && b.email == u.email && b.createdAt == at && b.updatedAt == at
    && b.confirmHash == Some(u.hash) && b.confirmExpiresAt == Some(u.expiresAt)
    && b.source == u.source && b.userId == u.userId
    && b.confirmedAt == None && b.unsubscribedAt == None
  }

  // A new address enters the table, a pending row gets the new secret and keeps its source and owner if it has any, and
  // a settled row ends the request without a trace.
  ghost predicate UpsertOutcome(s: State, t: State, h: HandlerId, id: SubscriberId, u: Upsert, at: int) {
    && OthersUntouched(s.subs, t.subs, id)
    && (h in t.handlers <==> (forall k :: k in s.subs && s.subs[k].email == u.email ==> s.subs[k].status == Pending))
    && ((forall k :: k in s.subs ==> s.subs[k].email != u.email) ==> id in t.subs && Entered(t.subs[id], u, at))
    && (forall k :: k in s.subs && s.subs[k].email == u.email && s.subs[k].status == Pending ==>
          k == id && id in t.subs && Refreshed(s.subs[id], t.subs[id], u, at))
    && ((exists k :: k in s.subs && s.subs[k].email == u.email && s.subs[k].status != Pending) ==> t.subs == s.subs)
  }

  lemma UpsertExactly(c: Config, s: State, h: HandlerId, id: SubscriberId, u: Upsert, at: int,
                      notBefore: Option<int>, owner: SubscriberId)
    requires SubsOk(s.subs) && h in s.handlers && UpsertTarget(s.subs, u.email, id)
    ensures UpsertOutcome(s, Upserted(c, s, h, id, u, at, notBefore, owner), h, id, u, at)
  {
    forall k | k in s.subs && s.subs[k].email == u.email ensures k == id && RowOk(s.subs[id]) {
    }
  }

  lemma StoreExactly(c: Config, s: State, step: Step)
    requires ConfigOk(c) && Reachable(c, s) && step.Store? && Enabled(c, s, step)
    ensures var k := s.handlers[step.h];
            k.hash in s.minted
            && UpsertOutcome(s, Apply(c, s, step), step.h, step.id,
                             Upsert(k.email, k.hash, s.minted[k.hash].expiresAt, step.source, step.userId), step.at)
  {
    ReachableInv(c, s);
    var k := s.handlers[step.h];
    var u := Upsert(k.email, k.hash, s.minted[k.hash].expiresAt, step.source, step.userId);
    UpsertExactly(c, s, step.h, step.id, u, step.at, Some(k.checkedAt), step.id);
  }

  // An upsert with the stored source and no owner changes the secret only.
  lemma RefreshedRow(t: Table, id: SubscriberId, u: Upsert, at: int)
    requires id in t && u.userId == None && (u.source.Some? ==> t[id].source == u.source)
    requires u.source.None? || t[id].source.Some?
    ensures UpsertPending(t, id, u, at)
         == if t[id].status != Pending then t
            else t[id := t[id].(confirmHash := Some(u.hash), confirmExpiresAt := Some(u.expiresAt), updatedAt := at)]
  {
  }

  // A resend replaces the secret of its pending row and nothing else that identifies it.
  lemma ResendExactly(c: Config, s: State, h: HandlerId, id: SubscriberId, at: int)
    requires ConfigOk(c) && Reachable(c, s) && Enabled(c, s, StoreAgain(h, id, at))
    ensures var k, t := s.handlers[h], Apply(c, s, StoreAgain(h, id, at));
            && id == k.id && id in s.subs && k.hash in s.minted
            && (h in t.handlers <==> s.subs[id].status == Pending)
            && t.subs == if s.subs[id].status != Pending then s.subs
                         else s.subs[id := s.subs[id].(confirmHash := Some(k.hash),
                                                       confirmExpiresAt := Some(s.minted[k.hash].expiresAt),
                                                       updatedAt := at)]
  {
    ReachableInv(c, s);
    assert HandlerOk(c, s.subs, s.minted, s.home, s.handlers[h]);
    ResendTarget(c, s, h, id);
    var k := s.handlers[h];
    RefreshedRow(s.subs, id, Upsert(k.email, k.hash, s.minted[k.hash].expiresAt, k.source, None), at);
  }

  // It reads a pending row, and stops at any other and at a missing one.
  lemma ReadExactly(c: Config, s: State, h: HandlerId)
    requires Enabled(c, s, Read(h))
    ensures var id, t := s.handlers[h].id, Apply(c, s, Read(h));
            && (h in t.handlers <==> id in s.subs && s.subs[id].status == Pending)
            && (h in t.handlers ==>
                  t.handlers[h] == ReadPending(id, s.subs[id].email, s.subs[id].source, s.handlers[h].hash))
            && t == s.(handlers := t.handlers)
  {
  }

  // ---- The mail ----

  // One new mail, due at once, to the address the request was made for; no other mail changes.
  lemma QueueExactly(c: Config, s: State, step: Step)
    requires Enabled(c, s, step) && step.Queue?
    ensures var k, rows := s.handlers[step.h], Apply(c, s, step).queue.rows;
            && step.mail !in s.queue.rows && step.mail in rows && rows == s.queue.rows[step.mail := rows[step.mail]]
            && var row := rows[step.mail];
               && row.kind == N.ConfirmEmail && row.toEmail == k.email && row.status == N.Pending && row.attempts == 0
               && row.createdAt == step.at && (forall later :: N.Due(row, later) <==> step.at <= later)
               && row.payload == N.ConfirmLinks(ConfirmToken(c, s.minted[k.hash]),
                                                UnsubscribeToken(c, k.id, step.issuedAt))
  {
  }

  // ---- Confirming and unsubscribing ----

  lemma ConfirmedRow(t: Table, id: SubscriberId, at: int)
    requires id in t && RowOk(t[id])
    ensures ConfirmById(t, id, at)
         == if t[id].status == Unsubscribed then t
            else t[id := t[id].(status := Confirmed, confirmHash := None, confirmExpiresAt := None, updatedAt := at,
                                confirmedAt := if t[id].status == Pending then Some(at) else t[id].confirmedAt)]
  {
  }

  // The update confirms the row unless it was unsubscribed: the secret is gone, the first confirmation time stays, and
  // nothing else changes.
  lemma ConfirmExactly(c: Config, s: State, h: HandlerId, at: int)
    requires ConfigOk(c) && Reachable(c, s) && Enabled(c, s, Confirm(h, at))
    ensures var id, t := s.handlers[h].id, Apply(c, s, Confirm(h, at));
            && id in s.subs && h !in t.handlers && t.queue == s.queue
            && t.subs == if s.subs[id].status == Unsubscribed then s.subs
                         else s.subs[id := s.subs[id].(
                                status := Confirmed, confirmHash := None, confirmExpiresAt := None, updatedAt := at,
                                confirmedAt := if s.subs[id].status == Pending then Some(at)
                                               else s.subs[id].confirmedAt)]
  {
    ReachableInv(c, s);
    assert HandlerOk(c, s.subs, s.minted, s.home, s.handlers[h]);
    ConfirmedRow(s.subs, s.handlers[h].id, at);
  }

  // A token that names a row unsubscribes it for good, pending or confirmed: the secret is gone, the time is kept, and
  // nothing else changes.
  lemma UnsubscribeExactly(c: Config, s: State, step: Step)
    requires Enabled(c, s, step) && step.Unsubscribe?
    ensures var id, t := UnsubscribeTarget(c, step.token, step.verifiedAt).value, Apply(c, s, step);
            && t.queue == s.queue && t.handlers == s.handlers
            && t.subs == if id !in s.subs || s.subs[id].status == Unsubscribed then s.subs
                         else s.subs[id := s.subs[id].(
                                status := Unsubscribed, unsubscribedAt := Some(step.at),
                                confirmHash := None, confirmExpiresAt := None, updatedAt := step.at)]
  {
  }
}
