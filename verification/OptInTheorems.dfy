/** What the opt-in flow guarantees over whole runs, however its handlers interleave. */
module OptInTheorems {
  import opened Common
  import opened Runs
  import opened SubscriberQueries
  import opened OptInProtocol
  import opened OptInInvariant
  import N = NotificationQueries
  import T = Tokens

  // ---- Lifecycle ----

  // Addresses never change, source and owner stay once they are set, confirmed never turns back, the first confirmation
  // time stays, and an unsubscribed row is never touched again.
  ghost predicate Later(a: Subscriber, b: Subscriber) {
    && b.email == a.email
    && b.createdAt == a.createdAt
    && (a.source.Some? ==> b.source == a.source)
    && (a.userId.Some? ==> b.userId == a.userId)
    && (a.status.Confirmed? ==> !b.status.Pending?)
    && (a.confirmedAt.Some? ==> b.confirmedAt == a.confirmedAt)
    && (a.status.Unsubscribed? ==> b == a)
  }

  ghost predicate TableLater(a: Table, b: Table) {
    forall id :: id in a ==> id in b && Later(a[id], b[id])
  }

  // The only writes to the table.
  function SubsAfter(c: Config, s: State, step: Step): Table
    requires Enabled(c, s, step)
  {
    match step
    case Store(h, id, source, userId, at) =>
      var k := s.handlers[h];
      UpsertPending(s.subs, id, Upsert(k.email, k.hash, s.minted[k.hash].expiresAt, source, userId), at)
    case StoreAgain(h, id, at) =>
      var k := s.handlers[h];
      UpsertPending(s.subs, id, Upsert(k.email, k.hash, s.minted[k.hash].expiresAt, k.source, None), at)
    case Confirm(h, at) => ConfirmById(s.subs, s.handlers[h].id, at)
    case Unsubscribe(token, verifiedAt, at) =>
      UnsubscribeById(s.subs, UnsubscribeTarget(c, token, verifiedAt).value, at)
    case _ => s.subs
  }

  lemma TableWrites(c: Config, s: State, step: Step)
    requires Enabled(c, s, step)
    ensures Apply(c, s, step).subs == SubsAfter(c, s, step)
  {
  }

  lemma StepLater(c: Config, s: State, step: Step)
    requires Enabled(c, s, step) && SubsOk(s.subs)
    ensures TableLater(s.subs, Apply(c, s, step).subs)
  {
    TableWrites(c, s, step);
    match step
    case Store(h, id, source, userId, at) =>
      var k := s.handlers[h];
      UpsertLater(s.subs, id, Upsert(k.email, k.hash, s.minted[k.hash].expiresAt, source, userId), at);
    case StoreAgain(h, id, at) =>
      var k := s.handlers[h];
      UpsertLater(s.subs, id, Upsert(k.email, k.hash, s.minted[k.hash].expiresAt, k.source, None), at);
    case Confirm(h, at) => ConfirmLater(s.subs, s.handlers[h].id, at);
    case Unsubscribe(token, verifiedAt, at) =>
      UnsubscribeLater(s.subs, UnsubscribeTarget(c, token, verifiedAt).value, at);
    case _ =>
  }

  lemma UpsertLater(t: Table, id: SubscriberId, u: Upsert, at: int)
    requires SubsOk(t)
    ensures TableLater(t, UpsertPending(t, id, u, at))
  {
    assert id in t ==> RowOk(t[id]);
  }

  lemma ConfirmLater(t: Table, id: SubscriberId, at: int)
    requires SubsOk(t)
    ensures TableLater(t, ConfirmById(t, id, at))
  {
    assert id in t ==> RowOk(t[id]);
  }

  lemma UnsubscribeLater(t: Table, id: SubscriberId, at: int)
    requires SubsOk(t)
    ensures TableLater(t, UnsubscribeById(t, id, at))
  {
    assert id in t ==> RowOk(t[id]);
  }

  lemma {:induction false} LifecycleForward(c: Config, s: State, tr: seq<Step>)
    requires ConfigOk(c) && Inv(c, s) && Exec(c, s, tr).Some?
    ensures TableLater(s.subs, Exec(c, s, tr).value.subs)
    decreases |tr|
  {
    if tr != [] {
      var front := tr[..|tr| - 1];
      LifecycleForward(c, s, front);
      RunKeeps(c, s, front);
      StepLater(c, Exec(c, s, front).value, tr[|tr| - 1]);
    }
  }

  // Every reachable row meets the table constraint, and carries a confirm hash exactly while it is pending.
  lemma TableStaysClean(c: Config, s: State, id: SubscriberId)
    requires ConfigOk(c) && Reachable(c, s) && id in s.subs
    ensures PendingClean(s.subs[id])
    ensures s.subs[id].confirmHash.Some? <==> s.subs[id].status.Pending?
    ensures s.subs[id].confirmExpiresAt.Some? <==> s.subs[id].status.Pending?
  {
    ReachableInv(c, s);
    assert RowOk(s.subs[id]);
  }

  // ---- Double opt-in ----

  ghost function StateAt(c: Config, s: State, tr: seq<Step>, i: nat): State
    requires Exec(c, s, tr).Some? && i <= |tr|
  {
    RunPrefix(Transition(c), s, tr, i);
    Exec(c, s, tr[..i]).value
  }

  lemma Steps(c: Config, s: State, tr: seq<Step>, i: nat)
    requires Exec(c, s, tr).Some? && i < |tr|
    ensures Enabled(c, StateAt(c, s, tr, i), tr[i])
    ensures StateAt(c, s, tr, i + 1) == Apply(c, StateAt(c, s, tr, i), tr[i])
  {
    RunPrefix(Transition(c), s, tr, i);
  }

  predicate IsConfirmed(s: State, id: SubscriberId) {
    id in s.subs && s.subs[id].status.Confirmed?
  }

  // Step k of the run is the update of a confirmation that turns row `id` from pending to confirmed.
  ghost predicate ConfirmsAt(c: Config, s: State, tr: seq<Step>, k: nat, id: SubscriberId, found: Handler)
    requires Exec(c, s, tr).Some? && k < |tr|
  {
    && tr[k].Confirm?
    && tr[k].h in StateAt(c, s, tr, k).handlers
    && StateAt(c, s, tr, k).handlers[tr[k].h] == found
    && found.Found? && found.id == id
    && id in StateAt(c, s, tr, k).subs && StateAt(c, s, tr, k).subs[id].status.Pending?
    && IsConfirmed(StateAt(c, s, tr, k + 1), id)
  }

  // Step j is the lookup that gave handler `h` its row: pending then, with the hash of the bytes of the token.
  ghost predicate LooksUpAt(c: Config, s: State, tr: seq<Step>, j: nat, h: HandlerId, found: Handler)
    requires Exec(c, s, tr).Some? && j < |tr| && found.Found?
  {
    && tr[j] == Lookup(h, found.id)
    && h in StateAt(c, s, tr, j).handlers
    && StateAt(c, s, tr, j).handlers[h] == Confirming(found.token, found.subject, found.verifiedAt)
    && HasPendingHash(StateAt(c, s, tr, j).subs, found.id, c.keys.sha(found.subject))
    && found.seen == StateAt(c, s, tr, j).subs[found.id]
  }

  // Step i verified the token as a confirm token of this service.
  ghost predicate VerifiesAt(c: Config, s: State, tr: seq<Step>, i: nat, h: HandlerId, found: Handler)
    requires Exec(c, s, tr).Some? && i < |tr| && found.Found?
  {
    && tr[i] == OpenConfirm(h, found.token)
    && StateAt(c, s, tr, i).queue.now == found.verifiedAt
    && T.Verify(c.keys.mac, found.token, T.ConfirmSubscriber, found.verifiedAt) == Ok(found.subject)
  }

  // Step i stored that hash for the row, on behalf of HandleSubscribe or EnqueueConfirm.
  ghost predicate StoresAt(c: Config, s: State, tr: seq<Step>, i: nat, id: SubscriberId, hash: Bytes)
    requires Exec(c, s, tr).Some? && i < |tr|
  {
    && (tr[i].Store? || tr[i].StoreAgain?)
    && tr[i].id == id
    && tr[i].h in StateAt(c, s, tr, i).handlers
    && Unstored(StateAt(c, s, tr, i).handlers[tr[i].h]) == Some(hash)
    && HasPendingHash(StateAt(c, s, tr, i + 1).subs, id, hash)
  }

  // The handler is in that state from after step i up to step j.
  ghost predicate Keeps(c: Config, s: State, tr: seq<Step>, i: nat, j: nat, h: HandlerId, k: Handler)
    requires Exec(c, s, tr).Some?
  {
    forall n :: i < n <= j <= |tr| ==> Holds(StateAt(c, s, tr, n), h, k)
  }

  // The hash is current for the row from after step i up to step j.
  ghost predicate StaysCurrent(c: Config, s: State, tr: seq<Step>, i: nat, j: nat, id: SubscriberId, hash: Bytes)
    requires Exec(c, s, tr).Some?
  {
    forall n :: i < n <= j <= |tr| ==> HasPendingHash(StateAt(c, s, tr, n).subs, id, hash)
  }

  // A row is confirmed only because, earlier in the run and in this order, its hash was stored for it and stayed
  // current, a request that had verified a token whose bytes have that hash found the row pending, and that same
  // request, which has been waiting with the row ever since, updated it.
  lemma ConfirmedWasOptedIn(c: Config, now: int, tr: seq<Step>, id: SubscriberId)
    returns (m: nat, i: nat, j: nat, k: nat, found: Handler)
    requires ConfigOk(c) && Exec(c, Init(c, now), tr).Some? && IsConfirmed(Exec(c, Init(c, now), tr).value, id)
    ensures i < j < k < |tr| && m < j
    ensures ConfirmsAt(c, Init(c, now), tr, k, id, found)
    ensures LooksUpAt(c, Init(c, now), tr, j, tr[k].h, found)
    ensures VerifiesAt(c, Init(c, now), tr, m, tr[k].h, found)
    ensures StoresAt(c, Init(c, now), tr, i, id, c.keys.sha(found.subject))
    ensures StaysCurrent(c, Init(c, now), tr, i, j, id, c.keys.sha(found.subject))
    ensures Keeps(c, Init(c, now), tr, m, j, tr[k].h, Confirming(found.token, found.subject, found.verifiedAt))
    ensures Keeps(c, Init(c, now), tr, j, k, tr[k].h, found)
  {
    k, found := ConfirmingStep(c, now, tr, id);
    j := LookupStep(c, now, tr, k, tr[k].h, found);
    m := VerifyStep(c, now, tr, j, tr[k].h, found);
    i := StoreStep(c, now, tr, j, id, c.keys.sha(found.subject));
  }

  lemma ConfirmingStep(c: Config, now: int, tr: seq<Step>, id: SubscriberId) returns (k: nat, found: Handler)
    requires ConfigOk(c) && Exec(c, Init(c, now), tr).Some? && IsConfirmed(Exec(c, Init(c, now), tr).value, id)
    ensures k < |tr| && ConfirmsAt(c, Init(c, now), tr, k, id, found)
  {
    var s := Init(c, now);
    var p := seq(|tr| + 1, i requires 0 <= i <= |tr| => IsConfirmed(StateAt(c, s, tr, i), id));
    assert tr[..|tr|] == tr;
    k := BecameTrue(p);
    Steps(c, s, tr, k);
    InvAt(c, now, tr, k);
    var before := StateAt(c, s, tr, k);
    OnlyConfirmConfirms(c, before, tr[k], id);
    found := before.handlers[tr[k].h];
  }

  lemma InvAt(c: Config, now: int, tr: seq<Step>, i: nat)
    requires ConfigOk(c) && Exec(c, Init(c, now), tr).Some? && i <= |tr|
    ensures Inv(c, StateAt(c, Init(c, now), tr, i))
  {
    InitInv(c, now);
    RunPrefix(Transition(c), Init(c, now), tr, i);
    RunKeeps(c, Init(c, now), tr[..i]);
  }

  lemma OnlyConfirmConfirms(c: Config, s: State, step: Step, id: SubscriberId)
    requires Inv(c, s) && Enabled(c, s, step)
    requires !IsConfirmed(s, id) && IsConfirmed(Apply(c, s, step), id)
    ensures step.Confirm? && s.handlers[step.h].id == id && id in s.subs && s.subs[id].status.Pending?
  {
    TableWrites(c, s, step);
    assert id in s.subs ==> RowOk(s.subs[id]);
  }

  // The last time a handler came into a state it is in now.
  lemma HoldsSince(c: Config, s: State, tr: seq<Step>, k: nat, h: HandlerId, want: Handler) returns (j: nat)
    requires Exec(c, s, tr).Some? && k <= |tr| && !Holds(s, h, want) && Holds(StateAt(c, s, tr, k), h, want)
    ensures j < k && !Holds(StateAt(c, s, tr, j), h, want) && Holds(StateAt(c, s, tr, j + 1), h, want)
    ensures Keeps(c, s, tr, j, k, h, want)
  {
    var p := seq(k + 1, i requires 0 <= i <= k => Holds(StateAt(c, s, tr, i), h, want));
    assert p[0] == Holds(s, h, want) by {
      assert tr[..0] == [];
    }
    assert p[k];
    j := BecameTrue(p);
    assert p[j + 1] && !p[j];
    forall n | j < n <= k ensures Holds(StateAt(c, s, tr, n), h, want) {
      assert p[n];
    }
  }

  // The last time a hash became current for a row.
  lemma CurrentSince(c: Config, s: State, tr: seq<Step>, k: nat, id: SubscriberId, hash: Bytes) returns (j: nat)
    requires Exec(c, s, tr).Some? && k <= |tr|
    requires !HasPendingHash(s.subs, id, hash) && HasPendingHash(StateAt(c, s, tr, k).subs, id, hash)
    ensures j < k && !HasPendingHash(StateAt(c, s, tr, j).subs, id, hash)
    ensures HasPendingHash(StateAt(c, s, tr, j + 1).subs, id, hash)
    ensures StaysCurrent(c, s, tr, j, k, id, hash)
  {
    var p := seq(k + 1, i requires 0 <= i <= k => HasPendingHash(StateAt(c, s, tr, i).subs, id, hash));
    assert p[0] == HasPendingHash(s.subs, id, hash) by {
      assert tr[..0] == [];
    }
    assert p[k];
    j := BecameTrue(p);
    assert p[j + 1] && !p[j];
    forall n | j < n <= k ensures HasPendingHash(StateAt(c, s, tr, n).subs, id, hash) {
      assert p[n];
    }
  }

  lemma LookupStep(c: Config, now: int, tr: seq<Step>, k: nat, h: HandlerId, found: Handler) returns (j: nat)
    requires ConfigOk(c) && Exec(c, Init(c, now), tr).Some? && k <= |tr| && found.Found?
    requires Holds(StateAt(c, Init(c, now), tr, k), h, found)
    ensures j < k && LooksUpAt(c, Init(c, now), tr, j, h, found) && Keeps(c, Init(c, now), tr, j, k, h, found)
  {
    var s := Init(c, now);
    j := HoldsSince(c, s, tr, k, h, found);
    Steps(c, s, tr, j);
    OnlyLookupFinds(c, StateAt(c, s, tr, j), tr[j], h, found);
  }

  predicate Holds(s: State, h: HandlerId, k: Handler) {
    h in s.handlers && s.handlers[h] == k
  }

  lemma OnlyLookupFinds(c: Config, s: State, step: Step, h: HandlerId, found: Handler)
    requires Enabled(c, s, step) && found.Found?
    requires !Holds(s, h, found) && Holds(Apply(c, s, step), h, found)
    ensures step == Lookup(h, found.id)
    ensures Holds(s, h, Confirming(found.token, found.subject, found.verifiedAt))
    ensures HasPendingHash(s.subs, found.id, c.keys.sha(found.subject)) && found.seen == s.subs[found.id]
  {
  }

  lemma VerifyStep(c: Config, now: int, tr: seq<Step>, j: nat, h: HandlerId, found: Handler) returns (m: nat)
    requires ConfigOk(c) && Exec(c, Init(c, now), tr).Some? && j <= |tr| && found.Found?
    requires Holds(StateAt(c, Init(c, now), tr, j), h, Confirming(found.token, found.subject, found.verifiedAt))
    ensures m < j && VerifiesAt(c, Init(c, now), tr, m, h, found)
    ensures Keeps(c, Init(c, now), tr, m, j, h, Confirming(found.token, found.subject, found.verifiedAt))
  {
    var s := Init(c, now);
    var open := Confirming(found.token, found.subject, found.verifiedAt);
    m := HoldsSince(c, s, tr, j, h, open);
    Steps(c, s, tr, m);
    OnlyOpenVerifies(c, StateAt(c, s, tr, m), tr[m], h, open);
  }

  lemma OnlyOpenVerifies(c: Config, s: State, step: Step, h: HandlerId, open: Handler)
    requires Enabled(c, s, step) && open.Confirming?
    requires !Holds(s, h, open) && Holds(Apply(c, s, step), h, open)
    ensures step == OpenConfirm(h, open.token) && open.verifiedAt == s.queue.now
    ensures T.Verify(c.keys.mac, open.token, T.ConfirmSubscriber, s.queue.now) == Ok(open.subject)
  {
  }

  lemma StoreStep(c: Config, now: int, tr: seq<Step>, j: nat, id: SubscriberId, hash: Bytes) returns (i: nat)
    requires ConfigOk(c) && Exec(c, Init(c, now), tr).Some? && j <= |tr|
    requires HasPendingHash(StateAt(c, Init(c, now), tr, j).subs, id, hash)
    ensures i < j && StoresAt(c, Init(c, now), tr, i, id, hash) && StaysCurrent(c, Init(c, now), tr, i, j, id, hash)
  {
    var s := Init(c, now);
    i := CurrentSince(c, s, tr, j, id, hash);
    Steps(c, s, tr, i);
    InvAt(c, now, tr, i);
    OnlyUpsertStores(c, StateAt(c, s, tr, i), tr[i], id, hash);
  }

  lemma OnlyUpsertStores(c: Config, s: State, step: Step, id: SubscriberId, hash: Bytes)
    requires Enabled(c, s, step) && Inv(c, s)
    requires !HasPendingHash(s.subs, id, hash) && HasPendingHash(Apply(c, s, step).subs, id, hash)
    ensures (step.Store? || step.StoreAgain?) && step.id == id && Unstored(s.handlers[step.h]) == Some(hash)
  {
    TableWrites(c, s, step);
    assert id in s.subs ==> RowOk(s.subs[id]);
  }

  // ---- Confirmation: effect, single use, expiry ----

  // The handler answers "confirmed" whenever its lookup hit. That is right unless the row was unsubscribed between the
  // lookup and the update: exactly then the guarded update changes nothing.
  lemma ConfirmTakesEffect(c: Config, s: State, h: HandlerId, at: int)
    requires ConfigOk(c) && Reachable(c, s) && Enabled(c, s, Confirm(h, at))
    ensures var id := s.handlers[h].id;
            && id in s.subs
            && (IsConfirmed(Apply(c, s, Confirm(h, at)), id) <==> !s.subs[id].status.Unsubscribed?)
            && (s.subs[id].status.Unsubscribed? ==> Apply(c, s, Confirm(h, at)).subs == s.subs)
  {
    ReachableInv(c, s);
    assert HandlerOk(c, s.subs, s.minted, s.home, s.handlers[h]);
    assert RowOk(s.subs[s.handlers[h].id]);
  }

  // The secret was stored once and no row holds its hash any more: its row left pending, or got a newer secret.
  ghost predicate Spent(s: State, hash: Bytes) {
    hash in s.home && forall id :: !HasPendingHash(s.subs, id, hash)
  }

  // A spent secret opens nothing: no lookup finds its hash in any later state of any run.
  lemma {:induction false} SecretIsUsedUp(c: Config, s: State, tr: seq<Step>, hash: Bytes)
    requires ConfigOk(c) && Inv(c, s) && Exec(c, s, tr).Some? && Spent(s, hash)
    ensures Spent(Exec(c, s, tr).value, hash)
    decreases |tr|
  {
    if tr != [] {
      var front := tr[..|tr| - 1];
      SecretIsUsedUp(c, s, front, hash);
      RunKeeps(c, s, front);
      StaysSpent(c, Exec(c, s, front).value, tr[|tr| - 1], hash);
    }
  }

  lemma StaysSpent(c: Config, s: State, step: Step, hash: Bytes)
    requires Inv(c, s) && Enabled(c, s, step) && Spent(s, hash)
    ensures Spent(Apply(c, s, step), hash)
  {
    var t := Apply(c, s, step);
    StepHistory(c, s, step);
    forall id ensures !HasPendingHash(t.subs, id, hash) {
      if HasPendingHash(t.subs, id, hash) {
        OnlyUpsertStores(c, s, step, id, hash);
        StoresOnlyNew(c, s, step.h);
        assert false;
      }
    }
  }

  lemma StoresOnlyNew(c: Config, s: State, h: HandlerId)
    requires Inv(c, s) && h in s.handlers && Unstored(s.handlers[h]).Some?
    ensures Unstored(s.handlers[h]).value !in s.home
  {
    assert HandlerOk(c, s.subs, s.minted, s.home, s.handlers[h]);
  }

  // A lookup finds a row exactly if the row that the hash was stored for is pending with that hash still current; any
  // other request is refused.
  lemma LookupFindsCurrent(c: Config, s: State, h: HandlerId)
    requires ConfigOk(c) && Reachable(c, s) && h in s.handlers && s.handlers[h].Confirming?
    ensures var hash := c.keys.sha(s.handlers[h].subject);
            (exists id :: Enabled(c, s, Lookup(h, id))) <==>
            hash in s.home && Enabled(c, s, Lookup(h, s.home[hash]))
  {
    ReachableInv(c, s);
    var hash := c.keys.sha(s.handlers[h].subject);
    forall id | Enabled(c, s, Lookup(h, id)) ensures hash in s.home && s.home[hash] == id {
      assert HashAtHome(s.subs[id], id, s.minted, s.home);
    }
  }

  lemma StepHistory(c: Config, s: State, step: Step)
    requires Inv(c, s) && Enabled(c, s, step)
    ensures var t := Apply(c, s, step); HistoryGrows(s.minted, s.home, t.minted, t.home)
  {
    if step.Store? || step.StoreAgain? {
      HomeWrites(c, s, step);
      HomeGrows(c, s, step.h, step.id);
    } else if step.MakeSecret? || step.BeginResend? {
      MintWrites(c, s, step);
      SecretGrows(c, s, step.raw);
    } else {
      OthersKeepHistory(c, s, step);
    }
  }

  lemma MintWrites(c: Config, s: State, step: Step)
    requires Enabled(c, s, step) && (step.MakeSecret? || step.BeginResend?)
    ensures var t := Apply(c, s, step); t.minted == Minted(c, s, step.raw) && t.home == s.home
  {
  }

  lemma OthersKeepHistory(c: Config, s: State, step: Step)
    requires Enabled(c, s, step)
    requires !step.Store? && !step.StoreAgain? && !step.MakeSecret? && !step.BeginResend?
    ensures var t := Apply(c, s, step); t.minted == s.minted && t.home == s.home
  {
  }

  lemma HomeWrites(c: Config, s: State, step: Step)
    requires Enabled(c, s, step) && (step.Store? || step.StoreAgain?)
    ensures var t := Apply(c, s, step);
            && t.minted == s.minted
            && Unstored(s.handlers[step.h]).Some?
            && (t.home == s.home || t.home == s.home[Unstored(s.handlers[step.h]).value := step.id])
  {
  }

  lemma SecretGrows(c: Config, s: State, raw: Bytes)
    requires FreshSecret(c, s, raw)
    ensures HistoryGrows(s.minted, s.home, Minted(c, s, raw), s.home)
  {
  }

  lemma HomeGrows(c: Config, s: State, h: HandlerId, id: SubscriberId)
    requires Inv(c, s) && h in s.handlers && Unstored(s.handlers[h]).Some?
    ensures HistoryGrows(s.minted, s.home, s.minted, s.home[Unstored(s.handlers[h]).value := id])
  {
    StoresOnlyNew(c, s, h);
  }

  lemma {:induction false} HistoryForward(c: Config, s: State, tr: seq<Step>)
    requires ConfigOk(c) && Inv(c, s) && Exec(c, s, tr).Some?
    ensures var t := Exec(c, s, tr).value; HistoryGrows(s.minted, s.home, t.minted, t.home)
    decreases |tr|
  {
    if tr != [] {
      var front := tr[..|tr| - 1];
      HistoryForward(c, s, front);
      RunKeeps(c, s, front);
      StepHistory(c, Exec(c, s, front).value, tr[|tr| - 1]);
    }
  }

  // Any spelling of a token that the service has issued: for a secret, or in the mail of a row.
  ghost predicate Issued(c: Config, s: State, token: string) {
    || (exists h :: h in s.minted && SameToken(token, ConfirmToken(c, s.minted[h])))
    || (exists n :: n in s.mails && SameToken(token, UnsubscribeToken(c, s.mails[n].id, s.mails[n].issuedAt)))
  }

  predicate SameToken(a: string, b: string) {
    T.Base64Url.Decode(a) == T.Base64Url.Decode(b)
  }

  // The payloads the service has signed so far.
  ghost predicate HasSigned(c: Config, s: State, payload: Bytes) {
    || (exists h :: h in s.minted && payload == ConfirmPayload(s.minted[h]))
    || (exists n :: n in s.mails && payload == UnsubscribePayload(c, s.mails[n].id, s.mails[n].issuedAt))
  }

  function ConfirmPayload(m: Mint): Bytes {
    T.Payload(T.PurposeByte(T.ConfirmSubscriber), T.UnixSeconds(m.issuedAt), T.UnixSeconds(m.expiresAt), m.raw)
  }

  function UnsubscribePayload(c: Config, id: SubscriberId, issuedAt: int): Bytes {
    T.Payload(T.PurposeByte(T.UnsubscribeSubscriber), T.UnixSeconds(issuedAt),
              T.UnixSeconds(issuedAt + c.unsubscribeTtl), c.keys.uuidText(id))
  }

  // The MAC of the token covers a payload that the service has never signed.
  ghost predicate Forged(c: Config, s: State, token: string) {
    T.SignedPart(token).Some? && !HasSigned(c, s, T.SignedPart(token).value)
  }

  // A token that verifies was issued by the service, or its MAC was computed by somebody else.
  lemma VerifiedIsIssued(c: Config, s: State, token: string, at: int)
    requires ConfigOk(c) && T.Verify(c.keys.mac, token, T.ConfirmSubscriber, at).Ok? && !Forged(c, s, token)
    ensures Issued(c, s, token)
  {
    T.VerifiedBySignedPart(c.keys.mac, token, T.ConfirmSubscriber, at);
    var payload := T.SignedPart(token).value;
    if h :| h in s.minted && payload == ConfirmPayload(s.minted[h]) {
      DecodesToPayload(c, token, ConfirmToken(c, s.minted[h]), payload);
    } else {
      var n :| n in s.mails && payload == UnsubscribePayload(c, s.mails[n].id, s.mails[n].issuedAt);
      DecodesToPayload(c, token, UnsubscribeToken(c, s.mails[n].id, s.mails[n].issuedAt), payload);
    }
  }

  lemma DecodesToPayload(c: Config, token: string, issued: string, payload: Bytes)
    requires T.Base64Url.Decode(token) == Some(payload + c.keys.mac(payload))
    requires issued == T.Base64Url.Encode(payload + c.keys.mac(payload))
    ensures SameToken(token, issued)
  {
    T.Base64Url.RoundTrip(payload + c.keys.mac(payload));
  }

  predicate ExpiresWith(c: Config, token: string, subject: Bytes, expiresAt: int, now: int) {
    var column := T.UnixSeconds(expiresAt);
    T.Verify(c.keys.mac, token, T.ConfirmSubscriber, now)
    == if column != 0 && T.UnixSeconds(now) > column then Err(T.Expired) else Ok(subject)
  }

  // An issued token that verifies for confirming was issued for a secret.
  lemma VerifiedIsMint(c: Config, s: State, token: string, at: int) returns (h: Bytes)
    requires ConfigOk(c) && Issued(c, s, token) && T.Verify(c.keys.mac, token, T.ConfirmSubscriber, at).Ok?
    ensures h in s.minted && SameToken(token, ConfirmToken(c, s.minted[h]))
    ensures T.Verify(c.keys.mac, token, T.ConfirmSubscriber, at).value == s.minted[h].raw
  {
    if n :| n in s.mails && SameToken(token, UnsubscribeToken(c, s.mails[n].id, s.mails[n].issuedAt)) {
      UnsubscribeNeverConfirms(c, token, s.mails[n], at);
      assert false;
    }
    h :| h in s.minted && SameToken(token, ConfirmToken(c, s.minted[h]));
    ConfirmTokenExpires(c, token, s.minted[h], at);
  }

  lemma UnsubscribeNeverConfirms(c: Config, token: string, m: Mail, at: int)
    requires ConfigOk(c) && SameToken(token, UnsubscribeToken(c, m.id, m.issuedAt))
    ensures T.Verify(c.keys.mac, token, T.ConfirmSubscriber, at).Err?
  {
    UnsubscribeTokenTargets(c, UnsubscribeToken(c, m.id, m.issuedAt), m.id, m.issuedAt, at);
  }

  lemma MintOfRow(c: Config, s: State, id: SubscriberId, h: Bytes)
    requires ConfigOk(c) && Reachable(c, s) && id in s.subs && h in s.minted
    requires s.subs[id].confirmHash == Some(c.keys.sha(s.minted[h].raw))
    ensures s.subs[id].confirmExpiresAt == Some(s.minted[h].expiresAt)
  {
    ReachableInv(c, s);
    assert HashAtHome(s.subs[id], id, s.minted, s.home);
  }

  // The queries never compare the expiry column with the clock. But whatever token has ever verified for the hash of a
  // pending row, it carries the expiry in that row's column, to the second, and verifies exactly until then, unless
  // somebody else computed the MAC of a payload the service never signed.
  lemma ExpiryAgrees(c: Config, s: State, id: SubscriberId, token: string, earlier: int, now: int)
    requires ConfigOk(c) && Reachable(c, s) && id in s.subs && s.subs[id].status.Pending?
    requires var v := T.Verify(c.keys.mac, token, T.ConfirmSubscriber, earlier);
             v.Ok? && s.subs[id].confirmHash == Some(c.keys.sha(v.value))
    ensures s.subs[id].confirmExpiresAt.Some?
    ensures Forged(c, s, token)
         || ExpiresWith(c, token, T.Verify(c.keys.mac, token, T.ConfirmSubscriber, earlier).value,
                        s.subs[id].confirmExpiresAt.value, now)
  {
    PendingHasExpiry(c, s, id);
    if !Forged(c, s, token) {
      VerifiedIsIssued(c, s, token, earlier);
      var h := VerifiedIsMint(c, s, token, earlier);
      MintOfRow(c, s, id, h);
      ConfirmTokenExpires(c, token, s.minted[h], now);
    }
  }

  lemma PendingHasExpiry(c: Config, s: State, id: SubscriberId)
    requires ConfigOk(c) && Reachable(c, s) && id in s.subs && s.subs[id].status.Pending?
    ensures s.subs[id].confirmExpiresAt.Some?
  {
    ReachableInv(c, s);
    assert RowOk(s.subs[id]);
  }

  lemma ConfirmTokenExpires(c: Config, token: string, m: Mint, now: int)
    requires ConfigOk(c) && SameToken(token, ConfirmToken(c, m))
    ensures ExpiresWith(c, token, m.raw, m.expiresAt, now)
  {
    T.IssuedVerifies(c.keys.mac, T.ConfirmSubscriber, T.ConfirmSubscriber, m.raw, m.issuedAt, Some(m.expiresAt), now);
  }

  // And there is such a token: the one issued with the secret whose hash the row holds.
  lemma PendingRowHasToken(c: Config, s: State, id: SubscriberId, now: int)
    requires ConfigOk(c) && Reachable(c, s) && id in s.subs && s.subs[id].status.Pending?
    ensures s.subs[id].confirmHash.Some? && s.subs[id].confirmHash.value in s.minted
    ensures s.subs[id].confirmExpiresAt.Some?
    ensures var m := s.minted[s.subs[id].confirmHash.value];
            && Issued(c, s, ConfirmToken(c, m)) && c.keys.sha(m.raw) == s.subs[id].confirmHash.value
            && ExpiresWith(c, ConfirmToken(c, m), m.raw, s.subs[id].confirmExpiresAt.value, now)
  {
    ReachableInv(c, s);
    assert RowOk(s.subs[id]) && HashAtHome(s.subs[id], id, s.minted, s.home);
    var m := s.minted[s.subs[id].confirmHash.value];
    assert SameToken(ConfirmToken(c, m), ConfirmToken(c, m));
    ConfirmTokenExpires(c, ConfirmToken(c, m), m, now);
  }

  // ---- Links ----

  // The token unsubscribes row `id` until its expiry second has passed (second 0 meaning never), and never confirms.
  predicate UnsubscribesOnly(c: Config, token: string, id: SubscriberId, expiresAt: int, now: int) {
    var expires := T.UnixSeconds(expiresAt);
    && UnsubscribeTarget(c, token, now) == (if expires != 0 && T.UnixSeconds(now) > expires then None else Some(id))
    && T.Verify(c.keys.mac, token, T.ConfirmSubscriber, now) == Err(T.PurposeMismatch)
  }

  // The mail goes to the address of row `m.id`, and its unsubscribe link is that row's.
  ghost predicate LinkIsOwn(c: Config, subs: Table, row: N.Row, m: Mail, now: int) {
    && row.payload.ConfirmLinks?
    && m.id in subs && subs[m.id].email == row.toEmail
    && UnsubscribesOnly(c, row.payload.unsubscribeToken, m.id, m.issuedAt + c.unsubscribeTtl, now)
  }

  // The unsubscribe link of every queued confirmation names the row of the mail's own recipient and nothing else, and
  // is of no use for confirming.
  lemma UnsubscribeLinkIsOwn(c: Config, s: State, n: N.NotificationId, now: int)
    requires ConfigOk(c) && Reachable(c, s) && n in s.queue.rows
    ensures n in s.mails && LinkIsOwn(c, s.subs, s.queue.rows[n], s.mails[n], now)
  {
    ReachedMail(c, s, n);
    MailUnsubscribes(c, s.subs, s.minted, s.home, s.queue.rows[n], s.mails[n], now);
  }

  lemma ReachedMail(c: Config, s: State, n: N.NotificationId)
    requires ConfigOk(c) && Reachable(c, s) && n in s.queue.rows
    ensures n in s.mails && MailOk(c, s.subs, s.minted, s.home, s.queue.rows[n], s.mails[n])
  {
    ReachableInv(c, s);
  }

  lemma MailUnsubscribes(c: Config, subs: Table, minted: Minting, home: Homes, row: N.Row, m: Mail, now: int)
    requires ConfigOk(c) && MailOk(c, subs, minted, home, row, m)
    ensures LinkIsOwn(c, subs, row, m, now)
  {
    UnsubscribeTokenTargets(c, row.payload.unsubscribeToken, m.id, m.issuedAt, now);
  }

  lemma UnsubscribeTokenTargets(c: Config, token: string, id: SubscriberId, issuedAt: int, now: int)
    requires ConfigOk(c) && token == UnsubscribeToken(c, id, issuedAt)
    ensures UnsubscribesOnly(c, token, id, issuedAt + c.unsubscribeTtl, now)
  {
    var text, until := c.keys.uuidText(id), Some(issuedAt + c.unsubscribeTtl);
    T.IssuedVerifies(c.keys.mac, T.UnsubscribeSubscriber, T.UnsubscribeSubscriber, text, issuedAt, until, now);
    T.IssuedVerifies(c.keys.mac, T.UnsubscribeSubscriber, T.ConfirmSubscriber, text, issuedAt, until, now);
  }

  // Its confirm link carries a secret that was stored for that same row and is never pending on another.
  lemma ConfirmLinkIsOwn(c: Config, s: State, n: N.NotificationId, now: int, other: SubscriberId)
    requires ConfigOk(c) && Reachable(c, s) && n in s.queue.rows
    ensures n in s.mails && s.mails[n].hash in s.minted && s.queue.rows[n].payload.ConfirmLinks?
    ensures var m := s.mails[n];
            var secret := s.minted[m.hash];
            var expires := T.UnixSeconds(secret.expiresAt);
            && T.Verify(c.keys.mac, s.queue.rows[n].payload.confirmToken, T.ConfirmSubscriber, now)
               == (if expires != 0 && T.UnixSeconds(now) > expires then Err(T.Expired) else Ok(secret.raw))
            && (HasPendingHash(s.subs, other, c.keys.sha(secret.raw)) ==> other == m.id)
  {
    ReachableInv(c, s);
    var m := s.mails[n];
    assert MailOk(c, s.subs, s.minted, s.home, s.queue.rows[n], m);
    var secret := s.minted[m.hash];
    T.IssuedVerifies(c.keys.mac, T.ConfirmSubscriber, T.ConfirmSubscriber, secret.raw, secret.issuedAt,
                     Some(secret.expiresAt), now);
    assert other in s.subs && s.subs[other].confirmHash.Some? ==>
        HashAtHome(s.subs[other], other, s.minted, s.home);
  }

  // The row a resend upserts is the subscriber it read, though the code discards the returned row.
  lemma ResendHitsItsRow(c: Config, s: State, h: HandlerId, target: SubscriberId, at: int)
    requires ConfigOk(c) && Reachable(c, s) && Enabled(c, s, StoreAgain(h, target, at))
    ensures target == s.handlers[h].id && target in s.subs
  {
    ReachableInv(c, s);
    ResendTarget(c, s, h, target);
  }
}
