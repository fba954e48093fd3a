/** What every step of the opt-in flow keeps. */
module OptInInvariant {
  import opened Common
  import opened Runs
  import opened SubscriberQueries
  import opened OptInProtocol
  import N = NotificationQueries
  import Q = QueueProtocol
  import QI = QueueInvariant
  import T = Tokens

  type Minting = map<Bytes, Mint>
  type Homes = map<Bytes, SubscriberId>

  // ---- The invariant ----

  // Besides the table constraint: a confirm hash and its expiry sit on exactly the pending rows.
  predicate RowOk(r: Subscriber) {
    && PendingClean(r)
    && (r.status.Pending? <==> r.confirmHash.Some?)
    && (r.confirmHash.Some? <==> r.confirmExpiresAt.Some?)
  }

  ghost predicate SubsOk(subs: Table) {
    && (forall id :: id in subs ==> RowOk(subs[id]))
    && (forall i, j :: i in subs && j in subs && subs[i].email == subs[j].email ==> i == j)
  }

  ghost predicate MintedOk(c: Config, minted: Minting) {
    forall h :: h in minted ==>
      && c.keys.sha(minted[h].raw) == h
      && |minted[h].raw| == 32
      && minted[h].expiresAt == minted[h].issuedAt + c.confirmTtl
  }

  // A stored hash belongs to one row for ever.
  ghost predicate HomeOk(subs: Table, minted: Minting, home: Homes) {
    && (forall h :: h in home ==> h in minted && home[h] in subs)
    && (forall id :: id in subs && subs[id].confirmHash.Some? ==> HashAtHome(subs[id], id, minted, home))
  }

  ghost predicate HashAtHome(r: Subscriber, id: SubscriberId, minted: Minting, home: Homes)
    requires r.confirmHash.Some?
  {
    var h := r.confirmHash.value;
    h in home && home[h] == id && h in minted && r.confirmExpiresAt == Some(minted[h].expiresAt)
  }

  // The hash of a secret that a handler has made and not stored yet.
  function Unstored(k: Handler): Option<Bytes> {
    match k
    case Ready(_, _, hash) => Some(hash)
    case Resending(_, hash) => Some(hash)
    case ReadPending(_, _, _, hash) => Some(hash)
    case _ => None
  }

  ghost predicate HandlerOk(c: Config, subs: Table, minted: Minting, home: Homes, k: Handler) {
    && (Unstored(k).Some? ==> Unstored(k).value in minted && Unstored(k).value !in home)
    && match k
       case ReadPending(id, email, source, _) =>
         id in subs && subs[id].email == email && (source.Some? ==> subs[id].source == source)
       case Stored(email, _, id, hash) =>
         id in subs && subs[id].email == email && hash in home && home[hash] == id && hash in minted
       case Found(_, subject, _, id, seen) =>
         && id in subs && seen.status.Pending? && seen.confirmHash == Some(c.keys.sha(subject))
         && HashAtHome(seen, id, minted, home)
       case _ => true
  }

  ghost predicate HandlersOk(c: Config, s: State) {
    && (forall h :: h in s.handlers ==> HandlerOk(c, s.subs, s.minted, s.home, s.handlers[h]))
    && SecretsApart(s.handlers)
  }

  ghost predicate SecretsApart(handlers: map<HandlerId, Handler>) {
    forall h, k :: h in handlers && k in handlers && h != k && Unstored(handlers[h]).Some? ==>
      Unstored(handlers[h]) != Unstored(handlers[k])
  }

  ghost predicate MailOk(c: Config, subs: Table, minted: Minting, home: Homes, row: N.Row, m: Mail) {
    && row.kind.ConfirmEmail?
    && m.id in subs && subs[m.id].email == row.toEmail
    && m.hash in home && home[m.hash] == m.id && m.hash in minted
    && row.payload == N.ConfirmLinks(ConfirmToken(c, minted[m.hash]), UnsubscribeToken(c, m.id, m.issuedAt))
  }

  ghost predicate MailsOk(c: Config, subs: Table, minted: Minting, home: Homes, rows: N.Table,
                          mails: map<N.NotificationId, Mail>)
  {
    && rows.Keys == mails.Keys
    && forall n :: n in mails ==> MailOk(c, subs, minted, home, rows[n], mails[n])
  }

  ghost predicate Inv(c: Config, s: State) {
    && QI.Inv(c.queue, s.queue)
    && SubsOk(s.subs)
    && MintedOk(c, s.minted)
    && HomeOk(s.subs, s.minted, s.home)
    && HandlersOk(c, s)
    && MailsOk(c, s.subs, s.minted, s.home, s.queue.rows, s.mails)
  }

  lemma InitInv(c: Config, now: int)
    requires ConfigOk(c)
    ensures Inv(c, Init(c, now))
  {
    QI.InitInv(c.queue, now);
  }

  // ---- Growth: rows keep their address and their source, history is never rewritten ----

  ghost predicate SubsGrow(subs: Table, subs': Table) {
    forall id :: id in subs ==>
      && id in subs' && subs'[id].email == subs[id].email
      && (subs[id].source.Some? ==> subs'[id].source == subs[id].source)
  }

  ghost predicate HistoryGrows(minted: Minting, home: Homes, minted': Minting, home': Homes) {
    && (forall h :: h in minted ==> h in minted' && minted'[h] == minted[h])
    && (forall h :: h in home ==> h in home' && home'[h] == home[h])
  }

  lemma HandlerFrame(c: Config, subs: Table, minted: Minting, home: Homes,
                     subs': Table, minted': Minting, home': Homes, k: Handler)
    requires HandlerOk(c, subs, minted, home, k)
    requires SubsGrow(subs, subs') && HistoryGrows(minted, home, minted', home')
    requires Unstored(k).Some? ==> Unstored(k).value !in home'
    ensures HandlerOk(c, subs', minted', home', k)
  {
  }

  lemma MailsFrame(c: Config, subs: Table, minted: Minting, home: Homes, rows: N.Table,
                   subs': Table, minted': Minting, home': Homes, rows': N.Table,
                   mails: map<N.NotificationId, Mail>)
    requires MailsOk(c, subs, minted, home, rows, mails)
    requires SubsGrow(subs, subs') && HistoryGrows(minted, home, minted', home')
    requires SameContent(rows, rows')
    ensures MailsOk(c, subs', minted', home', rows', mails)
  {
    forall n | n in mails ensures MailOk(c, subs', minted', home', rows'[n], mails[n]) {
      assert MailOk(c, subs, minted, home, rows[n], mails[n]);
    }
  }

  // The queue's own steps never add a row or change what a row says, to whom, and since when.
  ghost predicate SameContent(rows: N.Table, rows': N.Table) {
    && rows'.Keys == rows.Keys
    && forall n :: n in rows ==>
         && rows'[n].kind == rows[n].kind && rows'[n].toEmail == rows[n].toEmail
         && rows'[n].payload == rows[n].payload && rows'[n].createdAt == rows[n].createdAt
  }

  lemma QueueKeepsContent(c: Q.Config, s: Q.State, step: Q.Step)
    requires Q.Enabled(c, s, step) && !step.Enqueue?
    ensures SameContent(s.rows, Q.Apply(c, s, step).rows)
  {
  }

  // ---- Preservation ----

  lemma QueueStepKeeps(c: Config, s: State, step: Q.Step)
    requires ConfigOk(c) && Inv(c, s) && Enabled(c, s, QueueStep(step))
    ensures Inv(c, Apply(c, s, QueueStep(step)))
  {
    var t := Apply(c, s, QueueStep(step));
    QI.StepKeeps(c.queue, s.queue, step);
    QueueKeepsContent(c.queue, s.queue, step);
    MailsFrame(c, s.subs, s.minted, s.home, s.queue.rows, s.subs, s.minted, s.home, t.queue.rows, s.mails);
    assert HandlersOk(c, t);
  }

  // A handler that moves on, with tables and history as they were.
  lemma MoveKeeps(c: Config, s: State, h: HandlerId, next: Handler)
    requires Inv(c, s) && HandlerOk(c, s.subs, s.minted, s.home, next)
    requires Unstored(next).Some? ==> h in s.handlers && Unstored(s.handlers[h]) == Unstored(next)
    ensures Inv(c, Go(s, h, next))
  {
    ApartAfterMove(s.handlers, h, next);
  }

  lemma ApartAfterMove(handlers: map<HandlerId, Handler>, h: HandlerId, next: Handler)
    requires SecretsApart(handlers)
    requires Unstored(next).Some? ==> h in handlers && Unstored(handlers[h]) == Unstored(next)
    ensures SecretsApart(handlers[h := next])
  {
  }

  lemma DoneKeeps(c: Config, s: State, h: HandlerId)
    requires Inv(c, s)
    ensures Inv(c, Done(s, h))
  {
  }

  // A new secret held by one handler.
  lemma SecretKeeps(c: Config, s: State, h: HandlerId, raw: Bytes, next: Handler)
    requires Inv(c, s) && FreshSecret(c, s, raw)
    requires Unstored(next) == Some(c.keys.sha(raw)) && !next.ReadPending?
    ensures Inv(c, Go(s, h, next).(minted := Minted(c, s, raw)))
  {
    var minted := Minted(c, s, raw);
    var t := Go(s, h, next).(minted := minted);
    assert HistoryGrows(s.minted, s.home, minted, s.home) && SubsGrow(s.subs, s.subs);
    MailsFrame(c, s.subs, s.minted, s.home, s.queue.rows, s.subs, minted, s.home, s.queue.rows, s.mails);
    forall k | k in t.handlers ensures HandlerOk(c, t.subs, t.minted, t.home, t.handlers[k]) {
      if k != h {
        HandlerFrame(c, s.subs, s.minted, s.home, s.subs, minted, s.home, s.handlers[k]);
      }
    }
    assert SecretsApart(t.handlers);
    HomeFrame(s.subs, s.minted, s.home, minted);
  }

  lemma HomeFrame(subs: Table, minted: Minting, home: Homes, minted': Minting)
    requires HomeOk(subs, minted, home) && HistoryGrows(minted, home, minted', home)
    ensures HomeOk(subs, minted', home)
  {
    forall id | id in subs && subs[id].confirmHash.Some? ensures HashAtHome(subs[id], id, minted', home) {
      assert HashAtHome(subs[id], id, minted, home);
    }
  }

  lemma UpsertKeepsTable(subs: Table, minted: Minting, home: Homes, target: SubscriberId, u: Upsert, at: int)
    requires SubsOk(subs) && HomeOk(subs, minted, home)
    requires UpsertTarget(subs, u.email, target) && UpsertReturns(subs, target)
    requires u.hash in minted && minted[u.hash].expiresAt == u.expiresAt && u.hash !in home
    ensures var subs' := UpsertPending(subs, target, u, at);
            && SubsOk(subs') && SubsGrow(subs, subs') && target in subs' && subs'[target].email == u.email
            && HomeOk(subs', minted, home[u.hash := target])
  {
    var subs', home' := UpsertPending(subs, target, u, at), home[u.hash := target];
    assert target in subs ==> RowOk(subs[target]);
    forall id | id in subs' && subs'[id].confirmHash.Some? ensures HashAtHome(subs'[id], id, minted, home') {
      if id != target {
        assert HashAtHome(subs[id], id, minted, home);
      }
    }
  }

  lemma UpsertKeeps(c: Config, s: State, h: HandlerId, target: SubscriberId, u: Upsert, at: int,
                    notBefore: Option<int>, id: SubscriberId)
    requires Inv(c, s) && h in s.handlers && Unstored(s.handlers[h]) == Some(u.hash)
    requires UpsertTarget(s.subs, u.email, target) && s.minted[u.hash].expiresAt == u.expiresAt
    requires id == target
    ensures Inv(c, Upserted(c, s, h, target, u, at, notBefore, id))
  {
    if UpsertReturns(s.subs, target) {
      assert HandlerOk(c, s.subs, s.minted, s.home, s.handlers[h]);
      UpsertKeepsTable(s.subs, s.minted, s.home, target, u, at);
      var next := Stored(u.email, notBefore, id, u.hash);
      StoredKeeps(c, s, h, UpsertPending(s.subs, target, u, at), target, next);
    } else {
      DoneKeeps(c, s, h);
    }
  }

  // The upserting handler has stored its secret; the others still hold secrets that no row has.
  lemma StoredKeeps(c: Config, s: State, h: HandlerId, subs: Table, target: SubscriberId, next: Handler)
    requires Inv(c, s) && h in s.handlers && next.Stored? && Unstored(s.handlers[h]) == Some(next.hash)
    requires next.hash !in s.home && SubsOk(subs) && SubsGrow(s.subs, subs)
    requires HomeOk(subs, s.minted, s.home[next.hash := target])
    requires next.id == target && target in subs && subs[target].email == next.email
    ensures Inv(c, Go(s, h, next).(subs := subs, home := s.home[next.hash := target]))
  {
    var t := Go(s, h, next).(subs := subs, home := s.home[next.hash := target]);
    assert HandlerOk(c, s.subs, s.minted, s.home, s.handlers[h]);
    MailsFrame(c, s.subs, s.minted, s.home, s.queue.rows, subs, s.minted, t.home, s.queue.rows, s.mails);
    forall k | k in t.handlers && k != h ensures HandlerOk(c, subs, s.minted, t.home, t.handlers[k]) {
      HandlerFrame(c, s.subs, s.minted, s.home, subs, s.minted, t.home, s.handlers[k]);
    }
    ApartAfterMove(s.handlers, h, next);
  }

  // The upsert of a resend hits the row that was read, because addresses are unique and never change.
  lemma ResendTarget(c: Config, s: State, h: HandlerId, target: SubscriberId)
    requires Inv(c, s) && h in s.handlers && s.handlers[h].ReadPending?
    requires UpsertTarget(s.subs, s.handlers[h].email, target)
    ensures target == s.handlers[h].id && target in s.subs
  {
    assert HandlerOk(c, s.subs, s.minted, s.home, s.handlers[h]);
  }

  lemma QueuedKeeps(c: Config, s: State, step: Step)
    requires ConfigOk(c) && Inv(c, s) && step.Queue? && Enabled(c, s, step)
    ensures Inv(c, Apply(c, s, step))
  {
    var k := s.handlers[step.h];
    assert HandlerOk(c, s.subs, s.minted, s.home, k);
    var enqueue := MailStep(c, s, step.h, step.mail, step.issuedAt, step.at);
    QI.StepKeeps(c.queue, s.queue, enqueue);
    InsertMail(c, s.subs, s.minted, s.home, s.queue.rows, s.mails, step.mail,
               N.Inserted(enqueue.kind, enqueue.toEmail, enqueue.payload, enqueue.at),
               Mail(k.id, k.hash, step.issuedAt, k.notBefore.Some?));
    DoneKeeps(c, s, step.h);
  }

  lemma InsertMail(c: Config, subs: Table, minted: Minting, home: Homes, rows: N.Table,
                   mails: map<N.NotificationId, Mail>, n: N.NotificationId, row: N.Row, m: Mail)
    requires MailsOk(c, subs, minted, home, rows, mails) && MailOk(c, subs, minted, home, row, m)
    ensures MailsOk(c, subs, minted, home, rows[n := row], mails[n := m])
  {
  }

  // The other writes to the table: they clear hashes and never touch addresses.
  lemma ClearKeeps(c: Config, s: State, subs: Table)
    requires Inv(c, s) && SubsOk(subs) && SubsGrow(s.subs, subs) && subs.Keys == s.subs.Keys
    requires forall id :: id in subs && subs[id].confirmHash.Some? ==> subs[id] == s.subs[id]
    ensures Inv(c, s.(subs := subs))
  {
    var t := s.(subs := subs);
    MailsFrame(c, s.subs, s.minted, s.home, s.queue.rows, subs, s.minted, s.home, s.queue.rows, s.mails);
    forall k | k in t.handlers ensures HandlerOk(c, subs, s.minted, s.home, t.handlers[k]) {
      HandlerFrame(c, s.subs, s.minted, s.home, subs, s.minted, s.home, s.handlers[k]);
    }
    forall id | id in subs && subs[id].confirmHash.Some? ensures HashAtHome(subs[id], id, s.minted, s.home) {
      assert HashAtHome(s.subs[id], id, s.minted, s.home);
    }
    assert HandlersOk(c, t);
  }

  lemma ConfirmKeepsTable(subs: Table, id: SubscriberId, at: int)
    requires SubsOk(subs)
    ensures var t := ConfirmById(subs, id, at);
            && SubsOk(t) && SubsGrow(subs, t) && t.Keys == subs.Keys
            && forall k :: k in t && t[k].confirmHash.Some? ==> t[k] == subs[k]
  {
    assert id in subs ==> RowOk(subs[id]);
  }

  lemma UnsubscribeKeepsTable(subs: Table, id: SubscriberId, at: int)
    requires SubsOk(subs)
    ensures var t := UnsubscribeById(subs, id, at);
            && SubsOk(t) && SubsGrow(subs, t) && t.Keys == subs.Keys
            && forall k :: k in t && t[k].confirmHash.Some? ==> t[k] == subs[k]
  {
    assert id in subs ==> RowOk(subs[id]);
  }

  lemma ThrottleKeeps(c: Config, s: State, h: HandlerId, at: int)
    requires Inv(c, s) && Enabled(c, s, Throttle(h, at))
    ensures Inv(c, Apply(c, s, Throttle(h, at)))
  {
    DoneKeeps(c, s, h);
    MoveKeeps(c, s, h, Unthrottled(s.handlers[h].email, at));
  }

  lemma StoreKeeps(c: Config, s: State, step: Step)
    requires Inv(c, s) && step.Store? && Enabled(c, s, step)
    ensures Inv(c, Apply(c, s, step))
  {
    var k := s.handlers[step.h];
    var u := Upsert(k.email, k.hash, s.minted[k.hash].expiresAt, step.source, step.userId);
    UpsertKeeps(c, s, step.h, step.id, u, step.at, Some(k.checkedAt), step.id);
  }

  lemma StoreAgainKeeps(c: Config, s: State, h: HandlerId, target: SubscriberId, at: int)
    requires Inv(c, s) && Enabled(c, s, StoreAgain(h, target, at))
    ensures Inv(c, Apply(c, s, StoreAgain(h, target, at)))
  {
    var k := s.handlers[h];
    ResendTarget(c, s, h, target);
    UpsertKeeps(c, s, h, target, Upsert(k.email, k.hash, s.minted[k.hash].expiresAt, k.source, None), at, None, k.id);
  }

  lemma OpenKeeps(c: Config, s: State, h: HandlerId, token: string)
    requires Inv(c, s) && Enabled(c, s, OpenConfirm(h, token))
    ensures Inv(c, Apply(c, s, OpenConfirm(h, token)))
  {
    var subject := T.Verify(c.keys.mac, token, T.ConfirmSubscriber, s.queue.now).value;
    MoveKeeps(c, s, h, Confirming(token, subject, s.queue.now));
  }

  lemma ConfirmKeeps(c: Config, s: State, h: HandlerId, at: int)
    requires Inv(c, s) && Enabled(c, s, Confirm(h, at))
    ensures Inv(c, Apply(c, s, Confirm(h, at)))
  {
    DoneKeeps(c, s, h);
    ConfirmKeepsTable(s.subs, s.handlers[h].id, at);
    ClearKeeps(c, Done(s, h), ConfirmById(s.subs, s.handlers[h].id, at));
  }

  lemma UnsubscribeKeeps(c: Config, s: State, step: Step)
    requires Inv(c, s) && step.Unsubscribe? && Enabled(c, s, step)
    ensures Inv(c, Apply(c, s, step))
  {
    var id := UnsubscribeTarget(c, step.token, step.verifiedAt).value;
    UnsubscribeKeepsTable(s.subs, id, step.at);
    ClearKeeps(c, s, UnsubscribeById(s.subs, id, step.at));
  }

  lemma StepKeeps(c: Config, s: State, step: Step)
    requires ConfigOk(c) && Inv(c, s) && Enabled(c, s, step)
    ensures Inv(c, Apply(c, s, step))
  {
    match step
    case QueueStep(q) => QueueStepKeeps(c, s, q);
    case Begin(h, email) => MoveKeeps(c, s, h, Subscribing(email));
    case Throttle(h, at) => ThrottleKeeps(c, s, h, at);
    case MakeSecret(h, raw) =>
      SecretKeeps(c, s, h, raw, Ready(s.handlers[h].email, s.handlers[h].checkedAt, c.keys.sha(raw)));
    case Store(_, _, _, _, _) => StoreKeeps(c, s, step);
    case Queue(_, _, _, _) => QueuedKeeps(c, s, step);
    case BeginResend(h, id, raw) => SecretKeeps(c, s, h, raw, Resending(id, c.keys.sha(raw)));
    case Read(h) => ReadKeeps(c, s, h);
    case StoreAgain(h, target, at) => StoreAgainKeeps(c, s, h, target, at);
    case OpenConfirm(h, token) => OpenKeeps(c, s, h, token);
    case Lookup(h, id) => LookupKeeps(c, s, h, id);
    case Confirm(h, at) => ConfirmKeeps(c, s, h, at);
    case Unsubscribe(_, _, _) => UnsubscribeKeeps(c, s, step);
    case Drop(h) => DoneKeeps(c, s, h);
  }

  lemma ReadKeeps(c: Config, s: State, h: HandlerId)
    requires Inv(c, s) && Enabled(c, s, Read(h))
    ensures Inv(c, Apply(c, s, Read(h)))
  {
    assert HandlerOk(c, s.subs, s.minted, s.home, s.handlers[h]);
    var id := s.handlers[h].id;
    if id in s.subs && s.subs[id].status.Pending? {
      MoveKeeps(c, s, h, ReadPending(id, s.subs[id].email, s.subs[id].source, s.handlers[h].hash));
    } else {
      DoneKeeps(c, s, h);
    }
  }

  lemma LookupKeeps(c: Config, s: State, h: HandlerId, id: SubscriberId)
    requires Inv(c, s) && Enabled(c, s, Lookup(h, id))
    ensures Inv(c, Apply(c, s, Lookup(h, id)))
  {
    assert HashAtHome(s.subs[id], id, s.minted, s.home);
    MoveKeeps(c, s, h, Apply(c, s, Lookup(h, id)).handlers[h]);
  }

  lemma {:induction false} RunKeeps(c: Config, s: State, tr: seq<Step>)
    requires ConfigOk(c) && Inv(c, s) && Exec(c, s, tr).Some?
    ensures Inv(c, Exec(c, s, tr).value)
    decreases |tr|
  {
    if tr != [] {
      var front := tr[..|tr| - 1];
      RunKeeps(c, s, front);
      StepKeeps(c, Exec(c, s, front).value, tr[|tr| - 1]);
    }
  }

  lemma ReachableInv(c: Config, s: State)
    requires ConfigOk(c) && Reachable(c, s)
    ensures Inv(c, s)
  {
    var t: int, tr: seq<Step> :| Exec(c, Init(c, t), tr) == Some(s);
    InitInv(c, t);
    RunKeeps(c, Init(c, t), tr);
  }

  // ---- The queue inside the flow is the queue of the queue protocol ----

  function QueuePart(c: Config, s: State, step: Step): seq<Q.Step>
    requires Enabled(c, s, step)
  {
    match step
    case QueueStep(q) => [q]
    case Queue(h, mail, issuedAt, at) => [MailStep(c, s, h, mail, issuedAt, at)]
    case _ => []
  }

  lemma QueuePartRuns(c: Config, s: State, step: Step)
    requires Enabled(c, s, step)
    ensures var part := QueuePart(c, s, step);
            if part == [] then Apply(c, s, step).queue == s.queue
            else && |part| == 1 && Q.Enabled(c.queue, s.queue, part[0])
                 && Apply(c, s, step).queue == Q.Apply(c.queue, s.queue, part[0])
  {
  }

  function QueueTrace(c: Config, s: State, tr: seq<Step>): seq<Q.Step>
    requires Exec(c, s, tr).Some?
  {
    if tr == [] then [] else
    var front := tr[..|tr| - 1];
    QueueTrace(c, s, front) + QueuePart(c, Exec(c, s, front).value, tr[|tr| - 1])
  }

  lemma {:induction false} QueueRuns(c: Config, s: State, tr: seq<Step>)
    requires Exec(c, s, tr).Some?
    ensures Q.Exec(c.queue, s.queue, QueueTrace(c, s, tr)) == Some(Exec(c, s, tr).value.queue)
    decreases |tr|
  {
    if tr != [] {
      var front, last := tr[..|tr| - 1], tr[|tr| - 1];
      QueueRuns(c, s, front);
      var before, own := Exec(c, s, front).value, QueueTrace(c, s, front);
      QueuePartRuns(c, before, last);
      var part := QueuePart(c, before, last);
      if part == [] {
        assert own + part == own;
      } else {
        assert part == [part[0]];
        RunOne(Q.Transition(c.queue), s.queue, own, part[0]);
      }
    }
  }

  // Hence every guarantee about reachable queues holds of the queue that subscribers feed.
  lemma QueueIsReachable(c: Config, s: State)
    requires Reachable(c, s)
    ensures Q.Reachable(c.queue, s.queue)
  {
    var t: int, tr: seq<Step> :| Exec(c, Init(c, t), tr) == Some(s);
    QueueRuns(c, Init(c, t), tr);
    assert Q.Exec(c.queue, Q.Init(c.queue, t), QueueTrace(c, Init(c, t), tr)) == Some(s.queue);
  }
}
