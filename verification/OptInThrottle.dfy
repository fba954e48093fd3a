/** The per-address throttle of HandleSubscribe: exactly when it keeps the mails to an address apart. */
module OptInThrottle {
  import opened Common
  import opened SubscriberQueries
  import opened OptInProtocol
  import opened OptInInvariant
  import OT = OptInTheorems
  import N = NotificationQueries
  import Q = QueueProtocol
  import QT = QueueTheorems

  type Handlers = map<HandlerId, Handler>
  type Mails = map<N.NotificationId, Mail>

  // The address a HandleSubscribe in flight works for.
  function Requester(k: Handler): Option<string> {
    match k
    case Subscribing(email) => Some(email)
    case Unthrottled(email, _) => Some(email)
    case Ready(email, _, _) => Some(email)
    case Stored(email, Some(_), _, _) => Some(email)
    case _ => None
  }

  // When its throttle test let it pass.
  function PassedAt(k: Handler): Option<int> {
    match k
    case Unthrottled(_, checkedAt) => Some(checkedAt)
    case Ready(_, checkedAt, _) => Some(checkedAt)
    case Stored(_, notBefore, _, _) => notBefore
    case _ => None
  }

  // The address has been confirmed or unsubscribed, which is for good: no upsert returns its row any more.
  ghost predicate Settled(subs: Table, email: string) {
    exists id :: id in subs && subs[id].email == email && !subs[id].status.Pending?
  }

  // A HandleSubscribe in flight that can still queue a mail to the address.
  ghost predicate MayMail(subs: Table, k: Handler, email: string) {
    Requester(k) == Some(email) && (k.Stored? || !Settled(subs, email))
  }

  // A live confirmation that HandleSubscribe queued for the address.
  predicate LiveMail(rows: N.Table, mails: Mails, n: N.NotificationId, email: string) {
    n in mails && n in rows && mails[n].bySubscribe && rows[n].toEmail == email && rows[n].status.Live()
  }

  predicate Apart(window: int, a: int, b: int) {
    a + window <= b || b + window <= a
  }

  ghost predicate MailsApart(window: int, rows: N.Table, mails: Mails, email: string) {
    forall m, n :: m != n && LiveMail(rows, mails, m, email) && LiveMail(rows, mails, n, email) ==>
      Apart(window, rows[m].createdAt, rows[n].createdAt)
  }

  // Every live mail to the address is older than the window at that time.
  ghost predicate Quiet(window: int, rows: N.Table, mails: Mails, email: string, at: int) {
    forall n :: LiveMail(rows, mails, n, email) ==> rows[n].createdAt + window <= at
  }

  ghost predicate OneMailer(subs: Table, handlers: Handlers, email: string) {
    forall h, k ::
      h in handlers && k in handlers && MayMail(subs, handlers[h], email) && MayMail(subs, handlers[k], email) ==>
        h == k
  }

  ghost predicate NoMailer(subs: Table, handlers: Handlers, email: string) {
    forall h :: h in handlers ==> !MayMail(subs, handlers[h], email)
  }

  ghost predicate MailersQuiet(window: int, subs: Table, rows: N.Table, mails: Mails, handlers: Handlers,
                               email: string)
  {
    forall h :: h in handlers && MayMail(subs, handlers[h], email) && PassedAt(handlers[h]).Some? ==>
      Quiet(window, rows, mails, email, PassedAt(handlers[h]).value)
  }

  ghost predicate Guarded(window: int, subs: Table, rows: N.Table, mails: Mails, handlers: Handlers, email: string) {
    && MailsApart(window, rows, mails, email)
    && OneMailer(subs, handlers, email)
    && MailersQuiet(window, subs, rows, mails, handlers, email)
  }

  function Window(c: Config): int {
    WindowSeconds(c) * SECOND
  }

  ghost predicate GuardedIn(c: Config, s: State, email: string) {
    Guarded(Window(c), s.subs, s.queue.rows, s.mails, s.handlers, email)
  }

  predicate Throttled(c: Config, s: State, email: string, at: int) {
    c.throttleWindow > 0 && N.HasRecent(s.queue.rows, email, N.ConfirmEmail, WindowSeconds(c), at)
  }

  // ---- What steps do to the mails ----

  // A mail that is live now was live before: the queue never revives a failed or dead row.
  lemma QueueRevivesNothing(c: Config, s: State, step: Q.Step, n: N.NotificationId, email: string)
    requires ConfigOk(c) && Inv(c, s) && Enabled(c, s, QueueStep(step))
    requires var t := Apply(c, s, QueueStep(step)); LiveMail(t.queue.rows, t.mails, n, email)
    ensures LiveMail(s.queue.rows, s.mails, n, email)
    ensures Apply(c, s, QueueStep(step)).queue.rows[n].createdAt == s.queue.rows[n].createdAt
  {
    QueueKeepsContent(c.queue, s.queue, step);
    if !s.queue.rows[n].status.Live() {
      QT.StepSparesFrozen(c.queue, s.queue, step, n);
      assert false;
    }
  }

  lemma QueueStepKeepsGuarded(c: Config, s: State, step: Q.Step, email: string)
    requires ConfigOk(c) && Inv(c, s) && Enabled(c, s, QueueStep(step)) && GuardedIn(c, s, email)
    ensures GuardedIn(c, Apply(c, s, QueueStep(step)), email)
  {
    var t := Apply(c, s, QueueStep(step));
    forall n | LiveMail(t.queue.rows, t.mails, n, email)
      ensures LiveMail(s.queue.rows, s.mails, n, email)
      ensures t.queue.rows[n].createdAt == s.queue.rows[n].createdAt
    {
      QueueRevivesNothing(c, s, step, n, email);
    }
    FewerMails(Window(c), s.subs, s.queue.rows, t.queue.rows, s.mails, s.handlers, email);
  }

  lemma FewerMails(window: int, subs: Table, rows: N.Table, rows': N.Table, mails: Mails, handlers: Handlers,
                   email: string)
    requires forall n :: LiveMail(rows', mails, n, email) ==>
               LiveMail(rows, mails, n, email) && rows'[n].createdAt == rows[n].createdAt
    requires Guarded(window, subs, rows, mails, handlers, email)
    ensures Guarded(window, subs, rows', mails, handlers, email)
  {
    forall h | h in handlers && MayMail(subs, handlers[h], email) && PassedAt(handlers[h]).Some?
      ensures Quiet(window, rows', mails, email, PassedAt(handlers[h]).value)
    {
      assert Quiet(window, rows, mails, email, PassedAt(handlers[h]).value);
    }
  }

  lemma ThrottleFindsQuiet(c: Config, s: State, email: string, at: int)
    requires Inv(c, s) && !N.HasRecent(s.queue.rows, email, N.ConfirmEmail, WindowSeconds(c), at)
    ensures Quiet(Window(c), s.queue.rows, s.mails, email, at)
  {
    forall n | LiveMail(s.queue.rows, s.mails, n, email) ensures s.queue.rows[n].createdAt + Window(c) <= at {
      assert MailOk(c, s.subs, s.minted, s.home, s.queue.rows[n], s.mails[n]);
    }
  }

  // ---- What steps do to the handlers ----

  // One handler starts, moves on or ends, and no mail changes.
  ghost predicate Hop(s: State, t: State, h: HandlerId) {
    && t.queue == s.queue && t.mails == s.mails
    && if h in t.handlers then t.handlers == s.handlers[h := t.handlers[h]] else t.handlers == s.handlers - {h}
  }

  // A HandleSubscribe keeps its address and the time it passed the throttle, and becomes `Stored` by storing.
  predicate SameRequest(handlers: Handlers, h: HandlerId, next: Handler, stores: bool) {
    || Requester(next).None?
    || (&& h in handlers
        && Requester(next) == Requester(handlers[h])
        && PassedAt(next) == PassedAt(handlers[h])
        && (next.Stored? ==> stores || handlers[h].Stored?))
  }

  lemma UpsertHops(c: Config, s: State, step: Step)
    requires Enabled(c, s, step) && (step.Store? || step.StoreAgain?)
    ensures var t := Apply(c, s, step);
            Hop(s, t, step.h) && (step.h in t.handlers ==> SameRequest(s.handlers, step.h, t.handlers[step.h], true))
  {
  }

  lemma SecretHops(c: Config, s: State, step: Step)
    requires Enabled(c, s, step) && (step.MakeSecret? || step.BeginResend? || step.Read? || step.Drop?)
    ensures var t := Apply(c, s, step);
            Hop(s, t, step.h) && (step.h in t.handlers ==> SameRequest(s.handlers, step.h, t.handlers[step.h], false))
  {
  }

  lemma ConfirmHops(c: Config, s: State, step: Step)
    requires Enabled(c, s, step) && (step.OpenConfirm? || step.Lookup? || step.Confirm?)
    ensures var t := Apply(c, s, step);
            Hop(s, t, step.h) && (step.h in t.handlers ==> SameRequest(s.handlers, step.h, t.handlers[step.h], false))
  {
  }

  // Settled stays settled.
  lemma SettledStays(c: Config, s: State, step: Step, email: string)
    requires Inv(c, s) && Enabled(c, s, step) && Settled(s.subs, email)
    ensures Settled(Apply(c, s, step).subs, email)
  {
    OT.StepLater(c, s, step);
    var id :| id in s.subs && s.subs[id].email == email && !s.subs[id].status.Pending?;
    assert OT.Later(s.subs[id], Apply(c, s, step).subs[id]);
  }

  // A handler that has just stored its secret did so in a row that was not settled.
  lemma StoredInOpenRow(c: Config, s: State, step: Step)
    requires Inv(c, s) && step.Store? && Enabled(c, s, step) && step.h in Apply(c, s, step).handlers
    ensures !Settled(s.subs, s.handlers[step.h].email)
  {
    assert UpsertReturns(s.subs, step.id);
  }

  lemma HopKeepsGuarded(window: int, subs: Table, subs': Table, rows: N.Table, mails: Mails,
                        handlers: Handlers, handlers': Handlers, h: HandlerId, email: string)
    requires Guarded(window, subs, rows, mails, handlers, email)
    requires Settled(subs, email) ==> Settled(subs', email)
    requires handlers' == if h in handlers' then handlers[h := handlers'[h]] else handlers - {h}
    requires h in handlers' && MayMail(subs', handlers'[h], email) ==>
               && h in handlers && MayMail(subs, handlers[h], email)
               && (PassedAt(handlers'[h]).Some? ==>
                     PassedAt(handlers'[h]) == PassedAt(handlers[h])
                     || Quiet(window, rows, mails, email, PassedAt(handlers'[h]).value))
    ensures Guarded(window, subs', rows, mails, handlers', email)
  {
    assert forall k :: k in handlers' && k != h ==> k in handlers && handlers'[k] == handlers[k];
  }

  lemma ThrottleKeepsGuarded(c: Config, s: State, h: HandlerId, at: int, email: string)
    requires Inv(c, s) && Enabled(c, s, Throttle(h, at)) && GuardedIn(c, s, email) && c.throttleWindow > 0
    ensures GuardedIn(c, Apply(c, s, Throttle(h, at)), email)
  {
    var address := s.handlers[h].email;
    if Throttled(c, s, address, at) {
      DropKeepsGuarded(Window(c), s.subs, s.queue.rows, s.mails, s.handlers, h, email);
    } else {
      ThrottleFindsQuiet(c, s, address, at);
      PassKeepsGuarded(Window(c), s.subs, s.queue.rows, s.mails, s.handlers, h, address, at, email);
    }
  }

  lemma DropKeepsGuarded(window: int, subs: Table, rows: N.Table, mails: Mails, handlers: Handlers, h: HandlerId,
                         email: string)
    requires Guarded(window, subs, rows, mails, handlers, email)
    ensures Guarded(window, subs, rows, mails, handlers - {h}, email)
  {
  }

  lemma PassKeepsGuarded(window: int, subs: Table, rows: N.Table, mails: Mails, handlers: Handlers, h: HandlerId,
                         address: string, at: int, email: string)
    requires Guarded(window, subs, rows, mails, handlers, email)
    requires h in handlers && handlers[h] == Subscribing(address) && Quiet(window, rows, mails, address, at)
    ensures Guarded(window, subs, rows, mails, handlers[h := Unthrottled(address, at)], email)
  {
  }

  lemma BeginKeepsGuarded(window: int, subs: Table, rows: N.Table, mails: Mails, handlers: Handlers,
                          h: HandlerId, address: string, email: string)
    requires Guarded(window, subs, rows, mails, handlers, email) && h !in handlers
    requires address == email ==> Settled(subs, email) || NoMailer(subs, handlers, email)
    ensures Guarded(window, subs, rows, mails, handlers[h := Subscribing(address)], email)
  {
  }

  // A mail is queued no earlier than its handler passed the throttle, and by the only handler that could.
  lemma QueuedKeepsGuarded(c: Config, s: State, step: Step, email: string)
    requires Inv(c, s) && step.Queue? && Enabled(c, s, step) && GuardedIn(c, s, email)
    ensures GuardedIn(c, Apply(c, s, step), email)
  {
    var t := Apply(c, s, step);
    InsertKeepsGuarded(Window(c), s.subs, s.queue.rows, s.mails, s.handlers, step.h, step.mail,
                       t.queue.rows[step.mail], t.mails[step.mail], email);
  }

  lemma InsertKeepsGuarded(window: int, subs: Table, rows: N.Table, mails: Mails, handlers: Handlers, h: HandlerId,
                           n: N.NotificationId, row: N.Row, m: Mail, email: string)
    requires h in handlers && handlers[h].Stored? && n !in rows
    requires Guarded(window, subs, rows, mails, handlers, email)
    requires row.toEmail == handlers[h].email && m.bySubscribe == handlers[h].notBefore.Some?
    requires handlers[h].notBefore.Some? ==> row.createdAt >= handlers[h].notBefore.value
    ensures Guarded(window, subs, rows[n := row], mails[n := m], handlers - {h}, email)
  {
    var k := handlers[h];
    var rows', mails' := rows[n := row], mails[n := m];
    assert forall i :: i != n ==> LiveMail(rows', mails', i, email) == LiveMail(rows, mails, i, email);
    if k.notBefore.Some? && k.email == email {
      assert MayMail(subs, k, email) && Quiet(window, rows, mails, email, k.notBefore.value);
    } else {
      assert !LiveMail(rows', mails', n, email);
      forall g | g in handlers - {h} && MayMail(subs, handlers[g], email) && PassedAt(handlers[g]).Some?
        ensures Quiet(window, rows', mails', email, PassedAt(handlers[g]).value)
      {
        assert Quiet(window, rows, mails, email, PassedAt(handlers[g]).value);
      }
    }
  }

  lemma OtherKeepsGuarded(c: Config, s: State, step: Step, email: string)
    requires Inv(c, s) && Enabled(c, s, step) && GuardedIn(c, s, email)
    requires !step.QueueStep? && !step.Begin? && !step.Throttle? && !step.Queue? && !step.Unsubscribe?
    ensures GuardedIn(c, Apply(c, s, step), email)
  {
    var t := Apply(c, s, step);
    if step.Store? || step.StoreAgain? {
      UpsertHops(c, s, step);
    } else if step.OpenConfirm? || step.Lookup? || step.Confirm? {
      ConfirmHops(c, s, step);
    } else {
      SecretHops(c, s, step);
    }
    NextMailer(c, s, step, email);
    HopKeepsGuarded(Window(c), s.subs, t.subs, s.queue.rows, s.mails, s.handlers, t.handlers, step.h, email);
  }

  // Whoever may mail after such a step could before.
  lemma NextMailer(c: Config, s: State, step: Step, email: string)
    requires Inv(c, s) && Enabled(c, s, step)
    requires !step.QueueStep? && !step.Begin? && !step.Throttle? && !step.Queue? && !step.Unsubscribe?
    requires var t := Apply(c, s, step);
             step.h in t.handlers ==>
               SameRequest(s.handlers, step.h, t.handlers[step.h], step.Store? || step.StoreAgain?)
    ensures var t := Apply(c, s, step);
            && (Settled(s.subs, email) ==> Settled(t.subs, email))
            && (step.h in t.handlers && MayMail(t.subs, t.handlers[step.h], email) ==>
                  && step.h in s.handlers && MayMail(s.subs, s.handlers[step.h], email)
                  && PassedAt(t.handlers[step.h]) == PassedAt(s.handlers[step.h]))
  {
    if Settled(s.subs, email) {
      SettledStays(c, s, step, email);
    }
    if step.Store? && step.h in Apply(c, s, step).handlers {
      StoredInOpenRow(c, s, step);
    }
  }

  lemma StepKeepsGuarded(c: Config, s: State, step: Step, email: string)
    requires ConfigOk(c) && Inv(c, s) && Enabled(c, s, step) && GuardedIn(c, s, email) && c.throttleWindow > 0
    requires step.Begin? && step.email == email ==> Settled(s.subs, email) || NoMailer(s.subs, s.handlers, email)
    ensures GuardedIn(c, Apply(c, s, step), email)
  {
    match step
    case QueueStep(q) => QueueStepKeepsGuarded(c, s, q, email);
    case Begin(h, address) =>
      BeginKeepsGuarded(Window(c), s.subs, s.queue.rows, s.mails, s.handlers, h, address, email);
    case Throttle(h, at) => ThrottleKeepsGuarded(c, s, h, at, email);
    case Queue(_, _, _, _) => QueuedKeepsGuarded(c, s, step, email);
    case Unsubscribe(_, _, _) => UnsubscribeKeepsGuarded(c, s, step, email);
    case _ => OtherKeepsGuarded(c, s, step, email);
  }

  lemma UnsubscribeKeepsGuarded(c: Config, s: State, step: Step, email: string)
    requires Inv(c, s) && step.Unsubscribe? && Enabled(c, s, step) && GuardedIn(c, s, email)
    ensures GuardedIn(c, Apply(c, s, step), email)
  {
    if Settled(s.subs, email) {
      SettledStays(c, s, step, email);
    }
  }

  // ---- The throttle works ----

  // Every request for the address starts when no other can still mail it, or when it is settled.
  ghost predicate Serial(c: Config, s: State, tr: seq<Step>, email: string)
    requires Exec(c, s, tr).Some?
  {
    tr == [] ||
    (var before, last := Exec(c, s, tr[..|tr| - 1]).value, tr[|tr| - 1];
     && Serial(c, s, tr[..|tr| - 1], email)
     && (last.Begin? && last.email == email ==>
           Settled(before.subs, email) || NoMailer(before.subs, before.handlers, email)))
  }

  lemma {:induction false} RunKeepsGuarded(c: Config, s: State, tr: seq<Step>, email: string)
    requires ConfigOk(c) && c.throttleWindow > 0 && Inv(c, s) && GuardedIn(c, s, email)
    requires Exec(c, s, tr).Some? && Serial(c, s, tr, email)
    ensures Inv(c, Exec(c, s, tr).value) && GuardedIn(c, Exec(c, s, tr).value, email)
    decreases |tr|
  {
    if tr != [] {
      var front := tr[..|tr| - 1];
      RunKeepsGuarded(c, s, front, email);
      var before := Exec(c, s, front).value;
      StepKeeps(c, before, tr[|tr| - 1]);
      StepKeepsGuarded(c, before, tr[|tr| - 1], email);
    }
  }

  // Two live confirmations that HandleSubscribe queued for one address were created at least the throttle window (in
  // whole seconds) apart, if no request for it starts while another can still mail it.
  lemma ThrottleSpacing(c: Config, now: int, tr: seq<Step>, m: N.NotificationId, n: N.NotificationId, email: string)
    requires ConfigOk(c) && c.throttleWindow > 0
    requires Exec(c, Init(c, now), tr).Some? && Serial(c, Init(c, now), tr, email)
    requires var t := Exec(c, Init(c, now), tr).value;
             m != n && LiveMail(t.queue.rows, t.mails, m, email) && LiveMail(t.queue.rows, t.mails, n, email)
    ensures var rows := Exec(c, Init(c, now), tr).value.queue.rows;
            Apart(WindowSeconds(c) * SECOND, rows[m].createdAt, rows[n].createdAt)
  {
    InitInv(c, now);
    RunKeepsGuarded(c, Init(c, now), tr, email);
  }
}
