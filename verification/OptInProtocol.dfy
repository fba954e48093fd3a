/** The double opt-in flow: subscriber table, handlers in flight, and the notification queue, as one transition system.

    A handler is a sequence of steps with other handlers and the queue in between. The lookup and the update of a
    confirmation are separate steps, as are the read and the upsert of a resend, because at the default isolation level
    other transactions may commit between the statements of one. */
module OptInProtocol {
  import opened Common
  import opened Runs
  import opened SubscriberQueries
  import N = NotificationQueries
  import Q = QueueProtocol
  import T = Tokens

  type HandlerId = nat

  /** The primitives the flow is built on: keyed MAC, SHA-256, and the text form of a row id. */
  datatype Keys = Keys(
    mac: T.Mac,
    sha: Bytes -> Bytes,
    uuidText: SubscriberId -> Bytes,
    uuidScan: Bytes -> Option<SubscriberId>)

  datatype Config = Config(
    queue: Q.Config,
    keys: Keys,
    throttleWindow: int,
    confirmTtl: int,
    unsubscribeTtl: int)

  ghost predicate ConfigOk(c: Config) {
    && Q.ConfigOk(c.queue)
    && T.MacOk(c.keys.mac)
    && forall id: SubscriberId :: c.keys.uuidScan(c.keys.uuidText(id)) == Some(id)
  }

  datatype Handler =
    // HandleSubscribe: address accepted; throttle passed; secret made; row stored.
    | Subscribing(email: string)
    | Unthrottled(email: string, checkedAt: int)
    | Ready(email: string, checkedAt: int, hash: Bytes)
    // EnqueueConfirm: secret made; pending row read.
    | Resending(id: SubscriberId, hash: Bytes)
    | ReadPending(id: SubscriberId, email: string, source: Option<string>, hash: Bytes)
    // Either of them, with the mail still to queue; `notBefore` is the time of the throttle test of HandleSubscribe.
    | Stored(email: string, notBefore: Option<int>, id: SubscriberId, hash: Bytes)
    // HandleConfirmPOST: token verified; pending row found.
    | Confirming(token: string, subject: Bytes, verifiedAt: int)
    | Found(token: string, subject: Bytes, verifiedAt: int, id: SubscriberId, seen: Subscriber)

  /** A confirm secret, the signed token that carries it, and the expiry written beside its hash. */
  datatype Mint = Mint(raw: Bytes, issuedAt: int, expiresAt: int)

  /** Which row a queued mail speaks of, and which handler queued it. */
  datatype Mail = Mail(id: SubscriberId, hash: Bytes, issuedAt: int, bySubscribe: bool)

  /** `minted`, `home` and `mails` record history: every secret by its hash, the row each hash was stored for, and
      every confirmation mail. No step of the program reads them except to describe tokens it holds in memory. */
  datatype State = State(
    queue: Q.State,
    subs: Table,
    handlers: map<HandlerId, Handler>,
    minted: map<Bytes, Mint>,
    home: map<Bytes, SubscriberId>,
    mails: map<N.NotificationId, Mail>)

  datatype Step =
    | QueueStep(step: Q.Step)
    | Begin(h: HandlerId, email: string)
    | Throttle(h: HandlerId, at: int)
    | MakeSecret(h: HandlerId, raw: Bytes)
    | Store(h: HandlerId, id: SubscriberId, source: Option<string>, userId: Option<Bytes>, at: int)
    | Queue(h: HandlerId, mail: N.NotificationId, issuedAt: int, at: int)
    | BeginResend(h: HandlerId, id: SubscriberId, raw: Bytes)
    | Read(h: HandlerId)
    | StoreAgain(h: HandlerId, id: SubscriberId, at: int)
    | OpenConfirm(h: HandlerId, token: string)
    | Lookup(h: HandlerId, id: SubscriberId)
    | Confirm(h: HandlerId, at: int)
    | Unsubscribe(token: string, verifiedAt: int, at: int)
    | Drop(h: HandlerId)

  function Init(c: Config, now: int): State {
    State(Q.Init(c.queue, now), map[], map[], map[], map[], map[])
  }

  function WindowSeconds(c: Config): int {
    Wrap32(TruncDiv(c.throttleWindow, SECOND))
  }

  function ConfirmToken(c: Config, m: Mint): string {
    T.Base64Url.Encode(T.TokenBytes(c.keys.mac, T.PurposeByte(T.ConfirmSubscriber),
                                    T.UnixSeconds(m.issuedAt), T.UnixSeconds(m.expiresAt), m.raw))
  }

  function UnsubscribeToken(c: Config, id: SubscriberId, issuedAt: int): string {
    T.Base64Url.Encode(T.TokenBytes(c.keys.mac, T.PurposeByte(T.UnsubscribeSubscriber),
                                    T.UnixSeconds(issuedAt), T.UnixSeconds(issuedAt + c.unsubscribeTtl),
                                    c.keys.uuidText(id)))
  }

  // A secret is fresh when no earlier secret has the same hash.
  predicate FreshSecret(c: Config, s: State, raw: Bytes) {
    |raw| == 32 && c.keys.sha(raw) !in s.minted
  }

  function Minted(c: Config, s: State, raw: Bytes): map<Bytes, Mint> {
    s.minted[c.keys.sha(raw) := Mint(raw, s.queue.now, s.queue.now + c.confirmTtl)]
  }

  // The row an unsubscribe token names, if it verifies.
  function UnsubscribeTarget(c: Config, token: string, now: int): Option<SubscriberId> {
    match T.Verify(c.keys.mac, token, T.UnsubscribeSubscriber, now)
    case Ok(subject) => c.keys.uuidScan(subject)
    case Err(_) => None
  }

  predicate Enabled(c: Config, s: State, step: Step) {
    match step
    case QueueStep(q) => !q.Enqueue? && Q.Enabled(c.queue, s.queue, q)
    case Begin(h, _) => h !in s.handlers
    case Throttle(h, at) => h in s.handlers && s.handlers[h].Subscribing? && at <= s.queue.now
    case MakeSecret(h, raw) => h in s.handlers && s.handlers[h].Unthrottled? && FreshSecret(c, s, raw)
    case Store(h, id, _, _, at) =>
      && h in s.handlers && s.handlers[h].Ready? && s.handlers[h].hash in s.minted && at <= s.queue.now
      && UpsertTarget(s.subs, s.handlers[h].email, id)
    case Queue(h, mail, issuedAt, at) =>
      && h in s.handlers && s.handlers[h].Stored? && s.handlers[h].hash in s.minted
      && mail !in s.queue.rows && issuedAt <= s.queue.now && at <= s.queue.now
      && (s.handlers[h].notBefore.Some? ==> at >= s.handlers[h].notBefore.value)
    case BeginResend(h, _, raw) => h !in s.handlers && FreshSecret(c, s, raw)
    case Read(h) => h in s.handlers && s.handlers[h].Resending?
    case StoreAgain(h, id, at) =>
      && h in s.handlers && s.handlers[h].ReadPending? && s.handlers[h].hash in s.minted && at <= s.queue.now
      && UpsertTarget(s.subs, s.handlers[h].email, id)
    case OpenConfirm(h, token) =>
      h !in s.handlers && T.Verify(c.keys.mac, token, T.ConfirmSubscriber, s.queue.now).Ok?
    case Lookup(h, id) =>
      && h in s.handlers && s.handlers[h].Confirming?
      && HasPendingHash(s.subs, id, c.keys.sha(s.handlers[h].subject))
    case Confirm(h, at) => h in s.handlers && s.handlers[h].Found? && at <= s.queue.now
    case Unsubscribe(token, verifiedAt, at) =>
      verifiedAt <= s.queue.now && UnsubscribeTarget(c, token, verifiedAt).Some? && at <= s.queue.now
    case Drop(h) => h in s.handlers
  }

  function Go(s: State, h: HandlerId, next: Handler): State {
    s.(handlers := s.handlers[h := next])
  }

  function Done(s: State, h: HandlerId): State {
    s.(handlers := s.handlers - {h})
  }

  // The upsert of either handler. When it returns no row the handler ends: with the uniform answer for a subscriber,
  // with a conflict for a resend, which queues its mail for the id it was asked for.
  function Upserted(c: Config, s: State, h: HandlerId, target: SubscriberId, u: Upsert, at: int,
                    notBefore: Option<int>, id: SubscriberId): State
    requires h in s.handlers
  {
    if UpsertReturns(s.subs, target) then
      Go(s, h, Stored(u.email, notBefore, id, u.hash))
      .(subs := UpsertPending(s.subs, target, u, at), home := s.home[u.hash := target])
    else Done(s, h)
  }

  // The mail a handler queues once its row is stored.
  function MailStep(c: Config, s: State, h: HandlerId, mail: N.NotificationId, issuedAt: int, at: int): Q.Step
    requires h in s.handlers && s.handlers[h].Stored? && s.handlers[h].hash in s.minted
  {
    var k := s.handlers[h];
    Q.Enqueue(mail, N.ConfirmEmail, k.email,
              N.ConfirmLinks(ConfirmToken(c, s.minted[k.hash]), UnsubscribeToken(c, k.id, issuedAt)), at)
  }

  function Queued(c: Config, s: State, step: Step): State
    requires step.Queue? && Enabled(c, s, step)
  {
    var k := s.handlers[step.h];
    Done(s, step.h).(
      queue := Q.Apply(c.queue, s.queue, MailStep(c, s, step.h, step.mail, step.issuedAt, step.at)),
      mails := s.mails[step.mail := Mail(k.id, k.hash, step.issuedAt, k.notBefore.Some?)])
  }

  function Apply(c: Config, s: State, step: Step): State
    requires Enabled(c, s, step)
  {
    match step
    case QueueStep(q) => s.(queue := Q.Apply(c.queue, s.queue, q))
    case Begin(h, email) => Go(s, h, Subscribing(email))
    case Throttle(h, at) =>
      var email := s.handlers[h].email;
      if c.throttleWindow > 0 && N.HasRecent(s.queue.rows, email, N.ConfirmEmail, WindowSeconds(c), at)
      then Done(s, h)
      else Go(s, h, Unthrottled(email, at))
    case MakeSecret(h, raw) =>
      Go(s, h, Ready(s.handlers[h].email, s.handlers[h].checkedAt, c.keys.sha(raw))).(minted := Minted(c, s, raw))
    case Store(h, id, source, userId, at) =>
      var k := s.handlers[h];
      Upserted(c, s, h, id, Upsert(k.email, k.hash, s.minted[k.hash].expiresAt, source, userId), at,
               Some(k.checkedAt), id)
    case Queue(_, _, _, _) => Queued(c, s, step)
    case BeginResend(h, id, raw) => Go(s, h, Resending(id, c.keys.sha(raw))).(minted := Minted(c, s, raw))
    case Read(h) =>
      var id := s.handlers[h].id;
      if id in s.subs && s.subs[id].status.Pending?
      then Go(s, h, ReadPending(id, s.subs[id].email, s.subs[id].source, s.handlers[h].hash))
      else Done(s, h)
    case StoreAgain(h, target, at) =>
      var k := s.handlers[h];
      Upserted(c, s, h, target, Upsert(k.email, k.hash, s.minted[k.hash].expiresAt, k.source, None), at, None, k.id)
    case OpenConfirm(h, token) =>
      Go(s, h, Confirming(token, T.Verify(c.keys.mac, token, T.ConfirmSubscriber, s.queue.now).value, s.queue.now))
    case Lookup(h, id) =>
      var k := s.handlers[h];
      Go(s, h, Found(k.token, k.subject, k.verifiedAt, id, s.subs[id]))
    case Confirm(h, at) => Done(s, h).(subs := ConfirmById(s.subs, s.handlers[h].id, at))
    case Unsubscribe(token, verifiedAt, at) =>
      s.(subs := UnsubscribeById(s.subs, UnsubscribeTarget(c, token, verifiedAt).value, at))
    case Drop(h) => Done(s, h)
  }

  function Transition(c: Config): (State, Step) -> Option<State> {
    (s, step) => if Enabled(c, s, step) then Some(Apply(c, s, step)) else None
  }

  function Exec(c: Config, s: State, tr: seq<Step>): Option<State> {
    Run(Transition(c), s, tr)
  }

  ghost predicate Reachable(c: Config, s: State) {
    exists t: int, tr: seq<Step> :: Exec(c, Init(c, t), tr) == Some(s)
  }

  lemma Onward(c: Config, s: State, tr: seq<Step>, t: State)
    requires Reachable(c, s) && Exec(c, s, tr) == Some(t)
    ensures Reachable(c, t)
  {
    var now: int, before: seq<Step> :| Exec(c, Init(c, now), before) == Some(s);
    RunConcat(Transition(c), Init(c, now), before, tr);
    assert Exec(c, Init(c, now), before + tr) == Some(t);
  }
}
