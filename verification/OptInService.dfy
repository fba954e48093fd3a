/** The opt-in handlers as the program runs them, statement by statement, with everything else in between. Each handler
    is proved to take only steps of the opt-in protocol, so the theorems about its runs hold for what they do. */
module OptInService {
  import opened Common
  import opened Runs
  import opened SubscriberQueries
  import opened OptInProtocol
  import opened OptInInvariant
  import N = NotificationQueries
  import Q = QueueProtocol
  import T = Tokens

  /** What the world does before the next action of a handler, and how that action turns out. */
  datatype Event = Event(others: seq<Step>, at: int, fails: bool)

  /** What a caller is told. */
  datatype Answer = Accepted | SaidConfirmed | SaidUnsubscribed | Resent | BadRequest | NotFound | Conflict | Internal

  function HandlerOf(step: Step): Option<HandlerId> {
    if step.QueueStep? || step.Unsubscribe? then None else Some(step.h)
  }

  predicate Draws(c: Config, step: Step, hash: Bytes) {
    (step.MakeSecret? || step.BeginResend?) && c.keys.sha(step.raw) == hash
  }

  function Mine(h: HandlerId): Step -> bool {
    step => HandlerOf(step) == Some(h)
  }

  // The steps of a run that handler `h` took itself.
  ghost function Own(tr: seq<Step>, h: HandlerId): seq<Step> {
    Filter(tr, Mine(h))
  }

  // A run and one more step of handler `h`.
  lemma Extend(c: Config, s: State, a: seq<Step>, mid: State, step: Step, t: State, h: HandlerId)
    requires Exec(c, s, a) == Some(mid) && Ran(c, mid, step, t, h)
    ensures Exec(c, s, a + [step]) == Some(t) && Own(a + [step], h) == Own(a, h) + [step]
  {
    Join(Transition(c), s, a, mid, [step], Mine(h));
  }

  lemma OneThen(x: seq<Step>, y: seq<Step>)
    requires |x| == 1
    ensures x + y == [x[0]] + y && |x + y| == 1 + |y| && (x + y)[0] == x[0] && (x + y)[1..] == y
    ensures y != [] ==> Last(x + y) == Last(y)
  {
  }

  // A step of handler `h` and a run.
  lemma Prefix(c: Config, s: State, step: Step, mid: State, b: seq<Step>, t: State, h: HandlerId)
    requires Ran(c, s, step, mid, h) && Exec(c, mid, b) == Some(t)
    ensures Exec(c, s, [step] + b) == Some(t)
    ensures Own([step] + b, h) == [step] + Own(b, h)
    ensures |Own([step] + b, h)| == 1 + |Own(b, h)|
    ensures Own([step] + b, h)[0] == step && Own([step] + b, h)[1..] == Own(b, h)
    ensures Own(b, h) != [] ==> Last(Own([step] + b, h)) == Last(Own(b, h))
  {
    Join(Transition(c), s, [step], mid, b, Mine(h));
    OneThen(Own([step], h), Own(b, h));
  }

  // A run in which `h` took one step, and another run.
  lemma Follow(c: Config, s: State, a: seq<Step>, mid: State, b: seq<Step>, t: State, h: HandlerId)
    requires Exec(c, s, a) == Some(mid) && |Own(a, h)| == 1 && Exec(c, mid, b) == Some(t)
    ensures Exec(c, s, a + b) == Some(t)
    ensures Own(a + b, h) == [Own(a, h)[0]] + Own(b, h)
    ensures |Own(a + b, h)| == 1 + |Own(b, h)|
    ensures Own(a + b, h)[0] == Own(a, h)[0] && Own(a + b, h)[1..] == Own(b, h)
    ensures Own(b, h) != [] ==> Last(Own(a + b, h)) == Last(Own(b, h))
  {
    Join(Transition(c), s, a, mid, b, Mine(h));
    OneThen(Own(a, h), Own(b, h));
  }

  // One step of handler `h` as a run of its own.
  lemma One(c: Config, s: State, step: Step, t: State)
    requires Reachable(c, s) && Enabled(c, s, step) && t == Apply(c, s, step)
    ensures Exec(c, s, [step]) == Some(t) && Reachable(c, t)
    ensures HandlerOf(step).Some? ==> Own([step], step.h) == [step]
  {
    assert [] + [step] == [step] && [step][..0] == [];
    assert Exec(c, s, [step]) == Some(t) by {
      RunOne(Transition(c), s, [], step);
    }
    if HandlerOf(step).Some? {
      assert Filter([step], Mine(step.h)) == [] + [step];
    }
    Onward(c, s, [step], t);
  }

  predicate SameHandler(before: map<HandlerId, Handler>, after: map<HandlerId, Handler>, h: HandlerId) {
    if h in before then h in after && after[h] == before[h] else h !in after
  }

  predicate StillFresh(before: map<Bytes, Mint>, after: map<Bytes, Mint>, hash: Bytes) {
    hash !in before ==> hash !in after
  }

  lemma OthersSpare(c: Config, s: State, step: Step, h: HandlerId)
    requires Enabled(c, s, step) && HandlerOf(step) != Some(h)
    ensures SameHandler(s.handlers, Apply(c, s, step).handlers, h)
  {
    if step.Store? || step.StoreAgain? {
      UpsertSpares(c, s, step, h);
    }
  }

  lemma UpsertSpares(c: Config, s: State, step: Step, h: HandlerId)
    requires Enabled(c, s, step) && (step.Store? || step.StoreAgain?) && step.h != h
    ensures SameHandler(s.handlers, Apply(c, s, step).handlers, h)
  {
  }

  lemma OthersDrawOther(c: Config, s: State, step: Step, hash: Bytes)
    requires Enabled(c, s, step) && !Draws(c, step, hash)
    ensures StillFresh(s.minted, Apply(c, s, step).minted, hash)
  {
  }

  lemma ClockForward(c: Config, s: State, step: Step)
    requires Enabled(c, s, step)
    ensures s.queue.now <= Apply(c, s, step).queue.now
  {
  }

  // Whether the next action fails; after the tape nothing does.
  predicate Fails(tape: seq<Event>) {
    tape != [] && tape[0].fails
  }

  function Rest(tape: seq<Event>): seq<Event> {
    if tape == [] then [] else tape[1..]
  }

  ghost predicate Healthy(tape: seq<Event>) {
    forall i :: 0 <= i < |tape| ==> !tape[i].fails
  }

  class Service {
    const c: Config
    var queue: Q.State
    var subs: Table
    var handlers: map<HandlerId, Handler>
    var minted: map<Bytes, Mint>
    var home: map<Bytes, SubscriberId>
    var mails: map<N.NotificationId, Mail>
    var tape: seq<Event>

    constructor (c: Config, now: int, tape: seq<Event>)
      requires ConfigOk(c)
      ensures this.c == c && View() == Init(c, now) && Reachable(c, View())
    {
      this.c := c;
      queue, subs, handlers, minted, home, mails := Q.Init(c.queue, now), map[], map[], map[], map[], map[];
      this.tape := tape;
      new;
      assert Exec(c, Init(c, now), []) == Some(Init(c, now));
    }

    function View(): State
      reads this
    {
      State(queue, subs, handlers, minted, home, mails)
    }

    /** The possible steps of others happen, none of them drawing the secret with hash `hash`. */
    method Interlude(h: HandlerId, hash: Bytes, since: int) returns (e: Event, ghost tr: seq<Step>)
      requires ConfigOk(c) && Reachable(c, View()) && since <= queue.now
      modifies this
      ensures Exec(c, old(View()), tr) == Some(View()) && Reachable(c, View()) && Own(tr, h) == []
      ensures SameHandler(old(handlers), handlers, h) && StillFresh(old(minted), minted, hash)
      ensures since <= e.at <= queue.now && old(queue).now <= queue.now
      ensures e.fails == Fails(old(tape)) && tape == Rest(old(tape))
    {
      tr := [];
      e := Event([], queue.now, false);
      if tape != [] {
        e := tape[0];
        tape := tape[1..];
      }
      for i := 0 to |e.others|
        invariant Exec(c, old(View()), tr) == Some(View()) && Reachable(c, View()) && Own(tr, h) == []
        invariant SameHandler(old(handlers), handlers, h) && StillFresh(old(minted), minted, hash)
        invariant old(queue).now <= queue.now
        invariant e.fails == Fails(old(tape)) && tape == Rest(old(tape))
      {
        var step := e.others[i];
        if HandlerOf(step) != Some(h) && !Draws(c, step, hash) && Enabled(c, View(), step) {
          OthersSpare(c, View(), step, h);
          OthersDrawOther(c, View(), step, hash);
          ClockForward(c, View(), step);
          One(c, View(), step, Apply(c, View(), step));
          Join(Transition(c), old(View()), tr, View(), [step], Mine(h));
          Become(Apply(c, View(), step));
          tr := tr + [step];
        }
      }
      e := e.(at := if e.at < since then since else Min(e.at, queue.now));
    }

    method Become(s: State)
      modifies this`queue, this`subs, this`handlers, this`minted, this`home, this`mails
      ensures View() == s
    {
      queue, subs, handlers, minted, home, mails := s.queue, s.subs, s.handlers, s.minted, s.home, s.mails;
    }

    // ---- Statements ----

    // Insert a row, refresh a pending one, or hit a row that is not pending and return nothing.
    method UpsertPendingSubscriber(u: Upsert, at: int) returns (id: SubscriberId, returned: bool)
      modifies this`subs
      ensures UpsertTarget(old(subs), u.email, id) && returned == UpsertReturns(old(subs), id)
      ensures subs == UpsertPending(old(subs), id, u, at)
    {
      id := RowOf(u.email);
      returned := true;
      if id !in subs {
        subs := subs[id := Subscriber(u.email, Pending, Some(u.hash), Some(u.expiresAt), None, None, u.source, u.userId,
                                      at, at)];
      } else if subs[id].status.Pending? {
        var source := if subs[id].source.Some? then subs[id].source else u.source;
        var userId := if subs[id].userId.Some? then subs[id].userId else u.userId;
        subs := subs[id := subs[id].(confirmHash := Some(u.hash), confirmExpiresAt := Some(u.expiresAt),
                                     source := source, userId := userId, updatedAt := at)];
      } else {
        returned := false;
      }
    }

    // The row with that address, or the id that an insert would take.
    method RowOf(email: string) returns (id: SubscriberId)
      ensures UpsertTarget(subs, email, id)
    {
      var left := subs.Keys;
      var free: nat := 0;
      while left != {}
        invariant left <= subs.Keys
        invariant forall k :: k in subs && k !in left ==> subs[k].email != email && k < free
      {
        var k :| k in left;
        if subs[k].email == email {
          return k;
        }
        free := if k >= free then k + 1 else free;
        left := left - {k};
      }
      return free;
    }

    method GetSubscriberByConfirmTokenHash(hash: Bytes) returns (id: Option<SubscriberId>)
      ensures id.Some? ==> HasPendingHash(subs, id.value, hash)
      ensures id.None? ==> forall k :: k in subs ==> !HasPendingHash(subs, k, hash)
    {
      var left := subs.Keys;
      while left != {}
        invariant left <= subs.Keys
        invariant forall k :: k in subs && k !in left ==> !HasPendingHash(subs, k, hash)
      {
        var k :| k in left;
        if subs[k].status.Pending? && subs[k].confirmHash == Some(hash) {
          return Some(k);
        }
        left := left - {k};
      }
      return None;
    }

    method ConfirmSubscriberById(id: SubscriberId, at: int) returns (affected: nat)
      modifies this`subs
      ensures subs == ConfirmById(old(subs), id, at)
      ensures affected == if ConfirmMatches(old(subs), id) then 1 else 0
    {
      if id !in subs || subs[id].status == SubscriberQueries.Unsubscribed || subs[id].unsubscribedAt.Some? {
        return 0;
      }
      var confirmedAt := if subs[id].confirmedAt.Some? then subs[id].confirmedAt else Some(at);
      subs := subs[id := subs[id].(status := SubscriberQueries.Confirmed, confirmedAt := confirmedAt,
                                   confirmHash := None, confirmExpiresAt := None, updatedAt := at)];
      return 1;
    }

    method UnsubscribeSubscriberById(id: SubscriberId, at: int) returns (affected: nat)
      modifies this`subs
      ensures subs == UnsubscribeById(old(subs), id, at)
      ensures affected == if id in old(subs) && !old(subs)[id].status.Unsubscribed? then 1 else 0
    {
      if id !in subs || subs[id].status == SubscriberQueries.Unsubscribed {
        return 0;
      }
      subs := subs[id := subs[id].(status := SubscriberQueries.Unsubscribed, unsubscribedAt := Some(at),
                                   confirmHash := None, confirmExpiresAt := None, updatedAt := at)];
      return 1;
    }

    method EnqueueNotification(email: string, payload: N.Payload, at: int) returns (n: N.NotificationId)
      requires at <= queue.now
      modifies this`queue
      ensures n !in old(queue).rows
      ensures queue == Q.Apply(c.queue, old(queue), Q.Enqueue(n, N.ConfirmEmail, email, payload, at))
    {
      n := FreshId(queue.rows.Keys);
      queue := queue.(rows := queue.rows[n := N.Inserted(N.ConfirmEmail, email, payload, at)]);
    }

    method FreshId(taken: set<nat>) returns (n: nat)
      ensures n !in taken
    {
      n := 0;
      var left := taken;
      while left != {}
        invariant left <= taken && forall k :: k in taken && k !in left ==> k < n
      {
        var k :| k in left;
        n := if k >= n then k + 1 else n;
        left := left - {k};
      }
    }

    // ---- The actions of a handler, one step of the protocol each ----

    method Start(h: HandlerId, email: string) returns (ghost step: Step)
      requires ConfigOk(c) && Reachable(c, View()) && h !in handlers
      modifies this`handlers
      ensures Ran(c, old(View()), step, View(), h) && step == Begin(h, email)
      ensures handlers == old(handlers)[h := Subscribing(email)]
    {
      ghost var s := View();
      handlers := handlers[h := Subscribing(email)];
      step := Begin(h, email);
      One(c, s, step, View());
    }

    // A failed transaction ends the handler; what it did before stays.
    method Leave(h: HandlerId) returns (ghost step: Step)
      requires ConfigOk(c) && Reachable(c, View()) && h in handlers
      modifies this`handlers
      ensures Ran(c, old(View()), step, View(), h) && step == Drop(h) && h !in handlers
    {
      ghost var s := View();
      handlers := handlers - {h};
      step := Drop(h);
      One(c, s, step, View());
    }

    method TestThrottle(h: HandlerId, at: int) returns (go: bool, ghost step: Step)
      requires ConfigOk(c) && Reachable(c, View())
      requires h in handlers && handlers[h].Subscribing? && at <= queue.now
      modifies this`handlers
      ensures Ran(c, old(View()), step, View(), h) && step == Throttle(h, at)
      ensures if go then Waiting(handlers, h, old(handlers)[h].email, queue.now) else h !in handlers
    {
      ghost var s := View();
      var email := handlers[h].email;
      go := true;
      if c.throttleWindow > 0 {
        var recent := N.HasRecent(queue.rows, email, N.ConfirmEmail, WindowSeconds(c), at);
        go := !recent;
      }
      if go {
        handlers := handlers[h := Unthrottled(email, at)];
      } else {
        handlers := handlers - {h};
      }
      step := Throttle(h, at);
      One(c, s, step, View());
    }

    method DrawSecret(h: HandlerId, raw: Bytes) returns (ghost step: Step)
      requires ConfigOk(c) && Reachable(c, View())
      requires h in handlers && handlers[h].Unthrottled? && FreshSecret(c, View(), raw)
      modifies this`handlers, this`minted
      ensures Ran(c, old(View()), step, View(), h) && step == MakeSecret(h, raw)
      ensures h in handlers && handlers[h] == Ready(old(handlers)[h].email, old(handlers)[h].checkedAt, c.keys.sha(raw))
    {
      ghost var s := View();
      var hash := c.keys.sha(raw);
      minted := minted[hash := Mint(raw, queue.now, queue.now + c.confirmTtl)];
      handlers := handlers[h := Ready(handlers[h].email, handlers[h].checkedAt, hash)];
      step := MakeSecret(h, raw);
      One(c, s, step, View());
    }

    method StoreHash(h: HandlerId, source: Option<string>, userId: Option<Bytes>, at: int)
      returns (go: bool, ghost step: Step)
      requires ConfigOk(c) && Reachable(c, View())
      requires h in handlers && handlers[h].Ready? && at <= queue.now
      requires handlers[h].checkedAt <= queue.now
      modifies this`subs, this`handlers, this`home
      ensures Ran(c, old(View()), step, View(), h) && step.Store? && step == Store(h, step.id, source, userId, at)
      ensures if go then MailDue(handlers, h, queue.now) else h !in handlers
    {
      HashIsMinted(c, View(), h);
      ghost var s := View();
      var k := handlers[h];
      var id;
      id, go := UpsertPendingSubscriber(Upsert(k.email, k.hash, minted[k.hash].expiresAt, source, userId), at);
      if go {
        handlers := handlers[h := Stored(k.email, Some(k.checkedAt), id, k.hash)];
        home := home[k.hash := id];
      } else {
        handlers := handlers - {h};
      }
      step := Store(h, id, source, userId, at);
      One(c, s, step, View());
    }

    method QueueLinks(h: HandlerId, at: int) returns (ghost step: Step)
      requires ConfigOk(c) && Reachable(c, View())
      requires MailDue(handlers, h, queue.now) && at <= queue.now
      requires handlers[h].notBefore.Some? ==> handlers[h].notBefore.value <= at
      modifies this`queue, this`handlers, this`mails
      ensures Ran(c, old(View()), step, View(), h) && h !in handlers
      ensures step.Queue? && step.issuedAt == old(queue).now && step.at == at
    {
      HashIsMinted(c, View(), h);
      ghost var s := View();
      var k := handlers[h];
      var issuedAt := queue.now;
      var confirm, unsubscribe := ConfirmToken(c, minted[k.hash]), UnsubscribeToken(c, k.id, issuedAt);
      var n := EnqueueNotification(k.email, N.ConfirmLinks(confirm, unsubscribe), at);
      handlers := handlers - {h};
      mails := mails[n := Mail(k.id, k.hash, issuedAt, k.notBefore.Some?)];
      step := Queue(h, n, issuedAt, at);
      One(c, s, step, View());
    }

    // ---- HandleSubscribe ----

    // A transaction of handler `h`: the others act, then its own statements take effect as of `at`, or it fails.
    method Transact(h: HandlerId, hash: Bytes, canFail: bool) returns (ok: bool, at: int, ghost tr: seq<Step>)
      requires ConfigOk(c) && Reachable(c, View()) && h in handlers
      modifies this
      ensures Exec(c, old(View()), tr) == Some(View()) && Reachable(c, View()) && StillFresh(old(minted), minted, hash)
      ensures if ok then h in handlers && handlers[h] == old(handlers)[h] else h !in handlers
      ensures Own(tr, h) == if ok then [] else [Drop(h)]
      ensures old(queue).now <= at <= queue.now
      ensures ok == !(canFail && Fails(old(tape))) && tape == Rest(old(tape))
    {
      var e;
      e, tr := Interlude(h, hash, queue.now);
      ok, at := !(canFail && e.fails), e.at;
      if !ok {
        ghost var mid := View();
        ghost var step := Leave(h);
        Extend(c, old(View()), tr, mid, step, View(), h);
        tr := tr + [step];
      }
    }

    // `go` says whether to continue.
    method PassThrottle(h: HandlerId, hash: Bytes) returns (go: bool, answer: Answer, ghost tr: seq<Step>)
      requires ConfigOk(c) && Reachable(c, View()) && h in handlers && handlers[h].Subscribing?
      modifies this
      ensures Exec(c, old(View()), tr) == Some(View()) && Reachable(c, View()) && StillFresh(old(minted), minted, hash)
      ensures if go then Waiting(handlers, h, old(handlers)[h].email, queue.now) else h !in handlers
      ensures |Own(tr, h)| == 1
      ensures if answer == Accepted then Own(tr, h)[0].Throttle? && old(queue).now <= Own(tr, h)[0].at
              else answer == Internal && !go && Own(tr, h)[0] == Drop(h)
      ensures answer == Internal <==> c.throttleWindow > 0 && Fails(old(tape))
      ensures tape == Rest(old(tape))
    {
      var ok, at;
      ok, at, tr := Transact(h, hash, c.throttleWindow > 0);
      if !ok {
        return false, Internal, tr;
      }
      ghost var mid := View();
      ghost var step;
      go, step := TestThrottle(h, at);
      Extend(c, old(View()), tr, mid, step, View(), h);
      tr := tr + [step];
      answer := Accepted;
    }

    // The upsert; `go` is false when the row is not pending, or when the transaction failed.
    method StoreRow(h: HandlerId, source: Option<string>, userId: Option<Bytes>)
      returns (go: bool, answer: Answer, ghost tr: seq<Step>)
      requires ConfigOk(c) && Reachable(c, View())
      requires h in handlers && handlers[h].Ready? && handlers[h].checkedAt <= queue.now
      modifies this
      ensures Exec(c, old(View()), tr) == Some(View()) && Reachable(c, View())
      ensures if go then MailDue(handlers, h, queue.now) else h !in handlers
      ensures |Own(tr, h)| == 1
      ensures if answer == Accepted then StoresFor(Own(tr, h)[0], source, userId) && old(queue).now <= Own(tr, h)[0].at
              else answer == Internal && !go && Own(tr, h)[0] == Drop(h)
      ensures answer == Internal <==> Fails(old(tape))
      ensures tape == Rest(old(tape))
    {
      var ok, at;
      ok, at, tr := Transact(h, [], true);
      if !ok {
        return false, Internal, tr;
      }
      ghost var mid := View();
      ghost var step;
      go, step := StoreHash(h, source, userId, at);
      Extend(c, old(View()), tr, mid, step, View(), h);
      tr := tr + [step];
      answer := Accepted;
    }

    method QueueMail(h: HandlerId) returns (ok: bool, ghost tr: seq<Step>)
      requires ConfigOk(c) && Reachable(c, View()) && MailDue(handlers, h, queue.now)
      modifies this
      ensures Exec(c, old(View()), tr) == Some(View()) && Reachable(c, View()) && h !in handlers
      ensures |Own(tr, h)| == 1
      ensures if ok then QueuedSince(Own(tr, h)[0], old(queue).now) else Own(tr, h)[0] == Drop(h)
      ensures ok == !Fails(old(tape)) && tape == Rest(old(tape))
    {
      var at;
      ok, at, tr := Transact(h, [], true);
      if !ok {
        return;
      }
      ghost var mid := View();
      ghost var step := QueueLinks(h, at);
      Extend(c, old(View()), tr, mid, step, View(), h);
      tr := tr + [step];
    }

    // The upsert and the mail. A failure to queue the mail is only logged.
    method StoreAndMail(h: HandlerId, source: Option<string>, userId: Option<Bytes>)
      returns (answer: Answer, ghost tr: seq<Step>)
      requires ConfigOk(c) && Reachable(c, View())
      requires h in handlers && handlers[h].Ready? && handlers[h].checkedAt <= queue.now
      modifies this
      ensures Exec(c, old(View()), tr) == Some(View()) && Reachable(c, View()) && h !in handlers
      ensures Stores(Own(tr, h), h, source, userId, answer)
      ensures Healthy(old(tape)) ==> Healthy(tape) && Last(Own(tr, h)) != Drop(h)
    {
      var go;
      go, answer, tr := StoreRow(h, source, userId);
      if go {
        ghost var mid := View();
        var ok;
        ghost var more;
        ok, more := QueueMail(h);
        Follow(c, old(View()), tr, mid, more, View(), h);
        tr := tr + more;
      }
    }

    // From the secret to the mail.
    method Register(h: HandlerId, source: Option<string>, userId: Option<Bytes>, raw: Bytes)
      returns (answer: Answer, ghost tr: seq<Step>)
      requires ConfigOk(c) && Reachable(c, View()) && FreshSecret(c, View(), raw)
      requires h in handlers && handlers[h].Unthrottled? && handlers[h].checkedAt <= queue.now
      modifies this
      ensures Exec(c, old(View()), tr) == Some(View()) && Reachable(c, View()) && h !in handlers
      ensures Registers(Own(tr, h), h, source, userId, raw, answer)
      ensures Healthy(old(tape)) ==> Healthy(tape) && Last(Own(tr, h)) != Drop(h)
    {
      ghost var step := DrawSecret(h, raw);
      tr := [step];
      ghost var mid := View();
      ghost var more;
      answer, more := StoreAndMail(h, source, userId);
      Prefix(c, old(View()), step, mid, more, View(), h);
      tr := tr + more;
    }

    method Request(h: HandlerId, source: Option<string>, userId: Option<Bytes>, raw: Bytes)
      returns (answer: Answer, ghost tr: seq<Step>)
      requires ConfigOk(c) && Reachable(c, View()) && FreshSecret(c, View(), raw)
      requires h in handlers && handlers[h].Subscribing?
      modifies this
      ensures Exec(c, old(View()), tr) == Some(View()) && Reachable(c, View()) && h !in handlers
      ensures Requests(Own(tr, h), h, source, userId, raw, answer)
      ensures Healthy(old(tape)) ==> Last(Own(tr, h)) != Drop(h)
    {
      var go;
      go, answer, tr := PassThrottle(h, c.keys.sha(raw));
      if go {
        ghost var mid := View();
        ghost var more;
        answer, more := Register(h, source, userId, raw);
        Follow(c, old(View()), tr, mid, more, View(), h);
        tr := tr + more;
      }
    }

    // The whole request. It ends at the throttle, at a row that is not pending, or after queueing its mail, and then
    // the answer is always the same and never tells a subscribed address from a new one. It differs only if the
    // throttle test or the upsert fails.
    method HandleSubscribe(h: HandlerId, email: string, source: Option<string>, userId: Option<Bytes>, raw: Bytes)
      returns (answer: Answer, ghost tr: seq<Step>)
      requires ConfigOk(c) && Reachable(c, View()) && h !in handlers && FreshSecret(c, View(), raw)
      modifies this
      ensures Exec(c, old(View()), tr) == Some(View()) && Reachable(c, View()) && h !in handlers
      ensures |Own(tr, h)| >= 2 && Own(tr, h)[0] == Begin(h, email)
      ensures Requests(Own(tr, h)[1..], h, source, userId, raw, answer)
      ensures Healthy(old(tape)) ==> answer == Accepted && Last(Own(tr, h)) != Drop(h)
    {
      ghost var step := Start(h, email);
      tr := [step];
      ghost var mid := View();
      ghost var more;
      answer, more := Request(h, source, userId, raw);
      Prefix(c, old(View()), step, mid, more, View(), h);
      tr := tr + more;
    }

    // ---- HandleConfirmPOST ----

    method OpenToken(h: HandlerId, token: string) returns (ghost step: Step)
      requires ConfigOk(c) && Reachable(c, View()) && h !in handlers
      requires T.Verify(c.keys.mac, token, T.ConfirmSubscriber, queue.now).Ok?
      modifies this`handlers
      ensures Ran(c, old(View()), step, View(), h) && step == OpenConfirm(h, token)
      ensures h in handlers && handlers[h].Confirming?
      ensures Ok(handlers[h].subject) == T.Verify(c.keys.mac, token, T.ConfirmSubscriber, old(queue).now)
    {
      ghost var s := View();
      var subject := T.Verify(c.keys.mac, token, T.ConfirmSubscriber, queue.now).value;
      handlers := handlers[h := Confirming(token, subject, queue.now)];
      step := OpenConfirm(h, token);
      One(c, s, step, View());
    }

    // The lookup; no row ends the request.
    method FindRow(h: HandlerId) returns (go: bool, ghost step: Step)
      requires ConfigOk(c) && Reachable(c, View()) && h in handlers && handlers[h].Confirming?
      modifies this`handlers
      ensures Ran(c, old(View()), step, View(), h)
      ensures go <==> exists id :: HasPendingHash(subs, id, c.keys.sha(old(handlers)[h].subject))
      ensures if go then step.Lookup? && h in handlers && handlers[h].Found? else step == Drop(h) && h !in handlers
    {
      var k := handlers[h];
      var id := GetSubscriberByConfirmTokenHash(c.keys.sha(k.subject));
      go := id.Some?;
      if !go {
        step := Leave(h);
        return;
      }
      ghost var s := View();
      handlers := handlers[h := Found(k.token, k.subject, k.verifiedAt, id.value, subs[id.value])];
      step := Lookup(h, id.value);
      One(c, s, step, View());
    }

    // The update; the number of rows it hit is not looked at.
    method UpdateRow(h: HandlerId, at: int) returns (ghost step: Step)
      requires ConfigOk(c) && Reachable(c, View()) && h in handlers && handlers[h].Found? && at <= queue.now
      modifies this`subs, this`handlers
      ensures Ran(c, old(View()), step, View(), h) && step == Confirm(h, at) && h !in handlers
    {
      ghost var s := View();
      var _ := ConfirmSubscriberById(handlers[h].id, at);
      handlers := handlers - {h};
      step := Confirm(h, at);
      One(c, s, step, View());
    }

    // The whole request: a bad token changes nothing; otherwise lookup and update, with the others in between. Without
    // a failure the answer is "confirmed" exactly if a pending row had the secret's hash at the lookup, which came
    // after the first `n` steps.
    method HandleConfirmPOST(h: HandlerId, token: string) returns (answer: Answer, ghost tr: seq<Step>, ghost n: nat)
      requires ConfigOk(c) && Reachable(c, View()) && h !in handlers
      modifies this
      ensures Exec(c, old(View()), tr) == Some(View()) && Reachable(c, View()) && h !in handlers
      ensures var v := T.Verify(c.keys.mac, token, T.ConfirmSubscriber, old(queue).now);
              if v.Err? then answer == BadRequest && View() == old(View())
              else && Confirms(Own(tr, h), h, token, answer)
                   && (Healthy(old(tape)) ==>
                         LookedUp(c, old(View()), tr, n, c.keys.sha(v.value), answer == SaidConfirmed))
    {
      if T.Verify(c.keys.mac, token, T.ConfirmSubscriber, queue.now).Err? {
        return BadRequest, [], 0;
      }
      answer, tr, n := ConfirmWith(h, token);
    }

    method ConfirmWith(h: HandlerId, token: string) returns (answer: Answer, ghost tr: seq<Step>, ghost n: nat)
      requires ConfigOk(c) && Reachable(c, View()) && h !in handlers
      requires T.Verify(c.keys.mac, token, T.ConfirmSubscriber, queue.now).Ok?
      modifies this
      ensures Exec(c, old(View()), tr) == Some(View()) && Reachable(c, View()) && h !in handlers
      ensures Confirms(Own(tr, h), h, token, answer)
      ensures var subject := T.Verify(c.keys.mac, token, T.ConfirmSubscriber, old(queue).now).value;
              Healthy(old(tape)) ==> LookedUp(c, old(View()), tr, n, c.keys.sha(subject), answer == SaidConfirmed)
    {
      ghost var step := OpenToken(h, token);
      ghost var mid := View();
      ghost var hash := c.keys.sha(handlers[h].subject);
      ghost var more, m;
      answer, more, m := LookUpAndConfirm(h);
      Prefix(c, old(View()), step, mid, more, View(), h);
      tr, n := [step] + more, 1 + m;
      if Healthy(old(tape)) {
        LookedUpLater(c, old(View()), step, mid, more, m, h, hash, answer == SaidConfirmed);
      }
    }

    method LookUpAndConfirm(h: HandlerId) returns (answer: Answer, ghost tr: seq<Step>, ghost n: nat)
      requires ConfigOk(c) && Reachable(c, View()) && h in handlers && handlers[h].Confirming?
      modifies this
      ensures Exec(c, old(View()), tr) == Some(View()) && Reachable(c, View()) && h !in handlers
      ensures Updates(Own(tr, h), h, answer)
      ensures Healthy(old(tape)) ==>
                LookedUp(c, old(View()), tr, n, c.keys.sha(old(handlers)[h].subject), answer == SaidConfirmed)
    {
      answer := BadRequest;
      ghost var hash := c.keys.sha(handlers[h].subject);
      var ok;
      ok, tr, n := LookUp(h);
      if ok {
        ghost var mid := View();
        ghost var more;
        answer, more := UpdateFound(h);
        Follow(c, old(View()), tr, mid, more, View(), h);
        if Healthy(old(tape)) {
          LookedUpBefore(c, old(View()), tr, more, n, hash, ok);
        }
        tr := tr + more;
      }
    }

    method UpdateFound(h: HandlerId) returns (answer: Answer, ghost tr: seq<Step>)
      requires ConfigOk(c) && Reachable(c, View()) && h in handlers && handlers[h].Found?
      modifies this
      ensures Exec(c, old(View()), tr) == Some(View()) && Reachable(c, View()) && h !in handlers
      ensures |Own(tr, h)| == 1
      ensures if answer == SaidConfirmed then Own(tr, h)[0].Confirm?
              else answer == BadRequest && Own(tr, h)[0] == Drop(h)
      ensures answer == SaidConfirmed ==> old(queue).now <= Own(tr, h)[0].at
      ensures answer == SaidConfirmed <==> !Fails(old(tape))
    {
      answer := BadRequest;
      var ok, at;
      ok, at, tr := Transact(h, [], true);
      if ok {
        ghost var mid := View();
        ghost var step := UpdateRow(h, at);
        Extend(c, old(View()), tr, mid, step, View(), h);
        tr := tr + [step];
        answer := SaidConfirmed;
      }
    }

    method LookUp(h: HandlerId) returns (go: bool, ghost tr: seq<Step>, ghost n: nat)
      requires ConfigOk(c) && Reachable(c, View()) && h in handlers && handlers[h].Confirming?
      modifies this
      ensures Exec(c, old(View()), tr) == Some(View()) && Reachable(c, View())
      ensures if go then h in handlers && handlers[h].Found? else h !in handlers
      ensures |Own(tr, h)| == 1 && if go then Own(tr, h)[0].Lookup? else Own(tr, h)[0] == Drop(h)
      ensures tape == Rest(old(tape)) && (Fails(old(tape)) ==> !go)
      ensures !Fails(old(tape)) ==> LookedUp(c, old(View()), tr, n, c.keys.sha(old(handlers)[h].subject), go)
    {
      ghost var hash := c.keys.sha(handlers[h].subject);
      var ok, at;
      ok, at, tr := Transact(h, [], true);
      go, n := false, |tr|;
      if ok {
        ghost var mid := View();
        ghost var step;
        go, step := FindRow(h);
        Extend(c, old(View()), tr, mid, step, View(), h);
        LookedUpHere(c, old(View()), tr, mid, [step], hash, go);
        tr := tr + [step];
      }
    }

    // ---- HandleUnsubscribePOST ----

    method HandleUnsubscribePOST(h: HandlerId, token: string) returns (answer: Answer, ghost tr: seq<Step>)
      requires ConfigOk(c) && Reachable(c, View()) && h !in handlers
      modifies this
      ensures Exec(c, old(View()), tr) == Some(View()) && Reachable(c, View())
      ensures UnsubscribeTarget(c, token, old(queue).now).None? ==> answer == BadRequest && View() == old(View())
      ensures UnsubscribeTarget(c, token, old(queue).now).Some? ==>
                if answer == SaidUnsubscribed
                then Gone(subs, UnsubscribeTarget(c, token, old(queue).now).value)
                else answer == Internal
      ensures answer == Internal <==> UnsubscribeTarget(c, token, old(queue).now).Some? && Fails(old(tape))
    {
      var verifiedAt := queue.now;
      var target := UnsubscribeTarget(c, token, verifiedAt);
      if target.None? {
        return BadRequest, [];
      }
      var e;
      e, tr := Interlude(h, [], queue.now);
      if e.fails {
        return Internal, tr;
      }
      ghost var s := View();
      var _ := UnsubscribeSubscriberById(target.value, e.at);
      ghost var step := OptInProtocol.Unsubscribe(token, verifiedAt, e.at);
      One(c, s, step, View());
      Join(Transition(c), old(View()), tr, s, [step], Mine(h));
      tr := tr + [step];
      answer := SaidUnsubscribed;
    }

    // ---- EnqueueConfirm ----

    method StartResend(h: HandlerId, id: SubscriberId, raw: Bytes) returns (ghost step: Step)
      requires ConfigOk(c) && Reachable(c, View()) && h !in handlers && FreshSecret(c, View(), raw)
      modifies this`handlers, this`minted
      ensures Ran(c, old(View()), step, View(), h) && step == BeginResend(h, id, raw)
      ensures h in handlers && handlers[h].Resending? && handlers[h].id == id
    {
      ghost var s := View();
      var hash := c.keys.sha(raw);
      minted := minted[hash := Mint(raw, queue.now, queue.now + c.confirmTtl)];
      handlers := handlers[h := Resending(id, hash)];
      step := BeginResend(h, id, raw);
      One(c, s, step, View());
    }

    method ReadRow(h: HandlerId) returns (go: bool, answer: Answer, ghost step: Step)
      requires ConfigOk(c) && Reachable(c, View()) && h in handlers && handlers[h].Resending?
      modifies this`handlers
      ensures Ran(c, old(View()), step, View(), h) && step == Read(h)
      ensures if go then h in handlers && handlers[h].ReadPending? else h !in handlers
      ensures !go ==> answer == if old(handlers)[h].id in subs then Conflict else NotFound
      ensures go <==> old(handlers)[h].id in subs && subs[old(handlers)[h].id].status.Pending?
    {
      ghost var s := View();
      var id, hash := handlers[h].id, handlers[h].hash;
      go, answer := false, NotFound;
      if id in subs {
        go := subs[id].status.Pending?;
        answer := Conflict;
      }
      if go {
        handlers := handlers[h := ReadPending(id, subs[id].email, subs[id].source, hash)];
      } else {
        handlers := handlers - {h};
      }
      step := Read(h);
      One(c, s, step, View());
    }

    method StoreHashAgain(h: HandlerId, at: int) returns (go: bool, ghost step: Step)
      requires ConfigOk(c) && Reachable(c, View()) && h in handlers && handlers[h].ReadPending? && at <= queue.now
      modifies this`subs, this`handlers, this`home
      ensures Ran(c, old(View()), step, View(), h) && step.StoreAgain?
      ensures if go then MailDue(handlers, h, queue.now) else h !in handlers
    {
      HashIsMinted(c, View(), h);
      ghost var s := View();
      var k := handlers[h];
      var target;
      target, go := UpsertPendingSubscriber(Upsert(k.email, k.hash, minted[k.hash].expiresAt, k.source, None), at);
      if go {
        handlers := handlers[h := Stored(k.email, None, k.id, k.hash)];
        home := home[k.hash := target];
      } else {
        handlers := handlers - {h};
      }
      step := StoreAgain(h, target, at);
      One(c, s, step, View());
    }

    // The read of the transaction.
    method ReadForResend(h: HandlerId) returns (go: bool, answer: Answer, ghost tr: seq<Step>)
      requires ConfigOk(c) && Reachable(c, View()) && h in handlers && handlers[h].Resending?
      modifies this
      ensures Exec(c, old(View()), tr) == Some(View()) && Reachable(c, View())
      ensures if go then h in handlers && handlers[h].ReadPending? else h !in handlers
      ensures !go ==> answer in {NotFound, Conflict, Internal}
      ensures Own(tr, h) == if !go && answer == Internal then [Drop(h)] else [Read(h)]
      ensures Fails(old(tape)) <==> !go && answer == Internal
      ensures !go && answer == NotFound ==> old(handlers)[h].id !in old(subs)
      ensures !go && answer == Conflict ==> old(handlers)[h].id in subs
      ensures tape == Rest(old(tape))
    {
      var ok, at;
      ok, at, tr := Transact(h, [], true);
      go, answer := false, Internal;
      if ok {
        ghost var mid := View();
        RowsStay(c, old(View()), tr);
        ghost var step;
        go, answer, step := ReadRow(h);
        Extend(c, old(View()), tr, mid, step, View(), h);
        tr := tr + [step];
      }
    }

    // The upsert of the same transaction: no row means that the status changed in between.
    method StoreForResend(h: HandlerId) returns (go: bool, answer: Answer, ghost tr: seq<Step>)
      requires ConfigOk(c) && Reachable(c, View()) && h in handlers && handlers[h].ReadPending?
      modifies this
      ensures Exec(c, old(View()), tr) == Some(View()) && Reachable(c, View())
      ensures if go then MailDue(handlers, h, queue.now) else h !in handlers
      ensures !go ==> answer in {Conflict, Internal}
      ensures |Own(tr, h)| == 1
      ensures if !go && answer == Internal then Own(tr, h)[0] == Drop(h) else Own(tr, h)[0].StoreAgain?
      ensures Fails(old(tape)) <==> !go && answer == Internal
      ensures tape == Rest(old(tape))
    {
      var ok, at;
      ok, at, tr := Transact(h, [], true);
      go, answer := false, Internal;
      if ok {
        ghost var mid := View();
        ghost var step;
        go, step := StoreHashAgain(h, at);
        Extend(c, old(View()), tr, mid, step, View(), h);
        tr := tr + [step];
        answer := Conflict;
      }
    }

    method EnqueueConfirm(h: HandlerId, id: SubscriberId, raw: Bytes) returns (answer: Answer, ghost tr: seq<Step>)
      requires ConfigOk(c) && Reachable(c, View()) && h !in handlers && FreshSecret(c, View(), raw)
      modifies this
      ensures Exec(c, old(View()), tr) == Some(View()) && Reachable(c, View()) && h !in handlers
      ensures |Own(tr, h)| >= 2 && Own(tr, h)[0] == BeginResend(h, id, raw) && Resends(Own(tr, h)[1..], h, answer)
      ensures answer == NotFound ==> id !in old(subs)
      ensures Healthy(old(tape)) ==> answer != Internal
    {
      ghost var step := StartResend(h, id, raw);
      tr := [step];
      ghost var mid := View();
      ghost var more;
      answer, more := Resend(h);
      Prefix(c, old(View()), step, mid, more, View(), h);
      tr := tr + more;
    }

    method Resend(h: HandlerId) returns (answer: Answer, ghost tr: seq<Step>)
      requires ConfigOk(c) && Reachable(c, View()) && h in handlers && handlers[h].Resending?
      modifies this
      ensures Exec(c, old(View()), tr) == Some(View()) && Reachable(c, View()) && h !in handlers
      ensures Resends(Own(tr, h), h, answer)
      ensures answer == NotFound ==> old(handlers)[h].id !in old(subs)
      ensures Healthy(old(tape)) ==> answer != Internal
    {
      var go;
      go, answer, tr := ReadForResend(h);
      if go {
        ghost var mid := View();
        ghost var more;
        answer, more := StoreAndMailAgain(h);
        Follow(c, old(View()), tr, mid, more, View(), h);
        tr := tr + more;
      }
    }

    method StoreAndMailAgain(h: HandlerId) returns (answer: Answer, ghost tr: seq<Step>)
      requires ConfigOk(c) && Reachable(c, View()) && h in handlers && handlers[h].ReadPending?
      modifies this
      ensures Exec(c, old(View()), tr) == Some(View()) && Reachable(c, View()) && h !in handlers
      ensures StoresAgain(Own(tr, h), h, answer) && answer != NotFound
      ensures Healthy(old(tape)) ==> answer != Internal
    {
      var go;
      go, answer, tr := StoreForResend(h);
      if go {
        ghost var mid := View();
        var ok;
        ghost var more;
        ok, more := QueueMail(h);
        Follow(c, old(View()), tr, mid, more, View(), h);
        tr := tr + more;
        answer := if ok then Resent else Internal;
      }
    }
  }

  // Rows are never deleted.
  lemma {:induction false} RowsStay(c: Config, s: State, tr: seq<Step>)
    requires Exec(c, s, tr).Some?
    ensures s.subs.Keys <= Exec(c, s, tr).value.subs.Keys
    decreases |tr|
  {
    if tr != [] {
      var front := tr[..|tr| - 1];
      RowsStay(c, s, front);
      StepKeepsRows(c, Exec(c, s, front).value, tr[|tr| - 1]);
    }
  }

  lemma StepKeepsRows(c: Config, s: State, step: Step)
    requires Enabled(c, s, step)
    ensures s.subs.Keys <= Apply(c, s, step).subs.Keys
  {
  }

  predicate Gone(subs: Table, id: SubscriberId) {
    id in subs ==> subs[id].status.Unsubscribed?
  }

  // After the first `n` steps of the run, a pending row had that hash, or none had.
  ghost predicate LookedUp(c: Config, s: State, tr: seq<Step>, n: nat, hash: Bytes, found: bool) {
    && n <= |tr| && Exec(c, s, tr[..n]).Some?
    && (found <==> exists id :: HasPendingHash(Exec(c, s, tr[..n]).value.subs, id, hash))
  }

  lemma LookedUpHere(c: Config, s: State, a: seq<Step>, mid: State, b: seq<Step>, hash: Bytes, found: bool)
    requires Exec(c, s, a) == Some(mid) && (found <==> exists id :: HasPendingHash(mid.subs, id, hash))
    ensures LookedUp(c, s, a + b, |a|, hash, found)
  {
    assert (a + b)[..|a|] == a;
  }

  lemma LookedUpBefore(c: Config, s: State, a: seq<Step>, b: seq<Step>, n: nat, hash: Bytes, found: bool)
    requires LookedUp(c, s, a, n, hash, found)
    ensures LookedUp(c, s, a + b, n, hash, found)
  {
    assert (a + b)[..n] == a[..n];
  }

  lemma LookedUpLater(c: Config, s: State, step: Step, mid: State, b: seq<Step>, n: nat, h: HandlerId, hash: Bytes,
                      found: bool)
    requires Ran(c, s, step, mid, h) && LookedUp(c, mid, b, n, hash, found)
    ensures LookedUp(c, s, [step] + b, 1 + n, hash, found)
  {
    RunConcat(Transition(c), s, [step], b[..n]);
    assert Exec(c, s, [step] + b[..n]) == Exec(c, mid, b[..n]);
    assert ([step] + b)[..1 + n] == [step] + b[..n];
  }

  ghost predicate Confirms(own: seq<Step>, h: HandlerId, token: string, answer: Answer) {
    |own| >= 1 && own[0] == OpenConfirm(h, token) && Updates(own[1..], h, answer)
  }

  // "Confirmed" only after lookup and update; a refusal comes at the lookup or after it, without an update.
  ghost predicate Updates(own: seq<Step>, h: HandlerId, answer: Answer) {
    || (answer == SaidConfirmed && |own| == 2 && own[0].Lookup? && own[1].Confirm?)
    || (answer == BadRequest && own == [Drop(h)])
    || (answer == BadRequest && |own| == 2 && own[0].Lookup? && own[1] == Drop(h))
  }

  // The upsert and the mail; a failure of either is reported, and so is a row that is no longer pending.
  ghost predicate StoresAgain(own: seq<Step>, h: HandlerId, answer: Answer) {
    || (answer == Resent && |own| == 2 && own[0].StoreAgain? && own[1].Queue?)
    || (answer == Conflict && |own| == 1 && own[0].StoreAgain?)
    || (answer == Internal && own == [Drop(h)])
    || (answer == Internal && |own| == 2 && own[0].StoreAgain? && own[1] == Drop(h))
  }

  ghost predicate Resends(own: seq<Step>, h: HandlerId, answer: Answer) {
    || (answer == Internal && own == [Drop(h)])
    || (answer in {NotFound, Conflict} && own == [Read(h)])
    || (|own| >= 2 && own[0] == Read(h) && StoresAgain(own[1..], h, answer))
  }

  function Last(own: seq<Step>): Step
    requires own != []
  {
    own[|own| - 1]
  }

  predicate StoresFor(step: Step, source: Option<string>, userId: Option<Bytes>) {
    step.Store? && step.source == source && step.userId == userId
  }

  predicate QueuedSince(step: Step, now: int) {
    step.Queue? && now <= step.issuedAt && now <= step.at
  }

  // The upsert, and the mail if a row came back. A mail that cannot be queued does not change the answer.
  ghost predicate Stores(own: seq<Step>, h: HandlerId, source: Option<string>, userId: Option<Bytes>, answer: Answer) {
    if answer == Accepted
    then |own| in {1, 2} && StoresFor(own[0], source, userId) && (|own| == 2 ==> own[1].Queue? || own[1] == Drop(h))
    else answer == Internal && own == [Drop(h)]
  }

  ghost predicate Registers(own: seq<Step>, h: HandlerId, source: Option<string>, userId: Option<Bytes>, raw: Bytes,
                            answer: Answer)
  {
    |own| >= 2 && own[0] == MakeSecret(h, raw) && Stores(own[1..], h, source, userId, answer)
  }

  // The throttle test, and if it lets the request pass, a new secret and what follows.
  ghost predicate Requests(own: seq<Step>, h: HandlerId, source: Option<string>, userId: Option<Bytes>, raw: Bytes,
                           answer: Answer)
  {
    if |own| == 1
    then if answer == Accepted then own[0].Throttle? else answer == Internal && own[0] == Drop(h)
    else |own| >= 1 && own[0].Throttle? && Registers(own[1..], h, source, userId, raw, answer)
  }

  // That one step of handler `h` led from one state to the other.
  ghost predicate Ran(c: Config, s: State, step: Step, t: State, h: HandlerId) {
    Exec(c, s, [step]) == Some(t) && Reachable(c, t) && HandlerOf(step) == Some(h) && Own([step], h) == [step]
  }

  lemma HashIsMinted(c: Config, s: State, h: HandlerId)
    requires ConfigOk(c) && Reachable(c, s) && h in s.handlers
    ensures s.handlers[h].Stored? ==> s.handlers[h].hash in s.minted
    ensures Unstored(s.handlers[h]).Some? ==> Unstored(s.handlers[h]).value in s.minted
  {
    ReachableInv(c, s);
    assert HandlerOk(c, s.subs, s.minted, s.home, s.handlers[h]);
  }

  // A HandleSubscribe past the throttle.
  predicate Waiting(handlers: map<HandlerId, Handler>, h: HandlerId, email: string, now: int) {
    h in handlers && handlers[h].Unthrottled? && handlers[h].email == email && handlers[h].checkedAt <= now
  }

  // A handler that has stored its secret and owes the mail.
  predicate MailDue(handlers: map<HandlerId, Handler>, h: HandlerId, now: int) {
    h in handlers && handlers[h].Stored? && (handlers[h].notBefore.Some? ==> handlers[h].notBefore.value <= now)
  }
}
