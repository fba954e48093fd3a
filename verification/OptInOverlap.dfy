/** Runs that defeat the throttle, and with them the exact condition under which it works. */
module OptInOverlap {
  import opened Common
  import opened Runs
  import opened SubscriberQueries
  import opened OptInProtocol
  import opened OptInInvariant
  import opened OptInThrottle
  import N = NotificationQueries
  import Q = QueueProtocol
  import QI = QueueInvariant

  // ---- A throttle test lies in the past ----

  ghost predicate PastChecks(s: State) {
    forall h :: h in s.handlers && PassedAt(s.handlers[h]).Some? ==> PassedAt(s.handlers[h]).value <= s.queue.now
  }

  lemma QueueKeepsPast(c: Config, s: State, step: Q.Step)
    requires PastChecks(s) && Enabled(c, s, QueueStep(step))
    ensures PastChecks(Apply(c, s, QueueStep(step)))
  {
    ClockForward(c.queue, s.queue, step);
  }

  lemma ClockForward(c: Q.Config, s: Q.State, step: Q.Step)
    requires Q.Enabled(c, s, step)
    ensures s.now <= Q.Apply(c, s, step).now
  {
  }

  lemma HopKeepsPast(s: State, t: State, h: HandlerId, stores: bool)
    requires PastChecks(s) && Hop(s, t, h)
    requires h in t.handlers ==> SameRequest(s.handlers, h, t.handlers[h], stores)
    ensures PastChecks(t)
  {
  }

  lemma StepKeepsPast(c: Config, s: State, step: Step)
    requires PastChecks(s) && Enabled(c, s, step)
    ensures PastChecks(Apply(c, s, step))
  {
    if step.QueueStep? {
      QueueKeepsPast(c, s, step.step);
    } else if step.Store? || step.StoreAgain? {
      UpsertHops(c, s, step);
      HopKeepsPast(s, Apply(c, s, step), step.h, true);
    } else if step.OpenConfirm? || step.Lookup? || step.Confirm? {
      ConfirmHops(c, s, step);
      HopKeepsPast(s, Apply(c, s, step), step.h, false);
    } else if step.MakeSecret? || step.BeginResend? || step.Read? || step.Drop? {
      SecretHops(c, s, step);
      HopKeepsPast(s, Apply(c, s, step), step.h, false);
    } else {
      RestKeepsPast(c, s, step);
    }
  }

  lemma RestKeepsPast(c: Config, s: State, step: Step)
    requires PastChecks(s) && Enabled(c, s, step)
    requires step.Begin? || step.Throttle? || step.Queue? || step.Unsubscribe?
    ensures PastChecks(Apply(c, s, step))
  {
  }

  lemma {:induction false} RunKeepsPast(c: Config, s: State, tr: seq<Step>)
    requires PastChecks(s) && Exec(c, s, tr).Some?
    ensures PastChecks(Exec(c, s, tr).value)
    decreases |tr|
  {
    if tr != [] {
      RunKeepsPast(c, s, tr[..|tr| - 1]);
      StepKeepsPast(c, Exec(c, s, tr[..|tr| - 1]).value, tr[|tr| - 1]);
    }
  }

  lemma ReachablePast(c: Config, s: State)
    requires Reachable(c, s)
    ensures PastChecks(s)
  {
    var t: int, tr: seq<Step> :| Exec(c, Init(c, t), tr) == Some(s);
    RunKeepsPast(c, Init(c, t), tr);
  }

  // ---- Driving one request on ----

  ghost predicate NoNewRequest(tr: seq<Step>, email: string) {
    forall i :: 0 <= i < |tr| && tr[i].Begin? ==> tr[i].email != email
  }

  // The run moves handler `h` and nobody else, queues nothing, and settles nothing.
  ghost predicate Drives(c: Config, s: State, tr: seq<Step>, t: State, h: HandlerId, email: string) {
    && Exec(c, s, tr) == Some(t) && NoNewRequest(tr, email)
    && t.queue == s.queue && t.mails == s.mails
    && h in s.handlers && h in t.handlers && t.handlers == s.handlers[h := t.handlers[h]]
    && (!Settled(s.subs, email) ==> !Settled(t.subs, email))
  }

  lemma DriveStay(c: Config, s: State, h: HandlerId, email: string)
    requires h in s.handlers
    ensures Drives(c, s, [], s, h, email)
  {
  }

  lemma DriveOn(c: Config, s: State, tr: seq<Step>, mid: State, step: Step, t: State, h: HandlerId, email: string)
    requires Drives(c, s, tr, mid, h, email) && Enabled(c, mid, step) && t == Apply(c, mid, step) && !step.Begin?
    requires t.queue == mid.queue && t.mails == mid.mails
    requires h in t.handlers && t.handlers == mid.handlers[h := t.handlers[h]]
    requires !Settled(mid.subs, email) ==> !Settled(t.subs, email)
    ensures Drives(c, s, tr + [step], t, h, email)
  {
    RunOne(Transition(c), s, tr, step);
    Overwrite(s.handlers, h, mid.handlers[h], t.handlers[h]);
  }

  lemma Overwrite(handlers: Handlers, h: HandlerId, a: Handler, b: Handler)
    ensures handlers[h := a][h := b] == handlers[h := b]
  {
  }

  lemma ToUnthrottled(c: Config, s: State, h: HandlerId, email: string) returns (tr: seq<Step>, t: State)
    requires h in s.handlers && s.handlers[h] == Subscribing(email) && !Throttled(c, s, email, s.queue.now)
    ensures Drives(c, s, tr, t, h, email) && t.handlers[h] == Unthrottled(email, s.queue.now)
    ensures t.minted == s.minted && t.subs == s.subs && t.home == s.home
  {
    var step := Throttle(h, s.queue.now);
    t := Apply(c, s, step);
    DriveStay(c, s, h, email);
    DriveOn(c, s, [], s, step, t, h, email);
    tr := [] + [step];
  }

  lemma ToReady(c: Config, s: State, h: HandlerId, raw: Bytes, email: string) returns (tr: seq<Step>, t: State)
    requires h in s.handlers && s.handlers[h].Unthrottled? && s.handlers[h].email == email && FreshSecret(c, s, raw)
    ensures Drives(c, s, tr, t, h, email)
    ensures t.handlers[h] == Ready(email, s.handlers[h].checkedAt, c.keys.sha(raw))
    ensures t.minted == Minted(c, s, raw) && t.subs == s.subs && t.home == s.home
  {
    var step := MakeSecret(h, raw);
    t := Apply(c, s, step);
    DriveStay(c, s, h, email);
    DriveOn(c, s, [], s, step, t, h, email);
    tr := [] + [step];
  }

  // The row an upsert of an address that is not settled hits: its pending row, or a new one.
  lemma OpenRow(subs: Table, email: string) returns (id: SubscriberId)
    requires !Settled(subs, email)
    ensures UpsertTarget(subs, email, id) && UpsertReturns(subs, id)
  {
    if k :| k in subs && subs[k].email == email {
      id := k;
    } else {
      id := Unused(subs.Keys);
    }
  }

  lemma {:induction false} Unused(taken: set<nat>) returns (n: nat)
    ensures forall k :: k in taken ==> k < n
    decreases |taken|
  {
    if taken == {} {
      n := 0;
    } else {
      var k :| k in taken;
      var m := Unused(taken - {k});
      n := if k >= m then k + 1 else m;
      assert forall j :: j in taken ==> j == k || j in taken - {k};
    }
  }

  lemma UpsertKeepsOpen(subs: Table, id: SubscriberId, u: Upsert, at: int)
    requires UpsertTarget(subs, u.email, id) && UpsertReturns(subs, id) && !Settled(subs, u.email)
    ensures !Settled(UpsertPending(subs, id, u, at), u.email)
  {
  }

  lemma ToStored(c: Config, s: State, h: HandlerId, email: string) returns (tr: seq<Step>, t: State)
    requires h in s.handlers && s.handlers[h].Ready? && s.handlers[h].email == email
    requires s.handlers[h].hash in s.minted && !Settled(s.subs, email)
    ensures Drives(c, s, tr, t, h, email) && t.handlers[h].Stored? && t.handlers[h].email == email
    ensures t.handlers[h].hash == s.handlers[h].hash && t.handlers[h].notBefore == Some(s.handlers[h].checkedAt)
    ensures t.minted == s.minted
  {
    var id := OpenRow(s.subs, email);
    var k := s.handlers[h];
    var step := Store(h, id, None, None, s.queue.now);
    t := Apply(c, s, step);
    UpsertKeepsOpen(s.subs, id, Upsert(email, k.hash, s.minted[k.hash].expiresAt, None, None), s.queue.now);
    DriveStay(c, s, h, email);
    DriveOn(c, s, [], s, step, t, h, email);
    tr := [] + [step];
  }

  lemma DriveConcat(c: Config, s: State, a: seq<Step>, mid: State, b: seq<Step>, t: State, h: HandlerId, email: string)
    requires Drives(c, s, a, mid, h, email) && Drives(c, mid, b, t, h, email)
    ensures Drives(c, s, a + b, t, h, email)
  {
    RunConcat(Transition(c), s, a, b);
    assert t.handlers == s.handlers[h := t.handlers[h]];
  }

  // At most one secret has been made, the given one.
  ghost predicate MadeAtMost(c: Config, s: State, t: State, raw: Bytes) {
    t.minted == s.minted || t.minted == Minted(c, s, raw)
  }

  // A request that may mail can always be driven to the point where only the mail is left.
  lemma ReadyToStored(c: Config, s: State, h: HandlerId, raw: Bytes, email: string) returns (tr: seq<Step>, t: State)
    requires h in s.handlers && MayMail(s.subs, s.handlers[h], email) && FreshSecret(c, s, raw)
    requires !s.handlers[h].Subscribing? && HashMinted(s, h)
    ensures Drives(c, s, tr, t, h, email) && Due(t, h, email) && MadeAtMost(c, s, t, raw)
    ensures t.handlers[h].notBefore == PassedAt(s.handlers[h])
  {
    if s.handlers[h].Stored? {
      DriveStay(c, s, h, email);
      tr, t := [], s;
    } else if s.handlers[h].Ready? {
      tr, t := ToStored(c, s, h, email);
    } else {
      tr, t := PassedToDue(c, s, h, raw, email);
    }
  }

  lemma PassedToDue(c: Config, s: State, h: HandlerId, raw: Bytes, email: string) returns (tr: seq<Step>, t: State)
    requires h in s.handlers && s.handlers[h].Unthrottled? && s.handlers[h].email == email
    requires !Settled(s.subs, email) && FreshSecret(c, s, raw)
    ensures Drives(c, s, tr, t, h, email) && Due(t, h, email) && MadeAtMost(c, s, t, raw)
    ensures t.handlers[h].notBefore == Some(s.handlers[h].checkedAt)
  {
    var a, mid := ToReady(c, s, h, raw, email);
    var b, end := ToStored(c, mid, h, email);
    DriveConcat(c, s, a, mid, b, end, h, email);
    tr, t := a + b, end;
  }

  ghost predicate HashMinted(s: State, h: HandlerId)
    requires h in s.handlers
  {
    var k := s.handlers[h];
    (k.Ready? || k.Stored?) ==> k.hash in s.minted
  }

  // Only the mail is left.
  ghost predicate Due(t: State, h: HandlerId, email: string) {
    && h in t.handlers && t.handlers[h].Stored? && t.handlers[h].email == email && t.handlers[h].notBefore.Some?
    && t.handlers[h].hash in t.minted
  }

  lemma ToDue(c: Config, s: State, h: HandlerId, raw: Bytes, email: string) returns (tr: seq<Step>, t: State)
    requires h in s.handlers && MayMail(s.subs, s.handlers[h], email) && FreshSecret(c, s, raw) && HashMinted(s, h)
    requires s.handlers[h].Subscribing? ==> !Throttled(c, s, email, s.queue.now)
    requires PassedAt(s.handlers[h]).Some? ==> PassedAt(s.handlers[h]).value <= s.queue.now
    ensures Drives(c, s, tr, t, h, email) && Due(t, h, email) && MadeAtMost(c, s, t, raw)
    ensures t.handlers[h].notBefore.value <= t.queue.now
    ensures PassedAt(s.handlers[h]).Some? ==> t.handlers[h].notBefore == PassedAt(s.handlers[h])
  {
    if s.handlers[h].Subscribing? {
      tr, t := TestedToDue(c, s, h, raw, email);
    } else {
      tr, t := ReadyToStored(c, s, h, raw, email);
    }
  }

  lemma TestedToDue(c: Config, s: State, h: HandlerId, raw: Bytes, email: string) returns (tr: seq<Step>, t: State)
    requires h in s.handlers && s.handlers[h] == Subscribing(email) && !Settled(s.subs, email)
    requires FreshSecret(c, s, raw) && !Throttled(c, s, email, s.queue.now)
    ensures Drives(c, s, tr, t, h, email) && Due(t, h, email) && MadeAtMost(c, s, t, raw)
    ensures t.handlers[h].notBefore == Some(s.queue.now)
  {
    var a, mid := ToUnthrottled(c, s, h, email);
    var b, end := PassedToDue(c, mid, h, raw, email);
    DriveConcat(c, s, a, mid, b, end, h, email);
    tr, t := a + b, end;
  }

  lemma MailNow(c: Config, s: State, h: HandlerId, email: string, at: int)
    returns (step: Step, t: State, n: N.NotificationId)
    requires Due(s, h, email) && s.handlers[h].notBefore.value <= at <= s.queue.now
    ensures Enabled(c, s, step) && t == Apply(c, s, step) && !step.Begin? && n !in s.queue.rows
    ensures LiveMail(t.queue.rows, t.mails, n, email) && t.queue.rows[n].createdAt == at
    ensures forall m :: m in s.queue.rows ==> m in t.queue.rows && t.queue.rows[m] == s.queue.rows[m]
    ensures forall m :: m in s.mails && m != n ==> m in t.mails && t.mails[m] == s.mails[m]
    ensures t.handlers == s.handlers - {h} && t.minted == s.minted && t.queue.now == s.queue.now
  {
    n := Unused(s.queue.rows.Keys);
    step := Queue(h, n, s.queue.now, at);
    t := Apply(c, s, step);
  }

  // ---- Two mails too close ----

  ghost predicate Broken(c: Config, s: State, tr: seq<Step>, email: string) {
    && Exec(c, s, tr).Some? && NoNewRequest(tr, email)
    && !MailsApart(Window(c), Exec(c, s, tr).value.queue.rows, Exec(c, s, tr).value.mails, email)
  }

  lemma HandlerFacts(c: Config, s: State, h: HandlerId)
    requires ConfigOk(c) && Reachable(c, s) && h in s.handlers
    ensures HashMinted(s, h)
    ensures PassedAt(s.handlers[h]).Some? ==> PassedAt(s.handlers[h]).value <= s.queue.now
  {
    ReachableInv(c, s);
    ReachablePast(c, s);
    assert HandlerOk(c, s.subs, s.minted, s.home, s.handlers[h]);
  }

  // Once the window has passed without a mail, the throttle lets everybody through.
  lemma WaitForThrottle(c: Config, s: State, email: string) returns (step: Step, t: State)
    requires ConfigOk(c) && Reachable(c, s) && Window(c) > 0 && s.queue.now + Window(c) < Q.MAX_CLOCK
    ensures Enabled(c, s, step) && t == Apply(c, s, step) && !step.Begin? && !Throttled(c, t, email, t.queue.now)
    ensures t == s.(queue := s.queue.(now := s.queue.now + Window(c)))
  {
    ReachableInv(c, s);
    step := QueueStep(Q.Advance(s.queue.now + Window(c)));
    t := Apply(c, s, step);
    assert forall n :: n in s.queue.rows ==> QI.RowOk(c.queue, s.queue.now, s.queue.rows[n]);
  }

  lemma BothDue(c: Config, s: State, h: HandlerId, k: HandlerId, raw: Bytes, other: Bytes, email: string)
    returns (tr: seq<Step>, t: State)
    requires h != k && h in s.handlers && k in s.handlers && HashMinted(s, h) && HashMinted(s, k)
    requires MayMail(s.subs, s.handlers[h], email) && MayMail(s.subs, s.handlers[k], email)
    requires FreshSecret(c, s, raw) && FreshSecret(c, s, other) && c.keys.sha(raw) != c.keys.sha(other)
    requires !Throttled(c, s, email, s.queue.now)
    requires forall g :: g in {h, k} && PassedAt(s.handlers[g]).Some? ==> PassedAt(s.handlers[g]).value <= s.queue.now
    ensures Exec(c, s, tr) == Some(t) && NoNewRequest(tr, email) && t.queue == s.queue && t.mails == s.mails
    ensures Due(t, h, email) && Due(t, k, email)
    ensures t.handlers[h].notBefore.value <= t.queue.now && t.handlers[k].notBefore.value <= t.queue.now
  {
    var a, mid := ToDue(c, s, h, raw, email);
    var b, end := ToDue(c, mid, k, other, email);
    RunConcat(Transition(c), s, a, b);
    tr, t := a + b, end;
  }

  lemma InTurn(c: Config, s: State, first: Step, mid: State, second: Step)
    requires Enabled(c, s, first) && mid == Apply(c, s, first) && Enabled(c, mid, second)
    ensures Exec(c, s, [first] + [second]) == Some(Apply(c, mid, second))
  {
    RunOne(Transition(c), s, [], first);
    assert [] + [first] == [first];
    RunOne(Transition(c), s, [first], second);
  }

  lemma MailBoth(c: Config, s: State, h: HandlerId, k: HandlerId, email: string) returns (tr: seq<Step>)
    requires h != k && Due(s, h, email) && Due(s, k, email) && Window(c) > 0
    requires s.handlers[h].notBefore.value <= s.queue.now && s.handlers[k].notBefore.value <= s.queue.now
    ensures Broken(c, s, tr, email)
  {
    var first, mid, m := MailNow(c, s, h, email, s.queue.now);
    var second, end, n := MailNow(c, mid, k, email, s.queue.now);
    tr := [first] + [second];
    InTurn(c, s, first, mid, second);
    assert LiveMail(end.queue.rows, end.mails, m, email) && LiveMail(end.queue.rows, end.mails, n, email);
    assert !Apart(Window(c), end.queue.rows[m].createdAt, end.queue.rows[n].createdAt);
  }

  lemma BrokenAfter(c: Config, s: State, a: seq<Step>, mid: State, b: seq<Step>, email: string)
    requires Exec(c, s, a) == Some(mid) && NoNewRequest(a, email) && Broken(c, mid, b, email)
    ensures Broken(c, s, a + b, email)
  {
    RunConcat(Transition(c), s, a, b);
  }

  // Two requests that can both still mail the address can mail it at the same instant.
  lemma TwoMailersBreak(c: Config, s: State, h: HandlerId, k: HandlerId, raw: Bytes, other: Bytes, email: string)
    returns (tr: seq<Step>)
    requires ConfigOk(c) && Reachable(c, s) && Window(c) > 0 && s.queue.now + Window(c) < Q.MAX_CLOCK
    requires FreshSecret(c, s, raw) && FreshSecret(c, s, other) && c.keys.sha(raw) != c.keys.sha(other)
    requires h != k && h in s.handlers && k in s.handlers
    requires MayMail(s.subs, s.handlers[h], email) && MayMail(s.subs, s.handlers[k], email)
    ensures Broken(c, s, tr, email)
  {
    HandlerFacts(c, s, h);
    HandlerFacts(c, s, k);
    var wait, later := WaitForThrottle(c, s, email);
    var a, due := BothDue(c, later, h, k, raw, other, email);
    var b := MailBoth(c, due, h, k, email);
    BrokenAfter(c, later, a, due, b, email);
    RunOne(Transition(c), s, [], wait);
    assert [] + [wait] == [wait];
    BrokenAfter(c, s, [wait], later, a + b, email);
    tr := [wait] + (a + b);
  }

  // A request that passed the throttle too early can mail the address too early.
  lemma EarlyMailerBreaks(c: Config, s: State, h: HandlerId, n: N.NotificationId, raw: Bytes, email: string)
    returns (tr: seq<Step>)
    requires ConfigOk(c) && Reachable(c, s) && Window(c) > 0 && FreshSecret(c, s, raw)
    requires h in s.handlers && MayMail(s.subs, s.handlers[h], email) && PassedAt(s.handlers[h]).Some?
    requires LiveMail(s.queue.rows, s.mails, n, email)
    requires s.queue.rows[n].createdAt + Window(c) > PassedAt(s.handlers[h]).value
    ensures Broken(c, s, tr, email)
  {
    HandlerFacts(c, s, h);
    CreatedInPast(c, s, n);
    var passed, created := PassedAt(s.handlers[h]).value, s.queue.rows[n].createdAt;
    var a, due := ToDue(c, s, h, raw, email);
    var at := if created >= passed then created else passed;
    var step, end, m := MailNow(c, due, h, email, at);
    RunOne(Transition(c), s, a, step);
    tr := a + [step];
    assert LiveMail(end.queue.rows, end.mails, m, email) && LiveMail(end.queue.rows, end.mails, n, email);
    assert !Apart(Window(c), end.queue.rows[m].createdAt, end.queue.rows[n].createdAt);
  }

  lemma CreatedInPast(c: Config, s: State, n: N.NotificationId)
    requires ConfigOk(c) && Reachable(c, s) && n in s.queue.rows
    ensures s.queue.rows[n].createdAt <= s.queue.now
  {
    ReachableInv(c, s);
    assert QI.RowOk(c.queue, s.queue.now, s.queue.rows[n]);
  }

  // For instance: two requests that start before either has queued its mail, whatever the window.
  lemma OverlapDefeatsThrottle(c: Config, now: int, email: string, raw: Bytes, other: Bytes) returns (tr: seq<Step>)
    requires ConfigOk(c) && Window(c) > 0 && now + Window(c) < Q.MAX_CLOCK
    requires |raw| == 32 == |other| && c.keys.sha(raw) != c.keys.sha(other)
    ensures Exec(c, Init(c, now), tr).Some?
    ensures var t := Exec(c, Init(c, now), tr).value; !MailsApart(Window(c), t.queue.rows, t.mails, email)
  {
    var s := Init(c, now);
    var one := Apply(c, s, Begin(0, email));
    var two := Apply(c, one, Begin(1, email));
    RunOne(Transition(c), s, [], Begin(0, email));
    RunOne(Transition(c), s, [] + [Begin(0, email)], Begin(1, email));
    var begun := [] + [Begin(0, email)] + [Begin(1, email)];
    assert Exec(c, s, begun) == Some(two);
    var more := TwoMailersBreak(c, two, 0, 1, raw, other, email);
    RunConcat(Transition(c), s, begun, more);
    tr := begun + more;
  }

  // ---- The exact condition ----

  // However the requests now in flight and everything else go on, live mails to the address stay a window apart, as
  // long as no new request for it starts.
  ghost predicate KeepsApart(c: Config, s: State, email: string) {
    forall tr :: Exec(c, s, tr).Some? && NoNewRequest(tr, email) ==>
      MailsApart(Window(c), Exec(c, s, tr).value.queue.rows, Exec(c, s, tr).value.mails, email)
  }

  lemma {:induction false} NoNewIsSerial(c: Config, s: State, tr: seq<Step>, email: string)
    requires Exec(c, s, tr).Some? && NoNewRequest(tr, email)
    ensures Serial(c, s, tr, email)
    decreases |tr|
  {
    if tr != [] {
      NoNewIsSerial(c, s, tr[..|tr| - 1], email);
    }
  }

  lemma GuardSuffices(c: Config, s: State, email: string)
    requires ConfigOk(c) && c.throttleWindow > 0 && Reachable(c, s) && GuardedIn(c, s, email)
    ensures KeepsApart(c, s, email)
  {
    ReachableInv(c, s);
    forall tr | Exec(c, s, tr).Some? && NoNewRequest(tr, email)
      ensures MailsApart(Window(c), Exec(c, s, tr).value.queue.rows, Exec(c, s, tr).value.mails, email)
    {
      NoNewIsSerial(c, s, tr, email);
      RunKeepsGuarded(c, s, tr, email);
    }
  }

  lemma GuardNeeded(c: Config, s: State, email: string, raw: Bytes, other: Bytes)
    requires ConfigOk(c) && Reachable(c, s) && Window(c) > 0 && s.queue.now + Window(c) < Q.MAX_CLOCK
    requires FreshSecret(c, s, raw) && FreshSecret(c, s, other) && c.keys.sha(raw) != c.keys.sha(other)
    requires !GuardedIn(c, s, email)
    ensures !KeepsApart(c, s, email)
  {
    var tr: seq<Step> := [];
    if !MailsApart(Window(c), s.queue.rows, s.mails, email) {
      assert Broken(c, s, tr, email);
    } else if !OneMailer(s.subs, s.handlers, email) {
      var h, k :| h in s.handlers && k in s.handlers && h != k
                  && MayMail(s.subs, s.handlers[h], email) && MayMail(s.subs, s.handlers[k], email);
      tr := TwoMailersBreak(c, s, h, k, raw, other, email);
    } else {
      var h :| h in s.handlers && MayMail(s.subs, s.handlers[h], email) && PassedAt(s.handlers[h]).Some?
               && !Quiet(Window(c), s.queue.rows, s.mails, email, PassedAt(s.handlers[h]).value);
      var n :| LiveMail(s.queue.rows, s.mails, n, email)
               && s.queue.rows[n].createdAt + Window(c) > PassedAt(s.handlers[h]).value;
      tr := EarlyMailerBreaks(c, s, h, n, raw, email);
    }
    assert Broken(c, s, tr, email);
  }

  // The throttle holds for an address, whatever happens until the next request for it, exactly if its live mails are a
  // window apart, at most one request in flight can still mail it, and that one passed the throttle a window after
  // every live mail. (A window below one second always holds. `raw` and `other` are two secrets yet to be drawn.)
  lemma ThrottleExactly(c: Config, s: State, email: string, raw: Bytes, other: Bytes)
    requires ConfigOk(c) && c.throttleWindow > 0 && Reachable(c, s) && s.queue.now + Window(c) < Q.MAX_CLOCK
    requires FreshSecret(c, s, raw) && FreshSecret(c, s, other) && c.keys.sha(raw) != c.keys.sha(other)
    ensures KeepsApart(c, s, email) <==> Window(c) <= 0 || GuardedIn(c, s, email)
  {
    if Window(c) > 0 {
      if GuardedIn(c, s, email) {
        GuardSuffices(c, s, email);
      } else {
        GuardNeeded(c, s, email, raw, other);
      }
    }
  }

  // A new request for an address that is safe so far keeps it safe exactly if the address is settled or no other
  // request in flight can still mail it.
  lemma BeginExactly(c: Config, s: State, h: HandlerId, email: string, raw: Bytes, other: Bytes)
    requires ConfigOk(c) && c.throttleWindow > 0 && Reachable(c, s) && s.queue.now + Window(c) < Q.MAX_CLOCK
    requires FreshSecret(c, s, raw) && FreshSecret(c, s, other) && c.keys.sha(raw) != c.keys.sha(other)
    requires Enabled(c, s, Begin(h, email)) && GuardedIn(c, s, email) && Window(c) > 0
    ensures KeepsApart(c, Apply(c, s, Begin(h, email)), email)
       <==> Settled(s.subs, email) || NoMailer(s.subs, s.handlers, email)
  {
    var t := Apply(c, s, Begin(h, email));
    ReachedBy(c, s, Begin(h, email));
    ThrottleExactly(c, t, email, raw, other);
    if Settled(s.subs, email) || NoMailer(s.subs, s.handlers, email) {
      BeginKeepsGuarded(Window(c), s.subs, s.queue.rows, s.mails, s.handlers, h, email, email);
    } else {
      var k :| k in s.handlers && MayMail(s.subs, s.handlers[k], email);
      assert t.handlers[k] == s.handlers[k] && MayMail(t.subs, t.handlers[h], email);
    }
  }

  lemma ReachedBy(c: Config, s: State, step: Step)
    requires Reachable(c, s) && Enabled(c, s, step)
    ensures Reachable(c, Apply(c, s, step))
  {
    var now: int, tr: seq<Step> :| Exec(c, Init(c, now), tr) == Some(s);
    RunOne(Transition(c), Init(c, now), tr, step);
    assert Exec(c, Init(c, now), tr + [step]) == Some(Apply(c, s, step));
  }
}
