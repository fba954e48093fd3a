/** Runs of the opt-in flow in which a request is overtaken between its lookup and its update. */
module OptInRuns {
  import opened Common
  import opened SubscriberQueries
  import opened OptInProtocol
  import opened OptInInvariant
  import opened OptInTheorems
  import OptInOverlap
  import N = NotificationQueries
  import T = Tokens

  // Token lifetimes as the configuration allows them: durations that are not negative.
  predicate LifetimesOk(c: Config) {
    0 <= c.confirmTtl < TWO_TO_THE_63 && 0 <= c.unsubscribeTtl < TWO_TO_THE_63
  }

  function Secret(c: Config, raw: Bytes): Mint {
    Mint(raw, 0, c.confirmTtl)
  }

  // At time 0 one address has signed up and waits for its confirmation; its mail, number 0, is queued.
  ghost predicate SignedUp(c: Config, s: State, raw: Bytes) {
    && s.queue.now == 0
    && 0 in s.subs && s.subs[0].status.Pending? && s.subs[0].confirmHash == Some(c.keys.sha(raw))
    && 0 in s.queue.rows
    && s.queue.rows[0].payload == N.ConfirmLinks(ConfirmToken(c, Secret(c, raw)), UnsubscribeToken(c, 0, 0))
  }

  lemma Stored(c: Config, email: string, raw: Bytes) returns (s: State)
    requires ConfigOk(c) && |raw| == 32
    ensures Reachable(c, s) && s.queue == Init(c, 0).queue
    ensures s.handlers == map[0 := OptInProtocol.Stored(email, Some(0), 0, c.keys.sha(raw))]
    ensures s.minted == map[c.keys.sha(raw) := Secret(c, raw)]
    ensures 0 in s.subs && s.subs[0].status.Pending? && s.subs[0].confirmHash == Some(c.keys.sha(raw))
  {
    s := Init(c, 0);
    assert Exec(c, s, []) == Some(s);
    OptInOverlap.ReachedBy(c, s, Begin(0, email));
    s := Apply(c, s, Begin(0, email));
    OptInOverlap.ReachedBy(c, s, Throttle(0, 0));
    s := Apply(c, s, Throttle(0, 0));
    OptInOverlap.ReachedBy(c, s, MakeSecret(0, raw));
    s := Apply(c, s, MakeSecret(0, raw));
    OptInOverlap.ReachedBy(c, s, Store(0, 0, None, None, 0));
    s := Apply(c, s, Store(0, 0, None, None, 0));
  }

  lemma SignUp(c: Config, email: string, raw: Bytes) returns (s: State)
    requires ConfigOk(c) && |raw| == 32
    ensures Reachable(c, s) && SignedUp(c, s, raw) && s.handlers == map[]
  {
    var before := Stored(c, email, raw);
    OptInOverlap.ReachedBy(c, before, Queue(0, 0, 0, 0));
    s := Apply(c, before, Queue(0, 0, 0, 0));
  }

  lemma LinksVerify(c: Config, raw: Bytes)
    requires ConfigOk(c) && LifetimesOk(c)
    ensures T.Verify(c.keys.mac, ConfirmToken(c, Secret(c, raw)), T.ConfirmSubscriber, 0) == Ok(raw)
    ensures UnsubscribeTarget(c, UnsubscribeToken(c, 0, 0), 0) == Some(0)
  {
    ConfirmTokenExpires(c, ConfirmToken(c, Secret(c, raw)), Secret(c, raw), 0);
    UnsubscribeTokenTargets(c, UnsubscribeToken(c, 0, 0), 0, 0, 0);
  }

  function Waiting(c: Config, s: State, raw: Bytes): Handler
    requires 0 in s.subs
  {
    Found(ConfirmToken(c, Secret(c, raw)), raw, 0, 0, s.subs[0])
  }

  lemma Open(c: Config, s: State, raw: Bytes, h: HandlerId) returns (t: State)
    requires ConfigOk(c) && LifetimesOk(c) && Reachable(c, s) && SignedUp(c, s, raw) && h !in s.handlers
    ensures Reachable(c, t) && t == Go(s, h, Confirming(ConfirmToken(c, Secret(c, raw)), raw, 0))
  {
    LinksVerify(c, raw);
    var open := OpenConfirm(h, ConfirmToken(c, Secret(c, raw)));
    OptInOverlap.ReachedBy(c, s, open);
    t := Apply(c, s, open);
  }

  // A request follows the confirmation link up to its lookup.
  lemma Follow(c: Config, s: State, raw: Bytes, h: HandlerId) returns (t: State)
    requires ConfigOk(c) && LifetimesOk(c) && Reachable(c, s) && SignedUp(c, s, raw) && h !in s.handlers
    ensures Reachable(c, t) && t == Go(s, h, Waiting(c, s, raw))
  {
    var mid := Open(c, s, raw, h);
    OptInOverlap.ReachedBy(c, mid, Lookup(h, 0));
    t := Apply(c, mid, Lookup(h, 0));
    assert t.handlers == s.handlers[h := Waiting(c, s, raw)];
  }

  // The subscriber follows the unsubscribe link of the same mail between the lookup and the update of the confirmation:
  // the update changes nothing, and the request is answered as confirmed all the same.
  lemma ConfirmCanMiss(c: Config, email: string, raw: Bytes) returns (s: State, h: HandlerId)
    requires ConfigOk(c) && LifetimesOk(c) && |raw| == 32
    ensures Reachable(c, s) && Enabled(c, s, Confirm(h, s.queue.now))
    ensures s.handlers[h].id in s.subs && s.subs[s.handlers[h].id].status.Unsubscribed?
    ensures Apply(c, s, Confirm(h, s.queue.now)).subs == s.subs
  {
    var signed := SignUp(c, email, raw);
    var found := Follow(c, signed, raw, 1);
    LinksVerify(c, raw);
    var leave := Unsubscribe(found.queue.rows[0].payload.unsubscribeToken, 0, 0);
    OptInOverlap.ReachedBy(c, found, leave);
    s, h := Apply(c, found, leave), 1;
  }

  lemma FirstConfirms(c: Config, s: State, raw: Bytes) returns (t: State)
    requires ConfigOk(c) && Reachable(c, s) && SignedUp(c, s, raw)
    requires s.handlers == map[1 := Waiting(c, s, raw), 2 := Waiting(c, s, raw)]
    ensures Reachable(c, t) && t.queue == s.queue && t.handlers == map[2 := Waiting(c, s, raw)]
    ensures t.subs == ConfirmById(s.subs, 0, 0) && IsConfirmed(t, 0)
  {
    TableStaysClean(c, s, 0);
    OptInOverlap.ReachedBy(c, s, Confirm(1, 0));
    t := Apply(c, s, Confirm(1, 0));
  }

  // Two requests with the same token that have both looked the row up are both answered as confirmed, although the
  // first has already used the secret up.
  lemma SameTokenConfirmsTwice(c: Config, email: string, raw: Bytes) returns (s: State, h: HandlerId)
    requires ConfigOk(c) && LifetimesOk(c) && |raw| == 32
    ensures Reachable(c, s) && Enabled(c, s, Confirm(h, s.queue.now))
    ensures IsConfirmed(s, s.handlers[h].id)
    ensures forall id :: !HasPendingHash(s.subs, id, c.keys.sha(s.handlers[h].subject))
  {
    var signed := SignUp(c, email, raw);
    var one := Follow(c, signed, raw, 1);
    var two := Follow(c, one, raw, 2);
    assert two.handlers == map[1 := Waiting(c, two, raw), 2 := Waiting(c, two, raw)];
    s := FirstConfirms(c, two, raw);
    h := 2;
    NotPendingElsewhere(c, two, s, c.keys.sha(raw));
  }

  lemma NotPendingElsewhere(c: Config, s: State, t: State, hash: Bytes)
    requires ConfigOk(c) && Reachable(c, s) && HasPendingHash(s.subs, 0, hash)
    requires t.subs.Keys == s.subs.Keys && !t.subs[0].status.Pending?
    requires forall id :: id in s.subs && id != 0 ==> t.subs[id] == s.subs[id]
    ensures forall id :: !HasPendingHash(t.subs, id, hash)
  {
    ReachableInv(c, s);
    assert HashAtHome(s.subs[0], 0, s.minted, s.home);
    forall id ensures !HasPendingHash(t.subs, id, hash) {
      assert id in s.subs && s.subs[id].confirmHash.Some? ==> HashAtHome(s.subs[id], id, s.minted, s.home);
    }
  }
}
