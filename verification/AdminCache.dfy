/** The admin-status cache: a bounded map with expiry in front of a query, filled by requests that overlap. */
module AdminCache {
  import opened Common
  import opened Runs

  const TTL := 60 * SECOND
  const LIMIT := 1024
  const KEPT := 512

  datatype Entry = Entry(isAdmin: bool, expires: int)

  type Cache = map<string, Entry>

  function Get(cache: Cache, sub: string, now: int): Option<bool> {
    if sub in cache && now <= cache[sub].expires then Some(cache[sub].isAdmin) else None
  }

  // A lookup that finds an expired entry deletes it.
  function AfterGet(cache: Cache, sub: string, now: int): Cache {
    if sub in cache && now > cache[sub].expires then cache - {sub} else cache
  }

  // What an eviction may leave behind; the order in which it visits the keys is arbitrary.
  predicate Survivors(cache: Cache, kept: set<string>) {
    && kept <= cache.Keys
    && |kept| == if |cache| >= LIMIT then KEPT else |cache|
  }

  function Put(cache: Cache, kept: set<string>, sub: string, isAdmin: bool, now: int): Cache
    requires kept <= cache.Keys
  {
    (map k | k in kept :: cache[k])[sub := Entry(isAdmin, now + TTL)]
  }

  // ---- Overlapping requests ----

  datatype Request =
    | Asking(sub: string)
    | Answered(sub: string, isAdmin: bool, at: int)

  datatype Answer = Answer(sub: string, isAdmin: bool, at: int)

  datatype Stored = Stored(sub: string, isAdmin: bool, answeredAt: int, at: int)

  /** `seen` is how many fills there had been. */
  datatype Hit = Hit(sub: string, isAdmin: bool, at: int, seen: nat)

  /** `answers`, `fills` and `hits` record history: what the query has answered, what requests have stored, and what the
      cache has served. */
  datatype State = State(
    now: int,
    cache: Cache,
    pending: map<nat, Request>,
    answers: seq<Answer>,
    fills: seq<Stored>,
    hits: seq<Hit>)

  datatype Step =
    | Advance(to: int)
    | Lookup(r: nat, sub: string)
    | Ask(r: nat, isAdmin: bool)
    | Fill(r: nat, kept: set<string>)
    | Abort(r: nat)

  function Init(now: int): State {
    State(now, map[], map[], [], [], [])
  }

  predicate Enabled(s: State, step: Step) {
    match step
    case Advance(to) => s.now <= to
    case Lookup(r, _) => r !in s.pending
    case Ask(r, _) => r in s.pending && s.pending[r].Asking?
    case Fill(r, kept) => r in s.pending && s.pending[r].Answered? && Survivors(s.cache, kept)
    case Abort(r) => r in s.pending
  }

  function Apply(s: State, step: Step): State
    requires Enabled(s, step)
  {
    match step
    case Advance(to) => s.(now := to)
    case Lookup(r, sub) =>
      var hit := Get(s.cache, sub, s.now);
      if hit.Some? then
        s.(hits := s.hits + [Hit(sub, hit.value, s.now, |s.fills|)])
      else
        s.(cache := AfterGet(s.cache, sub, s.now), pending := s.pending[r := Asking(sub)])
    case Ask(r, isAdmin) =>
      var sub := s.pending[r].sub;
      s.(answers := s.answers + [Answer(sub, isAdmin, s.now)], pending := s.pending[r := Answered(sub, isAdmin, s.now)])
    case Fill(r, kept) =>
      var k := s.pending[r];
      s.(cache := Put(s.cache, kept, k.sub, k.isAdmin, s.now),
         fills := s.fills + [Stored(k.sub, k.isAdmin, k.at, s.now)],
         pending := s.pending - {r})
    case Abort(r) => s.(pending := s.pending - {r})
  }

  function Transition(s: State, step: Step): Option<State> {
    if Enabled(s, step) then Some(Apply(s, step)) else None
  }

  function Exec(s: State, tr: seq<Step>): Option<State> {
    Run(Transition, s, tr)
  }

  // ---- Invariant ----

  function LastFill(fills: seq<Stored>, sub: string): (last: Option<Stored>)
    ensures last.Some? ==> last.value in fills && last.value.sub == sub
  {
    if fills == [] then None
    else if fills[|fills| - 1].sub == sub then Some(fills[|fills| - 1])
    else LastFill(fills[..|fills| - 1], sub)
  }

  // An entry is the last fill of its subject.
  ghost predicate CacheOk(cache: Cache, fills: seq<Stored>) {
    && |cache| <= LIMIT
    && forall sub :: sub in cache ==>
         && LastFill(fills, sub).Some?
         && cache[sub] == Entry(LastFill(fills, sub).value.isAdmin, LastFill(fills, sub).value.at + TTL)
  }

  ghost predicate PendingOk(now: int, pending: map<nat, Request>, answers: seq<Answer>) {
    forall r :: r in pending && pending[r].Answered? ==>
      Answer(pending[r].sub, pending[r].isAdmin, pending[r].at) in answers && pending[r].at <= now
  }

  ghost predicate FillsOk(now: int, fills: seq<Stored>, answers: seq<Answer>) {
    forall f :: f in fills ==> Answer(f.sub, f.isAdmin, f.answeredAt) in answers && f.answeredAt <= f.at <= now
  }

  ghost predicate HitOk(fills: seq<Stored>, hit: Hit) {
    && hit.seen <= |fills|
    && LastFill(fills[..hit.seen], hit.sub).Some?
    && var f := LastFill(fills[..hit.seen], hit.sub).value;
       f.isAdmin == hit.isAdmin && hit.at - TTL <= f.at <= hit.at
  }

  ghost predicate Inv(s: State) {
    && CacheOk(s.cache, s.fills)
    && PendingOk(s.now, s.pending, s.answers)
    && FillsOk(s.now, s.fills, s.answers)
    && forall k :: 0 <= k < |s.hits| ==> HitOk(s.fills, s.hits[k])
  }

  lemma LastFillAppend(fills: seq<Stored>, f: Stored, sub: string)
    ensures LastFill(fills + [f], sub) == if f.sub == sub then Some(f) else LastFill(fills, sub)
  {
    assert (fills + [f])[..|fills|] == fills;
  }

  lemma PutSize(cache: Cache, kept: set<string>, sub: string, isAdmin: bool, now: int)
    requires |cache| <= LIMIT && Survivors(cache, kept)
    ensures |Put(cache, kept, sub, isAdmin, now)| <= LIMIT
  {
    var after := Put(cache, kept, sub, isAdmin, now);
    assert after.Keys == kept + {sub};
  }

  lemma GetSize(cache: Cache, sub: string, now: int)
    ensures |AfterGet(cache, sub, now)| <= |cache|
  {
    SubsetSize(AfterGet(cache, sub, now).Keys, cache.Keys);
  }

  lemma LookupKeeps(s: State, r: nat, sub: string)
    requires Inv(s) && Enabled(s, Lookup(r, sub))
    ensures Inv(Apply(s, Lookup(r, sub)))
  {
    GetSize(s.cache, sub, s.now);
    assert s.fills[..|s.fills|] == s.fills;
  }

  lemma FillKeepsCache(cache: Cache, fills: seq<Stored>, kept: set<string>, f: Stored)
    requires CacheOk(cache, fills) && Survivors(cache, kept)
    ensures CacheOk(Put(cache, kept, f.sub, f.isAdmin, f.at), fills + [f])
  {
    PutSize(cache, kept, f.sub, f.isAdmin, f.at);
    forall sub ensures LastFill(fills + [f], sub) == if f.sub == sub then Some(f) else LastFill(fills, sub) {
      LastFillAppend(fills, f, sub);
    }
  }

  lemma HitStays(fills: seq<Stored>, f: Stored, hit: Hit)
    requires HitOk(fills, hit)
    ensures HitOk(fills + [f], hit)
  {
    assert (fills + [f])[..hit.seen] == fills[..hit.seen];
  }

  lemma FillKeeps(s: State, r: nat, kept: set<string>)
    requires Inv(s) && Enabled(s, Fill(r, kept))
    ensures Inv(Apply(s, Fill(r, kept)))
  {
    var f := Stored(s.pending[r].sub, s.pending[r].isAdmin, s.pending[r].at, s.now);
    FillKeepsCache(s.cache, s.fills, kept, f);
    forall i | 0 <= i < |s.hits| ensures HitOk(s.fills + [f], s.hits[i]) {
      HitStays(s.fills, f, s.hits[i]);
    }
  }

  lemma StepKeeps(s: State, step: Step)
    requires Inv(s) && Enabled(s, step)
    ensures Inv(Apply(s, step))
  {
    match step
    case Advance(to) =>
    case Lookup(r, sub) => LookupKeeps(s, r, sub);
    case Ask(r, isAdmin) =>
    case Fill(r, kept) => FillKeeps(s, r, kept);
    case Abort(r) =>
  }

  lemma {:induction false} RunKeeps(s: State, tr: seq<Step>)
    requires Inv(s) && Exec(s, tr).Some?
    ensures Inv(Exec(s, tr).value)
    decreases |tr|
  {
    if tr != [] {
      RunKeeps(s, tr[..|tr| - 1]);
      StepKeeps(Exec(s, tr[..|tr| - 1]).value, tr[|tr| - 1]);
    }
  }

  // ---- Agreement and bound ----

  // Over every run, whatever the subjects and whatever evictions remove, the cache holds at most 1024 entries.
  lemma CacheIsBounded(now: int, tr: seq<Step>)
    requires Exec(Init(now), tr).Some?
    ensures |Exec(Init(now), tr).value.cache| <= 1024
  {
    RunKeeps(Init(now), tr);
  }

  // Whatever the cache serves is what was stored last for that very subject, at most a minute before, and that was an
  // earlier answer of the query for that subject.
  lemma HitsAgree(now: int, tr: seq<Step>, k: nat)
    requires Exec(Init(now), tr).Some? && k < |Exec(Init(now), tr).value.hits|
    ensures var s := Exec(Init(now), tr).value;
            var hit := s.hits[k];
            && hit.seen <= |s.fills|
            && var f := LastFill(s.fills[..hit.seen], hit.sub);
            && f.Some? && f.value.isAdmin == hit.isAdmin && hit.at - 60 * SECOND <= f.value.at <= hit.at
            && Answer(hit.sub, hit.isAdmin, f.value.answeredAt) in s.answers && f.value.answeredAt <= f.value.at
  {
    RunKeeps(Init(now), tr);
    var s := Exec(Init(now), tr).value;
    assert HitOk(s.fills, s.hits[k]);
    assert LastFill(s.fills[..s.hits[k].seen], s.hits[k].sub).value in s.fills;
  }

  // An entry written at `at` is served up to a minute later and not longer, and removed when found after that.
  lemma EntryServes(cache: Cache, kept: set<string>, sub: string, isAdmin: bool, at: int, now: int)
    requires kept <= cache.Keys
    ensures var after := Put(cache, kept, sub, isAdmin, at);
            && Get(after, sub, now) == (if now <= at + 60 * SECOND then Some(isAdmin) else None)
            && AfterGet(after, sub, now) == if now <= at + 60 * SECOND then after else after - {sub}
  {
  }

  // A lookup is served exactly if the subject has an entry and its last fill was at most a minute ago. Otherwise the
  // request asks the query, and an entry that is too old is gone.
  lemma LookupExactly(now: int, tr: seq<Step>, r: nat, sub: string)
    requires Exec(Init(now), tr).Some? && Enabled(Exec(Init(now), tr).value, Lookup(r, sub))
    ensures var s := Exec(Init(now), tr).value;
            var t, f := Apply(s, Lookup(r, sub)), LastFill(s.fills, sub);
            if sub in s.cache && f.Some? && s.now <= f.value.at + 60 * SECOND
            then t == s.(hits := s.hits + [Hit(sub, f.value.isAdmin, s.now, |s.fills|)])
            else t == s.(cache := s.cache - {sub}, pending := s.pending[r := Asking(sub)])
  {
    RunKeeps(Init(now), tr);
  }

  // A fill enters the answer for its subject; entries of others are lost only at the limit, and then all but 512.
  lemma FillExactly(now: int, tr: seq<Step>, r: nat, kept: set<string>)
    requires Exec(Init(now), tr).Some? && Enabled(Exec(Init(now), tr).value, Fill(r, kept))
    ensures var s := Exec(Init(now), tr).value;
            var t, k := Apply(s, Fill(r, kept)), s.pending[r];
            && t.fills == s.fills + [Stored(k.sub, k.isAdmin, k.at, s.now)] && t.pending == s.pending - {r}
            && k.sub in t.cache && t.cache[k.sub].isAdmin == k.isAdmin
            && (forall sub :: sub in t.cache && sub != k.sub ==> sub in s.cache && t.cache[sub] == s.cache[sub])
            && (|s.cache| < 1024 ==> t.cache.Keys == s.cache.Keys + {k.sub})
            && (|s.cache| >= 1024 ==> 512 <= |t.cache| <= 513)
  {
    var s := Exec(Init(now), tr).value;
    var t, k := Apply(s, Fill(r, kept)), s.pending[r];
    assert t.cache.Keys == kept + {k.sub};
    if |s.cache| < 1024 {
      WholeSubset(kept, s.cache.Keys);
    } else {
      SubsetSize(kept, t.cache.Keys);
      assert |t.cache| == |t.cache.Keys|;
    }
  }

  lemma WholeSubset(part: set<string>, whole: set<string>)
    requires part <= whole && |part| == |whole|
    ensures part == whole
  {
    assert whole == part + (whole - part);
  }

  // ---- Revocation ----

  // From here on the query no longer says that `sub` is an admin.
  predicate OnlyDenied(s: State, tr: seq<Step>, sub: string)
    requires Exec(s, tr).Some?
  {
    tr == [] ||
    (var before, last := Exec(s, tr[..|tr| - 1]).value, tr[|tr| - 1];
     && OnlyDenied(s, tr[..|tr| - 1], sub)
     && (last.Ask? && before.pending[last.r].sub == sub ==> !last.isAdmin))
  }

  // A request that was told "admin" and has not filled the cache yet.
  ghost predicate GrantInFlight(s: State, sub: string) {
    exists r :: Grants(s, r, sub)
  }

  predicate Grants(s: State, r: nat, sub: string) {
    r in s.pending && s.pending[r].Answered? && s.pending[r].sub == sub && s.pending[r].isAdmin
  }

  // A minute after the revocation the cache serves no grant any more.
  ghost predicate RevokedInTime(s: State, sub: string) {
    forall tr :: Exec(s, tr).Some? && OnlyDenied(s, tr, sub) ==> NoLateGrant(s, Exec(s, tr).value, sub)
  }

  ghost predicate NoLateGrant(s: State, t: State, sub: string) {
    forall k :: |s.hits| <= k < |t.hits| && t.hits[k].sub == sub && t.hits[k].at > s.now + 60 * SECOND ==>
      !t.hits[k].isAdmin
  }

  ghost predicate GrantsExpire(s: State, t: State, sub: string) {
    && |t.hits| >= |s.hits|
    && !GrantInFlight(t, sub)
    && (sub in t.cache && t.cache[sub].isAdmin ==> t.cache[sub].expires <= s.now + TTL)
    && NoLateGrant(s, t, sub)
  }

  lemma {:induction false} GrantsRunOut(s: State, tr: seq<Step>, sub: string)
    requires Inv(s) && !GrantInFlight(s, sub) && Exec(s, tr).Some? && OnlyDenied(s, tr, sub)
    ensures GrantsExpire(s, Exec(s, tr).value, sub)
    decreases |tr|
  {
    if tr != [] {
      var front, last := tr[..|tr| - 1], tr[|tr| - 1];
      GrantsRunOut(s, front, sub);
      GrantsRunOutStep(s, Exec(s, front).value, last, sub);
    }
  }

  lemma GrantsRunOutStep(s: State, t: State, step: Step, sub: string)
    requires GrantsExpire(s, t, sub) && Enabled(t, step)
    requires step.Ask? && t.pending[step.r].sub == sub ==> !step.isAdmin
    ensures GrantsExpire(s, Apply(t, step), sub)
  {
    NoGrantAppears(t, step, sub);
    assert step.Fill? ==> !Grants(t, step.r, sub);
  }

  lemma NoGrantAppears(t: State, step: Step, sub: string)
    requires !GrantInFlight(t, sub) && Enabled(t, step)
    requires step.Ask? && t.pending[step.r].sub == sub ==> !step.isAdmin
    ensures !GrantInFlight(Apply(t, step), sub)
  {
    forall r | Grants(Apply(t, step), r, sub) ensures Grants(t, r, sub) {
    }
  }

  lemma {:induction false} SubsetOfSize(whole: set<string>, n: nat) returns (part: set<string>)
    requires n <= |whole|
    ensures part <= whole && |part| == n
    decreases |whole|
  {
    if n == |whole| {
      part := whole;
    } else {
      var x :| x in whole;
      part := SubsetOfSize(whole - {x}, n);
    }
  }

  // A grant in flight can be stored long after the revocation and is then served as if it were new.
  lemma LateGrant(s: State, sub: string, r: nat) returns (tr: seq<Step>)
    requires Inv(s) && Grants(s, r, sub)
    ensures Exec(s, tr).Some? && OnlyDenied(s, tr, sub) && !NoLateGrant(s, Exec(s, tr).value, sub)
  {
    var wait := Advance(s.now + TTL + 1);
    var kept := SubsetOfSize(s.cache.Keys, if |s.cache| >= LIMIT then KEPT else |s.cache|);
    tr := DeniedOne(s, [], wait, sub);
    tr := DeniedOne(s, tr, Fill(r, kept), sub);
    tr := DeniedOne(s, tr, Lookup(r, sub), sub);
    var t := Exec(s, tr).value;
    assert t.hits[|s.hits|] == Hit(sub, true, s.now + TTL + 1, |s.fills| + 1);
  }

  lemma DeniedOne(s: State, tr: seq<Step>, step: Step, sub: string) returns (more: seq<Step>)
    requires Exec(s, tr).Some? && OnlyDenied(s, tr, sub) && Enabled(Exec(s, tr).value, step) && !step.Ask?
    ensures Exec(s, more) == Some(Apply(Exec(s, tr).value, step)) && OnlyDenied(s, more, sub)
  {
    more := tr + [step];
    assert more[..|tr|] == tr;
  }

  // A revocation is in force a minute later exactly if, at that moment, no request holds a grant that it has yet to
  // store: the entry's lifetime starts when it is stored, not when the query was answered.
  lemma RevocationTakesEffect(s: State, sub: string)
    requires Inv(s)
    ensures RevokedInTime(s, sub) <==> !GrantInFlight(s, sub)
  {
    if GrantInFlight(s, sub) {
      var r :| Grants(s, r, sub);
      var tr := LateGrant(s, sub, r);
      assert !NoLateGrant(s, Exec(s, tr).value, sub);
    } else {
      forall tr | Exec(s, tr).Some? && OnlyDenied(s, tr, sub) ensures NoLateGrant(s, Exec(s, tr).value, sub) {
        GrantsRunOut(s, tr, sub);
      }
    }
  }

  // ---- The middleware ----

  predicate SameRequest(before: map<nat, Request>, after: map<nat, Request>, r: nat) {
    if r in before then r in after && after[r] == before[r] else r !in after
  }

  lemma OthersSpare(s: State, step: Step, r: nat)
    requires Enabled(s, step) && (step.Advance? || step.r != r)
    ensures SameRequest(s.pending, Apply(s, step).pending, r)
  {
  }

  class Middleware {
    var now: int
    var cache: Cache
    var pending: map<nat, Request>
    var answers: seq<Answer>
    var fills: seq<Stored>
    var hits: seq<Hit>

    constructor (now: int)
      ensures View() == Init(now)
    {
      this.now, cache, pending, answers, fills, hits := now, map[], map[], [], [], [];
    }

    function View(): State
      reads this
    {
      State(now, cache, pending, answers, fills, hits)
    }

    method CacheGet(sub: string) returns (hit: Option<bool>)
      modifies this`cache
      ensures hit == Get(old(cache), sub, now) && cache == AfterGet(old(cache), sub, now)
    {
      if sub !in cache || now > cache[sub].expires {
        if sub in cache {
          cache := cache - {sub};
        }
        return None;
      }
      return Some(cache[sub].isAdmin);
    }

    method CachePut(sub: string, isAdmin: bool) returns (ghost kept: set<string>)
      modifies this`cache
      ensures Survivors(old(cache), kept) && cache == Put(old(cache), kept, sub, isAdmin, now)
    {
      if |cache| >= LIMIT {
        Evict();
      }
      kept := cache.Keys;
      cache := cache[sub := Entry(isAdmin, now + TTL)];
    }

    // Delete keys in any order until half of the limit is left.
    method Evict()
      requires |cache| >= 1024
      modifies this`cache
      ensures |cache| == 512 && cache.Keys <= old(cache).Keys
      ensures forall k :: k in cache ==> cache[k] == old(cache)[k]
    {
      var left := cache.Keys;
      while left != {}
        invariant left == cache.Keys <= old(cache).Keys && |cache| > KEPT
        invariant forall k :: k in cache ==> cache[k] == old(cache)[k]
      {
        var k :| k in left;
        left := left - {k};
        cache := cache - {k};
        assert cache.Keys == left;
        if |cache| <= KEPT {
          break;
        }
      }
    }

    // The steps of other requests that are possible happen.
    method Meanwhile(r: nat, others: seq<Step>) returns (ghost tr: seq<Step>)
      modifies this
      ensures Exec(old(View()), tr) == Some(View()) && SameRequest(old(pending), pending, r)
    {
      tr := [];
      for i := 0 to |others|
        invariant Exec(old(View()), tr) == Some(View()) && SameRequest(old(pending), pending, r)
      {
        var step := others[i];
        if (step.Advance? || step.r != r) && Enabled(View(), step) {
          OthersSpare(View(), step, r);
          RunOne(Transition, old(View()), tr, step);
          var s := Apply(View(), step);
          now, cache, pending, answers, fills, hits := s.now, s.cache, s.pending, s.answers, s.fills, s.hits;
          tr := tr + [step];
        }
      }
    }

    // The query, in its own transaction; a failure ends the request.
    method AskQuery(r: nat, before: seq<Step>, query: Option<bool>) returns (ghost tr: seq<Step>)
      requires r in pending && pending[r].Asking?
      modifies this
      ensures Exec(old(View()), tr) == Some(View())
      ensures r in pending <==> query.Some?
      ensures query.Some? ==> pending[r] == Answered(old(pending)[r].sub, query.value, now)
    {
      tr := Meanwhile(r, before);
      if query.None? {
        RunOne(Transition, old(View()), tr, Abort(r));
        pending := pending - {r};
        tr := tr + [Abort(r)];
        return;
      }
      RunOne(Transition, old(View()), tr, Ask(r, query.value));
      var sub := pending[r].sub;
      pending, answers := pending[r := Answered(sub, query.value, now)], answers + [Answer(sub, query.value, now)];
      tr := tr + [Ask(r, query.value)];
    }

    method Store(r: nat, after: seq<Step>) returns (ghost tr: seq<Step>)
      requires r in pending && pending[r].Answered?
      modifies this
      ensures Exec(old(View()), tr) == Some(View()) && r !in pending
      ensures Get(cache, old(pending)[r].sub, now) == Some(old(pending)[r].isAdmin)
    {
      tr := Meanwhile(r, after);
      ghost var kept := CachePut(pending[r].sub, pending[r].isAdmin);
      RunOne(Transition, old(View()), tr, Fill(r, kept));
      fills := fills + [Stored(pending[r].sub, pending[r].isAdmin, pending[r].at, now)];
      pending := pending - {r};
      tr := tr + [Fill(r, kept)];
    }

    // One request: answer from the cache, or ask the query, which may fail, and store what it said.
    method IsAdmin(r: nat, sub: string, before: seq<Step>, query: Option<bool>, after: seq<Step>)
      returns (answer: Option<bool>, ghost tr: seq<Step>)
      requires r !in pending
      modifies this
      ensures Exec(old(View()), tr) == Some(View()) && r !in pending
      ensures Get(old(cache), sub, old(now)).Some? ==>
                answer == Get(old(cache), sub, old(now)) && tr == [Lookup(r, sub)]
      ensures Get(old(cache), sub, old(now)).None? ==> answer == query
      ensures Get(old(cache), sub, old(now)).None? && query.Some? ==> Get(cache, sub, now) == query
    {
      ghost var more;
      answer, tr := Look(r, sub);
      if answer.None? {
        more := AskQuery(r, before, query);
        RunConcat(Transition, old(View()), tr, more);
        tr := tr + more;
        if query.Some? {
          more := Store(r, after);
          RunConcat(Transition, old(View()), tr, more);
          tr := tr + more;
        }
        answer := query;
      }
    }

    method Look(r: nat, sub: string) returns (hit: Option<bool>, ghost tr: seq<Step>)
      requires r !in pending
      modifies this
      ensures Exec(old(View()), tr) == Some(View()) && tr == [Lookup(r, sub)] && hit == Get(old(cache), sub, old(now))
      ensures if hit.Some? then r !in pending else r in pending && pending[r] == Asking(sub)
    {
      RunOne(Transition, View(), [], Lookup(r, sub));
      tr := [Lookup(r, sub)];
      assert [] + tr == tr;
      hit := CacheGet(sub);
      if hit.Some? {
        hits := hits + [Hit(sub, hit.value, now, |fills|)];
      } else {
        pending := pending[r := Asking(sub)];
      }
    }
  }
}
