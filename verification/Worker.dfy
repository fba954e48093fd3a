/** The worker loop as the program runs it, statement by statement, with everything else that happens to the queue in
    between. Each method is proved to take only steps of the queue protocol, so every guarantee about runs of the
    protocol holds for what the loop does. */
module Worker {
  import opened Common
  import opened Runs
  import opened NotificationQueries
  import opened QueueProtocol
  import opened QueueInvariant
  import B = Backoff

  /** What the world decides before the next action of a loop: the steps the other loops, the clock and the producers
      take meanwhile, and how the action itself turns out. */
  datatype Event = Event(
    others: seq<Step>,
    at: int,
    fails: bool,
    cancelled: bool,
    outcome: Outcome,
    draw: nat)

  const CALM := Event([], 0, false, false, Accepted, 0)

  // After the tape nothing fails.
  function Next(tape: seq<Event>): Event {
    if tape == [] then CALM else tape[0]
  }

  function Rest(tape: seq<Event>): seq<Event> {
    if tape == [] then [] else tape[1..]
  }

  // One of the next `tries` tries of a write goes through before the context is cancelled.
  predicate Succeeds(tape: seq<Event>, tries: nat) {
    tries > 0 && (!Next(tape).fails || (!Next(tape).cancelled && Succeeds(Rest(tape), tries - 1)))
  }

  /** The loop a step belongs to, if any. */
  function LoopOf(step: Step): Option<nat> {
    if step.Advance? || step.Enqueue? then None else Some(step.w)
  }

  ghost predicate Spares(tr: seq<Step>, w: nat) {
    forall i :: 0 <= i < |tr| ==> LoopOf(tr[i]) != Some(w)
  }

  function Mine(w: nat): Step -> bool {
    step => LoopOf(step) == Some(w)
  }

  // The steps of a run that loop `w` took itself.
  ghost function Own(tr: seq<Step>, w: nat): seq<Step> {
    Filter(tr, Mine(w))
  }

  lemma {:induction false} OwnOfSpared(tr: seq<Step>, w: nat)
    requires Spares(tr, w)
    ensures Own(tr, w) == []
    decreases |tr|
  {
    if tr != [] {
      OwnOfSpared(tr[..|tr| - 1], w);
    }
  }

  // No transaction fails and nothing is cancelled; the other loops may still do what they like.
  ghost predicate Healthy(tape: seq<Event>) {
    forall i :: 0 <= i < |tape| ==> !tape[i].fails && !tape[i].cancelled
  }

  // What a loop does for one claimed row when nothing fails: send it, perhaps plan a retry, and write the verdict.
  ghost predicate Judged(own: seq<Step>) {
    || (|own| == 1 && own[0].Dispatch?)
    || (|own| == 2 && own[0].Dispatch? && own[1].Plan?)
  }

  lemma SentAndPlanned(sent: seq<Step>, planned: seq<Step>)
    requires |sent| == 1 && sent[0].Dispatch? && |planned| == 1 && planned[0].Plan?
    ensures Judged(sent + planned)
  {
  }

  ghost predicate Round(own: seq<Step>) {
    |own| >= 2 && Judged(own[..|own| - 1]) && own[|own| - 1].Write?
  }

  ghost function Concat(parts: seq<seq<Step>>): seq<Step> {
    if parts == [] then [] else Concat(parts[..|parts| - 1]) + parts[|parts| - 1]
  }

  ghost predicate AreRounds(parts: seq<seq<Step>>) {
    forall i :: 0 <= i < |parts| ==> Round(parts[i])
  }

  ghost predicate Rounds(own: seq<Step>, n: nat) {
    exists parts :: |parts| == n && AreRounds(parts) && own == Concat(parts)
  }

  lemma NoRounds()
    ensures Rounds([], 0)
  {
    var none: seq<seq<Step>> := [];
    assert AreRounds(none) && Concat(none) == [];
  }

  // What a loop does in one tick when nothing fails: nothing after a cap test that says no, else a claim and one round
  // for each claimed row.
  ghost predicate WholeTick(own: seq<Step>, processed: nat) {
    && own != [] && own[0].CapCheck?
    && ((processed == 0 && |own| == 1) || WholeClaim(own[1..], processed))
  }

  ghost predicate WholeClaim(own: seq<Step>, processed: nat) {
    && |own| >= 2 && own[0].Select? && own[1].Commit?
    && processed == |own[0].ids| && Rounds(own[2..], processed)
  }

  // A run of the others, and a run.
  lemma Wait(c: Config, s: State, a: seq<Step>, mid: State, b: seq<Step>, t: State, w: nat)
    requires Exec(c, s, a) == Some(mid) && Own(a, w) == [] && Exec(c, mid, b) == Some(t)
    ensures Exec(c, s, a + b) == Some(t) && Own(a + b, w) == Own(b, w)
  {
    Join(Transition(c), s, a, mid, b, Mine(w));
  }

  lemma Take(c: Config, s: State, tr: seq<Step>, mid: State, step: Step)
    requires Exec(c, s, tr) == Some(mid) && Enabled(c, mid, step) && !step.Advance? && !step.Enqueue?
    ensures Exec(c, s, tr + [step]) == Some(Apply(c, mid, step))
    ensures Own(tr + [step], step.w) == Own(tr, step.w) + [step]
  {
    RunOne(Transition(c), s, tr, step);
    assert (tr + [step])[..|tr|] == tr;
  }

  // A run of one step of loop `w`.
  lemma TakeAlone(c: Config, s: State, step: Step) returns (tr: seq<Step>)
    requires Enabled(c, s, step) && !step.Advance? && !step.Enqueue?
    ensures Exec(c, s, tr) == Some(Apply(c, s, step)) && tr == [step] && Own(tr, step.w) == [step]
  {
    Take(c, s, [], s, step);
    tr := [] + [step];
  }

  // The loop has planned a retry after exactly the delay that was drawn, from the ideal delay up to a quarter more.
  ghost predicate PlannedBy(l: Loop, draw: nat) {
    && l.Holding? && l.batch != [] && l.phase.Decided? && l.phase.verdict.ToRetry?
    && var delay, k := l.phase.verdict.next - l.phase.since, l.batch[0].attempts;
       && B.Spec(k, draw) == Some(delay)
       && B.InRange(B.IdealBase(k), delay)
  }

  lemma DrawnInRange(l: Loop, draw: nat)
    requires l.Holding? && l.batch != [] && l.phase.Decided? && l.phase.verdict.ToRetry?
    requires B.Spec(l.batch[0].attempts, draw) == Some(l.phase.verdict.next - l.phase.since)
    ensures PlannedBy(l, draw)
  {
    B.DrawStays(l.batch[0].attempts, draw);
  }

  // One more step of some loop, perhaps another one.
  lemma TakeFor(c: Config, s: State, tr: seq<Step>, mid: State, step: Step, w: nat)
    requires Exec(c, s, tr) == Some(mid) && Enabled(c, mid, step)
    ensures Exec(c, s, tr + [step]) == Some(Apply(c, mid, step))
    ensures Own(tr + [step], w) == if LoopOf(step) == Some(w) then Own(tr, w) + [step] else Own(tr, w)
  {
    RunOne(Transition(c), s, tr, step);
    assert (tr + [step])[..|tr|] == tr;
  }

  lemma OthersSpareLoop(c: Config, s: State, step: Step, w: nat)
    requires Enabled(c, s, step) && w < |s.loops| && LoopOf(step) != Some(w)
    ensures var t := Apply(c, s, step);
            |t.loops| == |s.loops| && t.loops[w] == s.loops[w] && t.now >= s.now && s.rows.Keys <= t.rows.Keys
  {
  }

  // A run of the others.
  ghost predicate Spared(c: Config, s: State, tr: seq<Step>, t: State, w: nat) {
    && Exec(c, s, tr) == Some(t) && Spares(tr, w)
    && w < |s.loops| == |t.loops| && t.loops[w] == s.loops[w] && s.rows.Keys <= t.rows.Keys && s.now <= t.now
  }

  lemma SpareOnce(c: Config, s: State, tr: seq<Step>, t: State, step: Step, w: nat)
    requires Spared(c, s, tr, t, w) && LoopOf(step) != Some(w) && Enabled(c, t, step)
    ensures Spared(c, s, tr + [step], Apply(c, t, step), w)
  {
    OthersSpareLoop(c, t, step, w);
    RunOne(Transition(c), s, tr, step);
  }

  // A loop has run through `done` of `n` rows, or has lost the rest of them.
  ghost predicate Draining(c: Config, s: State, tr: seq<Step>, t: State, w: nat, n: nat, done: nat,
                           complete: bool, panicked: bool)
  {
    && done <= n && Exec(c, s, tr) == Some(t) && Inv(c, t) && |t.loops| == |s.loops|
    && (panicked ==> !complete && c.maxAttempts >= 30)
    && w < |t.loops|
    && if done == n || !complete then t.loops[w] == Idle
       else InPhase(t, w, Fresh) && |t.loops[w].batch| == n - done
  }

  // A loop has tried to write its verdict: it did so in one step, or it left no trace.
  ghost predicate Tried(c: Config, s: State, tr: seq<Step>, t: State, w: nat, ok: bool) {
    && Exec(c, s, tr) == Some(t) && w < |s.loops| == |t.loops| && s.now <= t.now
    && s.loops[w].Holding? && s.loops[w].batch != [] && s.rows.Keys <= t.rows.Keys
    && if ok then t.loops[w] == AfterHead(s.loops[w].batch) && |Own(tr, w)| == 1 && Own(tr, w)[0].Write?
       else t.loops[w] == s.loops[w] && Own(tr, w) == []
  }

  lemma NotTried(c: Config, s: State, w: nat)
    requires CanWrite(s, w)
    ensures Tried(c, s, [], s, w, false)
  {
  }

  lemma StillHolds(c: Config, s: State, tr: seq<Step>, t: State, w: nat)
    requires CanWrite(s, w) && s.loops[w].phase.since <= s.now && Tried(c, s, tr, t, w, false)
    ensures CanWrite(t, w) && t.loops[w].phase.since <= t.now && t.loops[w] == s.loops[w] && s.rows.Keys <= t.rows.Keys
  {
  }

  lemma TryAgain(c: Config, s: State, tr: seq<Step>, mid: State, more: seq<Step>, t: State, w: nat, ok: bool)
    requires Tried(c, s, tr, mid, w, false) && Tried(c, mid, more, t, w, ok)
    ensures Tried(c, s, tr + more, t, w, ok)
  {
    Wait(c, s, tr, mid, more, t, w);
  }

  lemma DrainOne(c: Config, s: State, tr: seq<Step>, mid: State, more: seq<Step>, t: State, w: nat,
                 n: nat, done: nat, complete: bool, panicked: bool)
    requires Draining(c, s, tr, mid, w, n, done, true, false) && done < n
    requires Exec(c, mid, more) == Some(t) && Inv(c, t) && |t.loops| == |mid.loops|
    requires panicked ==> !complete && c.maxAttempts >= 30
    requires t.loops[w] == if complete then AfterHead(mid.loops[w].batch) else Idle
    ensures Draining(c, s, tr + more, t, w, n, if complete then done + 1 else done, complete, panicked)
  {
    RunConcat(Transition(c), s, tr, more);
  }

  lemma DrainRound(tr: seq<Step>, more: seq<Step>, w: nat, parts: seq<seq<Step>>)
    requires Own(tr, w) == Concat(parts) && AreRounds(parts) && Round(Own(more, w))
    ensures Own(tr + more, w) == Concat(parts + [Own(more, w)]) && AreRounds(parts + [Own(more, w)])
  {
    FilterConcat(tr, more, Mine(w));
    assert (parts + [Own(more, w)])[..|parts|] == parts;
  }

  lemma SelectionCommits(c: Config, s: State, w: nat)
    requires Inv(c, s) && w < |s.loops| && s.loops[w].Selecting?
    ensures Enabled(c, s, Commit(w))
  {
    assert LoopOk(c, s.now, s.rows, s.calls, s.loops[w]);
  }

  lemma RetryHasAttemptsLeft(c: Config, s: State, w: nat)
    requires Inv(c, s) && InPhase(s, w, NeedsBackoff)
    ensures s.loops[w].batch[0].attempts < c.maxAttempts
  {
    assert LoopOk(c, s.now, s.rows, s.calls, s.loops[w]);
  }

  class Cluster {
    const c: Config
    const process: nat -> nat
    var now: int
    var rows: Table
    var log: seq<LogRow>
    var calls: seq<Call>
    var loops: seq<Loop>
    var tape: seq<Event>

    // `process` says which process each loop belongs to.
    constructor (c: Config, process: nat -> nat, now: int, tape: seq<Event>)
      requires ConfigOk(c)
      ensures this.c == c && this.process == process && View() == Init(c, now) && Inv(c, View())
    {
      this.c, this.process := c, process;
      this.now := now;
      this.rows := map[];
      this.log := [];
      this.calls := [];
      this.loops := seq(c.loops, i => Idle);
      this.tape := tape;
      new;
      InitInv(c, now);
    }

    function View(): State
      reads this
    {
      State(now, rows, log, calls, loops)
    }

    method Become(s: State)
      modifies this
      ensures View() == s && tape == old(tape)
    {
      now, rows, log, calls, loops := s.now, s.rows, s.log, s.calls, s.loops;
    }

    /** The steps of others that are possible happen, and the outcome of this loop's next action is drawn. */
    method Interlude(w: nat) returns (e: Event, ghost tr: seq<Step>)
      requires w < |loops|
      modifies this
      ensures Exec(c, old(View()), tr) == Some(View()) && Spares(tr, w)
      ensures Own(tr, w) == [] && old(rows).Keys <= rows.Keys
      ensures |loops| == |old(loops)| && loops[w] == old(loops[w]) && e.at <= now && old(now) <= now
      ensures Healthy(old(tape)) ==> Healthy(tape) && !e.fails && !e.cancelled
      ensures tape == Rest(old(tape)) && e == Next(old(tape)).(at := Min(Next(old(tape)).at, now))
    {
      tr := [];
      e := Next(tape);
      tape := Rest(tape);
      ghost var start := View();
      var i := 0;
      while i < |e.others|
        invariant Spared(c, start, tr, View(), w) && tape == Rest(old(tape))
      {
        var step := e.others[i];
        if LoopOf(step) != Some(w) && Enabled(c, View(), step) {
          SpareOnce(c, start, tr, View(), step, w);
          Become(Apply(c, View(), step));
          tr := tr + [step];
        }
        i := i + 1;
      }
      OwnOfSpared(tr, w);
      e := e.(at := Min(e.at, now));
    }

    // Counts the rows one by one.
    method CountSendsLastDay(at: int) returns (total: nat)
      ensures total == SendsLastDay(rows, at)
    {
      total := 0;
      var left := rows.Keys;
      ghost var counted: set<NotificationId> := {};
      while left != {}
        invariant left <= rows.Keys && counted !! left && total == |counted|
        invariant forall id :: id in counted <==> id in SentSince(rows, at - DAY) && id !in left
      {
        var id :| id in left;
        if rows[id].status == Sent && rows[id].updatedAt > at - DAY {
          total := total + 1;
          counted := counted + {id};
        }
        left := left - {id};
      }
      assert counted == SentSince(rows, at - DAY);
    }

    // The terminal update and the audit row of one transaction; the foreign key makes it fail on a missing row.
    method MarkAndLog(row: ClaimedRow, status: Status, at: int)
      requires row.id in rows
      modifies this`rows, this`log
      ensures rows == old(rows)[row.id := Mark(old(rows)[row.id], status, at)]
      ensures log == old(log) + [LogRow(row.id, row.toEmail, status)]
    {
      rows := rows[row.id := Mark(rows[row.id], status, at)];
      log := log + [LogRow(row.id, row.toEmail, status)];
    }

    method ScheduleNotificationRetry(id: NotificationId, next: int, at: int)
      requires id in rows
      modifies this`rows
      ensures rows == old(rows)[id := Reschedule(old(rows)[id], next, at)]
    {
      rows := rows[id := Reschedule(rows[id], next, at)];
    }

    method WriteVerdict(row: ClaimedRow, verdict: Verdict, at: int)
      requires row.id in rows
      modifies this`rows, this`log
      ensures View() == Written(old(View()), row, verdict, at)
    {
      match verdict
      case ToSent => MarkAndLog(row, Sent, at);
      case ToFailed => MarkAndLog(row, Failed, at);
      case ToDead => MarkAndLog(row, Dead, at);
      case ToRetry(next) => ScheduleNotificationRetry(row.id, next, at);
    }

    // One try of the transaction that writes the verdict; a failed one leaves no trace.
    method TryWrite(w: nat) returns (ok: bool, cancelled: bool, ghost tr: seq<Step>)
      requires CanWrite(View(), w) && loops[w].phase.since <= now
      modifies this
      ensures Tried(c, old(View()), tr, View(), w, ok)
      ensures tape == Rest(old(tape)) && cancelled == Next(old(tape)).cancelled
      ensures old(loops[w]).batch[0].id in old(rows) ==> ok == !Next(old(tape)).fails
    {
      var e;
      e, tr := Interlude(w);
      var row := loops[w].batch[0];
      ok, cancelled := !e.fails && row.id in rows, e.cancelled;
      if ok {
        var at := if e.at < loops[w].phase.since then loops[w].phase.since else e.at;
        Take(c, old(View()), tr, View(), Write(w, at));
        WriteVerdict(row, loops[w].phase.verdict, at);
        loops := loops[w := AfterHead(loops[w].batch)];
        tr := tr + [Write(w, at)];
      }
    }

    // Up to three tries; a cancelled context ends them.
    method WithRetry(w: nat) returns (ok: bool, ghost tr: seq<Step>)
      requires CanWrite(View(), w) && loops[w].phase.since <= now
      modifies this
      ensures Tried(c, old(View()), tr, View(), w, ok)
      ensures Healthy(old(tape)) ==> Healthy(tape)
      ensures old(loops[w]).batch[0].id in old(rows) ==> ok == Succeeds(old(tape), 3)
    {
      ghost var start, events := View(), tape;
      ghost var found := loops[w].batch[0].id in rows;
      tr, ok := [], false;
      NotTried(c, start, w);
      for i := 0 to 3
        invariant !ok && Tried(c, start, tr, View(), w, false)
        invariant Healthy(events) ==> Healthy(tape)
        invariant found ==> Succeeds(events, 3) == Succeeds(tape, 3 - i)
      {
        ghost var mid := View();
        StillHolds(c, start, tr, mid, w);
        var cancelled;
        ghost var more;
        ok, cancelled, more := TryWrite(w);
        TryAgain(c, start, tr, mid, more, View(), w, ok);
        tr := tr + more;
        if ok || cancelled {
          return;
        }
      }
    }

    // Record the verdict on the first row, or lose the row if every try fails.
    method Record(w: nat) returns (ghost tr: seq<Step>)
      requires CanWrite(View(), w) && loops[w].phase.since <= now
      modifies this
      ensures Exec(c, old(View()), tr) == Some(View()) && |loops| == |old(loops)|
      ensures loops[w] == AfterHead(old(loops[w]).batch)
      ensures Healthy(old(tape)) ==> Healthy(tape) && Succeeds(old(tape), 3)
      ensures old(loops[w]).batch[0].id in old(rows) ==>
                |Own(tr, w)| == 1 && if Succeeds(old(tape), 3) then Own(tr, w)[0].Write? else Own(tr, w)[0] == GiveUp(w)
    {
      HealthySucceeds(tape);
      var ok;
      ok, tr := WithRetry(w);
      if !ok {
        Take(c, old(View()), tr, View(), GiveUp(w));
        loops := loops[w := AfterHead(loops[w].batch)];
        tr := tr + [GiveUp(w)];
      }
    }

    // Build the mail, call the provider, and decide from its answer.
    method SendMail(w: nat) returns (ghost tr: seq<Step>)
      requires InPhase(View(), w, Fresh)
      modifies this
      ensures Exec(c, old(View()), tr) == Some(View()) && |loops| == |old(loops)|
      ensures loops[w].Holding? && loops[w].batch == old(loops[w]).batch && !loops[w].phase.Fresh?
      ensures |Own(tr, w)| == 1 && Own(tr, w)[0] == QueueProtocol.Dispatch(w, Next(old(tape)).outcome)
      ensures tape == Rest(old(tape))
    {
      var e;
      e, tr := Interlude(w);
      var row := loops[w].batch[0];
      ghost var step := QueueProtocol.Dispatch(w, e.outcome);
      Take(c, old(View()), tr, View(), step);
      var phase;
      if row.kind.Unknown? || row.payload.Malformed? {
        phase := Decided(ToFailed, now);
      } else {
        calls := calls + [Call(row.id, row.id, row.toEmail, row.payload, e.outcome, now)];
        if e.outcome.Accepted? {
          phase := Decided(ToSent, now);
        } else if e.outcome.SeenRetryable() && row.attempts < c.maxAttempts {
          phase := NeedsBackoff;
        } else if row.attempts >= c.maxAttempts {
          phase := Decided(ToDead, now);
        } else {
          phase := Decided(ToFailed, now);
        }
      }
      loops := loops[w := Holding(loops[w].batch, phase)];
      tr := tr + [step];
    }

    // No loop of the process is doing anything.
    ghost predicate Down(w: nat)
      reads this
    {
      forall v :: 0 <= v < |loops| && process(v) == process(w) ==> loops[v] == Idle
    }

    // A panic that nobody recovers ends the process: every loop in it loses its batch or its selection.
    method Exit(w: nat) returns (ghost tr: seq<Step>)
      requires w < |loops|
      modifies this`loops
      ensures Exec(c, old(View()), tr) == Some(View()) && |loops| == |old(loops)| && Own(tr, w) == [Crash(w)]
      ensures forall v :: 0 <= v < |loops| ==> loops[v] == if process(v) == process(w) then Idle else old(loops)[v]
    {
      tr := [];
      for v := 0 to |loops|
        invariant Exec(c, old(View()), tr) == Some(View()) && |loops| == |old(loops)|
        invariant Own(tr, w) == if w < v then [Crash(w)] else []
        invariant forall u :: 0 <= u < |loops| ==>
                    loops[u] == if u < v && process(u) == process(w) then Idle else old(loops)[u]
      {
        if process(v) == process(w) {
          TakeFor(c, old(View()), tr, View(), Crash(v), w);
          loops := loops[v := Idle];
          tr := tr + [Crash(v)];
        }
      }
    }

    method PutOff(w: nat, draw: nat, wait: int) returns (ghost tr: seq<Step>)
      requires InPhase(View(), w, NeedsBackoff) && B.Spec(loops[w].batch[0].attempts, draw) == Some(wait)
      modifies this
      ensures Exec(c, old(View()), tr) == Some(View()) && |loops| == |old(loops)|
      ensures loops[w] == Holding(old(loops[w]).batch, Decided(ToRetry(now + wait), now))
      ensures Own(tr, w) == [Plan(w, draw)] && tape == old(tape)
    {
      tr := TakeAlone(c, View(), Plan(w, draw));
      loops := loops[w := Holding(loops[w].batch, Decided(ToRetry(now + wait), now))];
    }

    // A panic while computing the delay takes the process down.
    method PlanRetry(w: nat) returns (panicked: bool, ghost tr: seq<Step>)
      requires InPhase(View(), w, NeedsBackoff)
      modifies this
      ensures Exec(c, old(View()), tr) == Some(View()) && |loops| == |old(loops)|
      ensures panicked <==> old(loops[w]).batch[0].attempts > B.LAST_SAFE_ATTEMPT
      ensures panicked ==> Down(w)
      ensures !panicked ==> CanWrite(View(), w) && loops[w].batch == old(loops[w]).batch
      ensures !panicked ==> PlannedBy(loops[w], Next(old(tape)).draw)
      ensures Own(tr, w) == if panicked then [Crash(w)] else [Plan(w, Next(old(tape)).draw)]
      ensures tape == Rest(old(tape))
    {
      var e;
      e, tr := Interlude(w);
      var wait := B.Backoff(loops[w].batch[0].attempts, e.draw);
      panicked := wait.None?;
      ghost var mid := View();
      ghost var more;
      if panicked {
        more := Exit(w);
      } else {
        more := PutOff(w, e.draw, wait.value);
      }
      Wait(c, old(View()), tr, mid, more, View(), w);
      tr := tr + more;
      if !panicked {
        DrawnInRange(loops[w], e.draw);
      }
    }

    // From the mail to a verdict; on its own so that a panic ends it here.
    method Judge(w: nat) returns (panicked: bool, ghost tr: seq<Step>)
      requires ConfigOk(c) && Inv(c, View()) && InPhase(View(), w, Fresh)
      modifies this
      ensures Exec(c, old(View()), tr) == Some(View()) && Inv(c, View()) && |loops| == |old(loops)|
      ensures panicked ==> c.maxAttempts >= 30 && loops[w] == Idle && Down(w)
      ensures !panicked ==> CanWrite(View(), w) && loops[w].batch == old(loops[w]).batch
      ensures !panicked ==> Judged(Own(tr, w))
      ensures Healthy(old(tape)) ==> Healthy(tape)
    {
      panicked := false;
      tr := SendMail(w);
      RunKeeps(c, old(View()), tr);
      if loops[w].phase.NeedsBackoff? {
        ghost var mid := View();
        ghost var planned;
        panicked, planned := PlanAndCheck(w);
        if !panicked {
          SentAndPlanned(Own(tr, w), Own(planned, w));
        }
        Join(Transition(c), old(View()), tr, mid, planned, Mine(w));
        tr := tr + planned;
      }
    }

    method PlanAndCheck(w: nat) returns (panicked: bool, ghost tr: seq<Step>)
      requires ConfigOk(c) && Inv(c, View()) && InPhase(View(), w, NeedsBackoff)
      modifies this
      ensures Exec(c, old(View()), tr) == Some(View()) && Inv(c, View()) && |loops| == |old(loops)|
      ensures panicked ==> c.maxAttempts >= 30 && loops[w] == Idle && Down(w)
      ensures !panicked ==> CanWrite(View(), w) && loops[w].batch == old(loops[w]).batch
      ensures !panicked ==> |Own(tr, w)| == 1 && Own(tr, w)[0].Plan?
      ensures Healthy(old(tape)) ==> Healthy(tape)
    {
      RetryHasAttemptsLeft(c, View(), w);
      panicked, tr := PlanRetry(w);
      RunKeeps(c, old(View()), tr);
    }

    // One claimed row from start to end. With at most 29 attempts it never panics.
    method Dispatch(w: nat) returns (panicked: bool, ghost tr: seq<Step>)
      requires ConfigOk(c) && Inv(c, View()) && InPhase(View(), w, Fresh)
      modifies this
      ensures Exec(c, old(View()), tr) == Some(View()) && Inv(c, View()) && |loops| == |old(loops)|
      ensures panicked ==> c.maxAttempts >= 30 && loops[w] == Idle && Down(w)
      ensures !panicked ==> loops[w] == AfterHead(old(loops[w]).batch)
      ensures Healthy(old(tape)) ==> Healthy(tape) && (!panicked ==> Round(Own(tr, w)))
    {
      panicked, tr := Judge(w);
      if !panicked {
        HeadIsHeld(c, View(), w);
        ghost var mid := View();
        ghost var recorded := Record(w);
        Join(Transition(c), old(View()), tr, mid, recorded, Mine(w));
        assert (Own(tr, w) + Own(recorded, w))[..|Own(tr, w)|] == Own(tr, w);
        tr := tr + recorded;
        RunKeeps(c, old(View()), tr);
      }
    }

    // The locking read of a claim.
    method SelectRows(w: nat) returns (ghost tr: seq<Step>)
      requires w < |loops| && loops[w] == Checked
      modifies this
      ensures Exec(c, old(View()), tr) == Some(View()) && |loops| == |old(loops)|
      ensures loops[w].Selecting? && |loops[w].ids| <= CLAIM_LIMIT
      ensures Own(tr, w) == [Select(w, loops[w].at, loops[w].ids)] && tape == Rest(old(tape))
      ensures loops[w].at == Min(Next(old(tape)).at, now)
      ensures DueChoice(rows, loops[w].at, LockedIds(loops[w := Checked]), 5, loops[w].ids)
      ensures Healthy(old(tape)) ==> Healthy(tape)
    {
      var e;
      e, tr := Interlude(w);
      var ids := SelectDue(rows, e.at, LockedIds(loops), CLAIM_LIMIT);
      Take(c, old(View()), tr, View(), Select(w, e.at, ids));
      ghost var before := loops;
      loops := loops[w := Selecting(ids, e.at)];
      tr := tr + [Select(w, e.at, ids)];
      assert loops[w := Checked] == before;
    }

    // The update of a claim, and the commit; a failed transaction drops its locks and claims nothing.
    method CommitClaim(w: nat) returns (ok: bool, ghost tr: seq<Step>)
      requires w < |loops| && loops[w].Selecting? && ConfigOk(c) && Inv(c, View())
      modifies this
      ensures Exec(c, old(View()), tr) == Some(View()) && |loops| == |old(loops)|
      ensures ok == !Next(old(tape)).fails
      ensures Own(tr, w) == [if ok then Commit(w) else Crash(w)]
      ensures loops[w].Idle? || (ok && InPhase(View(), w, Fresh) && |loops[w].batch| == |old(loops[w]).ids|)
      ensures ok && loops[w].Idle? ==> old(loops[w]).ids == []
      ensures Healthy(old(tape)) ==> Healthy(tape) && ok
    {
      var e;
      e, tr := Interlude(w);
      RunKeeps(c, old(View()), tr);
      SelectionCommits(c, View(), w);
      ok := !e.fails;
      if !ok {
        Take(c, old(View()), tr, View(), Crash(w));
        loops := loops[w := Idle];
        tr := tr + [Crash(w)];
        return;
      }
      var ids := loops[w].ids;
      Take(c, old(View()), tr, View(), Commit(w));
      var updated := ClaimRows(rows, ids, loops[w].at, c.leaseSeconds);
      rows := updated;
      if ids == [] {
        loops := loops[w := Idle];
      } else {
        loops := loops[w := Holding(ReturnedRows(updated, ids), Fresh)];
      }
      tr := tr + [Commit(w)];
    }

    method Claim(w: nat) returns (ghost tr: seq<Step>)
      requires w < |loops| && loops[w] == Checked && ConfigOk(c) && Inv(c, View())
      modifies this
      ensures Exec(c, old(View()), tr) == Some(View()) && Inv(c, View()) && |loops| == |old(loops)|
      ensures loops[w].Idle? || InPhase(View(), w, Fresh)
      ensures Next(Rest(old(tape))).fails ==> loops[w].Idle? && |Own(tr, w)| == 2 && Own(tr, w)[1] == Crash(w)
      ensures Healthy(old(tape)) ==>
                && Healthy(tape)
                && |Own(tr, w)| == 2 && Own(tr, w)[0].Select? && Own(tr, w)[1].Commit?
                && |Own(tr, w)[0].ids| == if loops[w].Idle? then 0 else |loops[w].batch|
    {
      tr := SelectRows(w);
      RunKeeps(c, old(View()), tr);
      ghost var mid := View();
      var ok;
      ghost var more;
      ok, more := CommitClaim(w);
      Join(Transition(c), old(View()), tr, mid, more, Mine(w));
      tr := tr + more;
      RunKeeps(c, old(View()), tr);
    }

    // The cap test; an error ends the tick like a reached cap.
    method CheckCap(w: nat) returns (ghost tr: seq<Step>)
      requires w < |loops| && loops[w] == Idle
      modifies this
      ensures Exec(c, old(View()), tr) == Some(View()) && |loops| == |old(loops)|
      ensures loops[w] == Idle || loops[w] == Checked
      ensures if c.dailyCap > 0 && Next(old(tape)).fails then Own(tr, w) == [] && loops[w] == Idle
              else Own(tr, w) == [CapCheck(w, Min(Next(old(tape)).at, now))]
      ensures Healthy(old(tape)) ==> Healthy(tape)
    {
      var e;
      e, tr := Interlude(w);
      var passed := true;
      if c.dailyCap > 0 {
        if e.fails {
          return;
        }
        var total := CountSendsLastDay(e.at);
        passed := total < c.dailyCap;
      }
      Take(c, old(View()), tr, View(), CapCheck(w, e.at));
      if passed {
        loops := loops[w := Checked];
      }
      tr := tr + [CapCheck(w, e.at)];
    }

    // One tick. Whatever happens, it is a run of the protocol, it leaves the loop idle, and it reports no more rows
    // than a claim may return. When nothing fails it does a whole tick.
    method Tick(w: nat) returns (processed: nat, panicked: bool, ghost tr: seq<Step>)
      requires w < |loops| && loops[w] == Idle && ConfigOk(c) && Inv(c, View())
      modifies this
      ensures Exec(c, old(View()), tr) == Some(View()) && Inv(c, View())
      ensures |loops| == |old(loops)| && loops[w] == Idle
      ensures processed <= 5
      ensures panicked ==> c.maxAttempts >= 30 && Down(w)
      ensures Healthy(old(tape)) && !panicked ==> WholeTick(Own(tr, w), processed)
    {
      processed, panicked := 0, false;
      tr := CheckCap(w);
      RunKeeps(c, old(View()), tr);
      if loops[w].Checked? {
        ghost var mid := View();
        ghost var checked := Own(tr, w);
        ghost var more;
        processed, panicked, more := ClaimAndDrain(w);
        Join(Transition(c), old(View()), tr, mid, more, Mine(w));
        assert |checked| == 1 ==> (checked + Own(more, w))[1..] == Own(more, w);
        tr := tr + more;
      }
    }

    method ClaimAndDrain(w: nat) returns (processed: nat, panicked: bool, ghost tr: seq<Step>)
      requires w < |loops| && loops[w] == Checked && ConfigOk(c) && Inv(c, View())
      modifies this
      ensures Exec(c, old(View()), tr) == Some(View()) && Inv(c, View())
      ensures |loops| == |old(loops)| && loops[w] == Idle
      ensures processed <= 5
      ensures panicked ==> c.maxAttempts >= 30 && Down(w)
      ensures Healthy(old(tape)) && !panicked ==> WholeClaim(Own(tr, w), processed)
    {
      processed, panicked := 0, false;
      tr := Claim(w);
      if loops[w].Idle? {
        NoRounds();
        return;
      }
      assert LoopOk(c, now, rows, calls, loops[w]);
      processed := |loops[w].batch|;
      ghost var mid := View();
      ghost var begun := Own(tr, w);
      var complete;
      ghost var more;
      complete, panicked, more := DrainBatch(w);
      Join(Transition(c), old(View()), tr, mid, more, Mine(w));
      assert |begun| == 2 ==> (begun + Own(more, w))[2..] == Own(more, w);
      tr := tr + more;
      if !complete {
        processed := 0;
      }
    }

    // The rows of the batch in turn; a cancelled wait for the rate limiter, or a panic, loses the rest of the batch.
    method DrainBatch(w: nat) returns (complete: bool, panicked: bool, ghost tr: seq<Step>)
      requires ConfigOk(c) && Inv(c, View()) && InPhase(View(), w, Fresh)
      modifies this
      ensures Exec(c, old(View()), tr) == Some(View()) && Inv(c, View())
      ensures |loops| == |old(loops)| && loops[w] == Idle
      ensures panicked ==> !complete && c.maxAttempts >= 30 && Down(w)
      ensures Healthy(old(tape)) && !panicked ==> complete && Rounds(Own(tr, w), |old(loops[w]).batch|)
    {
      complete, panicked, tr := true, false, [];
      var n := |loops[w].batch|;
      var done := 0;
      ghost var parts := [];
      while done < n && complete
        invariant Draining(c, old(View()), tr, View(), w, n, done, complete, panicked) && (panicked ==> Down(w))
        invariant Healthy(old(tape)) && !panicked ==> complete && Healthy(tape) && |parts| == done
        invariant Healthy(old(tape)) && !panicked ==> Own(tr, w) == Concat(parts) && AreRounds(parts)
        decreases n - done, complete
      {
        ghost var mid := View();
        ghost var more;
        complete, panicked, more := NextRow(w);
        DrainOne(c, old(View()), tr, mid, more, View(), w, n, done, complete, panicked);
        if Healthy(old(tape)) && !panicked {
          DrainRound(tr, more, w, parts);
          parts := parts + [Own(more, w)];
        }
        tr := tr + more;
        if complete {
          done := done + 1;
        }
      }
    }

    // Waiting for the rate limiter; a cancelled wait loses the batch.
    method AwaitTurn(w: nat) returns (complete: bool, ghost tr: seq<Step>)
      requires ConfigOk(c) && Inv(c, View()) && InPhase(View(), w, Fresh)
      modifies this
      ensures Exec(c, old(View()), tr) == Some(View()) && Inv(c, View()) && |loops| == |old(loops)|
      ensures if complete then loops[w] == old(loops[w]) && Own(tr, w) == [] else loops[w] == Idle
      ensures complete == !Next(old(tape)).cancelled
      ensures Healthy(old(tape)) ==> Healthy(tape)
    {
      var e;
      e, tr := Interlude(w);
      RunKeeps(c, old(View()), tr);
      complete := !e.cancelled;
      if !complete {
        Take(c, old(View()), tr, View(), Crash(w));
        loops := loops[w := Idle];
        tr := tr + [Crash(w)];
        RunKeeps(c, old(View()), tr);
      }
    }

    method NextRow(w: nat) returns (complete: bool, panicked: bool, ghost tr: seq<Step>)
      requires ConfigOk(c) && Inv(c, View()) && InPhase(View(), w, Fresh)
      modifies this
      ensures Exec(c, old(View()), tr) == Some(View()) && Inv(c, View()) && |loops| == |old(loops)|
      ensures panicked ==> !complete && c.maxAttempts >= 30 && Down(w)
      ensures loops[w] == if complete then AfterHead(old(loops[w]).batch) else Idle
      ensures Healthy(old(tape)) && !panicked ==> complete && Healthy(tape) && Round(Own(tr, w))
    {
      panicked := false;
      complete, tr := AwaitTurn(w);
      if complete {
        ghost var mid := View();
        ghost var more;
        panicked, more := Dispatch(w);
        Wait(c, old(View()), tr, mid, more, View(), w);
        tr := tr + more;
        complete := !panicked;
      }
    }
  }

  lemma HealthySucceeds(tape: seq<Event>)
    ensures Healthy(tape) ==> Succeeds(tape, 3)
  {
  }

  lemma HeadIsHeld(c: Config, s: State, w: nat)
    requires Inv(c, s) && CanWrite(s, w)
    ensures s.loops[w].batch[0].id in s.rows && s.loops[w].phase.since <= s.now
  {
    assert LoopOk(c, s.now, s.rows, s.calls, s.loops[w]);
  }
}
