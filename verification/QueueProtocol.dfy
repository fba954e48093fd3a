/** The notification queue, its worker loops and the mail provider as one transition system.

    A step is one atomic action: a database statement or transaction, a call to the provider, or a decision a loop
    takes in memory. A step carries every choice that the code does not make itself, among them `at`, the `now()` of
    a transaction, which may lie before the moment its effect becomes visible. */
module QueueProtocol {
  import opened Common
  import opened Runs
  import opened NotificationQueries
  import Backoff

  const CLAIM_LIMIT := 5
  const MAX_CLOCK := TWO_TO_THE_63

  datatype Config = Config(maxAttempts: int, dailyCap: int, leaseSeconds: int, loops: nat)

  /** How a request to the provider ends. `ReplyLost` is a request that the provider accepted although the worker only
      sees a retryable error, such as a timeout. */
  datatype Outcome = Accepted | ReplyLost | Retryable | Permanent
  {
    predicate Delivers() {
      Accepted? || ReplyLost?
    }

    predicate SeenRetryable() {
      Retryable? || ReplyLost?
    }
  }

  datatype Verdict = ToSent | ToFailed | ToDead | ToRetry(next: int)

  /** How far a loop is with the first row of its batch; `since` is when the verdict was reached. */
  datatype Phase = Fresh | NeedsBackoff | Decided(verdict: Verdict, since: int)

  datatype Loop =
    | Idle
    | Checked
    | Selecting(ids: seq<NotificationId>, at: int)
    | Holding(batch: seq<ClaimedRow>, phase: Phase)

  /** One request to the provider, which sees the idempotency key and the mail. `row` records for which notification
      the request was made. */
  datatype Call = Call(
    row: NotificationId,
    key: NotificationId,
    to: string,
    payload: Payload,
    outcome: Outcome,
    at: int)

  datatype State = State(now: int, rows: Table, log: seq<LogRow>, calls: seq<Call>, loops: seq<Loop>)

  datatype Step =
    | Advance(to: int)
    | Enqueue(id: NotificationId, kind: Kind, toEmail: string, payload: Payload, at: int)
    | CapCheck(w: nat, at: int)
    | Select(w: nat, at: int, ids: seq<NotificationId>)
    | Commit(w: nat)
    | Dispatch(w: nat, outcome: Outcome)
    | Plan(w: nat, draw: nat)
    | Write(w: nat, at: int)
    | GiveUp(w: nat)
    | Crash(w: nat)

  predicate ConfigOk(c: Config) {
    c.maxAttempts >= 1 && c.loops >= 1
  }

  function Init(c: Config, now: int): State {
    State(now, map[], [], [], seq(c.loops, i => Idle))
  }

  function LockedIds(loops: seq<Loop>): set<NotificationId> {
    set w, id | 0 <= w < |loops| && loops[w].Selecting? && id in loops[w].ids :: id
  }

  predicate Builds(row: ClaimedRow) {
    !row.kind.Unknown? && !row.payload.Malformed?
  }

  function Judge(c: Config, attempts: int, outcome: Outcome, now: int): Phase {
    if outcome.Accepted? then Decided(ToSent, now)
    else if outcome.SeenRetryable() && attempts < c.maxAttempts then NeedsBackoff
    else if attempts >= c.maxAttempts then Decided(ToDead, now)
    else Decided(ToFailed, now)
  }

  function AfterHead(batch: seq<ClaimedRow>): Loop
    requires batch != []
  {
    if |batch| == 1 then Idle else Holding(batch[1..], Fresh)
  }

  predicate InPhase(s: State, w: nat, phase: Phase) {
    && w < |s.loops|
    && s.loops[w].Holding?
    && s.loops[w].batch != []
    && s.loops[w].phase == phase
  }

  predicate CanWrite(s: State, w: nat) {
    && w < |s.loops|
    && s.loops[w].Holding?
    && s.loops[w].batch != []
    && s.loops[w].phase.Decided?
  }

  predicate BelowCap(c: Config, s: State, at: int) {
    c.dailyCap <= 0 || SendsLastDay(s.rows, at) < c.dailyCap
  }

  predicate Enabled(c: Config, s: State, step: Step) {
    match step
    case Advance(to) => s.now <= to < MAX_CLOCK
    case Enqueue(id, _, _, _, at) => id !in s.rows && at <= s.now
    case CapCheck(w, at) => w < |s.loops| && s.loops[w].Idle? && at <= s.now
    case Select(w, at, ids) =>
      && w < |s.loops| && s.loops[w].Checked? && at <= s.now
      && Lockable(s.rows, at, LockedIds(s.loops), CLAIM_LIMIT, ids)
    case Commit(w) => w < |s.loops| && s.loops[w].Selecting? && (forall id :: id in s.loops[w].ids ==> id in s.rows)
    case Dispatch(w, _) => InPhase(s, w, Fresh)
    case Plan(w, draw) => InPhase(s, w, NeedsBackoff) && Backoff.Spec(s.loops[w].batch[0].attempts, draw).Some?
    case Write(w, at) => CanWrite(s, w) && s.loops[w].phase.since <= at <= s.now && s.loops[w].batch[0].id in s.rows
    case GiveUp(w) => CanWrite(s, w)
    case Crash(w) => w < |s.loops|
  }

  function Move(s: State, w: nat, l: Loop): State
    requires w < |s.loops|
  {
    s.(loops := s.loops[w := l])
  }

  function ReturnedRows(rows: Table, ids: seq<NotificationId>): (batch: seq<ClaimedRow>)
    requires forall id :: id in ids ==> id in rows
    ensures |batch| == |ids|
    ensures forall i :: 0 <= i < |ids| ==> batch[i] == Returned(rows, ids[i])
  {
    seq(|ids|, i requires 0 <= i < |ids| => Returned(rows, ids[i]))
  }

  function Committed(c: Config, s: State, w: nat): State
    requires Enabled(c, s, Commit(w))
  {
    var ids := s.loops[w].ids;
    var rows := ClaimRows(s.rows, ids, s.loops[w].at, c.leaseSeconds);
    var l := if ids == [] then Idle else Holding(ReturnedRows(rows, ids), Fresh);
    Move(s, w, l).(rows := rows)
  }

  // The idempotency key is the id of the row.
  function CallFor(head: ClaimedRow, outcome: Outcome, now: int): Call {
    Call(head.id, head.id, head.toEmail, head.payload, outcome, now)
  }

  function Dispatched(c: Config, s: State, w: nat, outcome: Outcome): State
    requires InPhase(s, w, Fresh)
  {
    var head := s.loops[w].batch[0];
    if !Builds(head) then
      Move(s, w, s.loops[w].(phase := Decided(ToFailed, s.now)))
    else
      Move(s, w, s.loops[w].(phase := Judge(c, head.attempts, outcome, s.now)))
      .(calls := s.calls + [CallFor(head, outcome, s.now)])
  }

  // None of these updates tests the status of the row.
  function WrittenRow(row: Row, verdict: Verdict, at: int): Row {
    match verdict
    case ToSent => Mark(row, Sent, at)
    case ToFailed => Mark(row, Failed, at)
    case ToDead => Mark(row, Dead, at)
    case ToRetry(next) => Reschedule(row, next, at)
  }

  // A terminal mark and its audit row are one transaction; a retry leaves no audit row.
  function WrittenLog(log: seq<LogRow>, head: ClaimedRow, verdict: Verdict): seq<LogRow> {
    match verdict
    case ToSent => log + [LogRow(head.id, head.toEmail, Sent)]
    case ToFailed => log + [LogRow(head.id, head.toEmail, Failed)]
    case ToDead => log + [LogRow(head.id, head.toEmail, Dead)]
    case ToRetry(_) => log
  }

  function Written(s: State, head: ClaimedRow, verdict: Verdict, at: int): State
    requires head.id in s.rows
  {
    s.(rows := s.rows[head.id := WrittenRow(s.rows[head.id], verdict, at)],
       log := WrittenLog(s.log, head, verdict))
  }

  function Apply(c: Config, s: State, step: Step): State
    requires Enabled(c, s, step)
  {
    match step
    case Advance(to) => s.(now := to)
    case Enqueue(id, kind, toEmail, payload, at) =>
      s.(rows := s.rows[id := Inserted(kind, toEmail, payload, at)])
    case CapCheck(w, at) => if BelowCap(c, s, at) then Move(s, w, Checked) else s
    case Select(w, at, ids) => Move(s, w, Selecting(ids, at))
    case Commit(w) => Committed(c, s, w)
    case Dispatch(w, outcome) => Dispatched(c, s, w, outcome)
    case Plan(w, draw) =>
      var wait := Backoff.Spec(s.loops[w].batch[0].attempts, draw).value;
      Move(s, w, s.loops[w].(phase := Decided(ToRetry(s.now + wait), s.now)))
    case Write(w, at) =>
      Move(Written(s, s.loops[w].batch[0], s.loops[w].phase.verdict, at), w, AfterHead(s.loops[w].batch))
    case GiveUp(w) => Move(s, w, AfterHead(s.loops[w].batch))
    case Crash(w) => Move(s, w, Idle)
  }

  function Transition(c: Config): (State, Step) -> Option<State> {
    (s, step) => if Enabled(c, s, step) then Some(Apply(c, s, step)) else None
  }

  /** The state after the steps of `tr`, if each was possible when its turn came. */
  function Exec(c: Config, s: State, tr: seq<Step>): Option<State> {
    Run(Transition(c), s, tr)
  }

  ghost predicate Reachable(c: Config, s: State) {
    exists t: int, tr: seq<Step> :: Exec(c, Init(c, t), tr) == Some(s)
  }

  lemma Onward(c: Config, s: State, tr: seq<Step>, t: State)
    requires Reachable(c, s) && Exec(c, s, tr) == Some(t)
    ensures Reachable(c, t)
  {
    var now: int, before: seq<Step> :| Exec(c, Init(c, now), before) == Some(s);
    RunConcat(Transition(c), Init(c, now), before, tr);
    assert Exec(c, Init(c, now), before + tr) == Some(t);
  }
}
