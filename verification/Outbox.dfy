/**
 The two outbox tables (main message, timeout message): the row updates their repositories
 run, and every interleaving of dispatchers, senders and replayers over one table.
 */
module Outbox {
  import opened Common

  type TaskId = int

  datatype Status = Pending | Sent | Dead

  datatype Task = Task(
    order: OrderNo,
    status: Status,
    retryCount: nat,
    nextRetryAt: int,
    lastError: string,
    sentAt: Option<int>,
    updatedAt: int)

  type Table = map<TaskId, Task>

  /** The constants in which the two outboxes differ. */
  datatype Config = Config(
    firstDelay: int,
    maxDelay: int,
    maxRetry: nat,
    batch: nat,
    lease: int,
    replayBatch: nat,
    replayOlderThan: int,
    defaultOlderThan: int)   // what FetchDeadTasks takes when it is given no age
  {
    ghost predicate Valid() {
      0 < firstDelay <= maxDelay && 0 < batch && 0 < lease && 0 < maxRetry && 0 < replayBatch
    }
  }

  const TX := Config(3 * SECOND, 2 * MINUTE, 30, 200, 15 * SECOND, 100, 10 * MINUTE, 5 * MINUTE)
  const TIMEOUT := Config(30 * SECOND, 30 * MINUTE, 20, 100, 30 * SECOND, 50, 10 * MINUTE, 10 * MINUTE)

  // ----- backoff -----

  function Pow2(n: nat): (p: nat)
    ensures p >= 1
  {
    if n == 0 then 1 else 2 * Pow2(n - 1)
  }

  /** The delay before attempt `n + 1`, in closed form. */
  function Backoff(first: int, max: int, n: nat): int
    requires n >= 1
  {
    if first * Pow2(n - 1) >= max then max else first * Pow2(n - 1)
  }

  lemma {:induction false} Pow2Monotone(m: nat, n: nat)
    requires m <= n
    ensures Pow2(m) <= Pow2(n)
    decreases n
  {
    if m < n {
      Pow2Monotone(m, n - 1);
    }
  }

  lemma {:induction false} Pow2Scaled(first: int, m: nat, n: nat)
    requires 0 < first && m <= n
    ensures first <= first * Pow2(m) <= first * Pow2(n)
    decreases n
  {
    if m < n {
      Pow2Scaled(first, m, n - 1);
      assert first * Pow2(n) == 2 * (first * Pow2(n - 1));
    } else if n > 0 {
      Pow2Scaled(first, 0, n - 1);
      assert first * Pow2(n) == 2 * (first * Pow2(n - 1));
    }
  }

  /** Waiting never gets shorter from one retry to a later one, and stays between the two constants. */
  lemma BackoffMonotone(first: int, max: int, m: nat, n: nat)
    requires 0 < first <= max && 1 <= m <= n
    ensures first <= Backoff(first, max, m) <= Backoff(first, max, n) <= max
  {
    Pow2Scaled(first, m - 1, n - 1);
  }

  /** The doubling loop of both MarkRetry functions, left early at the cap; no value it
      holds reaches twice the cap, so nothing overflows. */
  method NextDelay(first: int, max: int, retryCount: nat) returns (nextDelay: int)
    requires 0 < first < max && retryCount >= 1
    ensures nextDelay == Backoff(first, max, retryCount)
  {
    nextDelay := first;
    var i := 1;
    while i < retryCount
      invariant 1 <= i <= retryCount
      invariant nextDelay == first * Pow2(i - 1) < max
    {
      nextDelay := nextDelay * 2;
      assert nextDelay == first * Pow2(i) by {
        assert first * (2 * Pow2(i - 1)) == 2 * (first * Pow2(i - 1));
      }
      assert nextDelay < 2 * max;
      if nextDelay >= max {
        Pow2Scaled(first, i, retryCount - 1);
        return max;
      }
      i := i + 1;
    }
  }

  // ----- row updates -----

  predicate IsDue(task: Task, now: int) {
    task.status == Pending && task.nextRetryAt <= now
  }

  ghost function Due(t: Table, now: int): set<TaskId> {
    set id | id in t && IsDue(t[id], now)
  }

  predicate HasOrder(t: Table, o: OrderNo) {
    exists id :: id in t && t[id].order == o
  }

  function NewTask(o: OrderNo, next: int, now: int): Task {
    Task(o, Pending, 0, next, "", None, now)
  }

  /** CreateIfNotExists: a second row for the same order is silently dropped. */
  function Insert(t: Table, id: TaskId, o: OrderNo, next: int, now: int): Table
    requires id !in t
  {
    if HasOrder(t, o) then t else t[id := NewTask(o, next, now)]
  }

  function Claimed(task: Task, now: int, lease: int): Task {
    task.(nextRetryAt := now + lease, lastError := "lease claimed", updatedAt := now)
  }

  function ClaimRow(t: Table, id: TaskId, now: int, lease: int): (Table, bool) {
    if id in t && IsDue(t[id], now) then (t[id := Claimed(t[id], now, lease)], true) else (t, false)
  }

  function SentRow(task: Task, now: int): Task {
    if task.status == Pending then task.(status := Sent, sentAt := Some(now), updatedAt := now) else task
  }

  /** `read` is the retry count the sender read when it claimed the row. */
  function RetriedRow(cfg: Config, task: Task, read: nat, err: string, now: int): Task {
    if task.status == Pending then
      task.(status := if read + 1 >= cfg.maxRetry then Dead else Pending,
            retryCount := read + 1,
            lastError := err,
            nextRetryAt := now + Backoff(cfg.firstDelay, cfg.maxDelay, read + 1),
            updatedAt := now)
    else task
  }

  function RequeuedRow(task: Task, now: int): Task {
    if task.status == Dead then
      task.(status := Pending, nextRetryAt := now, lastError := "auto replay", updatedAt := now)
    else task
  }

  /** What a failed send costs, in figures: the main message waits 3, 6, 12, 24, 48, 96 s and from then on 2 min, and its
      row dies at the 30th failure. */
  lemma TxRetryInFigures(task: Task, read: nat, err: string, now: int)
    requires task.status == Pending
    ensures var row := RetriedRow(TX, task, read, err, now);
            var delays := [3, 6, 12, 24, 48, 96];
            && row.nextRetryAt == now + (if read < 6 then delays[read] else 120) * SECOND
            && row.status == (if read >= 29 then Dead else Pending)
            && row.retryCount == read + 1 && row.order == task.order
  {
    DelaysInFigures(3 * SECOND, 2 * MINUTE, read);
  }

  /** The timeout message waits 30 s, 1, 2, 4, 8, 16 and from then on 30 min, and its row dies at the 20th failure. */
  lemma TimeoutRetryInFigures(task: Task, read: nat, err: string, now: int)
    requires task.status == Pending
    ensures var row := RetriedRow(TIMEOUT, task, read, err, now);
            var delays := [30, 60, 120, 240, 480, 960];
            && row.nextRetryAt == now + (if read < 6 then delays[read] else 1800) * SECOND
            && row.status == (if read >= 19 then Dead else Pending)
            && row.retryCount == read + 1 && row.order == task.order
  {
    DelaysInFigures(30 * SECOND, 30 * MINUTE, read);
  }

  /** Six delays double, the seventh and all later ones are the cap if it lies between 32 and 64 times the first. */
  lemma DelaysInFigures(first: int, max: int, read: nat)
    requires 0 < first && 32 * first < max <= 64 * first
    ensures var factors := [1, 2, 4, 8, 16, 32];
            Backoff(first, max, read + 1) == if read < 6 then factors[read] * first else max
  {
    assert Pow2(1) == 2 && Pow2(2) == 4 && Pow2(3) == 8 && Pow2(4) == 16 && Pow2(5) == 32 && Pow2(6) == 64;
    if read >= 6 {
      Pow2Scaled(first, 6, read);
    }
  }

  // ----- interleavings -----

  /** A sender between the row updates it makes: it holds a copy of a claimed row, or the
      broker has acknowledged its message, or the send has failed. */
  datatype Sender =
    | Holding(id: TaskId, copy: Task)
    | Acknowledged(id: TaskId)
    | SendFailed(id: TaskId, copy: Task)

  datatype System = System(table: Table, accepted: set<OrderNo>, senders: map<nat, Sender>)

  datatype Step =
    | Claim(sender: nat, id: TaskId, now: int, lease: int)
    | Send(sender: nat, accepted: bool, acknowledged: bool)   // accepted without acknowledgement: the reply was lost
    | FinishSent(sender: nat, executed: bool, now: int)
    | FinishRetry(sender: nat, executed: bool, err: string, now: int)
    | Requeue(id: TaskId, now: int)
    | SenderCrash(sender: nat)

  predicate Enabled(s: System, step: Step) {
    match step
    case Claim(w, id, now, lease) => w !in s.senders && lease > 0
    case Send(w, accepted, acknowledged) => w in s.senders && s.senders[w].Holding? && (acknowledged ==> accepted)
    case FinishSent(w, _, _) => w in s.senders && s.senders[w].Acknowledged? && s.senders[w].id in s.table
    case FinishRetry(w, _, _, _) => w in s.senders && s.senders[w].SendFailed? && s.senders[w].id in s.table
    case Requeue(id, _) => id in s.table
    case SenderCrash(w) => w in s.senders
  }

  function Apply(cfg: Config, s: System, step: Step): System
    requires Enabled(s, step)
  {
    match step
    case Claim(w, id, now, lease) =>
      var (t, won) := ClaimRow(s.table, id, now, lease);
      if won then s.(table := t, senders := s.senders[w := Holding(id, s.table[id])]) else s
    case Send(w, accepted, acknowledged) =>
      var p := s.senders[w];
      s.(accepted := if accepted then s.accepted + {p.copy.order} else s.accepted,
         senders := s.senders[w := if acknowledged then Acknowledged(p.id) else SendFailed(p.id, p.copy)])
    case FinishSent(w, executed, now) =>
      var id := s.senders[w].id;
      s.(table := if executed then s.table[id := SentRow(s.table[id], now)] else s.table,
         senders := s.senders - {w})
    case FinishRetry(w, executed, err, now) =>
      var SendFailed(id, copy) := s.senders[w];
      s.(table := if executed then s.table[id := RetriedRow(cfg, s.table[id], copy.retryCount, err, now)] else s.table,
         senders := s.senders - {w})
    case Requeue(id, now) => s.(table := s.table[id := RequeuedRow(s.table[id], now)])
    case SenderCrash(w) => s.(senders := s.senders - {w})
  }

  function InsertTask(s: System, id: TaskId, o: OrderNo, next: int, now: int): System
    requires id !in s.table
  {
    s.(table := Insert(s.table, id, o, next, now))
  }

  /** `t'` is `t` with a new row for `o`, pending and due at `due`, unless there was a row for `o` already. */
  ghost predicate Adds(t: Table, t': Table, id: TaskId, o: OrderNo, due: int) {
    if HasOrder(t, o) then t' == t
    else id in t' && t' == t[id := t'[id]] && t'[id].order == o && t'[id].status == Pending && t'[id].retryCount == 0
         && t'[id].nextRetryAt == due
  }

  lemma InsertAdds(s: System, id: TaskId, o: OrderNo, next: int, now: int)
    requires id !in s.table
    ensures var s' := InsertTask(s, id, o, next, now);
            Adds(s.table, s'.table, id, o, next) && HasOrder(s'.table, o) && s'.accepted == s.accepted && s'.senders == s.senders
  {
    InsertedIsThere(s, id, o, next, now);
  }

  /** A message the broker accepts directly, without an outbox row. */
  function AcceptDirect(s: System, o: OrderNo): System {
    s.(accepted := s.accepted + {o})
  }

  const EMPTY := System(map[], {}, map[])

  /** At most one row per order; a sent row's message was accepted; senders know real rows. */
  ghost predicate Inv(s: System) {
    && (forall i, j :: i in s.table && j in s.table && s.table[i].order == s.table[j].order ==> i == j)
    && (forall i :: i in s.table && s.table[i].status == Sent ==> s.table[i].order in s.accepted)
    && (forall w :: w in s.senders ==> SenderOk(s, s.senders[w]))
  }

  ghost predicate SenderOk(s: System, p: Sender) {
    && p.id in s.table
    && (p.Acknowledged? ==> s.table[p.id].order in s.accepted)
    && (!p.Acknowledged? ==> p.copy.order == s.table[p.id].order)
  }

  /** Rows are never lost and keep their order; a sent row never changes again; what the broker has, it keeps. */
  ghost predicate Evolves(s: System, s': System) {
    && (forall i :: i in s.table ==>
          && i in s'.table
          && s'.table[i].order == s.table[i].order
          && (s.table[i].status == Sent ==> s'.table[i] == s.table[i]))
    && s.accepted <= s'.accepted
  }

  lemma EvolvesItself(s: System)
    ensures Evolves(s, s)
  {
  }

  /** Only rows move: they stay where they are, keep their orders, and become sent only when the broker has the message. */
  lemma StepMovesRows(cfg: Config, s: System, step: Step)
    requires Inv(s) && Enabled(s, step)
    ensures var s' := Apply(cfg, s, step);
            && s'.table.Keys == s.table.Keys && s.accepted <= s'.accepted
            && (forall i :: i in s.table ==> s'.table[i].order == s.table[i].order)
            && (forall i :: i in s.table && s.table[i].status == Sent ==> s'.table[i] == s.table[i])
            && (forall i :: i in s.table && s'.table[i].status == Sent ==> s'.table[i].order in s'.accepted)
  {
    hide Backoff;
    if step.FinishSent? {
      assert SenderOk(s, s.senders[step.sender]);
    }
  }

  lemma StepKeepsSenders(cfg: Config, s: System, step: Step)
    requires Inv(s) && Enabled(s, step)
    ensures var s' := Apply(cfg, s, step);
            forall w :: w in s'.senders ==> SenderOk(s', s'.senders[w])
  {
    hide Backoff;
    var s' := Apply(cfg, s, step);
    forall w | w in s'.senders
      ensures SenderOk(s', s'.senders[w])
    {
      if w in s.senders {
        assert SenderOk(s, s.senders[w]);
      }
    }
  }

  lemma StepAccepts(cfg: Config, s: System, step: Step)
    requires Inv(s) && Enabled(s, step)
    ensures forall o :: o in Apply(cfg, s, step).accepted ==> o in s.accepted || HasOrder(s.table, o)
  {
    hide Backoff;
    if step.Send? {
      assert SenderOk(s, s.senders[step.sender]);
    }
  }

  lemma StepKeepsInv(cfg: Config, s: System, step: Step)
    requires Inv(s) && Enabled(s, step)
    ensures Inv(Apply(cfg, s, step)) && Evolves(s, Apply(cfg, s, step))
    ensures Apply(cfg, s, step).table.Keys == s.table.Keys
    ensures forall o :: o in Apply(cfg, s, step).accepted ==> o in s.accepted || HasOrder(s.table, o)
  {
    hide Enabled, Apply, SenderOk, HasOrder;
    StepMovesRows(cfg, s, step);
    StepKeepsSenders(cfg, s, step);
    StepAccepts(cfg, s, step);
  }

  lemma InsertKeepsInv(s: System, id: TaskId, o: OrderNo, next: int, now: int)
    requires Inv(s) && id !in s.table
    ensures Inv(InsertTask(s, id, o, next, now)) && Evolves(s, InsertTask(s, id, o, next, now))
    ensures forall q :: HasOrder(InsertTask(s, id, o, next, now).table, q) <==> HasOrder(s.table, q) || q == o
  {
    var s' := InsertTask(s, id, o, next, now);
    forall w | w in s'.senders
      ensures SenderOk(s', s'.senders[w])
    {
      assert SenderOk(s, s.senders[w]);
    }
    forall q
      ensures HasOrder(s'.table, q) <==> HasOrder(s.table, q) || q == o
    {
      if HasOrder(s.table, q) {
        var i :| i in s.table && s.table[i].order == q;
        assert i in s'.table && s'.table[i].order == q;
      }
      if !HasOrder(s.table, o) {
        assert id in s'.table && s'.table[id].order == o;
      }
    }
  }

  lemma InsertedIsThere(s: System, id: TaskId, o: OrderNo, next: int, now: int)
    requires id !in s.table
    ensures HasOrder(InsertTask(s, id, o, next, now).table, o)
  {
    if !HasOrder(s.table, o) {
      var t := InsertTask(s, id, o, next, now).table;
      assert id in t && t[id].order == o;
    }
  }

  // ----- whole runs of one table -----

  ghost predicate ValidRun(cfg: Config, s: System, steps: seq<Step>)
    decreases |steps|
  {
    steps == [] || (Enabled(s, steps[0]) && ValidRun(cfg, Apply(cfg, s, steps[0]), steps[1..]))
  }

  ghost function Run(cfg: Config, s: System, steps: seq<Step>): System
    requires ValidRun(cfg, s, steps)
    decreases |steps|
  {
    if steps == [] then s else Run(cfg, Apply(cfg, s, steps[0]), steps[1..])
  }

  /** Through any interleaving of claims, sends, lost replies, retries, deaths, replays and
      crashes no row is lost, sent is absorbing, and sent means the broker has the message. */
  lemma {:induction false} RunAtLeastOnce(cfg: Config, s: System, steps: seq<Step>)
    requires Inv(s) && ValidRun(cfg, s, steps)
    ensures Inv(Run(cfg, s, steps)) && Evolves(s, Run(cfg, s, steps))
    decreases |steps|
  {
    if steps != [] {
      StepKeepsInv(cfg, s, steps[0]);
      RunAtLeastOnce(cfg, Apply(cfg, s, steps[0]), steps[1..]);
    }
  }

  ghost predicate WinsClaim(s: System, step: Step, id: TaskId) {
    step.Claim? && step.id == id && ClaimRow(s.table, id, step.now, step.lease).1
  }

  /** The step gives row `id` a new due time other than by claiming it. */
  ghost predicate Rewrites(s: System, step: Step, id: TaskId) {
    || (step.FinishRetry? && step.executed && step.sender in s.senders && s.senders[step.sender].id == id)
    || (step.Requeue? && step.id == id)
  }

  ghost predicate NeverRewritten(cfg: Config, s: System, steps: seq<Step>, id: TaskId)
    requires ValidRun(cfg, s, steps)
    decreases |steps|
  {
    steps == [] || (!Rewrites(s, steps[0], id) && NeverRewritten(cfg, Apply(cfg, s, steps[0]), steps[1..], id))
  }

  /** Every claim of `id` won during the run was made at or after `expiry`, by the claimer's own clock. */
  ghost predicate ClaimsOnlyFrom(cfg: Config, s: System, steps: seq<Step>, id: TaskId, expiry: int)
    requires ValidRun(cfg, s, steps)
    decreases |steps|
  {
    steps == [] ||
    (&& (WinsClaim(s, steps[0], id) ==> steps[0].now >= expiry)
     && ClaimsOnlyFrom(cfg, Apply(cfg, s, steps[0]), steps[1..], id, expiry))
  }

  lemma {:induction false} LeaseHolds(cfg: Config, s: System, steps: seq<Step>, id: TaskId, expiry: int)
    requires ValidRun(cfg, s, steps) && NeverRewritten(cfg, s, steps, id)
    requires id in s.table && (s.table[id].status == Pending ==> s.table[id].nextRetryAt >= expiry)
    ensures ClaimsOnlyFrom(cfg, s, steps, id, expiry)
    decreases |steps|
  {
    if steps != [] {
      LeaseHolds(cfg, Apply(cfg, s, steps[0]), steps[1..], id, expiry);
    }
  }

  /** Lease exclusivity: once a claim of `id` is won, nobody wins it again before that lease
      ends, unless MarkRetry or a replay has rewritten the row in between. */
  lemma LeaseExclusive(cfg: Config, s: System, claim: Step, rest: seq<Step>, id: TaskId)
    requires Enabled(s, claim) && WinsClaim(s, claim, id)
    requires ValidRun(cfg, Apply(cfg, s, claim), rest) && NeverRewritten(cfg, Apply(cfg, s, claim), rest, id)
    ensures ClaimsOnlyFrom(cfg, Apply(cfg, s, claim), rest, id, claim.now + claim.lease)
  {
    LeaseHolds(cfg, Apply(cfg, s, claim), rest, id, claim.now + claim.lease);
  }

  ghost function ClaimsWon(cfg: Config, s: System, steps: seq<Step>, id: TaskId): nat
    requires ValidRun(cfg, s, steps)
    decreases |steps|
  {
    if steps == [] then 0
    else
      (if WinsClaim(s, steps[0], id) then 1 else 0) + ClaimsWon(cfg, Apply(cfg, s, steps[0]), steps[1..], id)
  }

  lemma {:induction false} NoClaimBefore(cfg: Config, s: System, steps: seq<Step>, id: TaskId, expiry: int)
    requires ValidRun(cfg, s, steps) && ClaimsOnlyFrom(cfg, s, steps, id, expiry)
    requires forall k :: 0 <= k < |steps| && steps[k].Claim? ==> steps[k].now < expiry
    ensures ClaimsWon(cfg, s, steps, id) == 0
    decreases |steps|
  {
    if steps != [] {
      NoClaimBefore(cfg, Apply(cfg, s, steps[0]), steps[1..], id, expiry);
    }
  }

  /** Any number of dispatchers, interleaving their claim loops row by row, claim disjoint sets
      of rows: within one lease no row that is not rewritten is won twice. */
  lemma {:induction false} ClaimLoopsDisjoint(cfg: Config, s: System, steps: seq<Step>, id: TaskId, from: int, lease: int)
    requires ValidRun(cfg, s, steps) && NeverRewritten(cfg, s, steps, id)
    requires forall k :: 0 <= k < |steps| && steps[k].Claim? ==> from <= steps[k].now < from + lease <= steps[k].now + steps[k].lease
    ensures ClaimsWon(cfg, s, steps, id) <= 1
    decreases |steps|
  {
    if steps != [] {
      var s' := Apply(cfg, s, steps[0]);
      if WinsClaim(s, steps[0], id) {
        LeaseHolds(cfg, s', steps[1..], id, from + lease);
        NoClaimBefore(cfg, s', steps[1..], id, from + lease);
      } else {
        ClaimLoopsDisjoint(cfg, s', steps[1..], id, from, lease);
      }
    }
  }

  // ----- dying and replaying -----

  /** A row after sends that failed at these times, each reported by the holder of a fresh claim. */
  ghost function AfterFailures(cfg: Config, task: Task, times: seq<int>): Task
    decreases |times|
  {
    if times == [] then task
    else
      var before := AfterFailures(cfg, task, times[..|times| - 1]);
      RetriedRow(cfg, before, before.retryCount, "send failed", times[|times| - 1])
  }

  /** A new row survives exactly `maxRetry - 1` failures, and its count stops at the limit. */
  lemma {:induction false} DiesAtTheLimit(cfg: Config, o: OrderNo, next: int, now: int, times: seq<int>)
    requires cfg.maxRetry > 0
    ensures var row := AfterFailures(cfg, NewTask(o, next, now), times);
            && (row.status == Dead <==> |times| >= cfg.maxRetry)
            && (row.status != Dead ==> row.status == Pending)
            && row.retryCount == if |times| < cfg.maxRetry then |times| else cfg.maxRetry
    decreases |times|
  {
    if times != [] {
      DiesAtTheLimit(cfg, o, next, now, times[..|times| - 1]);
    }
  }

  ghost predicate DeadAreExhausted(cfg: Config, t: Table) {
    forall id :: id in t && t[id].status == Dead ==> t[id].retryCount >= cfg.maxRetry
  }

  lemma {:induction false} RunKeepsDeadExhausted(cfg: Config, s: System, steps: seq<Step>)
    requires DeadAreExhausted(cfg, s.table) && ValidRun(cfg, s, steps)
    ensures DeadAreExhausted(cfg, Run(cfg, s, steps).table)
    decreases |steps|
  {
    if steps != [] {
      RunKeepsDeadExhausted(cfg, Apply(cfg, s, steps[0]), steps[1..]);
    }
  }

  /** Replaying does not reset the count: after any run, whatever dead row is replayed, claimed by anyone at
      any time and fails again is dead at once. */
  lemma ReplayBuysOneAttempt(cfg: Config, steps: seq<Step>, s: System, id: TaskId, now: int, claim: int, lease: int,
                             err: string, failed: int)
    requires DeadAreExhausted(cfg, s.table) && ValidRun(cfg, s, steps)
    requires id in Run(cfg, s, steps).table && Run(cfg, s, steps).table[id].status == Dead
    ensures var replayed := RequeuedRow(Run(cfg, s, steps).table[id], now);
            && replayed.status == Pending
            && RetriedRow(cfg, Claimed(replayed, claim, lease), replayed.retryCount, err, failed).status == Dead
  {
    RunKeepsDeadExhausted(cfg, s, steps);
  }
}
