/**
 The outbox repositories and the background jobs that work on them: claim, drain,
 compensate, replay.

 Both repositories are one class here; they differ only in the constants of `Config`.
 */
module Dispatch {
  import opened Common
  import opened Outbox

  /** What `SELECT ... ORDER BY key LIMIT n` returns: the `limit` smallest rows, in order. */
  ghost predicate FirstByKey(keys: map<TaskId, int>, limit: nat, ids: seq<TaskId>) {
    && (forall k :: 0 <= k < |ids| ==> ids[k] in keys)
    && (forall j, k :: 0 <= j < k < |ids| ==> ids[j] != ids[k] && keys[ids[j]] <= keys[ids[k]])
    && |ids| == (if |keys| < limit then |keys| else limit)
    && (forall k, id :: 0 <= k < |ids| && id in keys && id !in ids ==> keys[ids[k]] <= keys[id])
  }

  lemma {:induction false} SmallestExists(keys: map<TaskId, int>, rest: set<TaskId>)
    requires rest <= keys.Keys && rest != {}
    ensures exists id :: id in rest && forall j :: j in rest ==> keys[id] <= keys[j]
    decreases |rest|
  {
    if forall x :: x !in rest {
      assert false;
    }
    var x :| x in rest;
    var others := rest - {x};
    if others != {} {
      SmallestExists(keys, others);
      var m :| m in others && forall j :: j in others ==> keys[m] <= keys[j];
      var best := if keys[x] <= keys[m] then x else m;
      assert forall j :: j in rest ==> j == x || j in others;
      assert best in rest && forall j :: j in rest ==> keys[best] <= keys[j];
    } else {
      assert forall j :: j in rest ==> j == x || j in others;
    }
  }

  lemma {:induction false} DistinctSize(ids: seq<TaskId>, s: set<TaskId>)
    requires forall j, k :: 0 <= j < k < |ids| ==> ids[j] != ids[k]
    requires s == set k | 0 <= k < |ids| :: ids[k]
    ensures |s| == |ids|
  {
    if ids != [] {
      var n := |ids| - 1;
      var init := set k | 0 <= k < n :: ids[..n][k];
      DistinctSize(ids[..n], init);
      assert s == init + {ids[n]};
    } else {
      assert s == {};
    }
  }

  method SelectFirst(keys: map<TaskId, int>, limit: nat) returns (ids: seq<TaskId>)
    ensures FirstByKey(keys, limit, ids)
  {
    ids := [];
    var rest := keys.Keys;
    while rest != {} && |ids| < limit
      invariant rest <= keys.Keys
      invariant forall id :: id in keys <==> id in rest || id in ids
      invariant forall k :: 0 <= k < |ids| ==> ids[k] in keys && ids[k] !in rest
      invariant forall j, k :: 0 <= j < k < |ids| ==> ids[j] != ids[k] && keys[ids[j]] <= keys[ids[k]]
      invariant forall k, id :: 0 <= k < |ids| && id in rest ==> keys[ids[k]] <= keys[id]
      invariant |ids| + |rest| == |keys.Keys| && |ids| <= limit
      decreases rest
    {
      SmallestExists(keys, rest);
      var id :| id in rest && forall j :: j in rest ==> keys[id] <= keys[j];
      ids := ids + [id];
      rest := rest - {id};
    }
    assert |keys| == |keys.Keys|;
  }

  function Elements(ids: seq<TaskId>): set<TaskId> {
    set id | id in ids
  }

  ghost function DueKeys(t: Table, now: int): map<TaskId, int> {
    map id | id in Due(t, now) :: t[id].nextRetryAt
  }

  ghost function DeadKeys(t: Table, cutoff: int): map<TaskId, int> {
    map id | id in t && t[id].status == Dead && t[id].updatedAt <= cutoff :: t[id].updatedAt
  }

  /** Each row of `ids` leased at the time its own update read the clock. */
  ghost function LeaseAll(t: Table, ids: set<TaskId>, clock: TaskId -> int, lease: int): Table {
    map id | id in t :: if id in ids then Claimed(t[id], clock(id), lease) else t[id]
  }

  lemma LeaseNone(t: Table, clock: TaskId -> int, lease: int)
    ensures LeaseAll(t, Elements([]), clock, lease) == t
  {
  }

  lemma CandidatesAreDue(t: Table, now: int, limit: nat, ids: seq<TaskId>)
    requires FirstByKey(DueKeys(t, now), limit, ids)
    ensures forall i :: 0 <= i < |ids| ==> ids[i] in t && IsDue(t[ids[i]], now) && ids[i] !in ids[..i]
  {
    forall i | 0 <= i < |ids|
      ensures ids[i] in t && IsDue(t[ids[i]], now) && ids[i] !in ids[..i]
    {
      assert ids[i] in DueKeys(t, now).Keys;
      assert ids[i] in Due(t, now);
    }
  }

  lemma LeasedRows(t: Table, ids: set<TaskId>, clock: TaskId -> int, now: int, lease: int)
    requires forall id :: clock(id) == now
    ensures LeaseAll(t, ids, clock, lease).Keys == t.Keys
    ensures forall id :: id in t ==> LeaseAll(t, ids, clock, lease)[id] == if id in ids then Claimed(t[id], now, lease) else t[id]
  {
  }

  /** A claim in figures: pending rows whose time has come, the earliest first, and a row whose time has come is left
      out only when `limit` others that are no later have been taken. */
  lemma ClaimInFigures(t: Table, now: int, limit: nat, ids: seq<TaskId>)
    requires FirstByKey(DueKeys(t, now), limit, ids)
    ensures |ids| <= limit
    ensures forall i :: 0 <= i < |ids| ==> ids[i] in t && t[ids[i]].status == Pending && t[ids[i]].nextRetryAt <= now
    ensures forall i, j :: 0 <= i < j < |ids| ==> ids[i] != ids[j] && t[ids[i]].nextRetryAt <= t[ids[j]].nextRetryAt
    ensures forall id :: id in t && t[id].status == Pending && t[id].nextRetryAt <= now && id !in ids ==>
              |ids| == limit && forall i :: 0 <= i < |ids| ==> t[ids[i]].nextRetryAt <= t[id].nextRetryAt
  {
    var keys := DueKeys(t, now);
    CandidatesAreDue(t, now, limit, ids);
    forall i | 0 <= i < |ids|
      ensures ids[i] in keys && keys[ids[i]] == t[ids[i]].nextRetryAt
    {
    }
    LeftOut(keys, limit, ids);
    forall id | id in t && t[id].status == Pending && t[id].nextRetryAt <= now && id !in ids
      ensures id in keys
    {
      assert id in Due(t, now);
    }
  }

  /** A replay's selection in figures: rows that are dead and have not been touched for `age`, the longest first. */
  lemma DeadInFigures(t: Table, now: int, age: int, limit: nat, ids: seq<TaskId>)
    requires FirstByKey(DeadKeys(t, now - age), limit, ids)
    ensures |ids| <= limit
    ensures forall i :: 0 <= i < |ids| ==> ids[i] in t && t[ids[i]].status == Dead && now - t[ids[i]].updatedAt >= age
    ensures forall i, j :: 0 <= i < j < |ids| ==> ids[i] != ids[j] && t[ids[i]].updatedAt <= t[ids[j]].updatedAt
    ensures forall id :: id in t && t[id].status == Dead && now - t[id].updatedAt >= age && id !in ids ==>
              |ids| == limit && forall i :: 0 <= i < |ids| ==> t[ids[i]].updatedAt <= t[id].updatedAt
  {
    var keys := DeadKeys(t, now - age);
    LeftOut(keys, limit, ids);
    forall i | 0 <= i < |ids|
      ensures ids[i] in keys && keys[ids[i]] == t[ids[i]].updatedAt
    {
    }
    forall id | id in t && t[id].status == Dead && now - t[id].updatedAt >= age && id !in ids
      ensures id in keys
    {
    }
  }

  /** A key that is left out means that the limit has been reached. */
  lemma LeftOut(keys: map<TaskId, int>, limit: nat, ids: seq<TaskId>)
    requires FirstByKey(keys, limit, ids)
    ensures forall id :: id in keys && id !in ids ==> |ids| == limit
  {
    var s := set k | 0 <= k < |ids| :: ids[k];
    DistinctSize(ids, s);
    assert |keys| == |keys.Keys|;
    if id :| id in keys && id !in ids && |ids| < limit {
      SubsetOfSameSize(s, keys.Keys);
      assert false;
    }
  }

  lemma StillDue(task: Task, now: int, later: int)
    requires IsDue(task, now) && now <= later
    ensures IsDue(task, later)
  {
  }

  /** The claimed rows after their leases have been written. */
  lemma ClaimedRows(t: Table, now: int, limit: nat, ids: seq<TaskId>, clock: TaskId -> int, lease: int)
    requires FirstByKey(DueKeys(t, now), limit, ids)
    ensures var leased := LeaseAll(t, Elements(ids), clock, lease);
            forall id :: id in ids ==> && id in t && t[id].status == Pending && t[id].nextRetryAt <= now
                                       && id in leased && leased[id].nextRetryAt == clock(id) + lease
    ensures forall id :: id in t && t[id].status == Pending && t[id].nextRetryAt <= now && id !in ids ==> |ids| == limit
  {
    hide FirstByKey, DueKeys;
    ClaimInFigures(t, now, limit, ids);
  }

  lemma LeaseOneMore(t: Table, ids: seq<TaskId>, id: TaskId, clock: TaskId -> int, lease: int)
    requires id in t && id !in ids
    ensures id in LeaseAll(t, Elements(ids), clock, lease) && LeaseAll(t, Elements(ids), clock, lease)[id] == t[id]
    ensures LeaseAll(t, Elements(ids + [id]), clock, lease)
            == LeaseAll(t, Elements(ids), clock, lease)[id := Claimed(t[id], clock(id), lease)]
  {
    assert Elements(ids + [id]) == Elements(ids) + {id};
  }

  class TaskRepo {
    var table: Table
    const cfg: Config

    constructor (cfg: Config)
      ensures this.cfg == cfg && table == map[]
    {
      this.cfg := cfg;
      table := map[];
    }

    /** Reports success also when the row was there already. */
    method CreateIfNotExists(id: TaskId, o: OrderNo, next: int, now: int)
      requires id !in table
      modifies this
      ensures table == Insert(old(table), id, o, next, now)
    {
      if !HasOrder(table, o) {
        table := table[id := NewTask(o, next, now)];
      }
    }

    /** The first query of a claim. */
    method FindDue(limit: nat, now: int) returns (ids: seq<TaskId>)
      ensures FirstByKey(DueKeys(table, now), limit, ids)
    {
      var keys := map id | id in table && IsDue(table[id], now) :: table[id].nextRetryAt;
      assert keys.Keys == Due(table, now);
      assert keys == DueKeys(table, now);
      ids := SelectFirst(keys, limit);
    }

    /** Selects the due rows first and then re-checks each one in the update that leases it.
        The query reads the clock at `now`, the update of row `id` at `clock(id)`, not earlier. The
        claimer keeps the rows as it read them before the lease. */
    method ClaimPendingTasks(limit0: int, lease0: int, now: int, clock: TaskId -> int) returns (claimed: seq<TaskId>, copies: Table)
      requires cfg.Valid() && forall id :: clock(id) >= now
      modifies this
      ensures FirstByKey(DueKeys(old(table), now), if limit0 <= 0 then 100 else limit0, claimed)
      ensures copies == old(table)
      // pending rows whose time has come, each of them now due when its lease ends
      ensures forall id :: id in claimed ==>
                && id in copies && copies[id].status == Pending && copies[id].nextRetryAt <= now
                && id in table && table[id].nextRetryAt == clock(id) + if lease0 <= 0 then cfg.lease else lease0
      ensures forall id :: id in copies && copies[id].status == Pending && copies[id].nextRetryAt <= now && id !in claimed ==>
                |claimed| == if limit0 <= 0 then 100 else limit0
      ensures table == LeaseAll(old(table), Elements(claimed), clock, if lease0 <= 0 then cfg.lease else lease0)
    {
      hide LeaseAll, Elements, FirstByKey, DueKeys;
      var limit := if limit0 <= 0 then 100 else limit0;
      var lease := if lease0 <= 0 then cfg.lease else lease0;
      copies := table;
      var candidates := FindDue(limit, now);
      CandidatesAreDue(copies, now, limit, candidates);
      claimed := LeaseRows(candidates, lease, now, clock);
      ClaimedRows(copies, now, limit, claimed, clock, lease);
    }

    /** The updates of a claim, one row at a time, each repeating the test of the query. */
    method LeaseRows(candidates: seq<TaskId>, lease: int, now: int, clock: TaskId -> int) returns (claimed: seq<TaskId>)
      requires forall id :: clock(id) >= now
      requires forall i :: 0 <= i < |candidates| ==>
                 candidates[i] in table && IsDue(table[candidates[i]], now) && candidates[i] !in candidates[..i]
      modifies this
      ensures claimed == candidates && table == LeaseAll(old(table), Elements(candidates), clock, lease)
    {
      hide LeaseAll, Elements, Claimed, IsDue;
      ghost var copies := table;
      claimed := [];
      LeaseNone(copies, clock, lease);
      for i := 0 to |candidates|
        invariant claimed == candidates[..i]
        invariant table == LeaseAll(copies, Elements(claimed), clock, lease)
      {
        var id := candidates[i];
        LeaseOneMore(copies, candidates[..i], id, clock, lease);
        StillDue(table[id], now, clock(id));
        if id in table && IsDue(table[id], clock(id)) {
          table := table[id := Claimed(table[id], clock(id), lease)];
          claimed := claimed + [id];
          assert candidates[..i + 1] == candidates[..i] + [id];
        }
      }
      assert candidates[..|candidates|] == candidates;
    }

    method MarkSent(id: TaskId, now: int)
      requires id in table
      modifies this
      ensures table == old(table)[id := SentRow(old(table)[id], now)]
    {
      if table[id].status == Pending {
        table := table[id := table[id].(status := Sent, sentAt := Some(now), updatedAt := now)];
      }
    }

    method MarkRetry(id: TaskId, read: nat, err: string, now: int)
      requires id in table && 0 < cfg.firstDelay < cfg.maxDelay
      modifies this
      ensures table == old(table)[id := RetriedRow(cfg, old(table)[id], read, err, now)]
    {
      var retryCount := read + 1;
      var status := Pending;
      if retryCount >= cfg.maxRetry {
        status := Dead;
      }
      var nextDelay := NextDelay(cfg.firstDelay, cfg.maxDelay, retryCount);
      if table[id].status == Pending {
        table := table[id := table[id].(retryCount := retryCount, lastError := err, status := status,
                                        nextRetryAt := now + nextDelay, updatedAt := now)];
      }
    }

    method FetchDeadTasks(limit0: int, olderThan0: int, now: int) returns (ids: seq<TaskId>)
      ensures FirstByKey(DeadKeys(table, now - if olderThan0 <= 0 then cfg.defaultOlderThan else olderThan0),
                         if limit0 <= 0 then 50 else limit0, ids)
      ensures var age := if olderThan0 <= 0 then cfg.defaultOlderThan else olderThan0;
              && (forall i :: 0 <= i < |ids| ==>
                    ids[i] in table && table[ids[i]].status == Dead && now - table[ids[i]].updatedAt >= age)
              && (forall id :: id in table && table[id].status == Dead && now - table[id].updatedAt >= age && id !in ids ==>
                    |ids| == if limit0 <= 0 then 50 else limit0)
    {
      var limit := if limit0 <= 0 then 50 else limit0;
      var cutoff := now - if olderThan0 <= 0 then cfg.defaultOlderThan else olderThan0;
      var keys := map id | id in table && table[id].status == Dead && table[id].updatedAt <= cutoff :: table[id].updatedAt;
      assert keys == DeadKeys(table, cutoff);
      ids := SelectFirst(keys, limit);
      DeadInFigures(table, now, now - cutoff, limit, ids);
    }

    method RequeueDeadTask(id: TaskId, now: int)
      requires id in table
      modifies this
      ensures table == old(table)[id := RequeuedRow(old(table)[id], now)]
    {
      if table[id].status == Dead {
        table := table[id := RequeuedRow(table[id], now)];
      }
    }
  }

  /** Which sends the broker acknowledges, and which status writes of the outcome succeed. */
  datatype Network = Network(sends: TaskId -> bool, marks: TaskId -> bool)

  /** The row a due task ends as after one attempt. */
  ghost function Attempted(cfg: Config, task: Task, id: TaskId, net: Network, now: int, lease: int): Task {
    var leased := Claimed(task, now, lease);
    if !net.marks(id) then leased
    else if net.sends(id) then SentRow(leased, now)
    else RetriedRow(cfg, leased, task.retryCount, "send failed", now)
  }

  /** An attempt of a pending row in figures. A status write that fails leaves the row leased, whatever became of the
      message; otherwise it is sent, or its next attempt is due after the backoff, or it is dead. */
  lemma AttemptInFigures(cfg: Config, task: Task, id: TaskId, net: Network, now: int, lease: int)
    requires task.status == Pending
    ensures var row := Attempted(cfg, task, id, net, now, lease);
            && row.order == task.order
            && (!net.marks(id) ==> row.status == Pending && row.nextRetryAt == now + lease && row.retryCount == task.retryCount)
            && (net.marks(id) && net.sends(id) ==> row.status == Sent && row.sentAt == Some(now))
            && (net.marks(id) && !net.sends(id) ==>
                  && row.status == (if task.retryCount + 1 >= cfg.maxRetry then Dead else Pending)
                  && row.retryCount == task.retryCount + 1
                  && row.nextRetryAt == now + Backoff(cfg.firstDelay, cfg.maxDelay, task.retryCount + 1))
  {
  }

  /** An attempt of a due task leaves it sent, dead, or not due: nothing is attempted twice. */
  lemma AttemptedIsNotDue(cfg: Config, task: Task, id: TaskId, net: Network, now: int, lease: int)
    requires 0 < cfg.firstDelay <= cfg.maxDelay && lease > 0
    ensures !IsDue(Attempted(cfg, task, id, net, now, lease), now)
  {
    BackoffMonotone(cfg.firstDelay, cfg.maxDelay, task.retryCount + 1, task.retryCount + 1);
  }

  ghost predicate Distinct(ids: seq<TaskId>) {
    forall j, k :: 0 <= j < k < |ids| ==> ids[j] != ids[k]
  }

  /** The table after every task of `done`, and no other, has been attempted. */
  ghost function TableAfter(cfg: Config, t: Table, done: set<TaskId>, net: Network, now: int, lease: int): Table {
    map id | id in t :: if id in done then Attempted(cfg, t[id], id, net, now, lease) else t[id]
  }

  lemma DueAfter(cfg: Config, t: Table, done: set<TaskId>, net: Network, now: int, lease: int)
    requires 0 < cfg.firstDelay <= cfg.maxDelay && lease > 0
    ensures Due(TableAfter(cfg, t, done, net, now, lease), now) == Due(t, now) - done
  {
    forall id | id in t
      ensures IsDue(TableAfter(cfg, t, done, net, now, lease)[id], now) <==> IsDue(t[id], now) && id !in done
    {
      AttemptedIsNotDue(cfg, t[id], id, net, now, lease);
    }
  }

  /** Sends one claimed task and writes the outcome. */
  method DispatchTask(repo: TaskRepo, id: TaskId, copy: Task, net: Network, now: int)
    requires id in repo.table && 0 < repo.cfg.firstDelay < repo.cfg.maxDelay
    modifies repo
    ensures repo.table == old(repo.table)[id :=
              if !net.marks(id) then old(repo.table)[id]
              else if net.sends(id) then SentRow(old(repo.table)[id], now)
              else RetriedRow(repo.cfg, old(repo.table)[id], copy.retryCount, "send failed", now)]
  {
    if !net.sends(id) {
      if net.marks(id) {
        repo.MarkRetry(id, copy.retryCount, "send failed", now);
      }
      return;
    }
    if net.marks(id) {
      repo.MarkSent(id, now);
    }
  }

  /** The claimed table after the tasks of `done` have been attempted. */
  ghost function HalfDispatched(cfg: Config, copies: Table, leased: Table, done: set<TaskId>, net: Network, now: int, lease: int): Table
    requires leased.Keys == copies.Keys
  {
    map id | id in leased :: if id in done then Attempted(cfg, copies[id], id, net, now, lease) else leased[id]
  }

  lemma AllDispatched(cfg: Config, copies: Table, leased: Table, all: set<TaskId>, net: Network, now: int, lease: int)
    requires leased.Keys == copies.Keys && forall id :: id in copies && id !in all ==> leased[id] == copies[id]
    ensures HalfDispatched(cfg, copies, leased, all, net, now, lease) == TableAfter(cfg, copies, all, net, now, lease)
  {
    var half, after := HalfDispatched(cfg, copies, leased, all, net, now, lease), TableAfter(cfg, copies, all, net, now, lease);
    assert half.Keys == after.Keys;
    forall id | id in copies
      ensures half[id] == after[id]
    {
      assert id in leased;
    }
  }

  lemma NoneDispatched(cfg: Config, copies: Table, leased: Table, net: Network, now: int, lease: int)
    requires leased.Keys == copies.Keys
    ensures HalfDispatched(cfg, copies, leased, {}, net, now, lease) == leased
  {
  }

  lemma DispatchedOneMore(cfg: Config, copies: Table, leased: Table, done: set<TaskId>, id: TaskId, net: Network, now: int, lease: int)
    requires leased.Keys == copies.Keys && id in copies && id !in done && leased[id] == Claimed(copies[id], now, lease)
    ensures var half := HalfDispatched(cfg, copies, leased, done, net, now, lease);
            && id in half && half[id] == leased[id]
            && HalfDispatched(cfg, copies, leased, done + {id}, net, now, lease) == half[id :=
                 if !net.marks(id) then leased[id]
                 else if net.sends(id) then SentRow(leased[id], now)
                 else RetriedRow(cfg, leased[id], copies[id].retryCount, "send failed", now)]
  {
    hide Claimed, SentRow, RetriedRow;
  }

  /** Claims one batch and dispatches it. The workers run at the same time, but on distinct rows. */
  method DispatchBatch(repo: TaskRepo, batch: int, lease: int, net: Network, now: int) returns (ids: seq<TaskId>)
    requires repo.cfg.Valid() && repo.cfg.firstDelay < repo.cfg.maxDelay && batch > 0 && lease > 0
    modifies repo
    ensures FirstByKey(DueKeys(old(repo.table), now), batch, ids)
    ensures repo.table == TableAfter(repo.cfg, old(repo.table), Elements(ids), net, now, lease)
  {
    hide FirstByKey, DueKeys, RetriedRow, SentRow, LeaseAll, Claimed, TableAfter, Attempted, HalfDispatched;
    var copies: Table;
    ids, copies := repo.ClaimPendingTasks(batch, lease, now, _ => now);
    CandidatesAreDue(copies, now, batch, ids);
    ghost var all := Elements(ids);
    ghost var leased := repo.table;
    LeasedRows(copies, all, _ => now, now, lease);
    NoneDispatched(repo.cfg, copies, leased, net, now, lease);
    assert Elements(ids[..0]) == {};
    for i := 0 to |ids|
      invariant repo.table == HalfDispatched(repo.cfg, copies, leased, Elements(ids[..i]), net, now, lease)
    {
      var id := ids[i];
      assert id in all && id !in Elements(ids[..i]);
      assert Elements(ids[..i + 1]) == Elements(ids[..i]) + {id};
      DispatchedOneMore(repo.cfg, copies, leased, Elements(ids[..i]), id, net, now, lease);
      DispatchTask(repo, id, copies[id], net, now);
    }
    assert ids[..|ids|] == ids;
    AllDispatched(repo.cfg, copies, leased, all, net, now, lease);
  }

  /** The drain loop. With the clock standing still and nobody else inserting or claiming it
      ends, attempts every task that was due exactly once and no other, and leaves none due,
      whichever sends and status writes fail. */
  method DispatchOnce(repo: TaskRepo, batch: int, lease: int, net: Network, now: int) returns (attempts: seq<TaskId>)
    requires repo.cfg.Valid() && repo.cfg.firstDelay < repo.cfg.maxDelay && batch > 0 && lease > 0
    modifies repo
    ensures Distinct(attempts)
    ensures Elements(attempts) == Due(old(repo.table), now)
    ensures repo.table == TableAfter(repo.cfg, old(repo.table), Elements(attempts), net, now, lease)
    ensures Due(repo.table, now) == {}
  {
    hide TableAfter, FirstByKey, DueKeys, Due, Distinct, Elements;
    ghost var t0 := repo.table;
    attempts := [];
    NothingAttempted(repo.cfg, t0, net, now, lease);
    while true
      invariant Distinct(attempts) && Elements(attempts) <= Due(t0, now)
      invariant repo.table == TableAfter(repo.cfg, t0, Elements(attempts), net, now, lease)
      decreases Due(repo.table, now)
    {
      ghost var before := repo.table;
      DueAfter(repo.cfg, t0, Elements(attempts), net, now, lease);
      var ids := DispatchBatch(repo, batch, lease, net, now);
      BatchOfDue(before, now, batch, ids);
      DueAfter(repo.cfg, before, Elements(ids), net, now, lease);
      NextBatch(repo.cfg, t0, attempts, ids, net, now, lease);
      attempts := attempts + ids;
      if |ids| < batch {
        // also when the batch is empty
        return;
      }
    }
  }

  lemma NothingAttempted(cfg: Config, t: Table, net: Network, now: int, lease: int)
    ensures Distinct([]) && Elements([]) == {} && TableAfter(cfg, t, {}, net, now, lease) == t
  {
  }

  /** A claimed batch holds distinct due tasks, and all of them when it is not full. */
  lemma BatchOfDue(t: Table, now: int, batch: nat, ids: seq<TaskId>)
    requires FirstByKey(DueKeys(t, now), batch, ids)
    ensures Distinct(ids) && Elements(ids) <= Due(t, now)
    ensures |ids| < batch ==> Elements(ids) == Due(t, now)
    ensures ids != [] ==> Elements(ids) != {}
  {
    assert DueKeys(t, now).Keys == Due(t, now);
    assert |DueKeys(t, now)| == |DueKeys(t, now).Keys|;
    if ids != [] {
      assert ids[0] in Elements(ids);
    }
    if |ids| < batch {
      AllTaken(ids, Due(t, now));
    }
  }

  lemma NextBatch(cfg: Config, t0: Table, done: seq<TaskId>, ids: seq<TaskId>, net: Network, now: int, lease: int)
    requires Distinct(done) && Distinct(ids) && Elements(done) <= Due(t0, now)
    requires Elements(ids) <= Due(t0, now) - Elements(done)
    ensures Distinct(done + ids) && Elements(done + ids) == Elements(done) + Elements(ids)
    ensures TableAfter(cfg, TableAfter(cfg, t0, Elements(done), net, now, lease), Elements(ids), net, now, lease)
            == TableAfter(cfg, t0, Elements(done + ids), net, now, lease)
  {
    var both := done + ids;
    forall j, k | 0 <= j < k < |both|
      ensures both[j] != both[k]
    {
      if j < |done| <= k {
        assert both[j] in Elements(done) && both[k] in Elements(ids);
      }
    }
  }

  lemma AllTaken(ids: seq<TaskId>, due: set<TaskId>)
    requires Distinct(ids) && Elements(ids) <= due && |ids| == |due|
    ensures Elements(ids) == due
  {
    var s := set k | 0 <= k < |ids| :: ids[k];
    DistinctSize(ids, s);
    assert s == Elements(ids);
    SubsetOfSameSize(s, due);
  }

  lemma {:induction false} SubsetOfSameSize(s: set<TaskId>, t: set<TaskId>)
    requires s <= t && |s| == |t|
    ensures s == t
  {
    assert |t - s| == |t| - |s|;
  }

  /** The compensator takes one batch per tick and does not loop: the earliest due tasks, in
      order, each attempted once; the rest stays untouched. */
  method ScanAndRetry(repo: TaskRepo, net: Network, now: int) returns (attempts: seq<TaskId>)
    requires repo.cfg.Valid() && repo.cfg.firstDelay < repo.cfg.maxDelay
    modifies repo
    ensures FirstByKey(DueKeys(old(repo.table), now), repo.cfg.batch, attempts)
    ensures repo.table == TableAfter(repo.cfg, old(repo.table), Elements(attempts), net, now, repo.cfg.lease)
  {
    attempts := DispatchBatch(repo, repo.cfg.batch, repo.cfg.lease, net, now);
  }

  ghost function TableReplayed(t: Table, ids: set<TaskId>, now: int): Table {
    map id | id in t :: if id in ids then RequeuedRow(t[id], now) else t[id]
  }

  ghost function Chosen(ids: seq<TaskId>, p: TaskId -> bool): set<TaskId> {
    set id | id in ids && p(id)
  }

  lemma FetchedAreRows(t: Table, cutoff: int, limit: nat, ids: seq<TaskId>)
    requires FirstByKey(DeadKeys(t, cutoff), limit, ids)
    ensures forall i :: 0 <= i < |ids| ==> ids[i] in t && ids[i] !in ids[..i]
  {
  }

  lemma NoneReplayed(t: Table, now: int, p: TaskId -> bool)
    ensures Chosen([], p) == {} && TableReplayed(t, Chosen([], p), now) == t
  {
  }

  lemma ChosenIsAmong(ids: seq<TaskId>, id: TaskId, p: TaskId -> bool)
    requires id !in ids
    ensures id !in Chosen(ids, p)
  {
  }

  lemma ChosenOneMore(ids: seq<TaskId>, id: TaskId, p: TaskId -> bool)
    ensures Chosen(ids + [id], p) == if p(id) then Chosen(ids, p) + {id} else Chosen(ids, p)
  {
  }

  /** One replay pass: of the longest dead rows those whose update succeeds become pending and
      due at once, no other row changes, and the count is their number. */
  method ReplayOnce(repo: TaskRepo, succeeds: TaskId -> bool, now: int) returns (requeued: nat, fetched: seq<TaskId>)
    requires repo.cfg.Valid() && repo.cfg.replayOlderThan > 0
    modifies repo
    ensures FirstByKey(DeadKeys(old(repo.table), now - repo.cfg.replayOlderThan), repo.cfg.replayBatch, fetched)
    ensures requeued == |Chosen(fetched, succeeds)|
    ensures repo.table == TableReplayed(old(repo.table), Chosen(fetched, succeeds), now)
  {
    hide TableReplayed, Chosen, FirstByKey, DeadKeys, RequeuedRow;
    ghost var t0 := repo.table;
    fetched := repo.FetchDeadTasks(repo.cfg.replayBatch, repo.cfg.replayOlderThan, now);
    requeued := 0;
    FetchedAreRows(t0, now - repo.cfg.replayOlderThan, repo.cfg.replayBatch, fetched);
    NoneReplayed(t0, now, succeeds);
    assert fetched[..0] == [];
    for i := 0 to |fetched|
      invariant requeued == |Chosen(fetched[..i], succeeds)|
      invariant repo.table == TableReplayed(t0, Chosen(fetched[..i], succeeds), now)
    {
      var id := fetched[i];
      ChosenOneMore(fetched[..i], id, succeeds);
      assert fetched[..i + 1] == fetched[..i] + [id];
      ChosenIsAmong(fetched[..i], id, succeeds);
      ReplayOneMore(t0, Chosen(fetched[..i], succeeds), id, now);
      if succeeds(id) {
        repo.RequeueDeadTask(id, now);
        requeued := requeued + 1;
      }
    }
    assert fetched[..|fetched|] == fetched;
  }

  lemma ReplayOneMore(t: Table, ids: set<TaskId>, id: TaskId, now: int)
    requires id in t && id !in ids
    ensures TableReplayed(t, ids + {id}, now) == TableReplayed(t, ids, now)[id := RequeuedRow(t[id], now)]
    ensures id in TableReplayed(t, ids, now) && TableReplayed(t, ids, now)[id] == t[id]
  {
  }

  /** Replayed dead rows are due again at once, so the next claim can pick them up. */
  lemma ReplayedAreDue(t: Table, ids: set<TaskId>, now: int)
    requires forall id :: id in ids ==> id in t && t[id].status == Dead
    ensures Due(TableReplayed(t, ids, now), now) == Due(t, now) + ids
  {
    var t' := TableReplayed(t, ids, now);
    forall id | id in t
      ensures IsDue(t'[id], now) <==> IsDue(t[id], now) || id in ids
    {
    }
    forall id
      ensures id in Due(t', now) <==> id in Due(t, now) + ids
    {
      if id in ids {
        assert id in t';
      }
    }
  }
}
