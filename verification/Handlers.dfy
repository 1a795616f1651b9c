/**
 The request handler, the poll, the payment and the two message handlers in the program's own form:
 straight-line code that calls the stores and reacts to errors. Run without interference, each handler
 makes exactly the effects of a run of protocol steps, whichever calls fail, and its contract says which
 answer it gives and what the stores contain afterwards. As long as its own failures break no promise it
 leads from a reachable state to a reachable one, where all laws hold; and when no call fails it does what
 its one-step description says.
 */
module Handlers {
  import opened Common
  import R = RedisStore
  import D = Orders
  import O = Outbox
  import opened Protocol
  import L = ProtocolLaws

  /** How one store access goes: it works, has no effect, or has its effect but reports an error. */
  datatype Call = Works | Fails | LosesReply
  {
    predicate Executed() { !Fails? }
    predicate Error() { !Works? }
  }

  datatype RequestFaults = RequestFaults(deduct: Call, insert: Call, rollback: Call)
  datatype TxFaults = TxFaults(readCanceled: Call, drop: Call, mark: Call, snapshot: Call, create: Call, statement: nat,
                               hdel: Call, send: Call, log: Call, clear: Call)
  {
    predicate None() {
      readCanceled.Works? && drop.Works? && mark.Works? && snapshot.Works? && create.Works? && hdel.Works? && send.Works?
      && clear.Works?
    }
  }
  /** The creating transaction ends with an error that is neither a duplicate nor a lack of stock. */
  predicate CreationFails(db: D.Db, o: OrderNo, u: UserId, a: ActivityId, f: TxFaults) {
    f.snapshot.Error() || f.create.LosesReply? || (f.create.Fails? && D.Meets(db, o, u, a, D.FailsAt(f.statement)))
  }

  datatype TimeoutFaults = TimeoutFaults(read: Call, cancel: Call, statements: D.CancelFaults, rollback: Call)

  /** Which of the unchecked statements of a cancellation take effect. */
  function Done(f: D.CancelFaults): D.Unchecked {
    D.Unchecked(!f.stock, !f.log)
  }

  /** No scanner has read the database for `o` and can still mark it. */
  ghost predicate NoScannerAt(s: State, o: OrderNo) {
    forall q :: q in s.procs && s.procs[q].CronMark? ==> s.procs[q].o != o
  }

  /** The shelf has a unit for a user who has not bought yet. */
  predicate MayReserve(r: R.Redis, u: UserId) {
    r.stock.Some? && r.stock.value > 0 && u !in r.purchased
  }

  /** A request takes a unit off the shelf, and leaves it taken unless the outbox insert reports an error and the rollback
      is executed; without a reply it does not even try. */
  ghost predicate RequestLeaves(r: R.Redis, r': R.Redis, o: OrderNo, u: UserId, pv: R.PendingValue, f: RequestFaults) {
    r' == if !f.deduct.Executed() || !MayReserve(r, u) then r
          else if f.deduct.Works? && f.insert.Error() && f.rollback.Executed() then r.(pending := r.pending - {o})
          else R.Redis(Some(r.stock.value - 1), r.purchased + {u}, r.pending[o := pv], r.canceled, r.processing)
  }

  lemma NothingLeft(r: R.Redis, r': R.Redis, o: OrderNo, u: UserId, pv: R.PendingValue, f: RequestFaults)
    ensures RequestLeaves(r, r', o, u, pv, f) && f.deduct.Works? && f.insert.Error() && f.rollback.Executed() && o !in r.pending ==> r' == r
  {
    assert o !in r.pending ==> r.pending - {o} == r.pending;
  }

  lemma RequestOutcome(r: R.Redis, o: OrderNo, u: UserId, pv: R.PendingValue, f: RequestFaults)
    ensures var (reserved, code) := R.PreDeduct(r, u, o, pv);
            RequestLeaves(r, if f.deduct.Fails? then r
                             else if code == R.DEDUCTED && f.deduct.Works? && f.insert.Error() && f.rollback.Executed()
                             then R.Rollback(reserved, u, o) else reserved, o, u, pv, f)
  {
    assert u !in r.purchased ==> r.purchased + {u} - {u} == r.purchased;
    assert r.pending[o := pv] - {o} == r.pending - {o};
  }

  /** The timeout message of `o` is with the broker, or has failed and is in its outbox, due in 30 s, or neither when
      both calls fail. */
  ghost predicate TimeoutArranged(t: O.System, t': O.System, id: O.TaskId, o: OrderNo, now: int, send: Call, log: Call) {
    && t'.senders == t.senders
    && t'.accepted == (if send.Executed() then t.accepted + {o} else t.accepted)
    && if send.Error() && log.Executed() then O.Adds(t.table, t'.table, id, o, now + 30 * SECOND) else t'.table == t.table
  }

  function Marked(r: R.Redis, o: OrderNo): R.Redis {
    r.(processing := r.processing + {o})
  }

  /** What the won marker leads to. A creation that ends without a reply may have taken place, one that asks for the message
      again otherwise has not; a final outcome drops the entry, except when the stock is used up; the marker is
      given back. */
  ghost predicate Decided(r: R.Redis, r': R.Redis, db: D.Db, db': D.Db, retry: bool,
                          o: OrderNo, u: UserId, a: ActivityId, item: D.Item, f: TxFaults) {
    var (after, result) := D.Create(db, o, u, a, item);
    && db' == (if !retry || (f.snapshot.Works? && f.create.LosesReply?) then after else db)
    && r' == r.(pending := if !retry && result != D.StockNotEnough && f.hdel.Executed() then r.pending - {o} else r.pending,
                processing := if f.clear.Executed() then r.processing - {o} else r.processing)
  }

  datatype Outcome = Queued | AlreadyQueuing | SoldOut | NotStarted | SystemError

  /** Which reads of a poll fail. */
  datatype PollFaults = PollFaults(orders: bool, pending: bool, purchased: bool)

  predicate IsPending(orders: map<OrderNo, D.Order>, o: OrderNo) {
    o in orders && orders[o].status == D.Pending
  }

  lemma PendingMeans(db: D.Db, o: OrderNo, done: D.Unchecked)
    ensures IsPending(db.orders, o) <==> o in db.orders && db.orders[o].status == D.Pending
    ensures !IsPending(D.CancelExpired(db, o, done).0.orders, o)
  {
  }

  // ----- what the handlers are for, each as one change of the stores -----

  function Accepted(setup: Setup, sys: Sys, o: OrderNo, u: UserId, ts: int, id: O.TaskId, now: int): Sys
    requires id !in sys.tx.table
  {
    var (sys', code) := DoReserve(sys, setup, o, u, ts);
    if code == R.DEDUCTED
    then sys'.(tx := O.InsertTask(sys.tx, id, o, now, now), reported := sys.reported + {o})
    else sys
  }

  /** What remains to be done after the creating transaction. */
  function Tidied(sys: Sys, o: OrderNo, result: D.CreateResult): Sys {
    match result
    case Created => DeletePending(sys, o, true).(timeout := O.AcceptDirect(sys.timeout, o))
    case DuplicateOrder => DeletePending(sys, o, true)
    case _ => sys
  }

  function Created(setup: Setup, sys: Sys, o: OrderNo, u: UserId, item: D.Item): Sys {
    var (db, result) := D.Create(sys.db, o, u, setup.activity, item);
    Tidied(sys.(db := db), o, result)
  }

  function Consumed(setup: Setup, sys: Sys, o: OrderNo, u: UserId, item: D.Item): Sys {
    if o in sys.redis.canceled then DeletePending(sys, o, true)
    else if o in sys.redis.processing then sys
    else Created(setup, sys, o, u, item)
  }

  function Unmarked(sys: Sys, o: OrderNo): Sys {
    sys.(redis := R.ClearProcessing(sys.redis, o))
  }

  /** Winning the marker and giving it back around the creation leaves no trace of it. */
  lemma MarkerComesAndGoes(setup: Setup, sys: Sys, o: OrderNo, u: UserId, item: D.Item)
    requires R.TryMarkProcessing(sys.redis, o).1 == R.PROCESSING_MARKED
    ensures var marked := sys.(redis := R.TryMarkProcessing(sys.redis, o).0);
            Unmarked(Created(setup, marked, o, u, item), o) == Consumed(setup, sys, o, u, item)
  {
    hide D.Create, O.AcceptDirect;
    assert sys.redis.processing + {o} - {o} == sys.redis.processing;
  }

  lemma MarkerRefuses(r: R.Redis, o: OrderNo)
    ensures o !in r.canceled && o !in r.processing ==> R.TryMarkProcessing(r, o).0 == Marked(r, o)
    ensures R.TryMarkProcessing(r, o).1 != R.PROCESSING_MARKED <==> o in r.canceled || o in r.processing
  {
  }

  lemma ConsumedWithoutMarker(setup: Setup, sys: Sys, o: OrderNo, u: UserId, item: D.Item)
    ensures o in sys.redis.canceled ==> Consumed(setup, sys, o, u, item) == DeletePending(sys, o, true)
    ensures var (redis, code) := R.TryMarkProcessing(sys.redis, o);
            o !in sys.redis.canceled && code != R.PROCESSING_MARKED ==>
              Consumed(setup, sys, o, u, item) == sys && sys.(redis := redis) == sys
  {
  }

  lemma DecidedLeaves(r: R.Redis, r': R.Redis, db: D.Db, db': D.Db, retry: bool,
                      o: OrderNo, u: UserId, a: ActivityId, item: D.Item, f: TxFaults)
    requires Decided(r, r', db, db', retry, o, u, a, item, f)
    ensures r'.stock == r.stock && r'.purchased == r.purchased && r'.canceled == r.canceled
  {
  }

  lemma ArrangedIsThere(t: O.System, t': O.System, id: O.TaskId, o: OrderNo, now: int, send: Call, log: Call)
    ensures TimeoutArranged(t, t', id, o, now, send, log) && (send.Executed() || log.Executed()) ==>
              o in t'.accepted || O.HasOrder(t'.table, o)
  {
    if TimeoutArranged(t, t', id, o, now, send, log) && !send.Executed() && log.Executed() && !O.HasOrder(t.table, o) {
      assert id in t'.table && t'.table[id].order == o;
    }
  }

  lemma ArrangedWithoutFaults(t: O.System, id: O.TaskId, o: OrderNo, now: int, log: Call)
    ensures forall t' :: TimeoutArranged(t, t', id, o, now, Works, log) ==> t' == O.AcceptDirect(t, o)
  {
  }

  /** A new row appears exactly when the creation succeeds. */
  lemma RowAppears(db: D.Db, o: OrderNo, u: UserId, a: ActivityId, item: D.Item)
    ensures var (db', result) := D.Create(db, o, u, a, item);
            && (result == D.Created <==> o !in db.orders && o in db'.orders)
            && result != D.SystemError
  {
  }

  function TimedOut(sys: Sys, o: OrderNo, u: UserId, done: D.Unchecked): Sys {
    var (db, cancelled) := D.CancelExpired(sys.db, o, done);
    if cancelled.None? then sys
    else HandBack(sys, o, R.CancelOrderRollback(sys.redis, u)).(db := db)
  }

  lemma TimedOutCases(sys: Sys, o: OrderNo, u: UserId, done: D.Unchecked)
    ensures var (db, cancelled) := D.CancelExpired(sys.db, o, done);
            TimedOut(sys, o, u, done) ==
              if cancelled.None? then sys else HandBack(sys.(db := db), o, R.CancelOrderRollback(sys.redis, u))
  {
  }

  // ----- what single steps do -----

  lemma CancelEffect(setup: Setup, s: State, p: Pid, o: OrderNo, u: UserId, commit: Commit, done: D.Unchecked)
    requires p in s.procs && s.procs[p] == ToCancel(o, u)
    ensures Enabled(s, ToCancelOrder(p, commit, done))
    ensures var (db, cancelled) := D.CancelExpired(s.sys.db, o, done);
            Apply(setup, s, ToCancelOrder(p, commit, done)) ==
              if commit == NoEffect || cancelled.None? then Stop(s, s.sys, p)
              else if commit == ReplyLost then Stop(s, s.sys.(db := db), p)
              else Goto(s, s.sys.(db := db), p, ToRollback(o, u))
    ensures done == D.BOTH ==> Assumption(s, setup, ToCancelOrder(p, commit, done))
  {
    hide D.CancelExpired, ApplyRequest, ApplyConsumer, ApplyCron, ApplyPoll;
  }

  lemma CreateEffect(setup: Setup, s: State, p: Pid, o: OrderNo, u: UserId, item: D.Item, commit: Commit)
    requires p in s.procs && s.procs[p] == TxCreate(o) && o in s.sys.issued && s.sys.issued[o] == u
    ensures Enabled(s, TxCreateOrder(p, item, commit)) && Assumption(s, setup, TxCreateOrder(p, item, commit))
    ensures var s' := Apply(setup, s, TxCreateOrder(p, item, commit));
            var (db, result) := D.Create(s.sys.db, o, u, setup.activity, item);
            && s'.sys == (if commit != NoEffect && result == D.Created then s.sys.(db := db) else s.sys)
            && s'.procs == s.procs[p := if commit != NoEffect && result == D.DuplicateOrder then TxHdelDuplicate(o)
                                        else if commit == Fine && result == D.Created then TxHdel(o) else TxClear(o)]
  {
    hide D.Create, ApplyRequest, ApplyCron, ApplyTimeout, ApplyPoll;
  }

  lemma RefusedCreation(db: D.Db, o: OrderNo, u: UserId, a: ActivityId, item: D.Item)
    ensures var (db', result) := D.Create(db, o, u, a, item);
            result != D.SystemError && (result != D.Created ==> db' == db)
  {
  }

  lemma SendEffect(setup: Setup, s: State, p: Pid, o: OrderNo, accepted: bool, acknowledged: bool)
    requires p in s.procs && s.procs[p] == TxSend(o) && (acknowledged ==> accepted)
    ensures var step := TxSendTimeout(p, accepted, acknowledged);
            && Enabled(s, step) && Assumption(s, setup, step)
            && Apply(setup, s, step) == Goto(s, if accepted then s.sys.(timeout := O.AcceptDirect(s.sys.timeout, o)) else s.sys, p,
                                             if acknowledged then TxClear(o) else TxLog(o))
  {
    hide ApplyRequest, ApplyCron, ApplyTimeout, ApplyPoll;
  }

  lemma LogEffect(setup: Setup, s: State, p: Pid, o: OrderNo, written: Option<O.TaskId>, now: int)
    requires p in s.procs && s.procs[p] == TxLog(o) && (written.Some? ==> written.value !in s.sys.timeout.table)
    ensures Enabled(s, TxLogTask(p, written, now)) && Assumption(s, setup, TxLogTask(p, written, now))
    ensures Apply(setup, s, TxLogTask(p, written, now)) ==
              Goto(s, if written.Some?
                      then s.sys.(timeout := O.InsertTask(s.sys.timeout, written.value, o, now + 30 * SECOND, now))
                      else s.sys, p, TxClear(o))
  {
    hide O.InsertTask, ApplyRequest, ApplyCron, ApplyTimeout, ApplyPoll;
  }

  lemma NoScannerStays(s: State, s': State, o: OrderNo, p: Pid)
    requires NoScannerAt(s, o) && s'.procs.Keys <= s.procs.Keys + {p} && (p in s'.procs ==> !s'.procs[p].CronMark?)
    requires forall q :: q in s'.procs && q != p ==> s'.procs[q] == s.procs[q]
    ensures NoScannerAt(s', o) && SafeToRelease(s', o)
  {
  }

  class Node {
    const setup: Setup
    const cache: R.SeckillCache
    const repo: D.OrderRepo
    var tx: O.System
    var timeout: O.System
    ghost var start: State
    ghost var trace: seq<Step>

    constructor (setup: Setup)
      ensures Linked() && State() == Init(setup) && this.setup == setup
      ensures fresh(cache) && fresh(repo)
    {
      this.setup := setup;
      cache := new R.SeckillCache();
      repo := new D.OrderRepo(map[setup.activity := D.Activity(setup.w, setup.version0)]);
      tx, timeout := O.EMPTY, O.EMPTY;
      start, trace := Init(setup), [];
    }

    /** The steps taken since `start` are possible, and the stores hold what they lead to. */
    ghost predicate Linked()
      reads this, cache, repo
    {
      && Possible(setup, start, trace)
      && State().sys.redis == cache.View()
      && State().sys.db == repo.View()
      && State().sys.tx == tx
      && State().sys.timeout == timeout
    }

    ghost function State(): State
      requires Possible(setup, start, trace)
      reads this
    {
      Run(setup, start, trace)
    }

    /** The stores are as some run of the whole system with all promises kept leaves them. */
    ghost predicate Safe()
      requires Possible(setup, start, trace)
      reads this
    {
      L.Reachable(setup, State())
    }

    /** The protocol has taken steps from the old state to this one, and no process is left over. */
    twostate predicate Refines()
      requires old(Linked())
      reads this, cache, repo
    {
      Linked() && start == old(start) && old(trace) <= trace && State().procs == old(State()).procs
    }

    ghost method Take(step: Step)
      requires Possible(setup, start, trace) && Enabled(State(), step)
      modifies this`trace
      ensures trace == old(trace) + [step] && Possible(setup, start, trace)
      ensures State() == Apply(setup, old(State()), step)
      ensures old(Safe()) && Assumption(old(State()), setup, step) ==> Safe()
    {
      hide Possible, Run, Apply, Enabled, Assumed, Assumption, L.Reachable;
      OneMore(setup, start, trace, step);
      if Safe() && Assumption(State(), setup, step) {
        L.ReachableStep(setup, State(), step);
      }
      trace := trace + [step];
    }

    // ----- one store access each -----

    method Deduct(p: Pid, o: OrderNo, u: UserId, ts: int, replyLost: bool) returns (code: int)
      requires Linked() && p !in State().procs && o !in State().sys.issued
      modifies this`trace, cache
      ensures Linked() && old(trace) <= trace
      ensures (State().sys, code) == DoReserve(old(State()).sys, setup, o, u, ts)
      ensures State().procs == if code == R.DEDUCTED && !replyLost then old(State()).procs[p := Reserved(o, u)] else old(State()).procs
      ensures old(Safe()) ==> Safe()
    {
      hide Possible, Run, L.Reachable, ApplyConsumer, ApplyCron, ApplyTimeout, ApplyPoll, O.Enabled;
      code := cache.PreDeductStock(u, o, R.PendingValue(ts, u, setup.product));
      Take(Reserve(p, o, u, ts, replyLost));
    }

    method InsertRow(p: Pid, o: OrderNo, u: UserId, id: O.TaskId, now: int, insert: Call)
      requires Linked() && p in State().procs && State().procs[p] == Reserved(o, u) && id !in tx.table
      modifies this`trace, this`tx
      ensures Linked() && old(trace) <= trace
      ensures State().procs == old(State()).procs[p := if insert.Error() then Compensating(o, u) else RowWritten(o)]
      ensures State().sys == old(State()).sys.(tx := if insert.Executed() then O.InsertTask(old(tx), id, o, now, now) else old(tx))
      ensures !insert.LosesReply? && old(Safe()) ==> Safe()
    {
      hide Possible, Run, L.Reachable, ApplyConsumer, ApplyCron, ApplyTimeout, ApplyPoll, O.Enabled;
      if insert.Executed() {
        tx := O.InsertTask(tx, id, o, now, now);
      }
      Take(if insert.Error() then WriteRowFails(p, if insert.Executed() then Some(id) else None, now) else WriteRow(p, id, now));
    }

    method RollBackRequest(p: Pid, o: OrderNo, u: UserId, rollback: Call)
      requires Linked() && p in State().procs && State().procs[p] == Compensating(o, u)
      modifies this`trace, cache
      ensures Linked() && old(trace) <= trace && State().procs == old(State()).procs - {p}
      ensures State().sys == if rollback.Executed()
                             then HandBack(old(State()).sys, o, R.Rollback(old(cache.View()), u, o)) else old(State()).sys
      ensures old(Safe()) ==> Safe()
    {
      hide Possible, Run, L.Reachable, ApplyConsumer, ApplyCron, ApplyTimeout, ApplyPoll, O.Enabled;
      if rollback.Executed() {
        cache.RollbackPreDeduct(u, o);
      }
      Take(Compensate(p, rollback.Executed()));
    }

    /** Which answer the script gives, and what a successful reservation changes. */
    static lemma ReserveEffect(sys: Sys, setup: Setup, o: OrderNo, u: UserId, ts: int)
      ensures var (sys', code) := DoReserve(sys, setup, o, u, ts);
              var r := sys.redis;
              && sys'.tx == sys.tx && sys'.reported == sys.reported && sys'.timeout == sys.timeout && sys'.db == sys.db
              && (code == R.NOT_STARTED <==> r.stock.None?)
              && (code == R.REPEAT_BUY <==> r.stock.Some? && u in r.purchased)
              && (code == R.SOLD_OUT <==> r.stock.Some? && u !in r.purchased && r.stock.value <= 0)
              && (code == R.DEDUCTED <==> MayReserve(r, u))
              && code in {R.NOT_STARTED, R.REPEAT_BUY, R.SOLD_OUT, R.DEDUCTED}
              && (code != R.DEDUCTED ==> sys' == sys)
              && (sys'.redis, code) == R.PreDeduct(r, u, o, R.PendingValue(ts, u, setup.product))
    {
    }

    /** DoSeckill, from the pre-deduct script on: the checks before it can only refuse. `ts` is the time in seconds that goes
        into the pending entry, `now` the time at which the outbox row is written. */
    method DoSeckill(p: Pid, o: OrderNo, u: UserId, ts: int, id: O.TaskId, now: int, f: RequestFaults) returns (outcome: Outcome)
      requires Linked() && p !in State().procs && o !in State().sys.issued && id !in tx.table
      modifies this`trace, this`tx, cache
      ensures Refines()
      ensures f.deduct.Works? && f.insert.Works? ==>
                State().sys == Accepted(setup, old(State()).sys, o, u, ts, id, now) && outcome != SystemError
      // who is told what
      ensures outcome == NotStarted <==> f.deduct.Works? && old(cache.stock).None?
      ensures outcome == AlreadyQueuing <==> f.deduct.Works? && old(cache.stock).Some? && u in old(cache.purchased)
      ensures outcome == SoldOut <==>
                f.deduct.Works? && old(cache.stock).Some? && u !in old(cache.purchased) && old(cache.stock).value <= 0
      ensures outcome == Queued <==> f.deduct.Works? && f.insert.Works? && MayReserve(old(cache.View()), u)
      ensures outcome == Queued ==> o in State().sys.reported && HasRow(State().sys, o)
      // what is in the stores afterwards, whichever calls fail
      ensures RequestLeaves(old(cache.View()), cache.View(), o, u, R.PendingValue(ts, u, setup.product), f)
      ensures outcome in {AlreadyQueuing, SoldOut, NotStarted} ==> State().sys == old(State()).sys
      ensures tx.accepted == old(tx).accepted && tx.senders == old(tx).senders
      ensures if f.deduct.Works? && f.insert.Executed() && MayReserve(old(cache.View()), u)
              then O.Adds(old(tx).table, tx.table, id, o, now) else tx.table == old(tx).table
      // a failed insert is compensated: every store is as before
      ensures f.deduct.Works? && f.insert.Fails? && f.rollback.Works? && o !in old(cache.pending) ==>
                cache.View() == old(cache.View()) && tx.table == old(tx).table
      ensures !f.insert.LosesReply? && old(Safe()) ==> Safe()
    {
      hide Possible, Run, Apply, Enabled, DoReserve, R.PreDeduct, R.Rollback, O.InsertTask, O.HasOrder, O.Adds, MayReserve,
        RequestLeaves, L.Reachable;
      RequestOutcome(cache.View(), o, u, R.PendingValue(ts, u, setup.product), f);
      var refused := ReserveUnit(p, o, u, ts, f.deduct);
      if refused.Some? {
        return refused.value;
      }
      outcome := WriteOutbox(p, o, u, id, now, f);
      NothingLeft(old(cache.View()), cache.View(), o, u, R.PendingValue(ts, u, setup.product), f);
    }

    /** The pre-deduct script and what the user is told when it refuses or reports an error. */
    method ReserveUnit(p: Pid, o: OrderNo, u: UserId, ts: int, deduct: Call) returns (refused: Option<Outcome>)
      requires Linked() && p !in State().procs && o !in State().sys.issued
      modifies this`trace, cache
      ensures Linked() && old(trace) <= trace
      ensures State().procs == if refused.None? then old(State()).procs[p := Reserved(o, u)] else old(State()).procs
      ensures State().sys == if deduct.Executed() then DoReserve(old(State()).sys, setup, o, u, ts).0 else old(State()).sys
      ensures var (reserved, code) := R.PreDeduct(old(cache.View()), u, o, R.PendingValue(ts, u, setup.product));
              && cache.View() == (if deduct.Executed() then reserved else old(cache.View()))
              && (code == R.DEDUCTED <==> MayReserve(old(cache.View()), u))
              && code == DoReserve(old(State()).sys, setup, o, u, ts).1
              && (code != R.DEDUCTED ==> State().sys == old(State()).sys)
              && State().sys.reported == old(State()).sys.reported
      ensures refused.None? <==> deduct.Works? && MayReserve(old(cache.View()), u)
      ensures refused == Some(NotStarted) <==> deduct.Works? && old(cache.stock).None?
      ensures refused == Some(AlreadyQueuing) <==> deduct.Works? && old(cache.stock).Some? && u in old(cache.purchased)
      ensures refused == Some(SoldOut) <==>
                deduct.Works? && old(cache.stock).Some? && u !in old(cache.purchased) && old(cache.stock).value <= 0
      ensures refused != Some(Queued) && (refused == Some(SystemError) <==> deduct.Error())
      ensures old(Safe()) ==> Safe()
    {
      hide Possible, Run, Apply, Enabled, DoReserve, R.PreDeduct, MayReserve, L.Reachable;
      ReserveEffect(State().sys, setup, o, u, ts);
      if deduct.Fails? {
        return Some(SystemError);
      }
      var code := Deduct(p, o, u, ts, deduct.LosesReply?);
      if deduct.LosesReply? {
        return Some(SystemError);
      }
      if code == R.DEDUCTED {
        return None;
      }
      return Some(if code == R.REPEAT_BUY then AlreadyQueuing else if code == R.SOLD_OUT then SoldOut else NotStarted);
    }

    /** The outbox row, or the compensation. */
    method WriteOutbox(p: Pid, o: OrderNo, u: UserId, id: O.TaskId, now: int, f: RequestFaults) returns (outcome: Outcome)
      requires Linked() && p in State().procs && State().procs[p] == Reserved(o, u) && id !in tx.table
      modifies this`trace, this`tx, cache
      ensures Linked() && old(trace) <= trace && State().procs == old(State()).procs - {p}
      ensures outcome == if f.insert.Works? then Queued else SystemError
      ensures cache.View() == if f.insert.Error() && f.rollback.Executed() then R.Rollback(old(cache.View()), u, o) else old(cache.View())
      ensures tx == if f.insert.Executed() then O.InsertTask(old(tx), id, o, now, now) else old(tx)
      ensures f.insert.Executed() ==> O.Adds(old(tx).table, tx.table, id, o, now) && HasRow(State().sys, o)
      ensures tx.accepted == old(tx).accepted && tx.senders == old(tx).senders
      ensures f.insert.Works? ==> State().sys == old(State()).sys.(tx := tx, reported := old(State()).sys.reported + {o})
      ensures !f.insert.LosesReply? && old(Safe()) ==> Safe()
    {
      hide Possible, Run, Apply, Enabled, O.InsertTask, O.HasOrder, O.Adds, L.Reachable, R.Rollback;
      O.InsertAdds(tx, id, o, now, now);
      InsertRow(p, o, u, id, now, f.insert);
      if f.insert.Error() {
        RollBackRequest(p, o, u, f.rollback);
        return SystemError;
      }
      Reply(p, o);
      return Queued;
    }

    method Reply(p: Pid, o: OrderNo)
      requires Linked() && p in State().procs && State().procs[p] == RowWritten(o)
      modifies this`trace
      ensures Linked() && old(trace) <= trace && State().procs == old(State()).procs - {p}
      ensures State().sys == old(State()).sys.(reported := old(State()).sys.reported + {o})
      ensures old(Safe()) ==> Safe()
    {
      hide Possible, Run, L.Reachable, ApplyConsumer, ApplyCron, ApplyTimeout, ApplyPoll, O.Enabled;
      Take(Report(p));
    }

    method Receive(p: Pid, o: OrderNo) returns (canceled: bool)
      requires Linked() && p !in State().procs && Deliverable(State().sys, o)
      modifies this`trace
      ensures Linked() && old(trace) <= trace && State().sys == old(State()).sys
      ensures canceled == (o in cache.canceled)
      ensures State().procs == old(State()).procs[p := if canceled then Hdel(o) else TxMark(o)]
      ensures NoScannerAt(old(State()), o) ==> NoScannerAt(State(), o)
      ensures old(Safe()) ==> Safe()
    {
      hide Possible, Run, L.Reachable, ApplyRequest, ApplyCron, ApplyTimeout, ApplyPoll, O.Enabled;
      canceled := o in cache.canceled;
      Take(TxReceive(p, o));
    }

    method Drop(p: Pid, o: OrderNo, drop: Call)
      requires Linked() && p in State().procs && State().procs[p] == Hdel(o)
      modifies this`trace, cache
      ensures Linked() && old(trace) <= trace && State().procs == old(State()).procs - {p}
      ensures State().sys == DeletePending(old(State()).sys, o, drop.Executed())
      ensures cache.View() == if drop.Executed() then old(cache.View()).(pending := old(cache.pending) - {o}) else old(cache.View())
      ensures old(Safe()) ==> Safe()
    {
      hide Possible, Run, L.Reachable, ApplyRequest, ApplyConsumer, ApplyTimeout, ApplyPoll, O.Enabled;
      if drop.Executed() {
        cache.HDelPending(o);
      }
      Take(DeleteAndStop(p, drop.Executed()));
    }

    method Mark(p: Pid, o: OrderNo, mark: Call) returns (marked: bool)
      requires Linked() && p in State().procs && State().procs[p] == TxMark(o)
      modifies this`trace, cache
      ensures Linked() && old(trace) <= trace
      ensures State().procs == if marked then old(State()).procs[p := TxCreate(o)] else old(State()).procs - {p}
      ensures State().sys == if mark.Executed()
                             then old(State()).sys.(redis := R.TryMarkProcessing(old(cache.View()), o).0) else old(State()).sys
      ensures marked <==> mark.Works? && R.TryMarkProcessing(old(cache.View()), o).1 == R.PROCESSING_MARKED
      ensures old(Safe()) ==> Safe()
    {
      hide Possible, Run, L.Reachable, D.Create, ApplyRequest, ApplyCron, ApplyTimeout, ApplyPoll, O.Enabled;
      if mark.Fails? {
        Take(Crash(p));
        return false;
      }
      marked := cache.TryMarkOrderProcessing(o);
      Take(TxMarkProcessing(p, mark.LosesReply?));
      marked := marked && mark.Works?;
    }

    /** The creating transaction. An error that is none of the two expected ones asks for a retry. */
    method CreateOrder(p: Pid, o: OrderNo, u: UserId, item: D.Item, f: TxFaults) returns (result: D.CreateResult)
      requires Linked() && p in State().procs && State().procs[p] == TxCreate(o)
      requires o in State().sys.issued && State().sys.issued[o] == u
      modifies this`trace, repo
      ensures Linked() && old(trace) <= trace
      ensures State().procs == old(State()).procs[p := match result
                                                       case Created => TxHdel(o)
                                                       case DuplicateOrder => TxHdelDuplicate(o)
                                                       case _ => TxClear(o)]
      ensures State().sys == old(State()).sys.(db := repo.View())
      ensures result == D.SystemError <==> CreationFails(old(repo.View()), o, u, setup.activity, f)
      ensures result != D.SystemError ==> (repo.View(), result) == D.Create(old(repo.View()), o, u, setup.activity, item)
      ensures result in {D.DuplicateOrder, D.StockNotEnough} ==> repo.View() == old(repo.View())
      ensures result == D.SystemError ==>
                repo.View() == if f.snapshot.Works? && f.create.LosesReply?
                               then D.Create(old(repo.View()), o, u, setup.activity, item).0 else old(repo.View())
      ensures old(Safe()) ==> Safe()
    {
      hide Possible, Run, L.Reachable, Apply, Enabled, Assumption, D.Create;
      RefusedCreation(repo.View(), o, u, setup.activity, item);
      CreateEffect(setup, State(), p, o, u, item, NoEffect);
      CreateEffect(setup, State(), p, o, u, item, ReplyLost);
      CreateEffect(setup, State(), p, o, u, item, Fine);
      if f.snapshot.Error() {
        Take(TxCreateOrder(p, item, NoEffect));
        return D.SystemError;
      }
      result := repo.CreateSeckillOrderTx(o, u, setup.activity, item, if f.create.Fails? then D.FailsAt(f.statement) else D.NoFault);
      if result == D.SystemError || (f.create.LosesReply? && result != D.Created) {
        Take(TxCreateOrder(p, item, NoEffect));
        return D.SystemError;
      }
      if f.create.LosesReply? {
        Take(TxCreateOrder(p, item, ReplyLost));
        return D.SystemError;
      }
      Take(TxCreateOrder(p, item, Fine));
    }

    method DeleteEntry(p: Pid, o: OrderNo, hdel: Call)
      requires Linked() && p in State().procs && (State().procs[p] == TxHdel(o) || State().procs[p] == TxHdelDuplicate(o))
      modifies this`trace, cache
      ensures Linked() && old(trace) <= trace
      ensures State().procs == old(State()).procs[p := if old(State()).procs[p] == TxHdel(o) then TxSend(o) else TxClear(o)]
      ensures State().sys == DeletePending(old(State()).sys, o, hdel.Executed())
      ensures old(Safe()) ==> Safe()
    {
      hide Possible, Run, L.Reachable, ApplyRequest, ApplyCron, ApplyTimeout, ApplyPoll, O.Enabled;
      if hdel.Executed() {
        cache.HDelPending(o);
      }
      Take(TxDeletePending(p, hdel.Executed()));
    }

    method SendTimeout(p: Pid, o: OrderNo, id: O.TaskId, now: int, f: TxFaults)
      requires Linked() && p in State().procs && State().procs[p] == TxSend(o) && id !in timeout.table
      modifies this`trace, this`timeout
      ensures Linked() && old(trace) <= trace && State().procs == old(State()).procs[p := TxClear(o)]
      ensures State().sys == old(State()).sys.(timeout := timeout)
      ensures TimeoutArranged(old(timeout), timeout, id, o, now, f.send, f.log)
      ensures old(Safe()) ==> Safe()
    {
      hide Possible, Run, L.Reachable, Apply, Enabled, Assumption, O.Adds;
      SendEffect(setup, State(), p, o, f.send.Executed(), !f.send.Error());
      if f.send.Executed() {
        timeout := O.AcceptDirect(timeout, o);
      }
      Take(TxSendTimeout(p, f.send.Executed(), !f.send.Error()));
      if f.send.Error() {
        LogTimeout(p, o, id, now, f.log);
      }
    }

    /** The timeout message goes to its outbox when it cannot be sent. */
    method LogTimeout(p: Pid, o: OrderNo, id: O.TaskId, now: int, log: Call)
      requires Linked() && p in State().procs && State().procs[p] == TxLog(o) && id !in timeout.table
      modifies this`trace, this`timeout
      ensures Linked() && old(trace) <= trace && State().procs == old(State()).procs[p := TxClear(o)]
      ensures State().sys == old(State()).sys.(timeout := timeout)
      ensures timeout.accepted == old(timeout).accepted && timeout.senders == old(timeout).senders
      ensures if log.Executed() then O.Adds(old(timeout).table, timeout.table, id, o, now + 30 * SECOND)
              else timeout == old(timeout)
      ensures old(Safe()) ==> Safe()
    {
      hide Possible, Run, L.Reachable, Apply, Enabled, Assumption, O.InsertTask, O.Adds;
      O.InsertAdds(timeout, id, o, now + 30 * SECOND, now);
      LogEffect(setup, State(), p, o, if log.Executed() then Some(id) else None, now);
      if log.Executed() {
        timeout := O.InsertTask(timeout, id, o, now + 30 * SECOND, now);
      }
      Take(TxLogTask(p, if log.Executed() then Some(id) else None, now));
    }

    method ClearMarker(p: Pid, o: OrderNo, clear: Call)
      requires Linked() && p in State().procs && State().procs[p] == TxClear(o)
      modifies this`trace, cache
      ensures Linked() && old(trace) <= trace && State().procs == old(State()).procs - {p}
      ensures State().sys == if clear.Executed()
                             then old(State()).sys.(redis := R.ClearProcessing(old(cache.View()), o)) else old(State()).sys
      ensures (clear.Executed() ==> SafeToRelease(old(State()), o)) && old(Safe()) ==> Safe()
    {
      hide Possible, Run, L.Reachable, ApplyRequest, ApplyCron, ApplyTimeout, ApplyPoll, O.Enabled;
      if clear.Executed() {
        cache.ClearOrderProcessing(o);
      }
      Take(TxClearMarker(p, clear.Executed()));
    }

    /** processTxMessage: the message body names the order and the user who reserved it. */
    method ProcessTxMessage(p: Pid, o: OrderNo, u: UserId, item: D.Item, id: O.TaskId, now: int, f: TxFaults) returns (retry: bool)
      requires Linked() && p !in State().procs && Deliverable(State().sys, o)
      requires o in State().sys.issued && State().sys.issued[o] == u && id !in timeout.table
      modifies this`trace, this`timeout, cache, repo
      ensures Refines()
      ensures cache.stock == old(cache.stock) && cache.purchased == old(cache.purchased) && cache.canceled == old(cache.canceled)
      // the mark cannot be read
      ensures f.readCanceled.Error() ==> retry && State().sys == old(State()).sys
      // a canceled order: its entry goes, and the message with it
      ensures f.readCanceled.Works? && o in old(cache.canceled) ==>
                && !retry && repo.View() == old(repo.View()) && timeout == old(timeout)
                && cache.View() == if f.drop.Executed() then old(cache.View()).(pending := old(cache.pending) - {o}) else old(cache.View())
      // the marker is not won
      ensures f.readCanceled.Works? && o !in old(cache.canceled) && (f.mark.Error() || o in old(cache.processing)) ==>
                && (retry <==> f.mark.Error())
                && repo.View() == old(repo.View()) && timeout == old(timeout)
                && cache.View() == if f.mark.LosesReply? then Marked(old(cache.View()), o) else old(cache.View())
      // the marker is won: an error of the transaction asks for the message again, any other outcome is final
      ensures f.readCanceled.Works? && o !in old(cache.canceled) && f.mark.Works? && o !in old(cache.processing) ==>
                && (retry <==> CreationFails(old(repo.View()), o, u, setup.activity, f))
                && Decided(Marked(old(cache.View()), o), cache.View(), old(repo.View()), repo.View(), retry, o, u, setup.activity, item, f)
      // an acknowledged creation leaves the timeout message with the broker or, after a failed send, in the outbox for 30 s
      ensures if !retry && o !in old(repo.orders) && o in repo.orders
              then TimeoutArranged(old(timeout), timeout, id, o, now, f.send, f.log) else timeout == old(timeout)
      ensures !retry && o !in old(repo.orders) && o in repo.orders && (f.send.Executed() || f.log.Executed()) ==>
                o in timeout.accepted || O.HasOrder(timeout.table, o)
      ensures NoScannerAt(old(State()), o) && old(Safe()) ==> Safe()
      ensures f.None() ==> !retry && State().sys == Consumed(setup, old(State()).sys, o, u, item)
    {
      hide Possible, Run, Apply, Enabled, Consumed, DeletePending, Marked, D.Create, L.Reachable, NoScannerAt, SafeToRelease, CreationFails, Decided,
        TimeoutArranged, O.HasOrder;
      if f.readCanceled.Error() {
        return true;
      }
      var canceled := Receive(p, o);
      if canceled {
        ConsumedWithoutMarker(setup, State().sys, o, u, item);
        Drop(p, o, f.drop);
        return false;
      }
      retry := MarkAndCreate(p, o, u, item, id, now, f);
      ArrangedIsThere(old(timeout), timeout, id, o, now, f.send, f.log);
    }

    /** processTxMessage for an order that is not canceled. */
    method MarkAndCreate(p: Pid, o: OrderNo, u: UserId, item: D.Item, id: O.TaskId, now: int, f: TxFaults) returns (retry: bool)
      requires Linked() && p in State().procs && State().procs[p] == TxMark(o) && o !in cache.canceled
      requires o in State().sys.issued && State().sys.issued[o] == u && id !in timeout.table
      modifies this`trace, this`timeout, cache, repo
      ensures Linked() && old(trace) <= trace && State().procs == old(State()).procs - {p}
      ensures cache.stock == old(cache.stock) && cache.purchased == old(cache.purchased) && cache.canceled == old(cache.canceled)
      ensures f.mark.Error() || o in old(cache.processing) ==>
                && (retry <==> f.mark.Error())
                && repo.View() == old(repo.View()) && timeout == old(timeout)
                && cache.View() == if f.mark.LosesReply? then Marked(old(cache.View()), o) else old(cache.View())
      ensures f.mark.Works? && o !in old(cache.processing) ==>
                && (retry <==> CreationFails(old(repo.View()), o, u, setup.activity, f))
                && Decided(Marked(old(cache.View()), o), cache.View(), old(repo.View()), repo.View(), retry, o, u, setup.activity, item, f)
      ensures if !retry && o !in old(repo.orders) && o in repo.orders
              then TimeoutArranged(old(timeout), timeout, id, o, now, f.send, f.log) else timeout == old(timeout)
      ensures NoScannerAt(old(State()), o) && old(Safe()) ==> Safe()
      ensures f.None() ==> !retry && State().sys == Consumed(setup, old(State()).sys, o, u, item)
    {
      hide Possible, Run, Apply, Enabled, Consumed, Created, Unmarked, D.Create, L.Reachable, CreationFails, TimeoutArranged, Decided;
      ConsumedWithoutMarker(setup, State().sys, o, u, item);
      MarkerRefuses(cache.View(), o);
      var marked := Mark(p, o, f.mark);
      if !marked {
        return f.mark.Error();
      }
      MarkerComesAndGoes(setup, old(State()).sys, o, u, item);
      label Won:
      retry := CreateUnderMarker(p, o, u, item, id, now, f);
      DecidedLeaves(old@Won(cache.View()), cache.View(), old(repo.View()), repo.View(), retry, o, u, setup.activity, item, f);
    }

    /** The rest of processTxMessage, once the marker is won; the clear at its end is deferred. */
    method CreateUnderMarker(p: Pid, o: OrderNo, u: UserId, item: D.Item, id: O.TaskId, now: int, f: TxFaults) returns (retry: bool)
      requires Linked() && p in State().procs && State().procs[p] == TxCreate(o)
      requires o in State().sys.issued && State().sys.issued[o] == u && id !in timeout.table
      modifies this`trace, this`timeout, cache, repo
      ensures Linked() && old(trace) <= trace && State().procs == old(State()).procs - {p}
      ensures retry <==> CreationFails(old(repo.View()), o, u, setup.activity, f)
      ensures Decided(old(cache.View()), cache.View(), old(repo.View()), repo.View(), retry, o, u, setup.activity, item, f)
      ensures if !retry && o !in old(repo.orders) && o in repo.orders
              then TimeoutArranged(old(timeout), timeout, id, o, now, f.send, f.log) else timeout == old(timeout)
      ensures f.None() ==> !retry && State().sys == Unmarked(Created(setup, old(State()).sys, o, u, item), o)
      ensures NoScannerAt(old(State()), o) && old(Safe()) ==> Safe()
    {
      hide Possible, Run, Apply, Enabled, D.Create, L.Reachable, Tidied, Unmarked, TimeoutArranged, D.Meets;
      RowAppears(repo.View(), o, u, setup.activity, item);
      var result := CreateOrder(p, o, u, item, f);
      Finish(p, o, id, now, result, f);
      return result == D.SystemError;
    }

    /** What follows the transaction: the entry goes, the timeout message is sent, the marker is cleared. */
    method Finish(p: Pid, o: OrderNo, id: O.TaskId, now: int, result: D.CreateResult, f: TxFaults)
      requires Linked() && p in State().procs && id !in timeout.table
      requires State().procs[p] == match result
                                   case Created => TxHdel(o)
                                   case DuplicateOrder => TxHdelDuplicate(o)
                                   case _ => TxClear(o)
      modifies this`trace, this`timeout, cache
      ensures Linked() && old(trace) <= trace && State().procs == old(State()).procs - {p}
      ensures cache.View() == old(cache.View()).(
                pending := if result in {D.Created, D.DuplicateOrder} && f.hdel.Executed() then old(cache.pending) - {o} else old(cache.pending),
                processing := if f.clear.Executed() then old(cache.processing) - {o} else old(cache.processing))
      ensures if result == D.Created then TimeoutArranged(old(timeout), timeout, id, o, now, f.send, f.log) else timeout == old(timeout)
      ensures f.None() ==> State().sys == Unmarked(Tidied(old(State()).sys, o, result), o)
      ensures NoScannerAt(old(State()), o) && old(Safe()) ==> Safe()
    {
      hide Possible, Run, Apply, Enabled, L.Reachable, O.AcceptDirect, NoScannerAt, SafeToRelease, Tidied, TimeoutArranged;
      Tidy(p, o, id, now, result, f);
      if NoScannerAt(old(State()), o) {
        NoScannerStays(old(State()), State(), o, p);
      }
      ClearMarker(p, o, f.clear);
    }

    method Tidy(p: Pid, o: OrderNo, id: O.TaskId, now: int, result: D.CreateResult, f: TxFaults)
      requires Linked() && p in State().procs && id !in timeout.table
      requires State().procs[p] == match result
                                   case Created => TxHdel(o)
                                   case DuplicateOrder => TxHdelDuplicate(o)
                                   case _ => TxClear(o)
      modifies this`trace, this`timeout, cache
      ensures Linked() && old(trace) <= trace && State().procs == old(State()).procs[p := TxClear(o)]
      ensures cache.View() == old(cache.View()).(
                pending := if result in {D.Created, D.DuplicateOrder} && f.hdel.Executed() then old(cache.pending) - {o} else old(cache.pending))
      ensures if result == D.Created then TimeoutArranged(old(timeout), timeout, id, o, now, f.send, f.log) else timeout == old(timeout)
      ensures f.None() ==> State().sys == Tidied(old(State()).sys, o, result)
      ensures old(Safe()) ==> Safe()
    {
      hide Possible, Run, Apply, Enabled, L.Reachable, TimeoutArranged, O.AcceptDirect;
      ArrangedWithoutFaults(timeout, id, o, now, f.log);
      if result == D.Created || result == D.DuplicateOrder {
        DeleteEntry(p, o, f.hdel);
      }
      if result == D.Created {
        SendTimeout(p, o, id, now, f);
      }
    }

    method ReceiveTimeout(p: Pid, o: OrderNo) returns (pending: bool)
      requires Linked() && p !in State().procs && o in timeout.accepted && o in State().sys.issued
      modifies this`trace
      ensures Linked() && old(trace) <= trace && State().sys == old(State()).sys
      ensures pending == (o in repo.orders && repo.orders[o].status == D.Pending)
      ensures State().procs == if pending then old(State()).procs[p := ToCancel(o, State().sys.issued[o])] else old(State()).procs
      ensures old(Safe()) ==> Safe()
    {
      hide Possible, Run, L.Reachable, ApplyRequest, ApplyConsumer, ApplyCron, ApplyPoll, O.Enabled;
      var order := repo.FindByOrderNo(o);
      pending := order.Some? && order.value.status == D.Pending;
      Take(ToReceive(p, o));
    }

    method CancelOrder(p: Pid, o: OrderNo, u: UserId, cancel: Call, f: D.CancelFaults) returns (cancelled: Option<D.Order>, error: bool)
      requires Linked() && p in State().procs && State().procs[p] == ToCancel(o, u)
      modifies this`trace, repo
      ensures Linked() && old(trace) <= trace
      ensures State().procs == if cancelled.Some? then old(State()).procs[p := ToRollback(o, u)] else old(State()).procs - {p}
      ensures State().sys == if cancel.Executed() && !f.read && !f.update
                             then old(State()).sys.(db := D.CancelExpired(old(repo.View()), o, Done(f)).0) else old(State()).sys
      ensures cancelled == if cancel.Works? && !f.read && !f.update then D.CancelExpired(old(repo.View()), o, Done(f)).1 else None
      ensures error <==> cancel.Error() || f.read
      ensures !f.stock && !f.log && old(Safe()) ==> Safe()
    {
      hide Possible, Run, L.Reachable, Apply, Enabled, Assumption, D.CancelExpired;
      D.NothingToCancel(repo.View(), o, Done(f));
      CancelEffect(setup, State(), p, o, u, NoEffect, Done(f));
      CancelEffect(setup, State(), p, o, u, ReplyLost, Done(f));
      CancelEffect(setup, State(), p, o, u, Fine, Done(f));
      if cancel.Fails? {
        Take(ToCancelOrder(p, NoEffect, Done(f)));
        return None, true;
      }
      cancelled, error := repo.CancelExpiredOrder(o, f);
      if f.read || f.update {
        Take(ToCancelOrder(p, NoEffect, Done(f)));
        return None, error || cancel.LosesReply?;
      }
      Take(ToCancelOrder(p, if cancel.LosesReply? then ReplyLost else Fine, Done(f)));
      if cancel.LosesReply? {
        return None, true;
      }
    }

    method ReturnStock(p: Pid, o: OrderNo, u: UserId, rollback: Call)
      requires Linked() && p in State().procs && State().procs[p] == ToRollback(o, u)
      modifies this`trace, cache
      ensures Linked() && old(trace) <= trace && State().procs == old(State()).procs - {p}
      ensures State().sys == if rollback.Executed()
                             then HandBack(old(State()).sys, o, R.CancelOrderRollback(old(cache.View()), u)) else old(State()).sys
      ensures cache.View() == if rollback.Executed()
                              then old(cache.View()).(stock := Some(1 + if old(cache.stock).None? then 0 else old(cache.stock).value),
                                                      purchased := old(cache.purchased) - {u})
                              else old(cache.View())
      ensures old(Safe()) ==> Safe()
    {
      hide Possible, Run, L.Reachable, ApplyRequest, ApplyConsumer, ApplyCron, ApplyPoll, O.Enabled;
      if rollback.Executed() {
        cache.RollbackCancelledOrder(u);
      }
      Take(ToRollBack(p, rollback.Executed()));
    }

    /** processTimeoutMessage. A failed status update is taken for a change made by somebody else and
        acknowledged; failures of the two unchecked statements go unnoticed. */
    method ProcessTimeoutMessage(p: Pid, o: OrderNo, u: UserId, f: TimeoutFaults) returns (retry: bool)
      requires Linked() && p !in State().procs && o in timeout.accepted
      requires o in State().sys.issued && State().sys.issued[o] == u
      modifies this`trace, cache, repo
      ensures Refines()
      ensures f.read.Works? && f.cancel.Works? && f.rollback.Works? && !f.statements.read && !f.statements.update ==>
                !retry && State().sys == TimedOut(old(State()).sys, o, u, Done(f.statements))
      // whatever becomes of the rollback, the cancellation stands and the message is acknowledged
      ensures f.read.Works? && f.cancel.Works? && !f.statements.read && !f.statements.update ==>
                && !retry && repo.View() == D.CancelExpired(old(repo.View()), o, Done(f.statements)).0
                && (f.rollback.Fails? ==> cache.View() == old(cache.View()))
      ensures f.read.Works? && f.cancel.Works? && !f.statements.read && f.statements.update ==>
                !retry && State().sys == old(State()).sys
      // exactly the errors of the read and of the cancellation ask for the message again
      ensures retry <==> f.read.Error() || (IsPending(old(repo.orders), o) && (f.cancel.Error() || f.statements.read))
      ensures !retry && !f.statements.update ==> !IsPending(repo.orders, o)
      // what is in the stores afterwards, whichever calls fail
      ensures var cancelled := f.read.Works? && IsPending(old(repo.orders), o)
                               && f.cancel.Executed() && !f.statements.read && !f.statements.update;
              && repo.View() == (if cancelled then D.CancelExpired(old(repo.View()), o, Done(f.statements)).0 else old(repo.View()))
              && cache.View() == if cancelled && f.cancel.Works? && f.rollback.Executed()
                                 then old(cache.View()).(stock := Some(1 + if old(cache.stock).None? then 0 else old(cache.stock).value),
                                                         purchased := old(cache.purchased) - {u})
                                 else old(cache.View())
      ensures !f.statements.stock && !f.statements.log && old(Safe()) ==> Safe()
    {
      hide Possible, Run, Apply, Enabled, L.Reachable, D.CancelExpired, TimedOut, HandBack, R.CancelOrderRollback, IsPending;
      PendingMeans(repo.View(), o, Done(f.statements));
      D.NothingToCancel(repo.View(), o, Done(f.statements));
      if f.read.Error() {
        return true;
      }
      var pending := ReceiveTimeout(p, o);
      if !pending {
        TimedOutCases(State().sys, o, u, Done(f.statements));
        assert D.CancelExpired(State().sys.db, o, Done(f.statements)) == (State().sys.db, None);
        return false;
      }
      retry := CancelAndReturn(p, o, u, f);
    }

    method CancelAndReturn(p: Pid, o: OrderNo, u: UserId, f: TimeoutFaults) returns (error: bool)
      requires Linked() && p in State().procs && State().procs[p] == ToCancel(o, u) && IsPending(repo.orders, o)
      modifies this`trace, cache, repo
      ensures Linked() && old(trace) <= trace && State().procs == old(State()).procs - {p}
      ensures error <==> f.cancel.Error() || f.statements.read
      ensures f.cancel.Works? && f.rollback.Works? && !f.statements.read && !f.statements.update ==>
                State().sys == TimedOut(old(State()).sys, o, u, Done(f.statements))
      ensures !f.statements.read && f.statements.update ==> State().sys == old(State()).sys
      ensures var cancelled := f.cancel.Executed() && !f.statements.read && !f.statements.update;
              && repo.View() == (if cancelled then D.CancelExpired(old(repo.View()), o, Done(f.statements)).0 else old(repo.View()))
              && cache.View() == if cancelled && f.cancel.Works? && f.rollback.Executed()
                                 then old(cache.View()).(stock := Some(1 + if old(cache.stock).None? then 0 else old(cache.stock).value),
                                                         purchased := old(cache.purchased) - {u})
                                 else old(cache.View())
      ensures !f.statements.stock && !f.statements.log && old(Safe()) ==> Safe()
    {
      hide Possible, Run, Apply, Enabled, L.Reachable, D.CancelExpired, TimedOut, HandBack, R.CancelOrderRollback, IsPending;
      PendingMeans(repo.View(), o, Done(f.statements));
      TimedOutCases(State().sys, o, u, Done(f.statements));
      D.NothingToCancel(repo.View(), o, Done(f.statements));
      var cancelled: Option<D.Order>;
      cancelled, error := CancelOrder(p, o, u, f.cancel, f.statements);
      if cancelled.Some? {
        ReturnStock(p, o, u, f.rollback);
      }
    }

    // ----- the other users of the stores -----

    /** PayOrder of a user: one conditional update. */
    method PayOrder(o: OrderNo, u: UserId) returns (ok: bool)
      requires Linked()
      modifies this`trace, repo
      ensures Refines()
      ensures ok <==> IsPending(old(repo.orders), o) && old(repo.orders)[o].user == u
      ensures repo.items == old(repo.items) && repo.activities == old(repo.activities) && repo.logs == old(repo.logs)
      ensures repo.orders == if ok then old(repo.orders)[o := old(repo.orders)[o].(status := D.Paid)] else old(repo.orders)
      ensures old(Safe()) ==> Safe()
    {
      hide Possible, Run, L.Reachable, ApplyRequest, ApplyConsumer, ApplyCron, ApplyPoll, O.Enabled;
      ok := repo.PayOrder(o, u);
      Take(Step.PayOrder(o, u));
    }

    /** QuerySeckillResult: an error of the first read is passed on, one of the second is skipped, one of the third counts
        as PROCESSING. */
    method QuerySeckillResult(p: Pid, u: UserId, asked: Option<OrderNo>, f: PollFaults) returns (reply: Option<Reply>)
      requires Linked() && p !in State().procs
      modifies this`trace
      ensures Refines() && State().sys == old(State()).sys
      ensures reply.None? <==> f.orders
      ensures reply == Some(Success) <==> !f.orders && D.HasBought(repo.orders, u, setup.activity)
      ensures reply == Some(Failed) <==>
                && !f.orders && !D.HasBought(repo.orders, u, setup.activity)
                && (asked.None? || f.pending || asked.value !in cache.pending)
                && !f.purchased && u !in cache.purchased
      ensures old(Safe()) ==> Safe()
    {
      hide Possible, Run, Apply, Enabled, L.Reachable, D.HasBought;
      if f.orders {
        return None;
      }
      var found := AskOrders(p, u, asked);
      if found.Some? {
        return Some(Success);
      }
      reply := AskRedis(p, u, asked, f);
    }

    /** The two reads of Redis. */
    method AskRedis(p: Pid, u: UserId, asked: Option<OrderNo>, f: PollFaults) returns (reply: Option<Reply>)
      requires Linked() && p in State().procs
      requires State().procs[p] == if asked.Some? then PollPending(u, asked.value) else PollPurchased(u)
      modifies this`trace
      ensures Linked() && old(trace) <= trace && State().sys == old(State()).sys && State().procs == old(State()).procs - {p}
      ensures reply in {Some(Processing), Some(Failed)}
      ensures reply == Some(Failed) <==>
                (asked.None? || f.pending || asked.value !in cache.pending) && !f.purchased && u !in cache.purchased
      ensures old(Safe()) ==> Safe()
    {
      hide Possible, Run, Apply, Enabled, L.Reachable;
      if asked.Some? {
        var pending := AskPending(p, u, asked.value, f.pending);
        if pending {
          return Some(Processing);
        }
      }
      var processing := AskBuyers(p, u, f.purchased);
      return Some(if processing then Processing else Failed);
    }

    method AskOrders(p: Pid, u: UserId, asked: Option<OrderNo>) returns (found: Option<OrderNo>)
      requires Linked() && p !in State().procs
      modifies this`trace
      ensures Linked() && old(trace) <= trace && State().sys == old(State()).sys
      ensures found.Some? <==> D.HasBought(repo.orders, u, setup.activity)
      ensures State().procs == if found.Some? then old(State()).procs
                               else old(State()).procs[p := if asked.Some? then PollPending(u, asked.value) else PollPurchased(u)]
      ensures old(Safe()) ==> Safe()
    {
      hide Possible, Run, L.Reachable, ApplyRequest, ApplyConsumer, ApplyCron, ApplyTimeout, O.Enabled;
      found := repo.FindByUserAndActivity(u, setup.activity);
      Take(PollStart(p, u, asked));
    }

    method AskPending(p: Pid, u: UserId, o: OrderNo, fails: bool) returns (pending: bool)
      requires Linked() && p in State().procs && State().procs[p] == PollPending(u, o)
      modifies this`trace
      ensures Linked() && old(trace) <= trace && State().sys == old(State()).sys
      ensures pending <==> !fails && o in cache.pending
      ensures State().procs == if pending then old(State()).procs - {p} else old(State()).procs[p := PollPurchased(u)]
      ensures old(Safe()) ==> Safe()
    {
      hide Possible, Run, L.Reachable, ApplyRequest, ApplyConsumer, ApplyCron, ApplyTimeout, O.Enabled;
      pending := !fails && o in cache.pending;
      Take(PollReadPending(p, fails));
    }

    method AskBuyers(p: Pid, u: UserId, fails: bool) returns (processing: bool)
      requires Linked() && p in State().procs && State().procs[p] == PollPurchased(u)
      modifies this`trace
      ensures Linked() && old(trace) <= trace && State().sys == old(State()).sys
      ensures processing <==> fails || u in cache.purchased
      ensures State().procs == old(State()).procs - {p}
      ensures old(Safe()) ==> Safe()
    {
      hide Possible, Run, L.Reachable, ApplyRequest, ApplyConsumer, ApplyCron, ApplyTimeout, O.Enabled;
      processing := fails || u in cache.purchased;
      Take(PollReadPurchased(p, fails));
    }
  }
}
