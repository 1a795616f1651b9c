/**
 The laws of the reservation protocol: what holds in every state that any number of
 interleaved processes can reach while the environment keeps its promises, and what happens
 when it does not.
 */
module ProtocolLaws {
  import opened Common
  import R = RedisStore
  import D = Orders
  import O = Outbox
  import opened Protocol
  import opened ProtocolSteps
  import opened ProtocolInvariant

  ghost predicate Reachable(setup: Setup, s: State) {
    exists steps :: Possible(setup, Init(setup), steps) && Assumed(setup, Init(setup), steps) && Run(setup, Init(setup), steps) == s
  }

  lemma ReachableInv(setup: Setup, s: State)
    requires Reachable(setup, s)
    ensures Inv(setup, s)
  {
    hide Inv;
    var steps :| Possible(setup, Init(setup), steps) && Assumed(setup, Init(setup), steps) && Run(setup, Init(setup), steps) == s;
    InitInv(setup);
    RunKeepsInv(setup, Init(setup), steps);
  }

  /** One more step with its promise kept. */
  lemma ReachableStep(setup: Setup, s: State, step: Step)
    requires Reachable(setup, s) && Enabled(s, step) && Assumption(s, setup, step)
    ensures Reachable(setup, Apply(setup, s, step))
  {
    hide Possible, Run, Assumed, Apply, Enabled, Assumption;
    var steps :| Possible(setup, Init(setup), steps) && Assumed(setup, Init(setup), steps) && Run(setup, Init(setup), steps) == s;
    OneMore(setup, Init(setup), steps, step);
  }

  // ----- exclusion -----

  /** Cron and consumers exclude each other: no order is both marked canceled and created, one
      consumer at a time is in the critical section of an order, and it is not canceled then. */
  lemma CronAndConsumersExclude(setup: Setup, s: State)
    requires Reachable(setup, s)
    ensures forall o :: o in s.sys.redis.canceled ==> o !in s.sys.db.orders
    ensures forall p, q :: p in s.procs && q in s.procs && p != q && s.procs[p].Critical() && s.procs[q].Critical() ==>
                             s.procs[p].o != s.procs[q].o
    ensures forall p :: p in s.procs && s.procs[p].TxCreate? ==>
                          s.procs[p].o in s.sys.redis.processing && s.procs[p].o !in s.sys.redis.canceled
  {
    hide Inv, SysOk, Reachable;
    ReachableInv(setup, s);
    StoresMean(setup, s);
    forall o | o in s.sys.redis.canceled
      ensures o !in s.sys.db.orders
    {
      MarkedIsGone(setup, s.sys, o);
    }
    forall p, q | p in s.procs && q in s.procs && p != q && s.procs[p].Critical() && s.procs[q].Critical()
      ensures s.procs[p].o != s.procs[q].o
    {
      TogetherMeans(setup, s, p, q);
    }
    forall p | p in s.procs && s.procs[p].TxCreate?
      ensures s.procs[p].o in s.sys.redis.processing && s.procs[p].o !in s.sys.redis.canceled
    {
      InvMeans(setup, s, p);
    }
  }

  // ----- conservation -----

  /** Units on the Redis shelf and users who have bought always add up to the warmed-up stock. */
  lemma RedisConservation(setup: Setup, s: State)
    requires Reachable(setup, s)
    ensures match s.sys.redis.stock
            case None => s.sys.redis.purchased == {}
            case Some(n) => n >= 0 && n + |s.sys.redis.purchased| == setup.w
  {
    ReachableInv(setup, s);
    if s.sys.redis.stock.None? {
      assert s.sys.held == {} && s.sys.redis.purchased == Owners(s.sys);
    }
  }

  /** The user whose purchase a step is about to roll back, and for which order. */
  ghost function Handback(s: State, step: Step): Option<(UserId, OrderNo)>
    requires Enabled(s, step)
  {
    match step
    case Compensate(p, true) => Some((s.procs[p].u, s.procs[p].o))
    case CronRollBack(p, true) =>
      if s.procs[p].pv.uid > 0 && s.procs[p].pv.pid > 0 then Some((s.procs[p].pv.uid, s.procs[p].o)) else None
    case ToRollBack(p, true) => Some((s.procs[p].u, s.procs[p].o))
    case _ => None
  }

  /** Every rollback script finds its user still among the buyers, and returns a token that no
      script has returned before. */
  lemma RollbackAtMostOnce(setup: Setup, s: State, step: Step)
    requires Reachable(setup, s) && Enabled(s, step)
    ensures var r := Handback(s, step);
            r.Some? ==> r.value.0 in s.sys.redis.purchased && r.value.1 in s.sys.held && s.sys.returned[r.value.1] == 0
    ensures forall o :: s.sys.returned[o] <= 1
    ensures forall o :: o in s.sys.issued ==> (s.sys.returned[o] == 0 <==> o in s.sys.held)
  {
    hide Inv, SysOk, ProcOk, Apply, Reachable;
    ReachableInv(setup, s);
    StoresMean(setup, s);
    TokensMean(setup, s.sys);
    if Handback(s, step).Some? {
      var p := step.p;
      InvMeans(setup, s, p);
      MayReturn(setup, s.sys, s.procs[p]);
      KnowsOwner(setup, s.sys, s.procs[p]);
    }
  }

  lemma TokensMean(setup: Setup, s: Sys)
    requires SysOk(setup, s)
    ensures forall o :: s.returned[o] <= 1
    ensures forall o :: o in s.issued ==> (s.returned[o] == 0 <==> o in s.held)
    ensures forall o :: o in s.held ==> o in s.issued && s.issued[o] in s.redis.purchased
  {
    forall o | o in s.held
      ensures o in s.issued && s.issued[o] in s.redis.purchased
    {
      assert s.issued[o] in Owners(s);
    }
  }

  // ----- no overselling -----

  lemma BooksBalance(setup: Setup, s: State)
    requires Inv(setup, s)
    ensures setup.activity in s.sys.db.activities
    ensures s.sys.db.activities[setup.activity].available + |D.Live(s.sys.db, setup.activity)| == setup.w
    ensures D.Live(s.sys.db, setup.activity) <= s.sys.held
  {
    D.LedgerBalances(s.sys.db, Opening(setup), setup.activity);
  }

  /** What Redis still offers the database can still deliver: its stock row exceeds the Redis
      stock by exactly the tokens without a live order. */
  lemma NoOversell(setup: Setup, s: State)
    requires Reachable(setup, s)
    ensures var live := D.Live(s.sys.db, setup.activity);
            && setup.activity in s.sys.db.activities
            && live <= s.sys.held
            && |live| <= setup.w
            && (s.sys.redis.stock.Some? ==>
                  s.sys.db.activities[setup.activity].available == s.sys.redis.stock.value + |s.sys.held - live|)
  {
    hide OutboxesOk, OrdersOk, PendingOk, NotOrphaned, D.Ledger;
    ReachableInv(setup, s);
    BooksBalance(setup, s);
    var live := D.Live(s.sys.db, setup.activity);
    assert |s.sys.held - live| == |s.sys.held| - |live| by {
      assert (s.sys.held - live) + live == s.sys.held;
    }
  }

  /** A consumer in its critical section is never told that the stock is used up: it creates the
      order, or the user already has one. */
  lemma NeverOutOfStock(setup: Setup, s: State, p: Pid, item: D.Item, commit: Commit)
    requires Reachable(setup, s) && Enabled(s, TxCreateOrder(p, item, commit))
    ensures var o := s.procs[p].o;
            var result := D.Create(s.sys.db, o, s.sys.issued[o], setup.activity, item).1;
            && result != D.StockNotEnough
            && (result == D.Created <==> forall q :: q in s.sys.db.orders ==> s.sys.db.orders[q].user != s.sys.issued[o])
            && (result == D.Created ==> o in s.sys.held)
  {
    hide Inv, SysOk, ProcOk, D.Create, Enabled, Apply;
    ReachableInv(setup, s);
    InCriticalSection(setup, s, p, item, commit);
    var o := s.procs[p].o;
    CreateResult(setup, s.sys, o, item);
    OneActivity(setup, s.sys);
    D.CreatedIff(s.sys.db, o, s.sys.issued[o], setup.activity, item);
  }

  lemma InCriticalSection(setup: Setup, s: State, p: Pid, item: D.Item, commit: Commit)
    requires Inv(setup, s) && Enabled(s, TxCreateOrder(p, item, commit))
    ensures p in s.procs && s.procs[p].TxCreate? && SysOk(setup, s.sys)
    ensures var o := s.procs[p].o;
            o in s.sys.issued && (o in s.sys.held || o in s.sys.db.orders)
  {
    hide Inv, SysOk;
    InvMeans(setup, s, p);
  }

  lemma OneActivity(setup: Setup, s: Sys)
    requires SysOk(setup, s)
    ensures forall q :: q in s.db.orders ==>
              s.db.orders[q].activity == setup.activity && q in s.issued && s.db.orders[q].user == s.issued[q]
  {
  }

  // ----- ownership -----

  /** The purchased set is exactly the owners of held tokens, nobody holds two, live orders hold
      theirs, and a user has at most one order row, also across buying again after a timeout. */
  lemma TokenOwnership(setup: Setup, s: State)
    requires Reachable(setup, s)
    ensures forall u :: u in s.sys.redis.purchased <==> exists o :: o in s.sys.held && o in s.sys.issued && s.sys.issued[o] == u
    ensures forall o, q :: o in s.sys.held && q in s.sys.held && o in s.sys.issued && q in s.sys.issued ==>
                             s.sys.issued[o] == s.sys.issued[q] ==> o == q
    ensures forall o :: o in s.sys.db.orders && s.sys.db.orders[o].status != D.Cancelled ==> o in s.sys.held
    ensures forall o, q :: o in s.sys.db.orders && q in s.sys.db.orders && s.sys.db.orders[o].user == s.sys.db.orders[q].user ==> o == q
  {
    ReachableInv(setup, s);
    assert s.sys.redis.purchased == Owners(s.sys);
    assert D.RowsOk(s.sys.db) && OrdersOk(setup, s.sys);
  }

  /** No orphaned reservation: a held token has its order, or a pending entry for the scanner, or a
      scanner has marked it canceled once, or its user bought before and that older order was cancelled. */
  lemma NoOrphans(setup: Setup, s: State, o: OrderNo)
    requires Reachable(setup, s) && o in s.sys.held
    ensures o in s.sys.issued
    ensures || o in s.sys.db.orders
            || o in s.sys.redis.pending
            || o in s.sys.marked
            || exists q :: && q in s.sys.db.orders && q != o && q !in s.sys.held
                           && s.sys.db.orders[q].user == s.sys.issued[o] && s.sys.db.orders[q].status == D.Cancelled
  {
    ReachableInv(setup, s);
    assert NotOrphaned(s.sys, o);
    if o !in s.sys.db.orders && o !in s.sys.redis.pending && o !in s.sys.marked {
      var q :| q in s.sys.db.orders && s.sys.db.orders[q].user == s.sys.issued[o];
      Facts(setup, s.sys, q);
      assert q != o && q !in s.sys.held;
    }
  }

  // ----- the database and the outboxes over time -----

  ghost predicate Grows(s: State, s': State) {
    && D.Evolves(s.sys.db, s'.sys.db)
    && O.Evolves(s.sys.tx, s'.sys.tx)
    && O.Evolves(s.sys.timeout, s'.sys.timeout)
    && s.sys.marked <= s'.sys.marked
    && s.sys.reported <= s'.sys.reported
  }

  ghost predicate Unchanged(s: State, s': State) {
    && s'.sys.db == s.sys.db
    && s'.sys.tx == s.sys.tx
    && s'.sys.timeout == s.sys.timeout
    && s'.sys.marked == s.sys.marked
    && s'.sys.reported == s.sys.reported
  }

  lemma SameIsUnchanged(s: State, s': State)
    requires s'.sys == s.sys
    ensures Unchanged(s, s')
  {
  }

  lemma UnchangedGrows(s: State, s': State)
    requires Unchanged(s, s')
    ensures Grows(s, s')
  {
  }

  /** Steps that change nothing that has to grow. */
  lemma ReadersChangeNothing(setup: Setup, s: State, step: Step)
    requires Enabled(s, step)
    requires Reads(step)
    ensures Apply(setup, s, step).sys == s.sys
  {
    hide O.Enabled, ApplyRequest, Enabled;
  }

  lemma RollbacksLeaveIt(setup: Setup, s: State, step: Step)
    requires Enabled(s, step) && RollsBack(step)
    ensures Unchanged(s, Apply(setup, s, step))
  {
    hide R.Rollback, R.CancelOrderRollback, R.DeletePending;
  }

  lemma RedisWritesLeaveIt(setup: Setup, s: State, step: Step)
    requires Enabled(s, step) && WritesRedis(step)
    ensures Unchanged(s, Apply(setup, s, step))
  {
    hide R.PreDeduct, R.TryMarkProcessing, R.DeletePending;
  }

  lemma ForgettingLeavesIt(setup: Setup, s: State, step: Step)
    requires Enabled(s, step) && Forgets(step)
    ensures Unchanged(s, Apply(setup, s, step))
  {
    hide O.Enabled, ApplyRequest, ApplyCron, ApplyTimeout, ApplyPoll;
  }

  lemma MarksGrow(setup: Setup, s: State, step: Step)
    requires Enabled(s, step) && (step.CronMarkCanceled? || step.Report?)
    ensures Grows(s, Apply(setup, s, step))
  {
    hide D.Evolves, O.Evolves;
    D.EvolvesItself(s.sys.db);
    O.EvolvesItself(s.sys.tx);
    O.EvolvesItself(s.sys.timeout);
  }

  lemma DbGrows(setup: Setup, s: State, step: Step)
    requires Enabled(s, step) && (step.TxCreateOrder? || step.ToCancelOrder? || step.PayOrder?)
    ensures Grows(s, Apply(setup, s, step))
  {
    hide D.Create, D.Pay, D.CancelExpired, D.Evolves, O.Evolves;
    D.EvolvesItself(s.sys.db);
    O.EvolvesItself(s.sys.tx);
    O.EvolvesItself(s.sys.timeout);
    match step {
      case TxCreateOrder(p, item, _) =>
        D.OpEvolves(s.sys.db, D.CreateOp(s.procs[p].o, s.sys.issued[s.procs[p].o], setup.activity, item));
      case ToCancelOrder(p, _, done) => D.OpEvolves(s.sys.db, D.CancelOp(s.procs[p].o, done));
      case PayOrder(o, u) => D.OpEvolves(s.sys.db, D.PayOp(o, u));
    }
  }

  lemma TxGrows(setup: Setup, s: State, step: Step)
    requires O.Inv(s.sys.tx) && Enabled(s, step) && (step.WriteRow? || step.WriteRowFails? || step.TxOutbox?)
    ensures Grows(s, Apply(setup, s, step))
  {
    hide D.Evolves, O.Evolves, O.Inv, O.Apply, O.InsertTask;
    D.EvolvesItself(s.sys.db);
    O.EvolvesItself(s.sys.tx);
    O.EvolvesItself(s.sys.timeout);
    match step {
      case TxOutbox(x) => O.StepKeepsInv(O.TX, s.sys.tx, x);
      case WriteRow(p, id, now) => O.InsertKeepsInv(s.sys.tx, id, s.procs[p].o, now, now);
      case WriteRowFails(p, written, now) =>
        if written.Some? {
          O.InsertKeepsInv(s.sys.tx, written.value, s.procs[p].o, now, now);
        }
    }
  }

  lemma TimeoutGrows(setup: Setup, s: State, step: Step)
    requires O.Inv(s.sys.timeout) && Enabled(s, step) && (step.TxSendTimeout? || step.TxLogTask? || step.TimeoutOutbox?)
    ensures Grows(s, Apply(setup, s, step))
  {
    hide D.Evolves, O.Inv, O.Apply, O.InsertTask;
    D.EvolvesItself(s.sys.db);
    O.EvolvesItself(s.sys.tx);
    O.EvolvesItself(s.sys.timeout);
    match step {
      case TimeoutOutbox(x) => O.StepKeepsInv(O.TIMEOUT, s.sys.timeout, x);
      case TxLogTask(p, written, now) =>
        if written.Some? {
          O.InsertKeepsInv(s.sys.timeout, written.value, s.procs[p].o, now + 30 * SECOND, now);
        }
      case TxSendTimeout(_, _, _) =>
    }
  }

  lemma StepGrows(setup: Setup, s: State, step: Step)
    requires O.Inv(s.sys.tx) && O.Inv(s.sys.timeout) && Enabled(s, step)
    ensures Grows(s, Apply(setup, s, step))
  {
    hide Apply, Enabled, Grows, O.Inv, Unchanged;
    match step {
      case CronMarkCanceled(_, _) | Report(_) => MarksGrow(setup, s, step);
      case TxCreateOrder(_, _, _) | ToCancelOrder(_, _, _) | PayOrder(_, _) => DbGrows(setup, s, step);
      case WriteRow(_, _, _) | WriteRowFails(_, _, _) | TxOutbox(_) => TxGrows(setup, s, step);
      case TxSendTimeout(_, _, _) | TxLogTask(_, _, _) | TimeoutOutbox(_) => TimeoutGrows(setup, s, step);
      case _ => QuietStepGrows(setup, s, step);
    }
  }

  lemma QuietStepGrows(setup: Setup, s: State, step: Step)
    requires Enabled(s, step) && (Reads(step) || RollsBack(step) || WritesRedis(step) || Forgets(step))
    ensures Grows(s, Apply(setup, s, step))
  {
    hide Apply, Enabled, Grows, Unchanged, Reads, RollsBack, WritesRedis, Forgets;
    var s' := Apply(setup, s, step);
    if Reads(step) {
      ReadersChangeNothing(setup, s, step);
      SameIsUnchanged(s, s');
    } else if RollsBack(step) {
      RollbacksLeaveIt(setup, s, step);
    } else if WritesRedis(step) {
      RedisWritesLeaveIt(setup, s, step);
    } else {
      ForgettingLeavesIt(setup, s, step);
    }
    UnchangedGrows(s, s');
  }

  /** Orders are never lost and keep their owner, paid and cancelled are final, outbox rows and
      accepted messages stay, sent is absorbing. */
  lemma {:induction false} RunGrows(setup: Setup, s: State, steps: seq<Step>)
    requires Inv(setup, s) && Possible(setup, s, steps) && Assumed(setup, s, steps)
    ensures Grows(s, Run(setup, s, steps))
    decreases |steps|
  {
    hide SysOk, Apply, Enabled, Assumption, ProcOk, Compatible, O.Inv;
    if steps != [] {
      var mid := Apply(setup, s, steps[0]);
      Books(setup, s.sys);
      StepGrows(setup, s, steps[0]);
      StepKeepsInvIff(setup, s, steps[0]);
      RunGrows(setup, mid, steps[1..]);
    }
  }

  /** The books of the database balance in every reachable state; each order has one deduct line,
      and the cancelled ones, and only they, exactly one return line. */
  lemma DatabaseBooks(setup: Setup, s: State)
    requires Reachable(setup, s)
    ensures D.Ledger(s.sys.db, Opening(setup))
    ensures forall o :: D.LogsOfOrder(s.sys.db.logs, o, D.Return)
                        == if o in s.sys.db.orders && s.sys.db.orders[o].status == D.Cancelled then 1 else 0
    ensures forall o :: s.sys.returned[o] <= 1
  {
    hide Inv, OutboxesOk, OrdersOk, PendingOk, NotOrphaned, ReturnedOk, StockOk, Owners;
    ReachableInv(setup, s);
    StoresMean(setup, s);
    assert D.LogLinesOk(s.sys.db, {});
  }

  /** A request that was told it is in has its outbox row, and if that row says sent the broker
      has accepted its message. */
  lemma ReportedHasRow(setup: Setup, s: State, o: OrderNo)
    requires Reachable(setup, s) && o in s.sys.reported
    ensures exists id :: id in s.sys.tx.table && s.sys.tx.table[id].order == o
                         && (s.sys.tx.table[id].status == O.Sent ==> o in s.sys.tx.accepted)
  {
    ReachableInv(setup, s);
    var id :| id in s.sys.tx.table && s.sys.tx.table[id].order == o;
    assert O.Inv(s.sys.tx);
  }

  // ----- returned means never created -----

  ghost predicate Returned(s: State, o: OrderNo) {
    o in s.sys.issued && o !in s.sys.held && o !in s.sys.db.orders
  }

  lemma RollbacksKeepReturned(setup: Setup, s: State, step: Step, o: OrderNo)
    requires Enabled(s, step) && Returned(s, o) && (RollsBack(step) || step.CronMarkCanceled?)
    ensures Returned(Apply(setup, s, step), o)
  {
    hide O.Enabled, ApplyConsumer, ApplyPoll;
  }

  lemma RedisStepsKeepReturned(setup: Setup, s: State, step: Step, o: OrderNo)
    requires Enabled(s, step) && Returned(s, o) && (WritesRedis(step) || Forgets(step))
    ensures Returned(Apply(setup, s, step), o)
  {
    hide O.Enabled, ApplyTimeout, ApplyPoll;
  }

  lemma TableStepsKeepReturned(setup: Setup, s: State, step: Step, o: OrderNo)
    requires Enabled(s, step) && Returned(s, o)
    requires step.WriteRow? || step.WriteRowFails? || step.Report? || step.TxSendTimeout? || step.TxLogTask?
             || step.TxOutbox? || step.TimeoutOutbox? || step.ToCancelOrder? || step.PayOrder?
    ensures Returned(Apply(setup, s, step), o)
  {
    hide O.Apply, O.InsertTask, O.AcceptDirect, O.Enabled;
  }

  lemma ReturnedStep(setup: Setup, s: State, step: Step, o: OrderNo)
    requires Inv(setup, s) && Enabled(s, step) && Returned(s, o)
    ensures Returned(Apply(setup, s, step), o)
  {
    hide Inv, Enabled, Apply;
    if step.TxCreateOrder? {
      ReturnedIsNotCreated(setup, s, step.p, step.item, step.commit, o);
    } else if Reads(step) {
      ReadersChangeNothing(setup, s, step);
    } else if RollsBack(step) || step.CronMarkCanceled? {
      RollbacksKeepReturned(setup, s, step, o);
    } else if WritesRedis(step) || Forgets(step) {
      RedisStepsKeepReturned(setup, s, step, o);
    } else {
      TableStepsKeepReturned(setup, s, step, o);
    }
  }

  lemma ReturnedIsNotCreated(setup: Setup, s: State, p: Pid, item: D.Item, commit: Commit, o: OrderNo)
    requires Inv(setup, s) && Enabled(s, TxCreateOrder(p, item, commit)) && Returned(s, o)
    ensures Returned(Apply(setup, s, TxCreateOrder(p, item, commit)), o)
  {
    hide SysOk;
    assert ProcOk(setup, s.sys, s.procs[p]);
  }

  /** What the canceled marker is for: an order whose unit went back on the shelf is never created, however
      late, often or reordered its messages come and however often its markers expire. */
  lemma {:induction false} ReturnedNeverCreated(setup: Setup, s: State, steps: seq<Step>, o: OrderNo)
    requires Inv(setup, s) && Possible(setup, s, steps) && Assumed(setup, s, steps)
    requires Returned(s, o)
    ensures Returned(Run(setup, s, steps), o)
    decreases |steps|
  {
    hide Inv, Apply, Enabled, Assumption, Returned;
    if steps != [] {
      ReturnedStep(setup, s, steps[0], o);
      StepKeepsInvIff(setup, s, steps[0]);
      ReturnedNeverCreated(setup, Apply(setup, s, steps[0]), steps[1..], o);
    }
  }

  // ----- polling -----

  ghost predicate HasOrder(s: State, u: UserId) {
    exists o :: o in s.sys.db.orders && s.sys.db.orders[o].user == u
  }

  ghost predicate HasToken(s: State, u: UserId) {
    exists o :: o in s.sys.held && o in s.sys.issued && s.sys.issued[o] == u
  }

  lemma BoughtMeans(setup: Setup, s: State, u: UserId)
    requires Reachable(setup, s)
    ensures D.HasBought(s.sys.db.orders, u, setup.activity) <==> HasOrder(s, u)
  {
    ReachableInv(setup, s);
    OneActivity(setup, s.sys);
    if o :| o in s.sys.db.orders && s.sys.db.orders[o].user == u {
      assert s.sys.db.orders[o].activity == setup.activity;
    }
  }

  lemma BuyersMean(setup: Setup, s: State, u: UserId)
    requires Reachable(setup, s)
    ensures u in s.sys.redis.purchased <==> HasToken(s, u)
  {
    ReachableInv(setup, s);
    assert s.sys.redis.purchased == Owners(s.sys);
  }

  /** What each of the three reads of a poll answers, and when the poll goes on, in terms of orders and tokens:
      SUCCESS for an order row of the user; then PROCESSING for a pending entry that was asked for and could be read;
      then FAILED if the buyers could be read and the user holds no token, and PROCESSING otherwise. */
  lemma PollAnswers(setup: Setup, s: State, step: Step, u: UserId)
    requires Reachable(setup, s) && Enabled(s, step)
    ensures step.PollStart? && step.u == u ==>
              Answer(setup, s, step) == if HasOrder(s, u) then Some((u, Success)) else None
    ensures step.PollReadPending? && s.procs[step.p].u == u ==>
              Answer(setup, s, step) == if !step.failed && s.procs[step.p].o in s.sys.redis.pending then Some((u, Processing)) else None
    ensures step.PollReadPurchased? && s.procs[step.p].u == u ==>
              Answer(setup, s, step) == Some((u, if !step.failed && !HasToken(s, u) then Failed else Processing))
    ensures !OfPoll(step) ==> Answer(setup, s, step).None?
  {
    hide Reachable;
    BoughtMeans(setup, s, u);
    BuyersMean(setup, s, u);
  }

  /** A poll reads three times at different moments; still, whoever it tells FAILED holds no
      token at that moment, so a user who holds one throughout is never told so. */
  lemma FailedMeansNoToken(setup: Setup, s: State, step: Step, u: UserId)
    requires Reachable(setup, s) && Enabled(s, step) && Answer(setup, s, step) == Some((u, Failed))
    ensures forall o :: o in s.sys.issued && s.sys.issued[o] == u ==> o !in s.sys.held && s.sys.returned[o] == 1
    ensures forall o :: o in s.sys.db.orders && s.sys.db.orders[o].user == u ==> s.sys.db.orders[o].status == D.Cancelled
  {
    ReachableInv(setup, s);
    forall o | o in s.sys.held
      ensures o in s.sys.issued && s.sys.issued[o] in s.sys.redis.purchased
    {
      assert s.sys.issued[o] in Owners(s.sys);
    }
  }

  /** Once a user has been told SUCCESS, every later poll that reaches the database says SUCCESS. */
  lemma SuccessIsStable(setup: Setup, s: State, first: Step, rest: seq<Step>, u: UserId, p: Pid, asked: Option<OrderNo>)
    requires Reachable(setup, s) && Enabled(s, first) && Answer(setup, s, first) == Some((u, Success))
    requires Possible(setup, s, rest) && Assumed(setup, s, rest)
    requires p !in Run(setup, s, rest).procs
    ensures Answer(setup, Run(setup, s, rest), PollStart(p, u, asked)) == Some((u, Success))
  {
    hide Inv, O.Evolves, Possible, Run, Assumed, Assumption, Apply, Reachable;
    ReachableInv(setup, s);
    RunGrows(setup, s, rest);
    var o :| o in s.sys.db.orders && s.sys.db.orders[o].user == u && s.sys.db.orders[o].activity == setup.activity;
    var s' := Run(setup, s, rest);
    assert o in s'.sys.db.orders && s'.sys.db.orders[o].user == u && s'.sys.db.orders[o].activity == setup.activity;
  }

  // ----- repeated warm-up -----

  lemma WarmedUpAgain(setup: Setup, s: State, n: int)
    ensures Enabled(s, WarmUp(n)) && Apply(setup, s, WarmUp(n)) == s.(sys := s.sys.(redis := s.sys.redis.(stock := Some(n))))
  {
    hide ApplyRequest, ApplyConsumer, ApplyCron, ApplyTimeout, ApplyPoll;
  }

  /** Warming up again writes the stock row over the Redis stock. That is harmless exactly when every held token
      already has its live order: Redis then offers too many units, one for each token that has none.
      `ProtocolFaults.WarmUpAgainOversells` is a run in which it oversells. */
  lemma WarmUpAgain(setup: Setup, s: State)
    requires Reachable(setup, s) && s.sys.redis.stock.Some? && setup.activity in s.sys.db.activities
    ensures var again := WarmUp(s.sys.db.activities[setup.activity].available);
            var s' := Apply(setup, s, again);
            && (Inv(setup, s') <==> s.sys.held == D.Live(s.sys.db, setup.activity))
            && s'.sys.redis.stock.Some?
            && s'.sys.redis.stock.value + |s'.sys.redis.purchased| == setup.w + |s.sys.held - D.Live(s.sys.db, setup.activity)|
  {
    hide Inv, Apply, ApplyRequest, ApplyConsumer, ApplyCron, ApplyTimeout, ApplyPoll;
    WarmedUpAgain(setup, s, s.sys.db.activities[setup.activity].available);
    ReachableInv(setup, s);
    NoOversell(setup, s);
    RedisConservation(setup, s);
    WarmUpStep(setup, s, s.sys.db.activities[setup.activity].available);
    var rest := s.sys.held - D.Live(s.sys.db, setup.activity);
    if |rest| == 0 {
      assert rest == {};
    }
  }
}
