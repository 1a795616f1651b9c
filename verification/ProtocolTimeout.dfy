/**
 Which unpaid orders can still time out. The timeout message of an order is sent after the order is committed; a
 crash in between, or a send and an outbox insert that both fail, leave an order nobody will ever cancel. This
 module says exactly which orders these are.
 */
module ProtocolTimeout {
  import opened Common
  import R = RedisStore
  import D = Orders
  import O = Outbox
  import opened Protocol
  import opened ProtocolSteps
  import opened ProtocolInvariant
  import ProtocolLaws
  import ProtocolStranded

  /** Between the commit of the order and the end of its arrangements, or about to cancel it. */
  predicate Arranging(x: Proc, o: OrderNo) {
    (x.TxHdel? || x.TxSend? || x.TxLog? || x.ToCancel?) && x.o == o
  }

  /** The broker has the timeout message of `o`, or its outbox has, or a process is still on its way there. */
  ghost predicate Arranged(s: State, o: OrderNo) {
    || o in s.sys.timeout.accepted
    || O.HasOrder(s.sys.timeout.table, o)
    || exists p :: p in s.procs && Arranging(s.procs[p], o)
  }

  /** Nobody will cancel this order. */
  ghost predicate Forgotten(s: State, o: OrderNo) {
    && o in s.sys.db.orders && s.sys.db.orders[o].status != D.Cancelled
    && !Arranged(s, o)
  }

  ghost predicate IsUnpaid(s: State, o: OrderNo) {
    o in s.sys.db.orders && s.sys.db.orders[o].status == D.Pending
  }

  ghost predicate IsCancelled(s: State, o: OrderNo) {
    o in s.sys.db.orders && s.sys.db.orders[o].status == D.Cancelled
  }

  // ----- once forgotten, always forgotten -----

  lemma RequestsForgetToo(setup: Setup, s: State, step: Step, o: OrderNo)
    requires Enabled(s, step) && Forgotten(s, o) && OfRequest(step)
    ensures Forgotten(Apply(setup, s, step), o)
  {
    hide O.HasOrder, O.InsertTask, O.Enabled, R.PreDeduct, R.Rollback, ApplyConsumer, ApplyCron, ApplyTimeout, ApplyPoll;
  }

  lemma ScansForgetToo(setup: Setup, s: State, step: Step, o: OrderNo)
    requires Enabled(s, step) && Forgotten(s, o) && OfCron(step)
    ensures Forgotten(Apply(setup, s, step), o)
  {
    hide O.HasOrder, O.Enabled, R.Rollback, R.MarkCanceledIfPending, ApplyRequest, ApplyConsumer, ApplyTimeout, ApplyPoll;
  }

  lemma PollsForgetToo(setup: Setup, s: State, step: Step, o: OrderNo)
    requires Enabled(s, step) && Forgotten(s, o) && OfPoll(step)
    ensures Forgotten(Apply(setup, s, step), o)
  {
    hide O.HasOrder, O.Enabled, D.HasBought, ApplyRequest, ApplyConsumer, ApplyCron, ApplyTimeout;
  }

  lemma TimeoutsForgetToo(setup: Setup, s: State, step: Step, o: OrderNo)
    requires Enabled(s, step) && Forgotten(s, o) && OfTimeout(step)
    ensures Forgotten(Apply(setup, s, step), o)
  {
    hide O.HasOrder, O.Enabled, R.CancelOrderRollback, ApplyRequest, ApplyConsumer, ApplyCron, ApplyPoll;
  }

  lemma ConsumersForgetToo(setup: Setup, s: State, step: Step, o: OrderNo)
    requires Enabled(s, step) && Forgotten(s, o) && OfConsumer(step)
    requires !step.TxCreateOrder? && !step.TxSendTimeout? && !step.TxLogTask?
    ensures Forgotten(Apply(setup, s, step), o)
  {
    hide O.HasOrder, O.Enabled, R.TryMarkProcessing, ApplyRequest, ApplyCron, ApplyTimeout, ApplyPoll;
  }

  lemma SendsForgetToo(setup: Setup, s: State, step: Step, o: OrderNo)
    requires Enabled(s, step) && Forgotten(s, o) && (step.TxSendTimeout? || step.TxLogTask?)
    ensures Forgotten(Apply(setup, s, step), o)
  {
    hide O.HasOrder, O.InsertTask, O.Enabled, ApplyRequest, ApplyCron, ApplyTimeout, ApplyPoll;
    if step.TxLogTask? && step.written.Some? {
      RowOfAnother(s.sys.timeout, step.written.value, s.procs[step.p].o, step.now + 30 * SECOND, step.now, o);
    }
  }

  lemma RowOfAnother(t: O.System, id: O.TaskId, q: OrderNo, next: int, now: int, o: OrderNo)
    requires id !in t.table && q != o && !O.HasOrder(t.table, o)
    ensures !O.HasOrder(O.InsertTask(t, id, q, next, now).table, o)
    ensures O.InsertTask(t, id, q, next, now).accepted == t.accepted
  {
  }

  /** A second creation of the order is refused, so the consumer goes the way of the duplicates, which sends nothing. */
  lemma CreationsForgetToo(setup: Setup, s: State, step: Step, o: OrderNo)
    requires Enabled(s, step) && Forgotten(s, o) && step.TxCreateOrder?
    ensures Forgotten(Apply(setup, s, step), o)
  {
    hide O.HasOrder, O.Enabled, ApplyRequest, ApplyCron, ApplyTimeout, ApplyPoll;
  }

  lemma OutboxForgetsToo(setup: Setup, s: State, step: Step, o: OrderNo)
    requires Inv(setup, s) && Enabled(s, step) && Forgotten(s, o) && step.TimeoutOutbox?
    ensures Forgotten(Apply(setup, s, step), o)
  {
    hide Inv, SysOk, Enabled, Apply, O.Inv, O.Apply, O.Enabled;
    StoresMean(setup, s);
    TimeoutsAreOk(setup, s, step);
    var t, t' := s.sys.timeout, O.Apply(O.TIMEOUT, s.sys.timeout, step.step);
    O.StepKeepsInv(O.TIMEOUT, t, step.step);
    SameOrders(t, t', o);
  }

  lemma TimeoutsAreOk(setup: Setup, s: State, step: Step)
    requires SysOk(setup, s.sys) && Enabled(s, step) && step.TimeoutOutbox?
    ensures O.Inv(s.sys.timeout) && O.Enabled(s.sys.timeout, step.step)
    ensures Apply(setup, s, step) == s.(sys := s.sys.(timeout := O.Apply(O.TIMEOUT, s.sys.timeout, step.step)))
  {
    hide O.Inv, O.Enabled, O.Apply, ApplyRequest, ApplyConsumer, ApplyCron, ApplyTimeout, ApplyPoll;
  }

  lemma SameOrders(t: O.System, t': O.System, o: OrderNo)
    requires O.Evolves(t, t') && t'.table.Keys == t.table.Keys && !O.HasOrder(t.table, o)
    ensures !O.HasOrder(t'.table, o)
  {
  }

  lemma OthersForgetToo(setup: Setup, s: State, step: Step, o: OrderNo)
    requires Enabled(s, step) && Forgotten(s, o)
    requires step.WarmUp? || step.MarkerExpires? || step.MessageDropped? || step.CanceledExpires? || step.TxOutbox? || step.Crash?
    ensures Forgotten(Apply(setup, s, step), o)
  {
    hide O.HasOrder, O.Apply, O.Enabled, ApplyRequest, ApplyConsumer, ApplyCron, ApplyTimeout, ApplyPoll;
  }

  lemma ForgottenStep(setup: Setup, s: State, step: Step, o: OrderNo)
    requires Inv(setup, s) && Enabled(s, step) && Forgotten(s, o)
    ensures Forgotten(Apply(setup, s, step), o)
  {
    hide Inv, Enabled, Apply, Forgotten;
    if OfRequest(step) {
      RequestsForgetToo(setup, s, step, o);
    } else if step.TxCreateOrder? {
      CreationsForgetToo(setup, s, step, o);
    } else if step.TxSendTimeout? || step.TxLogTask? {
      SendsForgetToo(setup, s, step, o);
    } else if OfConsumer(step) {
      ConsumersForgetToo(setup, s, step, o);
    } else if OfCron(step) {
      ScansForgetToo(setup, s, step, o);
    } else if OfTimeout(step) {
      TimeoutsForgetToo(setup, s, step, o);
    } else if OfPoll(step) {
      PollsForgetToo(setup, s, step, o);
    } else if step.TimeoutOutbox? {
      OutboxForgetsToo(setup, s, step, o);
    } else {
      OthersForgetToo(setup, s, step, o);
    }
  }

  /** A forgotten order is paid or stays unpaid for ever, whoever does what. */
  lemma {:induction false} ForgottenForever(setup: Setup, s: State, steps: seq<Step>, o: OrderNo)
    requires Inv(setup, s) && Possible(setup, s, steps) && Assumed(setup, s, steps) && Forgotten(s, o)
    ensures Forgotten(Run(setup, s, steps), o)
    decreases |steps|
  {
    hide Inv, Enabled, Apply, Assumption, Forgotten;
    if steps != [] {
      ForgottenStep(setup, s, steps[0], o);
      StepKeepsInvIff(setup, s, steps[0]);
      ForgottenForever(setup, Apply(setup, s, steps[0]), steps[1..], o);
    }
  }

  // ----- what is arranged can happen -----

  /** The order is cancelled in the database and its unit is back in both stocks. */
  ghost predicate TimedOut(s: State, s': State, o: OrderNo) {
    && o in s.sys.db.orders && IsCancelled(s', o) && o !in s'.sys.held
    && s'.sys.redis == R.CancelOrderRollback(s.sys.redis, s.sys.db.orders[o].user)
    && s'.sys.db == D.CancelExpired(s.sys.db, o, D.BOTH).0
  }

  lemma CancelStep(setup: Setup, s: State, p: Pid, o: OrderNo)
    requires p in s.procs && s.procs[p].ToCancel? && s.procs[p].o == o && IsUnpaid(s, o)
    ensures var step := ToCancelOrder(p, Fine, D.BOTH);
            && Enabled(s, step) && Assumption(s, setup, step)
            && Apply(setup, s, step) == Goto(s, s.sys.(db := D.CancelExpired(s.sys.db, o, D.BOTH).0), p, ToRollback(o, s.procs[p].u))
  {
    hide ApplyRequest, ApplyConsumer, ApplyCron, ApplyPoll;
  }

  lemma ReturnStep(setup: Setup, s: State, p: Pid)
    requires p in s.procs && s.procs[p].ToRollback?
    ensures var step := ToRollBack(p, true);
            && Enabled(s, step) && Assumption(s, setup, step)
            && Apply(setup, s, step)
               == Stop(s, HandBack(s.sys, s.procs[p].o, R.CancelOrderRollback(s.sys.redis, s.procs[p].u)), p)
  {
    hide ApplyRequest, ApplyConsumer, ApplyCron, ApplyPoll;
  }

  lemma CancelMeans(db: D.Db, o: OrderNo)
    requires o in db.orders && db.orders[o].status == D.Pending
    ensures var db' := D.CancelExpired(db, o, D.BOTH).0;
            o in db'.orders && db'.orders[o].status == D.Cancelled && db'.orders[o].user == db.orders[o].user
  {
  }

  lemma CancellerFinishes(setup: Setup, s: State, p: Pid, o: OrderNo) returns (steps: seq<Step>)
    requires p in s.procs && IsUnpaid(s, o) && s.procs[p] == ToCancel(o, s.sys.db.orders[o].user)
    ensures Possible(setup, s, steps) && Assumed(setup, s, steps) && TimedOut(s, Run(setup, s, steps), o)
  {
    hide Possible, Run, Assumed, Enabled, Assumption, Apply, D.CancelExpired;
    Nothing(setup, s);
    CancelStep(setup, s, p, o);
    CancelMeans(s.sys.db, o);
    OneMore(setup, s, [], ToCancelOrder(p, Fine, D.BOTH));
    steps := [] + [ToCancelOrder(p, Fine, D.BOTH)];
    ReturnStep(setup, Run(setup, s, steps), p);
    OneMore(setup, s, steps, ToRollBack(p, true));
    steps := steps + [ToRollBack(p, true)];
  }

  lemma ReceiveStep(setup: Setup, s: State, p: Pid, o: OrderNo)
    requires p !in s.procs && o in s.sys.timeout.accepted && o in s.sys.issued && IsUnpaid(s, o)
    ensures Enabled(s, ToReceive(p, o)) && Assumption(s, setup, ToReceive(p, o))
    ensures Apply(setup, s, ToReceive(p, o)) == Goto(s, s.sys, p, ToCancel(o, s.sys.issued[o]))
  {
    hide ApplyRequest, ApplyConsumer, ApplyCron, ApplyPoll;
  }

  lemma OwnerIsKnown(setup: Setup, s: Sys, o: OrderNo)
    requires SysOk(setup, s) && o in s.db.orders
    ensures o in s.issued && s.issued[o] == s.db.orders[o].user
  {
  }

  lemma MessageTimesOut(setup: Setup, s: State, o: OrderNo) returns (steps: seq<Step>)
    requires Inv(setup, s) && IsUnpaid(s, o) && o in s.sys.timeout.accepted
    ensures Possible(setup, s, steps) && Assumed(setup, s, steps) && TimedOut(s, Run(setup, s, steps), o)
  {
    hide Possible, Run, Assumed, Enabled, Assumption, Apply, Inv, SysOk;
    StoresMean(setup, s);
    OwnerIsKnown(setup, s.sys, o);
    var p := ProtocolStranded.SmallerThanAll(s.procs.Keys);
    assert p !in s.procs;
    Nothing(setup, s);
    ReceiveStep(setup, s, p, o);
    OneMore(setup, s, [], ToReceive(p, o));
    steps := [] + [ToReceive(p, o)];
    var finish := CancellerFinishes(setup, Run(setup, s, steps), p, o);
    RunsCompose(setup, s, steps, finish);
    steps := steps + finish;
  }

  /** Only the timeout outbox and its messages have changed, and that of `o` is with the broker. */
  ghost predicate Arrives(s: State, s': State, o: OrderNo) {
    s' == s.(sys := s.sys.(timeout := s'.sys.timeout)) && o in s'.sys.timeout.accepted
  }

  lemma StepOfOutbox(setup: Setup, s: State, x: O.Step)
    requires O.Enabled(s.sys.timeout, x)
    ensures Enabled(s, TimeoutOutbox(x)) && Assumption(s, setup, TimeoutOutbox(x))
    ensures Apply(setup, s, TimeoutOutbox(x)) == s.(sys := s.sys.(timeout := O.Apply(O.TIMEOUT, s.sys.timeout, x)))
  {
    hide O.Enabled, O.Apply, ApplyRequest, ApplyConsumer, ApplyCron, ApplyTimeout, ApplyPoll;
  }

  /** A row that is not sent is requeued if it is dead, claimed by a new sender, and sent. */
  lemma RowSteps(t: O.System, id: O.TaskId, w: nat)
    requires id in t.table && t.table[id].status != O.Sent && w !in t.senders
    ensures O.Enabled(t, O.Requeue(id, 0))
    ensures var t1 := O.Apply(O.TIMEOUT, t, O.Requeue(id, 0));
            && id in t1.table && t1.table[id].status == O.Pending && t1.table[id].order == t.table[id].order
            && O.Enabled(t1, O.Claim(w, id, t1.table[id].nextRetryAt, 1))
    ensures var t1 := O.Apply(O.TIMEOUT, t, O.Requeue(id, 0));
            var t2 := O.Apply(O.TIMEOUT, t1, O.Claim(w, id, t1.table[id].nextRetryAt, 1));
            && O.Enabled(t2, O.Send(w, true, true))
            && t.table[id].order in O.Apply(O.TIMEOUT, t2, O.Send(w, true, true)).accepted
  {
  }

  lemma RowIsSent(setup: Setup, s: State, o: OrderNo) returns (steps: seq<Step>)
    requires Inv(setup, s) && O.HasOrder(s.sys.timeout.table, o)
    ensures Possible(setup, s, steps) && Assumed(setup, s, steps) && Arrives(s, Run(setup, s, steps), o)
  {
    hide Possible, Run, Assumed, Enabled, Assumption, Apply, Inv, SysOk, O.Enabled, O.Apply;
    StoresMean(setup, s);
    Nothing(setup, s);
    steps := [];
    var t := s.sys.timeout;
    var id :| id in t.table && t.table[id].order == o;
    if t.table[id].status == O.Sent {
      SentIsAccepted(setup, s.sys, id);
    } else {
      var w := ProtocolStranded.SmallerThanAll(t.senders.Keys);
      assert w !in t.senders;
      RowSteps(t, id, w);
      StepOfOutbox(setup, s, O.Requeue(id, 0));
      OneMore(setup, s, steps, TimeoutOutbox(O.Requeue(id, 0)));
      steps := steps + [TimeoutOutbox(O.Requeue(id, 0))];
      var s1 := Run(setup, s, steps);
      var claim := O.Claim(w, id, s1.sys.timeout.table[id].nextRetryAt, 1);
      StepOfOutbox(setup, s1, claim);
      OneMore(setup, s, steps, TimeoutOutbox(claim));
      steps := steps + [TimeoutOutbox(claim)];
      StepOfOutbox(setup, Run(setup, s, steps), O.Send(w, true, true));
      OneMore(setup, s, steps, TimeoutOutbox(O.Send(w, true, true)));
      steps := steps + [TimeoutOutbox(O.Send(w, true, true))];
    }
  }

  lemma SentIsAccepted(setup: Setup, s: Sys, id: O.TaskId)
    requires SysOk(setup, s) && id in s.timeout.table && s.timeout.table[id].status == O.Sent
    ensures s.timeout.table[id].order in s.timeout.accepted
  {
  }

  lemma RowTimesOut(setup: Setup, s: State, o: OrderNo) returns (steps: seq<Step>)
    requires Inv(setup, s) && IsUnpaid(s, o) && O.HasOrder(s.sys.timeout.table, o)
    ensures Possible(setup, s, steps) && Assumed(setup, s, steps) && TimedOut(s, Run(setup, s, steps), o)
  {
    hide Possible, Run, Assumed, Inv, O.HasOrder;
    steps := RowIsSent(setup, s, o);
    RunKeepsInv(setup, s, steps);
    var s1 := Run(setup, s, steps);
    var more := MessageTimesOut(setup, s1, o);
    RunsCompose(setup, s, steps, more);
    steps := steps + more;
  }

  lemma SendStep(setup: Setup, s: State, p: Pid)
    requires p in s.procs && s.procs[p].TxSend?
    ensures var step := TxSendTimeout(p, true, true);
            && Enabled(s, step) && Assumption(s, setup, step)
            && Apply(setup, s, step)
               == Goto(s, s.sys.(timeout := O.AcceptDirect(s.sys.timeout, s.procs[p].o)), p, TxClear(s.procs[p].o))
  {
    hide ApplyRequest, ApplyCron, ApplyTimeout, ApplyPoll;
  }

  /** The entry may stay where it is. */
  lemma SkipDelete(setup: Setup, s: State, p: Pid)
    requires p in s.procs && s.procs[p].TxHdel?
    ensures var step := TxDeletePending(p, false);
            && Enabled(s, step) && Assumption(s, setup, step)
            && Apply(setup, s, step) == Goto(s, s.sys, p, TxSend(s.procs[p].o))
  {
    hide ApplyRequest, ApplyCron, ApplyTimeout, ApplyPoll;
  }

  lemma LogStep(setup: Setup, s: State, p: Pid, id: O.TaskId)
    requires p in s.procs && s.procs[p].TxLog? && id !in s.sys.timeout.table
    ensures var step := TxLogTask(p, Some(id), 0);
            && Enabled(s, step) && Assumption(s, setup, step)
            && Apply(setup, s, step)
               == Goto(s, s.sys.(timeout := O.InsertTask(s.sys.timeout, id, s.procs[p].o, 30 * SECOND, 0)), p, TxClear(s.procs[p].o))
  {
    hide O.InsertTask, ApplyRequest, ApplyCron, ApplyTimeout, ApplyPoll;
  }

  lemma SenderTimesOut(setup: Setup, s: State, p: Pid, o: OrderNo) returns (steps: seq<Step>)
    requires Inv(setup, s) && IsUnpaid(s, o) && p in s.procs && s.procs[p] == TxSend(o)
    ensures Possible(setup, s, steps) && Assumed(setup, s, steps) && TimedOut(s, Run(setup, s, steps), o)
  {
    hide Possible, Run, Assumed, Enabled, Assumption, Apply, Inv;
    Nothing(setup, s);
    SendStep(setup, s, p);
    OneMore(setup, s, [], TxSendTimeout(p, true, true));
    steps := [] + [TxSendTimeout(p, true, true)];
    RunKeepsInv(setup, s, steps);
    var more := MessageTimesOut(setup, Run(setup, s, steps), o);
    RunsCompose(setup, s, steps, more);
    steps := steps + more;
  }

  lemma DeleterTimesOut(setup: Setup, s: State, p: Pid, o: OrderNo) returns (steps: seq<Step>)
    requires Inv(setup, s) && IsUnpaid(s, o) && p in s.procs && s.procs[p] == TxHdel(o)
    ensures Possible(setup, s, steps) && Assumed(setup, s, steps) && TimedOut(s, Run(setup, s, steps), o)
  {
    hide Possible, Run, Assumed, Enabled, Assumption, Apply, Inv;
    Nothing(setup, s);
    SkipDelete(setup, s, p);
    OneMore(setup, s, [], TxDeletePending(p, false));
    steps := [] + [TxDeletePending(p, false)];
    RunKeepsInv(setup, s, steps);
    var more := SenderTimesOut(setup, Run(setup, s, steps), p, o);
    RunsCompose(setup, s, steps, more);
    steps := steps + more;
  }

  lemma FreshRow(keys: set<O.TaskId>) returns (id: O.TaskId)
    ensures id !in keys
  {
    var taken := set k | k in keys && k >= 0 :: k;
    var naturals: set<nat> := set k: nat | k in taken;
    id := ProtocolStranded.SmallerThanAll(naturals);
    assert id in keys ==> id in naturals;
  }

  lemma LoggerTimesOut(setup: Setup, s: State, p: Pid, o: OrderNo) returns (steps: seq<Step>)
    requires Inv(setup, s) && IsUnpaid(s, o) && p in s.procs && s.procs[p] == TxLog(o)
    ensures Possible(setup, s, steps) && Assumed(setup, s, steps) && TimedOut(s, Run(setup, s, steps), o)
  {
    hide Possible, Run, Assumed, Enabled, Assumption, Apply, Inv, O.InsertTask, O.HasOrder;
    Nothing(setup, s);
    var id := FreshRow(s.sys.timeout.table.Keys);
    LogStep(setup, s, p, id);
    O.InsertedIsThere(s.sys.timeout, id, o, 30 * SECOND, 0);
    OneMore(setup, s, [], TxLogTask(p, Some(id), 0));
    steps := [] + [TxLogTask(p, Some(id), 0)];
    RunKeepsInv(setup, s, steps);
    var more := RowTimesOut(setup, Run(setup, s, steps), o);
    RunsCompose(setup, s, steps, more);
    steps := steps + more;
  }

  lemma CancellerIsOwner(setup: Setup, s: State, p: Pid, o: OrderNo)
    requires Inv(setup, s) && IsUnpaid(s, o) && p in s.procs && s.procs[p].ToCancel? && s.procs[p].o == o
    ensures s.procs[p] == ToCancel(o, s.sys.db.orders[o].user)
  {
    hide Inv, SysOk;
    InvMeans(setup, s, p);
  }

  /** Every unpaid order that is arranged for has a continuation, with all promises kept, that cancels it and returns its
      unit to both stocks. */
  lemma CanTimeOut(setup: Setup, s: State, o: OrderNo) returns (steps: seq<Step>)
    requires Inv(setup, s) && IsUnpaid(s, o) && Arranged(s, o)
    ensures Possible(setup, s, steps) && Assumed(setup, s, steps) && TimedOut(s, Run(setup, s, steps), o)
  {
    hide Possible, Run, Assumed, Inv, O.HasOrder, TimedOut;
    if o in s.sys.timeout.accepted {
      steps := MessageTimesOut(setup, s, o);
    } else if O.HasOrder(s.sys.timeout.table, o) {
      steps := RowTimesOut(setup, s, o);
    } else {
      var p :| p in s.procs && Arranging(s.procs[p], o);
      if s.procs[p].TxHdel? {
        steps := DeleterTimesOut(setup, s, p, o);
      } else if s.procs[p].TxSend? {
        steps := SenderTimesOut(setup, s, p, o);
      } else if s.procs[p].TxLog? {
        steps := LoggerTimesOut(setup, s, p, o);
      } else {
        CancellerIsOwner(setup, s, p, o);
        steps := CancellerFinishes(setup, s, p, o);
      }
    }
  }

  /** An unpaid order can still be cancelled for lack of payment, in some continuation, if and only if its timeout message
      is with the broker or in its outbox, or the consumer that created it, or one about to cancel it, is still
      at work. A crash between the commit and the send loses the timeout for ever: no redelivery repairs it. */
  lemma CanTimeOutIff(setup: Setup, s: State, o: OrderNo)
    requires ProtocolLaws.Reachable(setup, s) && IsUnpaid(s, o)
    ensures Arranged(s, o) <==>
            exists steps :: Possible(setup, s, steps) && Assumed(setup, s, steps) && IsCancelled(Run(setup, s, steps), o)
  {
    hide Inv, Possible, Run, Assumed, Arranged, ProtocolLaws.Reachable;
    ProtocolLaws.ReachableInv(setup, s);
    if Arranged(s, o) {
      var steps := CanTimeOut(setup, s, o);
      assert IsCancelled(Run(setup, s, steps), o);
    } else {
      forall steps | Possible(setup, s, steps) && Assumed(setup, s, steps)
        ensures !IsCancelled(Run(setup, s, steps), o)
      {
        ForgottenForever(setup, s, steps, o);
      }
    }
  }
}
