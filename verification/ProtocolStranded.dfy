/**
 Units that are lost for good. A reservation without an order normally ends in one of two ways:
 its message creates the order, or a rollback script returns the unit. An entry dropped after a failed
 rollback, by the cleanup or by a consumer that sees the canceled marker, and one dropped by the
 duplicate branch, leave a third state. This module says exactly which reservations can never be
 resolved any more.
 */
module ProtocolStranded {
  import opened Common
  import R = RedisStore
  import D = Orders
  import O = Outbox
  import opened Protocol
  import opened ProtocolSteps
  import opened ProtocolInvariant
  import ProtocolLaws
  import ProtocolScan

  /** The unit is still taken, and no order stands for it. */
  ghost predicate Unresolved(s: State, o: OrderNo) {
    o in s.sys.held && o in s.sys.issued && o !in s.sys.db.orders
  }

  /** The owner of the unit has an order row already, so another one is refused as a duplicate. */
  ghost predicate HasOlderOrder(s: Sys, o: OrderNo) {
    o in s.issued && exists q :: q in s.db.orders && s.db.orders[q].user == s.issued[o]
  }

  ghost predicate NobodyRollsBack(s: State, o: OrderNo) {
    forall p :: p in s.procs && (s.procs[p].Requesting() || s.procs[p].CronRollback?) ==> s.procs[p].o != o
  }

  /** No message of `o` will come, and no consumer works on one. */
  ghost predicate NobodyConsumes(s: State, o: OrderNo) {
    Over(s.sys, o) && forall p :: p in s.procs && (s.procs[p].TxMark? || s.procs[p].TxCreate?) ==> s.procs[p].o != o
  }

  /** Scanners do not see the reservation, nobody is rolling it back, and no message can turn it into
      an order. The markers do not matter: they expire. */
  ghost predicate Stranded(s: State, o: OrderNo) {
    && o !in s.sys.redis.pending
    && NobodyRollsBack(s, o)
    && (HasOlderOrder(s.sys, o) || NobodyConsumes(s, o))
  }

  ghost predicate Lost(s: State, o: OrderNo) {
    Unresolved(s, o) && Stranded(s, o)
  }

  // ----- once lost, always lost -----

  /** What a step must leave alone. */
  ghost predicate Undisturbed(s: State, s': State, o: OrderNo) {
    && o in s'.sys.held
    && o in s.sys.issued && o in s'.sys.issued && s'.sys.issued[o] == s.sys.issued[o]
    && o !in s'.sys.db.orders
    && o !in s'.sys.redis.pending
    && NobodyRollsBack(s', o)
    && (forall p :: p in s'.procs && (s'.procs[p].TxMark? || s'.procs[p].TxCreate?) && s'.procs[p].o == o ==>
          p in s.procs && (s.procs[p].TxMark? || s.procs[p].TxCreate?) && s.procs[p].o == o)
  }

  ghost predicate SameMessages(s: State, s': State) {
    s'.sys.tx == s.sys.tx && s'.sys.dropped >= s.sys.dropped
  }

  lemma ReadersDisturbNothing(setup: Setup, s: State, step: Step, o: OrderNo)
    requires Enabled(s, step) && Lost(s, o) && Reads(step) && !OfCron(step)
    requires step.TxReceive? ==> step.o != o
    ensures Undisturbed(s, Apply(setup, s, step), o) && SameMessages(s, Apply(setup, s, step))
  {
    hide Over, HasOlderOrder, O.Enabled, ApplyRequest, ApplyCron;
    ProtocolLaws.ReadersChangeNothing(setup, s, step);
  }

  lemma ScansDisturbNothing(setup: Setup, s: State, step: Step, o: OrderNo)
    requires Enabled(s, step) && Lost(s, o) && Reads(step) && OfCron(step)
    ensures Undisturbed(s, Apply(setup, s, step), o) && SameMessages(s, Apply(setup, s, step))
  {
    hide Over, HasOlderOrder, O.Enabled, ApplyRequest, ApplyConsumer, ApplyTimeout, ApplyPoll;
    ProtocolLaws.ReadersChangeNothing(setup, s, step);
  }

  lemma ReservationDisturbsNothing(setup: Setup, s: State, step: Step, o: OrderNo)
    requires Enabled(s, step) && Lost(s, o) && step.Reserve?
    ensures Undisturbed(s, Apply(setup, s, step), o) && SameMessages(s, Apply(setup, s, step))
  {
    hide Over, HasOlderOrder, O.Enabled, ApplyConsumer, ApplyCron, ApplyTimeout, ApplyPoll;
  }

  lemma ExpiriesDisturbNothing(setup: Setup, s: State, step: Step, o: OrderNo)
    requires Enabled(s, step) && Lost(s, o) && (step.MarkerExpires? || step.CanceledExpires?)
    ensures Undisturbed(s, Apply(setup, s, step), o) && SameMessages(s, Apply(setup, s, step))
  {
    hide Over, HasOlderOrder, O.Enabled, ApplyRequest, ApplyConsumer, ApplyCron, ApplyTimeout, ApplyPoll;
  }

  lemma LossesDisturbNothing(setup: Setup, s: State, step: Step, o: OrderNo)
    requires Enabled(s, step) && Lost(s, o) && (step.WarmUp? || step.MessageDropped?)
    ensures Undisturbed(s, Apply(setup, s, step), o) && SameMessages(s, Apply(setup, s, step))
  {
    hide Over, HasOlderOrder, O.Enabled, ApplyRequest, ApplyConsumer, ApplyCron, ApplyTimeout, ApplyPoll;
  }

  lemma MarkersDisturbNothing(setup: Setup, s: State, step: Step, o: OrderNo)
    requires Enabled(s, step) && Lost(s, o)
    requires step.TxMarkProcessing? || step.TxDeletePending? || step.TxClearMarker?
    ensures Undisturbed(s, Apply(setup, s, step), o) && SameMessages(s, Apply(setup, s, step))
  {
    hide Over, HasOlderOrder, O.Enabled, ApplyRequest, ApplyCron, ApplyTimeout, ApplyPoll;
  }

  lemma ScannersDisturbNothing(setup: Setup, s: State, step: Step, o: OrderNo)
    requires Enabled(s, step) && Lost(s, o)
    requires step.CronMarkCanceled? || step.DeleteAndStop?
    ensures Undisturbed(s, Apply(setup, s, step), o) && SameMessages(s, Apply(setup, s, step))
  {
    hide Over, HasOlderOrder, O.Enabled, ApplyRequest, ApplyConsumer, ApplyTimeout, ApplyPoll;
  }

  lemma RollbacksDisturbNothing(setup: Setup, s: State, step: Step, o: OrderNo)
    requires Inv(setup, s) && Enabled(s, step) && Lost(s, o)
    requires step.Compensate? || step.ToRollBack?
    ensures Undisturbed(s, Apply(setup, s, step), o) && SameMessages(s, Apply(setup, s, step))
  {
    hide Inv, SysOk, Over, HasOlderOrder, O.Enabled, ApplyConsumer, ApplyCron, ApplyPoll;
    InvMeans(setup, s, step.p);
  }

  lemma ScannerRollbackDisturbsNothing(setup: Setup, s: State, step: Step, o: OrderNo)
    requires Enabled(s, step) && Lost(s, o) && step.CronRollBack?
    ensures Undisturbed(s, Apply(setup, s, step), o) && SameMessages(s, Apply(setup, s, step))
  {
    hide Over, HasOlderOrder, O.Enabled, ApplyRequest, ApplyConsumer, ApplyTimeout, ApplyPoll;
  }

  lemma TablesDisturbNothing(setup: Setup, s: State, step: Step, o: OrderNo)
    requires Enabled(s, step) && Lost(s, o)
    requires step.TxSendTimeout? || step.TxLogTask?
    ensures Undisturbed(s, Apply(setup, s, step), o) && SameMessages(s, Apply(setup, s, step))
  {
    hide Over, HasOlderOrder, O.InsertTask, O.AcceptDirect, O.Enabled, ApplyRequest, ApplyCron, ApplyTimeout, ApplyPoll;
  }

  lemma ReportsDisturbNothing(setup: Setup, s: State, step: Step, o: OrderNo)
    requires Enabled(s, step) && Lost(s, o) && (step.Report? || step.TimeoutOutbox?)
    ensures Undisturbed(s, Apply(setup, s, step), o) && SameMessages(s, Apply(setup, s, step))
  {
    hide Over, HasOlderOrder, O.Apply, O.Enabled, ApplyConsumer, ApplyCron, ApplyTimeout, ApplyPoll;
  }

  /** Cancelling and paying write no row. */
  lemma NoNewRow(db: D.Db, o: OrderNo, done: D.Unchecked, u: UserId)
    ensures D.CancelExpired(db, o, done).0.orders.Keys == db.orders.Keys == D.Pay(db, o, u).0.orders.Keys
  {
  }

  lemma StatusesDisturbNothing(setup: Setup, s: State, step: Step, o: OrderNo)
    requires Enabled(s, step) && Lost(s, o) && (step.ToCancelOrder? || step.PayOrder?)
    ensures Undisturbed(s, Apply(setup, s, step), o) && SameMessages(s, Apply(setup, s, step))
  {
    hide D.CancelExpired, D.Pay, Over, HasOlderOrder, O.Enabled, ApplyRequest, ApplyConsumer, ApplyCron, ApplyPoll;
    match step {
      case ToCancelOrder(p, _, done) => NoNewRow(s.sys.db, s.procs[p].o, done, 0);
      case PayOrder(q, u) => NoNewRow(s.sys.db, q, D.BOTH, u);
    }
  }

  lemma RowsDisturbNothing(setup: Setup, s: State, step: Step, o: OrderNo)
    requires Enabled(s, step) && Lost(s, o) && (step.WriteRow? || step.WriteRowFails? || step.TxOutbox?)
    ensures Undisturbed(s, Apply(setup, s, step), o)
  {
    hide Over, HasOlderOrder, O.Apply, O.InsertTask, O.Enabled;
  }

  /** A row is written for another order only, and no dispatcher brings a settled message back. */
  lemma RowsLeaveItOver(setup: Setup, s: State, step: Step, o: OrderNo)
    requires Inv(setup, s) && Enabled(s, step) && (step.WriteRow? || step.WriteRowFails? || step.TxOutbox?)
    requires NobodyRollsBack(s, o) && Over(s.sys, o)
    ensures Over(Apply(setup, s, step).sys, o)
  {
    hide SysOk, Over, O.Apply, O.InsertTask, O.Inv;
    Books(setup, s.sys);
    var s' := Apply(setup, s, step);
    match step {
      case TxOutbox(x) =>
        OverStays(s.sys, x, o);
      case WriteRow(p, id, now) =>
        OverOfOthers(s.sys, id, s.procs[p].o, now, now, o);
      case WriteRowFails(p, written, now) =>
        if written.Some? {
          OverOfOthers(s.sys, written.value, s.procs[p].o, now, now, o);
        }
    }
  }

  /** The consumer is refused: its user has an older row. */
  lemma LostIsDuplicate(setup: Setup, s: Sys, o: OrderNo, item: D.Item)
    requires SysOk(setup, s) && HasOlderOrder(s, o)
    ensures D.Create(s.db, o, s.issued[o], setup.activity, item) == (s.db, D.DuplicateOrder)
  {
    var q :| q in s.db.orders && s.db.orders[q].user == s.issued[o];
    assert s.db.orders[q].activity == setup.activity;
  }

  lemma CreationDisturbsNothing(setup: Setup, s: State, p: Pid, item: D.Item, commit: Commit, o: OrderNo)
    requires Inv(setup, s) && Enabled(s, TxCreateOrder(p, item, commit)) && Lost(s, o)
    ensures var s' := Apply(setup, s, TxCreateOrder(p, item, commit));
            Undisturbed(s, s', o) && SameMessages(s, s')
  {
    hide Inv, SysOk, Over, HasOlderOrder, O.Enabled, ApplyRequest, ApplyCron, ApplyTimeout, ApplyPoll;
    StoresMean(setup, s);
    if s.procs[p].o == o {
      LostIsDuplicate(setup, s.sys, o, item);
    }
  }

  lemma UndisturbedStep(setup: Setup, s: State, step: Step, o: OrderNo)
    requires Inv(setup, s) && Enabled(s, step) && Lost(s, o) && !(step.TxReceive? && step.o == o)
    ensures Undisturbed(s, Apply(setup, s, step), o)
    ensures Over(s.sys, o) ==> Over(Apply(setup, s, step).sys, o)
  {
    hide Inv, Enabled, Apply, Lost, Over, Undisturbed;
    var s' := Apply(setup, s, step);
    LostMeans(s, o);
    if step.WriteRow? || step.WriteRowFails? || step.TxOutbox? {
      RowsDisturbNothing(setup, s, step, o);
      if Over(s.sys, o) {
        RowsLeaveItOver(setup, s, step, o);
      }
    } else {
      QuietStep(setup, s, step, o);
      if Over(s.sys, o) {
        OverDependsOn(s.sys, s'.sys, o);
      }
    }
  }

  lemma LostMeans(s: State, o: OrderNo)
    requires Lost(s, o)
    ensures NobodyRollsBack(s, o) && (HasOlderOrder(s.sys, o) || NobodyConsumes(s, o))
  {
  }

  lemma QuietStep(setup: Setup, s: State, step: Step, o: OrderNo)
    requires Inv(setup, s) && Enabled(s, step) && Lost(s, o) && !(step.TxReceive? && step.o == o)
    requires !(step.WriteRow? || step.WriteRowFails? || step.TxOutbox?)
    ensures Undisturbed(s, Apply(setup, s, step), o) && SameMessages(s, Apply(setup, s, step))
  {
    hide Inv, Enabled, Apply, Lost, Undisturbed, SameMessages;
    match step {
      case TxCreateOrder(p, item, commit) => CreationDisturbsNothing(setup, s, p, item, commit, o);
      case Compensate(_, _) | ToRollBack(_, _) => RollbacksDisturbNothing(setup, s, step, o);
      case CronRollBack(_, _) => ScannerRollbackDisturbsNothing(setup, s, step, o);
      case Report(_) | TimeoutOutbox(_) => ReportsDisturbNothing(setup, s, step, o);
      case TxSendTimeout(_, _, _) | TxLogTask(_, _, _) => TablesDisturbNothing(setup, s, step, o);
      case ToCancelOrder(_, _, _) | PayOrder(_, _) => StatusesDisturbNothing(setup, s, step, o);
      case CronPick(_, _) | CronReadOrder(_) | CleanPick(_, _) | CleanReadOrder(_) | CleanReadCanceled(_) =>
        ScansDisturbNothing(setup, s, step, o);
      case TxReceive(_, _) | ToReceive(_, _) | PollStart(_, _, _) | PollReadPending(_, _) | PollReadPurchased(_, _) | Crash(_) =>
        ReadersDisturbNothing(setup, s, step, o);
      case TxMarkProcessing(_, _) | TxDeletePending(_, _) | TxClearMarker(_, _) => MarkersDisturbNothing(setup, s, step, o);
      case CronMarkCanceled(_, _) | DeleteAndStop(_, _) => ScannersDisturbNothing(setup, s, step, o);
      case Reserve(_, _, _, _, _) => ReservationDisturbsNothing(setup, s, step, o);
      case MarkerExpires(_) | CanceledExpires(_) => ExpiriesDisturbNothing(setup, s, step, o);
      case _ => LossesDisturbNothing(setup, s, step, o);
    }
  }

  /** A message that arrives meets the older row of its user; it cannot arrive otherwise. */
  lemma ReceivingChangesNothing(setup: Setup, s: State, p: Pid, o: OrderNo)
    requires Enabled(s, TxReceive(p, o)) && Lost(s, o)
    ensures Lost(Apply(setup, s, TxReceive(p, o)), o)
  {
  }

  lemma OlderOrderStays(s: Sys, s': Sys, o: OrderNo)
    requires HasOlderOrder(s, o) && D.Evolves(s.db, s'.db) && o in s'.issued && s'.issued[o] == s.issued[o]
    ensures HasOlderOrder(s', o)
  {
    var q :| q in s.db.orders && s.db.orders[q].user == s.issued[o];
    assert q in s'.db.orders && s'.db.orders[q].user == s.issued[o];
  }

  lemma LostStep(setup: Setup, s: State, step: Step, o: OrderNo)
    requires Inv(setup, s) && Enabled(s, step) && Lost(s, o)
    ensures Lost(Apply(setup, s, step), o)
  {
    hide SysOk, ProcOk, Compatible, Enabled, Apply, Over, HasOlderOrder, O.Inv, O.Evolves, D.Evolves;
    if step.TxReceive? && step.o == o {
      ReceivingChangesNothing(setup, s, step.p, o);
    } else {
      UndisturbedStep(setup, s, step, o);
      Books(setup, s.sys);
      ProtocolLaws.StepGrows(setup, s, step);
      if HasOlderOrder(s.sys, o) {
        OlderOrderStays(s.sys, Apply(setup, s, step).sys, o);
      }
    }
  }

  lemma {:induction false} LostForever(setup: Setup, s: State, steps: seq<Step>, o: OrderNo)
    requires Inv(setup, s) && Possible(setup, s, steps) && Assumed(setup, s, steps) && Lost(s, o)
    ensures Lost(Run(setup, s, steps), o)
    decreases |steps|
  {
    hide Inv, Enabled, Apply, Assumption, Lost;
    if steps != [] {
      LostStep(setup, s, steps[0], o);
      StepKeepsInvIff(setup, s, steps[0]);
      LostForever(setup, Apply(setup, s, steps[0]), steps[1..], o);
    }
  }

  // ----- what is not lost can be resolved -----

  /** Every process outside `keep` crashes. */
  lemma {:induction false} CrashBut(setup: Setup, s: State, keep: set<Pid>) returns (steps: seq<Step>)
    ensures Possible(setup, s, steps) && Assumed(setup, s, steps)
    ensures Run(setup, s, steps) == State(s.sys, s.procs - (s.procs.Keys - keep))
    decreases |s.procs|
  {
    hide Enabled, Assumption, Apply;
    if s.procs.Keys <= keep {
      Nothing(setup, s);
      steps := [];
      KeepAll(s.procs, keep);
    } else {
      var p: Pid := PickOne(s.procs, keep);
      var rest := CrashBut(setup, Stop(s, s.sys, p), keep);
      CrashIsAStep(setup, s, p);
      steps := [Crash(p)] + rest;
      assert steps[1..] == rest;
      DropOne(s.procs, keep, p);
    }
  }

  lemma KeepAll(procs: map<Pid, Proc>, keep: set<Pid>)
    requires procs.Keys <= keep
    ensures procs - (procs.Keys - keep) == procs
  {
  }

  lemma DropOne(procs: map<Pid, Proc>, keep: set<Pid>, p: Pid)
    requires p in procs && p !in keep
    ensures procs - {p} - ((procs - {p}).Keys - keep) == procs - (procs.Keys - keep)
  {
  }

  lemma CrashIsAStep(setup: Setup, s: State, p: Pid)
    requires p in s.procs
    ensures Enabled(s, Crash(p)) && Assumption(s, setup, Crash(p)) && Apply(setup, s, Crash(p)) == Stop(s, s.sys, p)
  {
  }

  lemma PickOne(procs: map<Pid, Proc>, keep: set<Pid>) returns (p: Pid)
    requires !(procs.Keys <= keep)
    ensures p in procs && p !in keep && |procs - {p}| < |procs|
  {
    p :| p in procs && p !in keep;
    assert |procs| == |procs.Keys| && |procs - {p}| == |(procs - {p}).Keys| && (procs - {p}).Keys == procs.Keys - {p};
  }

  lemma CanceledGoes(setup: Setup, s: State, o: OrderNo)
    requires o in s.sys.held && forall p :: p in s.procs ==> s.procs[p].TxMark?
    ensures Enabled(s, CanceledExpires(o)) && Assumption(s, setup, CanceledExpires(o))
    ensures Apply(setup, s, CanceledExpires(o)) == s.(sys := s.sys.(redis := R.ForgetCanceled(s.sys.redis, o)))
  {
    hide Over, ApplyRequest, ApplyConsumer, ApplyCron, ApplyTimeout, ApplyPoll;
  }

  lemma ProcessingGoes(setup: Setup, s: State, o: OrderNo)
    requires o !in s.sys.db.orders && forall p :: p in s.procs ==> s.procs[p].TxMark?
    ensures Enabled(s, MarkerExpires(o)) && Assumption(s, setup, MarkerExpires(o))
    ensures Apply(setup, s, MarkerExpires(o)) == s.(sys := s.sys.(redis := R.ClearProcessing(s.sys.redis, o)))
  {
    hide ApplyRequest, ApplyConsumer, ApplyCron, ApplyTimeout, ApplyPoll;
  }

  /** With at most a consumer at its mark left, both markers of a held unit without an order may expire. */
  lemma MarkersGone(setup: Setup, s: State, o: OrderNo) returns (steps: seq<Step>)
    requires o in s.sys.held && o !in s.sys.db.orders
    requires forall p :: p in s.procs ==> s.procs[p].TxMark?
    ensures Possible(setup, s, steps) && Assumed(setup, s, steps)
    ensures Run(setup, s, steps)
            == s.(sys := s.sys.(redis := R.ClearProcessing(R.ForgetCanceled(s.sys.redis, o), o)))
  {
    hide Possible, Run, Assumed, Enabled, Assumption, Apply;
    Nothing(setup, s);
    CanceledGoes(setup, s, o);
    OneMore(setup, s, [], CanceledExpires(o));
    steps := [] + [CanceledExpires(o)];
    ProcessingGoes(setup, Run(setup, s, steps), o);
    OneMore(setup, s, steps, MarkerExpires(o));
    steps := steps + [MarkerExpires(o)];
  }

  /** A scanner that finds the entry alone, and its marker gone, returns its unit. */
  lemma ScannerReturns(setup: Setup, s: State, o: OrderNo) returns (steps: seq<Step>)
    requires s.procs == map[] && o in s.sys.redis.pending && o !in s.sys.db.orders
    requires o !in s.sys.redis.canceled && o !in s.sys.redis.processing
    requires s.sys.redis.pending[o].uid > 0 && s.sys.redis.pending[o].pid > 0
    ensures Possible(setup, s, steps) && Assumed(setup, s, steps)
    ensures o !in Run(setup, s, steps).sys.held
  {
    hide Possible, Run, Assumed, Enabled, Assumption, Apply;
    steps := ProtocolScan.PickAndRead(setup, s, 0, o);
    ProtocolScan.Marks(setup, Run(setup, s, steps), 0);
    OneMore(setup, s, steps, CronMarkCanceled(0, false));
    steps := steps + [CronMarkCanceled(0, false)];
    var finish := ScannerFinishes(setup, Run(setup, s, steps), 0);
    RunsCompose(setup, s, steps, finish);
    steps := steps + finish;
  }

  lemma ScannerFinishes(setup: Setup, s: State, p: Pid) returns (steps: seq<Step>)
    requires p in s.procs && s.procs[p].CronRollback? && s.procs[p].pv.uid > 0 && s.procs[p].pv.pid > 0
    ensures Possible(setup, s, steps) && Assumed(setup, s, steps)
    ensures s.procs[p].o !in Run(setup, s, steps).sys.held
  {
    hide Possible, Run, Assumed, ApplyRequest, ApplyConsumer, ApplyTimeout, ApplyPoll;
    Nothing(setup, s);
    OneMore(setup, s, [], CronRollBack(p, true));
    steps := [] + [CronRollBack(p, true)];
  }

  lemma RequestFinishes(setup: Setup, s: State, p: Pid) returns (steps: seq<Step>)
    requires p in s.procs && s.procs[p].Compensating?
    ensures Possible(setup, s, steps) && Assumed(setup, s, steps)
    ensures s.procs[p].o !in Run(setup, s, steps).sys.held
  {
    hide Possible, Run, Assumed, ApplyConsumer, ApplyCron, ApplyTimeout, ApplyPoll;
    Nothing(setup, s);
    OneMore(setup, s, [], Compensate(p, true));
    steps := [] + [Compensate(p, true)];
  }

  lemma RequestGivesUp(setup: Setup, s: State, p: Pid) returns (steps: seq<Step>)
    requires p in s.procs && s.procs[p].Reserved?
    ensures Possible(setup, s, steps) && Assumed(setup, s, steps)
    ensures Run(setup, s, steps) == Goto(s, s.sys, p, Compensating(s.procs[p].o, s.procs[p].u))
  {
    hide Possible, Run, Assumed, ApplyConsumer, ApplyCron, ApplyTimeout, ApplyPoll;
    Nothing(setup, s);
    OneMore(setup, s, [], WriteRowFails(p, None, 0));
    steps := [] + [WriteRowFails(p, None, 0)];
  }

  /** A scanner about to roll back can return the unit in one step, a request in at most two. */
  lemma HolderReturns(setup: Setup, s: State, p: Pid) returns (steps: seq<Step>)
    requires p in s.procs && (s.procs[p].Requesting() || s.procs[p].CronRollback?)
    requires s.procs[p].CronRollback? ==> s.procs[p].pv.uid > 0 && s.procs[p].pv.pid > 0
    ensures Possible(setup, s, steps) && Assumed(setup, s, steps)
    ensures s.procs[p].o !in Run(setup, s, steps).sys.held
  {
    hide Possible, Run, Assumed;
    if s.procs[p].CronRollback? {
      steps := ScannerFinishes(setup, s, p);
    } else if s.procs[p].Compensating? {
      steps := RequestFinishes(setup, s, p);
    } else {
      var one := RequestGivesUp(setup, s, p);
      var two := RequestFinishes(setup, Run(setup, s, one), p);
      RunsCompose(setup, s, one, two);
      steps := one + two;
    }
  }

  // ----- a message that can still come can create the order -----

  lemma SmallerThanAll(keys: set<nat>) returns (bound: nat)
    ensures forall k :: k in keys ==> k < bound
    decreases |keys|
  {
    if forall x: nat :: x !in keys {
      bound := 0;
    } else {
      var k: nat :| k in keys;
      var rest := SmallerThanAll(keys - {k});
      bound := if k < rest then rest else k + 1;
      assert forall x :: x in keys ==> x == k || x in keys - {k};
    }
  }

  /** Only messages have changed, and that of `o` can be delivered. */
  ghost predicate Arrives(s: State, s': State, o: OrderNo) {
    s' == s.(sys := s.sys.(tx := s'.sys.tx, dropped := s'.sys.dropped)) && Deliverable(s'.sys, o)
  }

  lemma SenderSends(setup: Setup, s: State, w: nat, o: OrderNo) returns (steps: seq<Step>)
    requires w in s.sys.tx.senders && s.sys.tx.senders[w].Holding? && s.sys.tx.senders[w].copy.order == o
    ensures Possible(setup, s, steps) && Assumed(setup, s, steps) && Arrives(s, Run(setup, s, steps), o)
  {
    hide Possible, Run, Assumed, ApplyRequest, ApplyConsumer, ApplyCron, ApplyTimeout, ApplyPoll;
    Nothing(setup, s);
    OneMore(setup, s, [], TxOutbox(O.Send(w, true, true)));
    steps := [] + [TxOutbox(O.Send(w, true, true))];
  }

  lemma RowIsClaimed(setup: Setup, s: State, id: O.TaskId) returns (steps: seq<Step>, w: nat)
    requires id in s.sys.tx.table && s.sys.tx.table[id].status == O.Pending
    ensures Possible(setup, s, steps) && Assumed(setup, s, steps)
    ensures var s' := Run(setup, s, steps);
            && s' == s.(sys := s.sys.(tx := s'.sys.tx, dropped := s'.sys.dropped))
            && w in s'.sys.tx.senders && s'.sys.tx.senders[w] == O.Holding(id, s.sys.tx.table[id])
  {
    hide Possible, Run, Assumed, ApplyRequest, ApplyConsumer, ApplyCron, ApplyTimeout, ApplyPoll;
    Nothing(setup, s);
    w := SmallerThanAll(s.sys.tx.senders.Keys);
    var claim := TxOutbox(O.Claim(w, id, s.sys.tx.table[id].nextRetryAt, 1));
    OneMore(setup, s, [], claim);
    steps := [] + [claim];
  }

  lemma RowIsRequeued(setup: Setup, s: State, id: O.TaskId) returns (steps: seq<Step>)
    requires id in s.sys.tx.table && s.sys.tx.table[id].status != O.Sent
    ensures Possible(setup, s, steps) && Assumed(setup, s, steps)
    ensures var s' := Run(setup, s, steps);
            && s' == s.(sys := s.sys.(tx := s'.sys.tx, dropped := s'.sys.dropped))
            && id in s'.sys.tx.table && s'.sys.tx.table[id].status == O.Pending && s'.sys.tx.table[id].order == s.sys.tx.table[id].order
  {
    hide Possible, Run, Assumed, ApplyRequest, ApplyConsumer, ApplyCron, ApplyTimeout, ApplyPoll;
    Nothing(setup, s);
    OneMore(setup, s, [], TxOutbox(O.Requeue(id, 0)));
    steps := [] + [TxOutbox(O.Requeue(id, 0))];
  }

  /** Whatever keeps a message from being over, it can be delivered (again). */
  lemma MessageCanCome(setup: Setup, s: State, o: OrderNo) returns (steps: seq<Step>)
    requires !Over(s.sys, o)
    ensures Possible(setup, s, steps) && Assumed(setup, s, steps) && Arrives(s, Run(setup, s, steps), o)
  {
    hide Possible, Run, Assumed;
    Nothing(setup, s);
    steps := [];
    if !Deliverable(s.sys, o) {
      if w :| w in s.sys.tx.senders && s.sys.tx.senders[w].Holding? && s.sys.tx.senders[w].copy.order == o {
        steps := SenderSends(setup, s, w, o);
      } else {
        var id :| id in s.sys.tx.table && s.sys.tx.table[id].order == o && s.sys.tx.table[id].status != O.Sent;
        var requeue := RowIsRequeued(setup, s, id);
        var s1 := Run(setup, s, requeue);
        var claim, w := RowIsClaimed(setup, s1, id);
        RunsCompose(setup, s, requeue, claim);
        var send := SenderSends(setup, Run(setup, s1, claim), w, o);
        RunsCompose(setup, s, requeue + claim, send);
        steps := requeue + claim + send;
      }
    }
  }

  lemma ConsumerCreatesIt(setup: Setup, s: State, p: Pid, o: OrderNo) returns (steps: seq<Step>)
    requires Inv(setup, s) && p in s.procs && s.procs[p] == TxCreate(o) && Unresolved(s, o) && !HasOlderOrder(s.sys, o)
    ensures Possible(setup, s, steps) && Assumed(setup, s, steps) && !Unresolved(Run(setup, s, steps), o)
  {
    hide Possible, Run, Assumed, SysOk, ApplyRequest, ApplyCron, ApplyTimeout, ApplyPoll;
    Nothing(setup, s);
    var create := TxCreateOrder(p, D.Item(setup.product, "", 0), Fine);
    CreateResult(setup, s.sys, o, D.Item(setup.product, "", 0));
    OneMore(setup, s, [], create);
    steps := [] + [create];
  }

  lemma ConsumerMarksIt(setup: Setup, s: State, p: Pid, o: OrderNo) returns (steps: seq<Step>)
    requires p in s.procs && s.procs[p] == TxMark(o) && o !in s.sys.redis.canceled && o !in s.sys.redis.processing
    ensures Possible(setup, s, steps) && Assumed(setup, s, steps)
    ensures var s' := Run(setup, s, steps);
            p in s'.procs && s'.procs[p] == TxCreate(o) && s'.sys == s.sys.(redis := s'.sys.redis)
  {
    hide Possible, Run, Assumed, ApplyRequest, ApplyCron, ApplyTimeout, ApplyPoll;
    Nothing(setup, s);
    OneMore(setup, s, [], TxMarkProcessing(p, false));
    steps := [] + [TxMarkProcessing(p, false)];
  }

  /** A consumer with the message in hand: the others die, the markers expire, it goes on. */
  lemma ConsumerGoesOn(setup: Setup, s: State, p: Pid, o: OrderNo) returns (steps: seq<Step>)
    requires Inv(setup, s) && p in s.procs && s.procs[p] == TxMark(o) && Unresolved(s, o) && !HasOlderOrder(s.sys, o)
    ensures Possible(setup, s, steps) && Assumed(setup, s, steps) && !Unresolved(Run(setup, s, steps), o)
  {
    hide Possible, Run, Assumed, Inv;
    var crash := CrashBut(setup, s, {p});
    var s1 := Run(setup, s, crash);
    var expire := MarkersGone(setup, s1, o);
    RunsCompose(setup, s, crash, expire);
    var mark := ConsumerMarksIt(setup, Run(setup, s1, expire), p, o);
    RunsCompose(setup, s, crash + expire, mark);
    steps := crash + expire + mark;
    RunKeepsInv(setup, s, steps);
    var create := ConsumerCreatesIt(setup, Run(setup, s, steps), p, o);
    RunsCompose(setup, s, steps, create);
    steps := steps + create;
  }

  lemma MessageIsReceived(setup: Setup, s: State, o: OrderNo) returns (steps: seq<Step>)
    requires s.procs == map[] && o !in s.sys.redis.canceled && Deliverable(s.sys, o)
    ensures Possible(setup, s, steps) && Assumed(setup, s, steps)
    ensures Run(setup, s, steps) == State(s.sys, map[0 := TxMark(o)])
  {
    hide Possible, Run, Assumed, ApplyRequest, ApplyCron, ApplyTimeout, ApplyPoll;
    Nothing(setup, s);
    OneMore(setup, s, [], TxReceive(0, o));
    steps := [] + [TxReceive(0, o)];
  }

  lemma MessageResolves(setup: Setup, s: State, o: OrderNo) returns (steps: seq<Step>)
    requires Inv(setup, s) && Unresolved(s, o) && !HasOlderOrder(s.sys, o) && !Over(s.sys, o)
    ensures Possible(setup, s, steps) && Assumed(setup, s, steps) && !Unresolved(Run(setup, s, steps), o)
  {
    hide Possible, Run, Assumed, Inv, Over;
    var crash := CrashBut(setup, s, {});
    var s1 := Run(setup, s, crash);
    var come := MessageCanCome(setup, s1, o);
    RunsCompose(setup, s, crash, come);
    var s2 := Run(setup, s1, come);
    var expire := MarkersGone(setup, s2, o);
    RunsCompose(setup, s, crash + come, expire);
    var receive := MessageIsReceived(setup, Run(setup, s2, expire), o);
    RunsCompose(setup, s, crash + come + expire, receive);
    steps := crash + come + expire + receive;
    RunKeepsInv(setup, s, steps);
    var goOn := ConsumerGoesOn(setup, Run(setup, s, steps), 0, o);
    RunsCompose(setup, s, steps, goOn);
    steps := steps + goOn;
  }

  lemma EntryResolves(setup: Setup, s: State, o: OrderNo) returns (steps: seq<Step>)
    requires Inv(setup, s) && Unresolved(s, o) && o in s.sys.redis.pending
    requires s.sys.issued[o] > 0 && setup.product > 0
    ensures Possible(setup, s, steps) && Assumed(setup, s, steps) && !Unresolved(Run(setup, s, steps), o)
  {
    hide Possible, Run, Assumed, SysOk;
    Facts(setup, s.sys, o);
    var crash := CrashBut(setup, s, {});
    var s1 := Run(setup, s, crash);
    var expire := MarkersGone(setup, s1, o);
    RunsCompose(setup, s, crash, expire);
    var scan := ScannerReturns(setup, Run(setup, s1, expire), o);
    RunsCompose(setup, s, crash + expire, scan);
    steps := crash + expire + scan;
  }

  lemma RollbackResolves(setup: Setup, s: State, o: OrderNo) returns (steps: seq<Step>)
    requires Inv(setup, s) && Unresolved(s, o) && !NobodyRollsBack(s, o)
    requires s.sys.issued[o] > 0 && setup.product > 0
    ensures Possible(setup, s, steps) && Assumed(setup, s, steps) && !Unresolved(Run(setup, s, steps), o)
  {
    hide Possible, Run, Assumed, SysOk;
    var p :| p in s.procs && (s.procs[p].Requesting() || s.procs[p].CronRollback?) && s.procs[p].o == o;
    assert ProcOk(setup, s.sys, s.procs[p]);
    steps := HolderReturns(setup, s, p);
  }

  lemma CanBeResolved(setup: Setup, s: State, o: OrderNo) returns (steps: seq<Step>)
    requires Inv(setup, s) && Unresolved(s, o) && !Stranded(s, o)
    requires s.sys.issued[o] > 0 && setup.product > 0
    ensures Possible(setup, s, steps) && Assumed(setup, s, steps) && !Unresolved(Run(setup, s, steps), o)
  {
    hide Possible, Run, Assumed, Inv, Over, NobodyRollsBack, HasOlderOrder;
    if !NobodyRollsBack(s, o) {
      steps := RollbackResolves(setup, s, o);
    } else if o in s.sys.redis.pending {
      steps := EntryResolves(setup, s, o);
    } else if !Over(s.sys, o) {
      steps := MessageResolves(setup, s, o);
    } else if p :| p in s.procs && s.procs[p].TxMark? && s.procs[p].o == o {
      steps := ConsumerGoesOn(setup, s, p, o);
    } else {
      var p :| p in s.procs && s.procs[p].TxCreate? && s.procs[p].o == o;
      steps := ConsumerCreatesIt(setup, s, p, o);
    }
  }

  /** A taken unit without an order is lost for good if and only if it has no pending entry, no request or
      scanner is rolling it back, and either its owner has an older order or no message of the order
      can come: then no continuation of the run, whoever does what and whichever markers expire, returns
      the unit or creates the order; otherwise some continuation does. */
  lemma LostForGoodIff(setup: Setup, s: State, o: OrderNo)
    requires ProtocolLaws.Reachable(setup, s) && Unresolved(s, o)
    requires s.sys.issued[o] > 0 && setup.product > 0       // ids are positive
    ensures Stranded(s, o) <==>
            forall steps :: Possible(setup, s, steps) && Assumed(setup, s, steps) ==> Unresolved(Run(setup, s, steps), o)
  {
    hide Inv, Possible, Run, Assumed, Stranded, Unresolved, ProtocolLaws.Reachable;
    ProtocolLaws.ReachableInv(setup, s);
    if Stranded(s, o) {
      forall steps | Possible(setup, s, steps) && Assumed(setup, s, steps)
        ensures Unresolved(Run(setup, s, steps), o)
      {
        LostForever(setup, s, steps, o);
      }
    } else {
      var steps := CanBeResolved(setup, s, o);
      assert !Unresolved(Run(setup, s, steps), o);
    }
  }

  // ----- cancelled orders whose unit never came back -----

  /** A timed-out order that is cancelled in the database and still holds its unit in Redis. */
  ghost predicate Unreturned(s: State, o: OrderNo) {
    o in s.sys.held && o in s.sys.db.orders && s.sys.db.orders[o].status == D.Cancelled
  }

  ghost predicate NobodyReturns(s: State, o: OrderNo) {
    forall p :: p in s.procs && s.procs[p].ToRollback? ==> s.procs[p].o != o
  }

  lemma ReturnIsOfAnother(setup: Setup, s: State, step: Step, o: OrderNo)
    requires Inv(setup, s) && Enabled(s, step) && Unreturned(s, o) && NobodyReturns(s, o)
    requires step.Compensate? || step.CronRollBack? || step.ToRollBack?
    ensures o in Apply(setup, s, step).sys.held && NobodyReturns(Apply(setup, s, step), o)
  {
    hide SysOk, ApplyConsumer, ApplyPoll;
    assert ProcOk(setup, s.sys, s.procs[step.p]);
    OrdersAreNeither(setup, s.sys, o);
  }

  lemma OrdersAreNeither(setup: Setup, s: Sys, o: OrderNo)
    requires SysOk(setup, s) && o in s.db.orders
    ensures HasRow(s, o) && o !in s.redis.canceled
  {
  }

  lemma ConsumersLeaveHeld(setup: Setup, s: State, step: Step, o: OrderNo)
    requires Enabled(s, step) && Unreturned(s, o) && NobodyReturns(s, o)
    requires step.TxMarkProcessing? || step.TxDeletePending? || step.TxClearMarker? || step.TxCreateOrder?
    ensures o in Apply(setup, s, step).sys.held && NobodyReturns(Apply(setup, s, step), o)
  {
    hide D.Create, O.Enabled, ApplyRequest, ApplyCron, ApplyTimeout, ApplyPoll;
  }

  lemma ScannersLeaveHeld(setup: Setup, s: State, step: Step, o: OrderNo)
    requires Enabled(s, step) && Unreturned(s, o) && NobodyReturns(s, o)
    requires step.CronMarkCanceled? || step.DeleteAndStop? || step.ToCancelOrder? || step.PayOrder?
    ensures o in Apply(setup, s, step).sys.held && NobodyReturns(Apply(setup, s, step), o)
  {
    hide D.Pay, O.Enabled, ApplyRequest, ApplyConsumer, ApplyPoll;
  }

  lemma OthersLeaveHeld(setup: Setup, s: State, step: Step, o: OrderNo)
    requires Enabled(s, step) && Unreturned(s, o) && NobodyReturns(s, o)
    requires step.WarmUp? || step.Reserve? || step.MarkerExpires? || step.MessageDropped? || step.CanceledExpires?
    ensures o in Apply(setup, s, step).sys.held && NobodyReturns(Apply(setup, s, step), o)
  {
    hide O.Enabled, ApplyConsumer, ApplyCron, ApplyTimeout, ApplyPoll;
  }

  lemma OutboxesLeaveHeld(setup: Setup, s: State, step: Step, o: OrderNo)
    requires Enabled(s, step) && Unreturned(s, o) && NobodyReturns(s, o)
    requires step.WriteRow? || step.WriteRowFails? || step.Report? || step.TxSendTimeout? || step.TxLogTask?
             || step.TxOutbox? || step.TimeoutOutbox?
    ensures o in Apply(setup, s, step).sys.held && NobodyReturns(Apply(setup, s, step), o)
  {
    hide O.Apply, O.InsertTask, O.AcceptDirect, O.Enabled, ApplyCron, ApplyTimeout, ApplyPoll;
  }

  lemma ReadersLeaveHeld(setup: Setup, s: State, step: Step, o: OrderNo)
    requires Enabled(s, step) && Unreturned(s, o) && NobodyReturns(s, o) && Reads(step)
    ensures o in Apply(setup, s, step).sys.held && NobodyReturns(Apply(setup, s, step), o)
  {
    hide O.Enabled, ApplyRequest;
    ProtocolLaws.ReadersChangeNothing(setup, s, step);
  }

  lemma UnreturnedStep(setup: Setup, s: State, step: Step, o: OrderNo)
    requires Inv(setup, s) && Enabled(s, step) && Unreturned(s, o) && NobodyReturns(s, o)
    ensures Unreturned(Apply(setup, s, step), o) && NobodyReturns(Apply(setup, s, step), o)
  {
    hide SysOk, ProcOk, Compatible, Apply, Enabled, O.Inv, O.Evolves, NobodyReturns;
    Books(setup, s.sys);
    ProtocolLaws.StepGrows(setup, s, step);
    match step {
      case Compensate(_, _) | CronRollBack(_, _) | ToRollBack(_, _) => ReturnIsOfAnother(setup, s, step, o);
      case TxReceive(_, _) | CronPick(_, _) | CronReadOrder(_) | CleanPick(_, _) | CleanReadOrder(_) | CleanReadCanceled(_)
        | ToReceive(_, _) | PollStart(_, _, _) | PollReadPending(_, _) | PollReadPurchased(_, _) | Crash(_) =>
        ReadersLeaveHeld(setup, s, step, o);
      case WriteRow(_, _, _) | WriteRowFails(_, _, _) | Report(_) | TxSendTimeout(_, _, _) | TxLogTask(_, _, _) | TxOutbox(_)
        | TimeoutOutbox(_) => OutboxesLeaveHeld(setup, s, step, o);
      case TxMarkProcessing(_, _) | TxDeletePending(_, _) | TxClearMarker(_, _) | TxCreateOrder(_, _, _) =>
        ConsumersLeaveHeld(setup, s, step, o);
      case CronMarkCanceled(_, _) | DeleteAndStop(_, _) | ToCancelOrder(_, _, _) | PayOrder(_, _) => ScannersLeaveHeld(setup, s, step, o);
      case _ => OthersLeaveHeld(setup, s, step, o);
    }
  }

  lemma {:induction false} UnreturnedForever(setup: Setup, s: State, steps: seq<Step>, o: OrderNo)
    requires Inv(setup, s) && Possible(setup, s, steps) && Assumed(setup, s, steps)
    requires Unreturned(s, o) && NobodyReturns(s, o)
    ensures Unreturned(Run(setup, s, steps), o)
    decreases |steps|
  {
    hide Inv, Enabled, Apply, Assumption, Unreturned, NobodyReturns;
    if steps != [] {
      UnreturnedStep(setup, s, steps[0], o);
      StepKeepsInvIff(setup, s, steps[0]);
      UnreturnedForever(setup, Apply(setup, s, steps[0]), steps[1..], o);
    }
  }

  lemma ConsumerReturns(setup: Setup, s: State, p: Pid) returns (steps: seq<Step>)
    requires p in s.procs && s.procs[p].ToRollback?
    ensures Possible(setup, s, steps) && Assumed(setup, s, steps)
    ensures s.procs[p].o !in Run(setup, s, steps).sys.held
  {
    hide Possible, Run, Assumed, ApplyRequest, ApplyConsumer, ApplyCron, ApplyPoll;
    Nothing(setup, s);
    OneMore(setup, s, [], ToRollBack(p, true));
    steps := [] + [ToRollBack(p, true)];
  }

  /** The unit of a cancelled order comes back to Redis only from the consumer that cancelled it: once
      that consumer has stopped without success, no redelivery, scan or cleanup returns the unit. */
  lemma CancelledUnitLostIff(setup: Setup, s: State, o: OrderNo)
    requires ProtocolLaws.Reachable(setup, s) && Unreturned(s, o)
    ensures NobodyReturns(s, o) <==>
            forall steps :: Possible(setup, s, steps) && Assumed(setup, s, steps) ==> o in Run(setup, s, steps).sys.held
  {
    hide Inv, Possible, Run, Assumed;
    ProtocolLaws.ReachableInv(setup, s);
    if NobodyReturns(s, o) {
      forall steps | Possible(setup, s, steps) && Assumed(setup, s, steps)
        ensures o in Run(setup, s, steps).sys.held
      {
        UnreturnedForever(setup, s, steps, o);
      }
    } else {
      var p :| p in s.procs && s.procs[p].ToRollback? && s.procs[p].o == o;
      var steps := ConsumerReturns(setup, s, p);
      assert o !in Run(setup, s, steps).sys.held;
    }
  }

  /** It does happen, with every promise kept: the request loses the reply of its reservation, the
      scanner marks the order and loses that reply, the cleanup drops the entry. The one unit of the sale
      is then gone, and nobody has it. */
  lemma StrandingHappens() returns (steps: seq<Step>)
    ensures var setup := Setup(1, 1, 1, 0);
            && Possible(setup, Init(setup), steps) && Assumed(setup, Init(setup), steps)
            && var s := Run(setup, Init(setup), steps);
               Unresolved(s, 5) && Stranded(s, 5) && s.sys.redis.stock == Some(0) && s.procs == map[] && s.sys.db.orders == map[]
  {
    hide Possible, Run, Assumed, R.PreDeduct, D.Create, D.CancelExpired, ApplyRequest, ApplyConsumer,
      ApplyTimeout, ApplyPoll;
    var setup := Setup(1, 1, 1, 0);
    var before := UnansweredRequest(setup);
    var s := Run(setup, Init(setup), before);
    var pick := ProtocolScan.PickAndRead(setup, s, 0, 5);
    RunsCompose(setup, Init(setup), before, pick);
    steps := before + pick;
    OneMore(setup, Init(setup), steps, CronMarkCanceled(0, true));
    steps := steps + [CronMarkCanceled(0, true)];
    var s1 := Run(setup, Init(setup), steps);
    assert s1.procs == map[];
    var clean := CleanerDrops(setup, s1, 5);
    RunsCompose(setup, Init(setup), steps, clean);
    steps := steps + clean;
  }

  lemma CleanerDrops(setup: Setup, s: State, o: OrderNo) returns (steps: seq<Step>)
    requires s.procs == map[] && o in s.sys.redis.pending && o in s.sys.redis.canceled && o !in s.sys.db.orders
    ensures Possible(setup, s, steps) && Assumed(setup, s, steps)
    ensures Run(setup, s, steps) == State(DeletePending(s.sys, o, true), map[])
  {
    hide Possible, Run, Assumed;
    steps := ProtocolScan.LookAtEntry(setup, s, 0, o);
    var drop := ProtocolScan.DropEntry(setup, s, Run(setup, s, steps), 0, o);
    RunsCompose(setup, s, steps, drop);
    steps := steps + drop;
  }

  lemma Answerless(setup: Setup, s: State)
    requires setup == Setup(1, 1, 1, 0)
    requires s == Init(setup).(sys := Init(setup).sys.(redis := R.Redis(Some(1), {}, map[], {}, {})))
    ensures var step := Reserve(0, 5, 7, 0, true);
            && Enabled(s, step) && Assumption(s, setup, step)
            && Apply(setup, s, step) ==
               s.(sys := s.sys.(redis := R.Redis(Some(0), {7}, map[5 := R.PendingValue(0, 7, 1)], {}, {}), issued := map[5 := 7], held := {5}))
  {
    hide ApplyConsumer, ApplyCron, ApplyTimeout, ApplyPoll;
    assert s.sys.issued[5 := 7] == map[5 := 7] && s.sys.held + {5} == {5};
  }

  /** User 7 takes the only unit with order 5; the reply to the request is lost. */
  lemma UnansweredRequest(setup: Setup) returns (steps: seq<Step>)
    requires setup == Setup(1, 1, 1, 0)
    ensures Possible(setup, Init(setup), steps) && Assumed(setup, Init(setup), steps)
    ensures var s := Run(setup, Init(setup), steps);
            && s.procs == map[] && s.sys.held == {5} && s.sys.issued == map[5 := 7] && s.sys.db.orders == map[] && s.sys.tx == O.EMPTY
            && s.sys.redis == R.Redis(Some(0), {7}, map[5 := R.PendingValue(0, 7, 1)], {}, {})
  {
    hide Possible, Run, Assumed, Enabled, Assumption, Apply;
    Nothing(setup, Init(setup));
    FirstWarmUp(setup);
    OneMore(setup, Init(setup), [], WarmUp(1));
    steps := [] + [WarmUp(1)];
    Answerless(setup, Run(setup, Init(setup), steps));
    OneMore(setup, Init(setup), steps, Reserve(0, 5, 7, 0, true));
    steps := steps + [Reserve(0, 5, 7, 0, true)];
  }
}
