/**
 Every step of the protocol keeps the invariant exactly when the environment keeps its
 promise at that step, and so does every run.
 */
module ProtocolInvariant {
  import opened Common
  import R = RedisStore
  import D = Orders
  import O = Outbox
  import opened Protocol
  import opened ProtocolSteps

  lemma InitInv(setup: Setup)
    ensures Inv(setup, Init(setup))
  {
    hide D.Ledger, D.Books, O.Inv, Over;
    var s := Init(setup).sys;
    D.OpeningLedger(s.db);
    EmptyOutbox();
    assert Owners(s) == {};
  }

  lemma EmptyOutbox()
    ensures O.Inv(O.EMPTY)
  {
  }

  lemma RequestReserves(setup: Setup, s: State, p: Pid, o: OrderNo, u: UserId, ts: int, replyLost: bool)
    requires Inv(setup, s) && Enabled(s, Reserve(p, o, u, ts, replyLost))
    ensures Inv(setup, Apply(setup, s, Reserve(p, o, u, ts, replyLost)))
  {
    hide Inv, SysOk;
    InvMeans(setup, s, p);
    var (sys', code) := DoReserve(s.sys, setup, o, u, ts);
    ReserveSys(setup, s.sys, o, u, ts);
    forall q | q in s.procs
      ensures ProcOk(setup, sys', s.procs[q]) && (code == R.DEDUCTED ==> Compatible(Reserved(o, u), s.procs[q]))
    {
      InvMeans(setup, s, q);      ReserveProc(setup, s.sys, o, u, ts, s.procs[q]);
    }
    if code == R.DEDUCTED && !replyLost {
      GotoKeepsInv(setup, s, sys', p, Reserved(o, u));
    } else {
      StayKeepsInv(setup, s, sys');
    }
  }

  /** The main outbox gets a row for a reserved order, or a request reports an order that has one. */
  lemma TxChange(setup: Setup, s: State, p: Pid, tx: O.System, reported: set<OrderNo>)
    requires Inv(setup, s) && O.Inv(tx) && p in s.procs && (s.procs[p].Reserved? || s.procs[p].RowWritten?)
    requires forall q :: O.HasOrder(tx.table, q) <==> HasRow(s.sys, q) || q == s.procs[p].o
    requires tx.accepted == s.sys.tx.accepted && reported <= s.sys.reported + {s.procs[p].o}
    requires s.procs[p].Reserved? ==> reported == s.sys.reported
    requires forall q :: (q != s.procs[p].o || s.procs[p].RowWritten?) && Over(s.sys, q) ==> Over(s.sys.(tx := tx), q)
    ensures SysOk(setup, s.sys.(tx := tx, reported := reported))
    ensures forall q :: q in s.procs && q != p ==> ProcOk(setup, s.sys.(tx := tx, reported := reported), s.procs[q])
  {
    hide Inv, SysOk, Over, O.Inv, O.HasOrder;
    InvMeans(setup, s, p);
    Books(setup, s.sys);
    var dropped := s.sys.dropped;
    assert s.sys.(tx := tx, dropped := dropped) == s.sys.(tx := tx);
    assert s.sys.(tx := tx, dropped := dropped, reported := reported) == s.sys.(tx := tx, reported := reported);
    TxSys(setup, s.sys, tx, dropped, reported);
    forall q | q in s.procs && q != p
      ensures ProcOk(setup, s.sys.(tx := tx, reported := reported), s.procs[q])
    {
      TogetherMeans(setup, s, p, q);
      InvMeans(setup, s, q);
      TxProc(setup, s.sys, tx, dropped, reported, s.procs[q]);
    }
  }

  lemma RequestWritesRow(setup: Setup, s: State, p: Pid, id: O.TaskId, now: int)
    requires Inv(setup, s) && Enabled(s, WriteRow(p, id, now))
    ensures Inv(setup, Apply(setup, s, WriteRow(p, id, now)))
  {
    hide Inv, SysOk, O.InsertTask, O.HasOrder;
    RowWrittenChange(setup, s, p, id, now);
    var o := s.procs[p].o;
    var sys := s.sys.(tx := O.InsertTask(s.sys.tx, id, o, now, now));
    forall q | q in s.procs && q != p
      ensures Compatible(RowWritten(o), s.procs[q])
    {
    }
    GotoKeepsInv(setup, s, sys, p, RowWritten(o));
  }

  lemma RowWrittenChange(setup: Setup, s: State, p: Pid, id: O.TaskId, now: int)
    requires Inv(setup, s) && p in s.procs && s.procs[p].Reserved? && id !in s.sys.tx.table
    ensures var sys := s.sys.(tx := O.InsertTask(s.sys.tx, id, s.procs[p].o, now, now));
            && SysOk(setup, sys) && ProcOk(setup, sys, RowWritten(s.procs[p].o))
            && forall q :: q in s.procs && q != p ==> ProcOk(setup, sys, s.procs[q])
  {
    hide Inv, SysOk, O.Inv, O.InsertTask, Over;
    InvMeans(setup, s, p);
    var o := s.procs[p].o;
    Books(setup, s.sys);
    var tx := O.InsertTask(s.sys.tx, id, o, now, now);
    O.InsertKeepsInv(s.sys.tx, id, o, now, now);
    SameAccepted(s.sys.tx, id, o, now, now);
    forall q | q != o && Over(s.sys, q)
      ensures Over(s.sys.(tx := tx), q)
    {
      OverOfOthers(s.sys, id, o, now, now, q);
    }
    assert s.sys.(tx := tx, reported := s.sys.reported) == s.sys.(tx := tx);
    TxChange(setup, s, p, tx, s.sys.reported);
  }

  lemma SameAccepted(tx: O.System, id: O.TaskId, o: OrderNo, next: int, now: int)
    requires id !in tx.table
    ensures O.InsertTask(tx, id, o, next, now).accepted == tx.accepted
  {
  }

  lemma RequestReports(setup: Setup, s: State, p: Pid)
    requires Inv(setup, s) && Enabled(s, Report(p))
    ensures Inv(setup, Apply(setup, s, Report(p)))
  {
    hide Inv, SysOk;
    InvMeans(setup, s, p);
    Books(setup, s.sys);
    var reported := s.sys.reported + {s.procs[p].o};
    assert s.sys.(tx := s.sys.tx) == s.sys;
    TxChange(setup, s, p, s.sys.tx, reported);
    StopKeepsInv(setup, s, s.sys.(reported := reported), p);
  }

  lemma RequestFails(setup: Setup, s: State, p: Pid, now: int)
    requires Inv(setup, s) && Enabled(s, WriteRowFails(p, None, now))
    ensures Inv(setup, Apply(setup, s, WriteRowFails(p, None, now)))
  {
    hide Inv, SysOk;
    InvMeans(setup, s, p);
    var Reserved(o, u) := s.procs[p];
    forall q | q in s.procs && q != p
      ensures ProcOk(setup, s.sys, s.procs[q]) && Compatible(Compensating(o, u), s.procs[q])
    {
      InvMeans(setup, s, q);
      TogetherMeans(setup, s, p, q);
    }
    GotoKeepsInv(setup, s, s.sys, p, Compensating(o, u));
  }

  lemma RequestCompensates(setup: Setup, s: State, p: Pid, executed: bool)
    requires Inv(setup, s) && Enabled(s, Compensate(p, executed))
    ensures Inv(setup, Apply(setup, s, Compensate(p, executed)))
  {
    hide Inv, SysOk, ProcOk;
    InvMeans(setup, s, p);
    var Compensating(o, u) := s.procs[p];
    if executed {
      KnowsOwner(setup, s.sys, s.procs[p]);
      ReturnToken(setup, s, p, R.Rollback(s.sys.redis, u, o));
    } else {
      JustStop(setup, s, p);
    }
  }

  lemma DeleteKeepsProcs(setup: Setup, s: State, o: OrderNo, executed: bool)
    requires Inv(setup, s)
    ensures forall q :: q in s.procs ==> ProcOk(setup, DeletePending(s.sys, o, executed), s.procs[q])
  {
    hide Inv, SysOk;
    StoresMean(setup, s);
    forall q | q in s.procs
      ensures ProcOk(setup, DeletePending(s.sys, o, executed), s.procs[q])
    {
      InvMeans(setup, s, q);      DeletePendingProc(setup, s.sys, o, executed, s.procs[q]);
    }
  }

  /** A consumer that moves on inside its critical section stays compatible with everyone. */
  lemma ConsumerMoves(setup: Setup, s: State, sys: Sys, p: Pid, x: Proc)
    requires Inv(setup, s) && p in s.procs && s.procs[p].Critical() && x.Critical() && x.o == s.procs[p].o
    requires SysOk(setup, sys) && ProcOk(setup, sys, x)
    requires forall q :: q in s.procs && q != p ==> ProcOk(setup, sys, s.procs[q])
    ensures Inv(setup, Goto(s, sys, p, x))
  {
    hide SysOk, ProcOk;
    forall q | q in s.procs && q != p
      ensures Compatible(x, s.procs[q])
    {
      assert Compatible(s.procs[p], s.procs[q]);
    }
    GotoKeepsInv(setup, s, sys, p, x);
  }

  lemma ConsumerStays(setup: Setup, s: State, p: Pid, x: Proc)
    requires Inv(setup, s) && p in s.procs && s.procs[p].Critical() && x.Critical() && x.o == s.procs[p].o
    requires ProcOk(setup, s.sys, x)
    ensures Inv(setup, Goto(s, s.sys, p, x))
  {
    hide Inv, SysOk, ProcOk;
    StoresMean(setup, s);
    forall q | q in s.procs
      ensures ProcOk(setup, s.sys, s.procs[q])
    {
      InvMeans(setup, s, q);
    }
    ConsumerMoves(setup, s, s.sys, p, x);
  }

  lemma ConsumerMarks(setup: Setup, s: State, p: Pid, replyLost: bool)
    requires Inv(setup, s) && Enabled(s, TxMarkProcessing(p, replyLost))
    ensures Inv(setup, Apply(setup, s, TxMarkProcessing(p, replyLost)))
  {
    hide Inv, SysOk, ProcOk, Compatible, R.TryMarkProcessing;
    var o := s.procs[p].o;
    var (redis, code) := R.TryMarkProcessing(s.sys.redis, o);
    var sys' := s.sys.(redis := redis);
    MarkerTaken(setup, s, p);
    if code == R.PROCESSING_MARKED && !replyLost {
      GotoKeepsInv(setup, s, sys', p, TxCreate(o));
    } else {
      StopKeepsInv(setup, s, sys', p);
    }
  }

  lemma MarkerTaken(setup: Setup, s: State, p: Pid)
    requires Inv(setup, s) && p in s.procs && s.procs[p].TxMark?
    ensures var o := s.procs[p].o;
            var (redis, code) := R.TryMarkProcessing(s.sys.redis, o);
            var sys' := s.sys.(redis := redis);
            && SysOk(setup, sys') && (forall q :: q in s.procs ==> ProcOk(setup, sys', s.procs[q]))
            && (code == R.PROCESSING_MARKED ==>
                  ProcOk(setup, sys', TxCreate(o)) && forall q :: q in s.procs && q != p ==> Compatible(TxCreate(o), s.procs[q]))
  {
    hide Inv, SysOk;
    var o := s.procs[p].o;
    var (redis, code) := R.TryMarkProcessing(s.sys.redis, o);
    InvMeans(setup, s, p);
    ProcessingSys(setup, s.sys, redis.processing);
    assert redis == s.sys.redis.(processing := redis.processing);
    forall q | q in s.procs
      ensures ProcOk(setup, s.sys.(redis := redis), s.procs[q])
      ensures code == R.PROCESSING_MARKED && q != p ==> Compatible(TxCreate(o), s.procs[q])
    {
      InvMeans(setup, s, q);
      MarkProcessingProc(setup, s.sys, o, s.procs[q]);
    }
  }

  lemma ConsumerCreates(setup: Setup, s: State, p: Pid, item: D.Item, commit: Commit)
    requires Inv(setup, s) && Enabled(s, TxCreateOrder(p, item, commit))
    ensures Inv(setup, Apply(setup, s, TxCreateOrder(p, item, commit)))
  {
    hide Inv, SysOk, ProcOk, D.Create;
    var o := s.procs[p].o;
    var (db, result) := D.Create(s.sys.db, o, s.sys.issued[o], setup.activity, item);
    AfterCreation(setup, s, p, item);
    if commit == NoEffect {
      ConsumerStays(setup, s, p, TxClear(o));
    } else if result == D.Created {
      OrderCreated(setup, s, p, item);
      ConsumerMoves(setup, s, s.sys.(db := db), p, if commit == ReplyLost then TxClear(o) else TxHdel(o));
    } else {
      ConsumerStays(setup, s, p, TxHdelDuplicate(o));
    }
  }

  /** The transaction creates the order or meets an older one, and the consumer may go on either way. */
  lemma AfterCreation(setup: Setup, s: State, p: Pid, item: D.Item)
    requires Inv(setup, s) && p in s.procs && s.procs[p].TxCreate? && s.procs[p].o in s.sys.issued
    ensures var o := s.procs[p].o;
            var result := D.Create(s.sys.db, o, s.sys.issued[o], setup.activity, item).1;
            && result in {D.Created, D.DuplicateOrder}
            && ProcOk(setup, s.sys, TxClear(o))
            && (result == D.DuplicateOrder ==> ProcOk(setup, s.sys, TxHdelDuplicate(o)))
  {
    hide Inv, SysOk, D.Create;
    InvMeans(setup, s, p);
    CreateResult(setup, s.sys, s.procs[p].o, item);
  }

  lemma OrderCreated(setup: Setup, s: State, p: Pid, item: D.Item)
    requires Inv(setup, s) && p in s.procs && s.procs[p].TxCreate? && s.procs[p].o in s.sys.issued
    requires D.Create(s.sys.db, s.procs[p].o, s.sys.issued[s.procs[p].o], setup.activity, item).1 == D.Created
    ensures var o := s.procs[p].o;
            var sys := s.sys.(db := D.Create(s.sys.db, o, s.sys.issued[o], setup.activity, item).0);
            && SysOk(setup, sys) && ProcOk(setup, sys, TxClear(o)) && ProcOk(setup, sys, TxHdel(o))
            && forall q :: q in s.procs && q != p ==> ProcOk(setup, sys, s.procs[q])
  {
    hide Inv, SysOk, D.Conflicts, D.Evolves;
    var o := s.procs[p].o;
    var op := D.CreateOp(o, s.sys.issued[o], setup.activity, item);
    InvMeans(setup, s, p);
    CreateSys(setup, s.sys, o, item);
    D.OpEvolves(s.sys.db, op);
    forall q | q in s.procs && q != p
      ensures ProcOk(setup, s.sys.(db := D.Do(s.sys.db, op)), s.procs[q])
    {
      InvMeans(setup, s, q);
      DbProc(setup, s.sys, D.Do(s.sys.db, op), s.procs[q]);
    }
  }

  lemma MarkerReleased(setup: Setup, s: State, o: OrderNo, except: set<Pid>)
    requires Inv(setup, s) && (o in s.sys.redis.processing ==> SafeToRelease(s, o))
    requires forall q :: q in s.procs && q !in except && s.procs[q].Critical() ==> s.procs[q].o != o
    ensures SysOk(setup, s.sys.(redis := R.ClearProcessing(s.sys.redis, o)))
    ensures forall q :: q in s.procs && q !in except ==> ProcOk(setup, s.sys.(redis := R.ClearProcessing(s.sys.redis, o)), s.procs[q])
  {
    hide Inv, SysOk;
    StoresMean(setup, s);
    ProcessingSys(setup, s.sys, s.sys.redis.processing - {o});
    forall q | q in s.procs && q !in except
      ensures ProcOk(setup, s.sys.(redis := R.ClearProcessing(s.sys.redis, o)), s.procs[q])
    {
      InvMeans(setup, s, q);      ClearProcessingProc(setup, s.sys, o, s.procs[q]);
    }
  }

  /** The timeout topic or its outbox learns of a committed order. */
  lemma TimeoutChange(setup: Setup, s: State, timeout: O.System)
    requires Inv(setup, s) && O.Inv(timeout)
    requires forall o :: o in timeout.accepted || O.HasOrder(timeout.table, o) ==> o in s.sys.db.orders
    ensures SysOk(setup, s.sys.(timeout := timeout))
    ensures forall q :: q in s.procs ==> ProcOk(setup, s.sys.(timeout := timeout), s.procs[q])
  {
    hide Inv, SysOk;
    StoresMean(setup, s);
    TimeoutSys(setup, s.sys, timeout);
    forall q | q in s.procs
      ensures ProcOk(setup, s.sys.(timeout := timeout), s.procs[q])
    {
      InvMeans(setup, s, q);      TimeoutProc(setup, s.sys, timeout, s.procs[q]);
    }
  }

  lemma TimeoutAccepted(setup: Setup, s: State, o: OrderNo, accepted: bool)
    requires Inv(setup, s) && o in s.sys.db.orders
    ensures var sys := if accepted then s.sys.(timeout := O.AcceptDirect(s.sys.timeout, o)) else s.sys;
            SysOk(setup, sys) && forall q :: q in s.procs ==> ProcOk(setup, sys, s.procs[q])
  {
    hide Inv, SysOk, ProcOk, O.Inv, O.HasOrder;
    StoresMean(setup, s);
    forall q | q in s.procs
      ensures ProcOk(setup, s.sys, s.procs[q])
    {
      InvMeans(setup, s, q);
    }
    if accepted {
      Books(setup, s.sys);
      TimeoutAccept(setup, s.sys, o, accepted);
      TimeoutChange(setup, s, O.AcceptDirect(s.sys.timeout, o));
    }
  }

  lemma ConsumerSends(setup: Setup, s: State, p: Pid, accepted: bool, acknowledged: bool)
    requires Inv(setup, s) && Enabled(s, TxSendTimeout(p, accepted, acknowledged))
    ensures Inv(setup, Apply(setup, s, TxSendTimeout(p, accepted, acknowledged)))
  {
    hide Inv, SysOk, O.AcceptDirect, ApplyRequest, ApplyCron, ApplyTimeout, ApplyPoll;
    var o := s.procs[p].o;
    InvMeans(setup, s, p);
    TimeoutAccepted(setup, s, o, accepted);
    var sys := if accepted then s.sys.(timeout := O.AcceptDirect(s.sys.timeout, o)) else s.sys;
    ConsumerMoves(setup, s, sys, p, if acknowledged then TxClear(o) else TxLog(o));
  }

  lemma ConsumerLogsTask(setup: Setup, s: State, p: Pid, written: Option<O.TaskId>, now: int)
    requires Inv(setup, s) && Enabled(s, TxLogTask(p, written, now))
    ensures Inv(setup, Apply(setup, s, TxLogTask(p, written, now)))
  {
    hide Inv, SysOk, O.Inv, ApplyRequest, ApplyCron, ApplyTimeout, ApplyPoll;
    var o := s.procs[p].o;
    InvMeans(setup, s, p);
    if written.Some? {
      TimeoutInsert(setup, s.sys, written.value, o, now + 30 * SECOND, now);
      var timeout := O.InsertTask(s.sys.timeout, written.value, o, now + 30 * SECOND, now);
      TimeoutChange(setup, s, timeout);
      ConsumerMoves(setup, s, s.sys.(timeout := timeout), p, TxClear(o));
    } else {
      ConsumerStays(setup, s, p, TxClear(o));
    }
  }

  lemma ConsumerDeletes(setup: Setup, s: State, p: Pid, executed: bool)
    requires Inv(setup, s) && Enabled(s, TxDeletePending(p, executed))
    ensures Inv(setup, Apply(setup, s, TxDeletePending(p, executed)))
  {
    hide Inv, SysOk, ApplyRequest, ApplyCron, ApplyTimeout, ApplyPoll;
    var o := s.procs[p].o;
    InvMeans(setup, s, p);
    DeletePendingSys(setup, s.sys, o, executed);
    DeleteKeepsProcs(setup, s, o, executed);
    var x := if s.procs[p].TxHdel? then TxSend(o) else TxClear(o);
    ConsumerMoves(setup, s, DeletePending(s.sys, o, executed), p, x);
  }

  lemma ConsumerReceives(setup: Setup, s: State, p: Pid, o: OrderNo)
    requires Inv(setup, s) && Enabled(s, TxReceive(p, o))
    ensures Inv(setup, Apply(setup, s, TxReceive(p, o)))
  {
    hide Inv, SysOk;
    StoresMean(setup, s);
    Facts(setup, s.sys, o);
    QuietGoto(setup, s, p, if o in s.sys.redis.canceled then Hdel(o) else TxMark(o));
  }

  lemma ConsumerClears(setup: Setup, s: State, p: Pid, executed: bool)
    requires Inv(setup, s) && Enabled(s, TxClearMarker(p, executed)) && Assumption(s, setup, TxClearMarker(p, executed))
    ensures Inv(setup, Apply(setup, s, TxClearMarker(p, executed)))
  {
    hide Inv, SysOk, ProcOk;
    if executed {
      var o := s.procs[p].o;
      forall q | q in s.procs && q != p && s.procs[q].Critical()
        ensures s.procs[q].o != o
      {
        TogetherMeans(setup, s, p, q);
      }
      MarkerReleased(setup, s, o, {p});
      StopKeepsInv(setup, s, s.sys.(redis := R.ClearProcessing(s.sys.redis, o)), p);
    } else {
      JustStop(setup, s, p);
    }
  }

  lemma MarkerRunsOut(setup: Setup, s: State, o: OrderNo)
    requires Inv(setup, s) && Assumption(s, setup, MarkerExpires(o))
    ensures Inv(setup, Apply(setup, s, MarkerExpires(o)))
  {
    hide Inv, SysOk, ProcOk;
    MarkerReleased(setup, s, o, {});
    StayKeepsInv(setup, s, s.sys.(redis := R.ClearProcessing(s.sys.redis, o)));
  }

  lemma CronMarks(setup: Setup, s: State, p: Pid, replyLost: bool)
    requires Inv(setup, s) && Enabled(s, CronMarkCanceled(p, replyLost))
    ensures Inv(setup, Apply(setup, s, CronMarkCanceled(p, replyLost)))
  {
    hide Inv, SysOk, ProcOk, Compatible, R.MarkCanceledIfPending;
    var CronMark(o, pv) := s.procs[p];
    var (redis, code) := R.MarkCanceledIfPending(s.sys.redis, o);
    CanceledTaken(setup, s, p);
    if code == R.CANCEL_MARK_CREATED && !replyLost {
      GotoKeepsInv(setup, s, Marked(s.sys, redis), p, CronRollback(o, pv));
    } else {
      StopKeepsInv(setup, s, Marked(s.sys, redis), p);
    }
  }

  lemma CanceledTaken(setup: Setup, s: State, p: Pid)
    requires Inv(setup, s) && p in s.procs && s.procs[p].CronMark?
    ensures var CronMark(o, pv) := s.procs[p];
            var (redis, code) := R.MarkCanceledIfPending(s.sys.redis, o);
            var sys' := Marked(s.sys, redis);
            && SysOk(setup, sys') && (forall q :: q in s.procs && q != p ==> ProcOk(setup, sys', s.procs[q]))
            && (code == R.CANCEL_MARK_CREATED ==>
                  && ProcOk(setup, sys', CronRollback(o, pv))
                  && forall q :: q in s.procs && q != p ==> Compatible(CronRollback(o, pv), s.procs[q]))
  {
    hide Inv, SysOk;
    var CronMark(o, pv) := s.procs[p];
    var (redis, code) := R.MarkCanceledIfPending(s.sys.redis, o);
    InvMeans(setup, s, p);
    MarkCanceledSys(setup, s.sys, o);
    forall q | q in s.procs && q != p
      ensures ProcOk(setup, Marked(s.sys, redis), s.procs[q])
      ensures code == R.CANCEL_MARK_CREATED ==> Compatible(CronRollback(o, pv), s.procs[q])
    {
      TogetherMeans(setup, s, p, q);
      InvMeans(setup, s, q);
      MarkCanceledProc(setup, s.sys, o, s.procs[q]);
    }
  }

  lemma CanceledForgotten(setup: Setup, s: State, o: OrderNo)
    requires Inv(setup, s) && Assumption(s, setup, CanceledExpires(o))
    ensures Inv(setup, Apply(setup, s, CanceledExpires(o)))
  {
    hide Inv, SysOk, Over;
    StoresMean(setup, s);
    ForgetSys(setup, s.sys, o);
    forall q | q in s.procs
      ensures ProcOk(setup, s.sys.(redis := R.ForgetCanceled(s.sys.redis, o)), s.procs[q])
    {
      InvMeans(setup, s, q);      ForgetProc(setup, s.sys, o, s.procs[q]);
    }
    StayKeepsInv(setup, s, s.sys.(redis := R.ForgetCanceled(s.sys.redis, o)));
  }

  lemma BrokerDrops(setup: Setup, s: State, o: OrderNo)
    requires Inv(setup, s) && Enabled(s, MessageDropped(o))
    ensures Inv(setup, Apply(setup, s, MessageDropped(o)))
  {
    hide Inv, SysOk, Over;
    StoresMean(setup, s);
    DroppedSys(setup, s.sys, o);
    forall q | q in s.procs
      ensures ProcOk(setup, s.sys.(dropped := s.sys.dropped + {o}), s.procs[q])
    {
      InvMeans(setup, s, q);      DroppedProc(setup, s.sys, s.sys.dropped + {o}, s.procs[q]);
    }
    StayKeepsInv(setup, s, s.sys.(dropped := s.sys.dropped + {o}));
  }

  lemma CronPicks(setup: Setup, s: State, p: Pid, o: OrderNo)
    requires Inv(setup, s) && Enabled(s, CronPick(p, o)) && Assumption(s, setup, CronPick(p, o))
    ensures Inv(setup, Apply(setup, s, CronPick(p, o)))
  {
    hide Inv, SysOk, ApplyRequest, ApplyConsumer, ApplyTimeout, ApplyPoll;
    StoresMean(setup, s);
    Facts(setup, s.sys, o);
    forall q | q in s.procs
      ensures ProcOk(setup, s.sys, s.procs[q])
    {
      InvMeans(setup, s, q);
    }
    GotoKeepsInv(setup, s, s.sys, p, CronRead(o, s.sys.redis.pending[o]));
  }

  lemma CronReads(setup: Setup, s: State, p: Pid)
    requires Inv(setup, s) && Enabled(s, CronReadOrder(p))
    ensures Inv(setup, Apply(setup, s, CronReadOrder(p)))
  {
    hide Inv, SysOk, ApplyRequest, ApplyConsumer, ApplyTimeout, ApplyPoll;
    InvMeans(setup, s, p);
    var CronRead(o, pv) := s.procs[p];
    if o in s.sys.db.orders {
      QuietGoto(setup, s, p, Hdel(o));
    } else {
      StaysScanning(setup, s, p, CronMark(o, pv));
    }
  }

  /** A scanner that moves on with its entry stays compatible with everyone. */
  lemma StaysScanning(setup: Setup, s: State, p: Pid, x: Proc)
    requires Inv(setup, s) && p in s.procs && s.procs[p].CronRead? && x.CronMark? && x.o == s.procs[p].o && ProcOk(setup, s.sys, x)
    ensures Inv(setup, Goto(s, s.sys, p, x))
  {
    hide Inv, SysOk, ProcOk;
    StoresMean(setup, s);
    forall q | q in s.procs && q != p
      ensures ProcOk(setup, s.sys, s.procs[q]) && Compatible(x, s.procs[q])
    {
      InvMeans(setup, s, q);
      TogetherMeans(setup, s, p, q);
    }
    GotoKeepsInv(setup, s, s.sys, p, x);
  }

  lemma CronRollsBack(setup: Setup, s: State, p: Pid, executed: bool)
    requires Inv(setup, s) && Enabled(s, CronRollBack(p, executed))
    ensures Inv(setup, Apply(setup, s, CronRollBack(p, executed)))
  {
    hide Inv, SysOk;
    var CronRollback(o, pv) := s.procs[p];
    InvMeans(setup, s, p);
    if !executed {
      JustStop(setup, s, p);
    } else if pv.uid > 0 && pv.pid > 0 {
      KnowsOwner(setup, s.sys, s.procs[p]);
      ReturnToken(setup, s, p, R.Rollback(s.sys.redis, pv.uid, o));
    } else {
      DeletePendingSys(setup, s.sys, o, true);
      DeleteKeepsProcs(setup, s, o, true);
      StopKeepsInv(setup, s, DeletePending(s.sys, o, true), p);
    }
  }

  lemma CleanStep(setup: Setup, s: State, step: Step)
    requires Inv(setup, s) && Enabled(s, step) && (step.CleanPick? || step.CleanReadOrder?)
    ensures Inv(setup, Apply(setup, s, step))
  {
    hide Inv;
    match step {
      case CleanPick(p, o) => QuietGoto(setup, s, p, CleanRead(o));
      case CleanReadOrder(p) =>
        var o := s.procs[p].o;
        QuietGoto(setup, s, p, if o in s.sys.db.orders then Hdel(o) else CleanCheck(o));
    }
  }

  lemma CleanReadsCanceled(setup: Setup, s: State, p: Pid)
    requires Inv(setup, s) && Enabled(s, CleanReadCanceled(p))
    ensures Inv(setup, Apply(setup, s, CleanReadCanceled(p)))
  {
    hide Inv;
    if s.procs[p].o in s.sys.redis.canceled {
      QuietGoto(setup, s, p, Hdel(s.procs[p].o));
    } else {
      JustStop(setup, s, p);
    }
  }

  lemma EntryDropped(setup: Setup, s: State, p: Pid, executed: bool)
    requires Inv(setup, s) && Enabled(s, DeleteAndStop(p, executed))
    ensures Inv(setup, Apply(setup, s, DeleteAndStop(p, executed)))
  {
    hide Inv, SysOk, ProcOk, DeletePending;
    var o := s.procs[p].o;
    InvMeans(setup, s, p);
    DropperMeans(setup, s.sys, s.procs[p]);
    DeletePendingSys(setup, s.sys, o, executed);
    DeleteKeepsProcs(setup, s, o, executed);
    StopKeepsInv(setup, s, DeletePending(s.sys, o, executed), p);
  }

  lemma DropperMeans(setup: Setup, s: Sys, x: Proc)
    requires ProcOk(setup, s, x) && x.Hdel?
    ensures x.o in s.db.orders || x.o in s.redis.canceled
  {
  }

  /** The order commits a new status: nobody relies on more than what final statuses keep. */
  lemma StatusChange(setup: Setup, s: State, db: D.Db)
    requires Inv(setup, s) && D.Evolves(s.sys.db, db) && db.orders.Keys == s.sys.db.orders.Keys
    requires D.Ledger(db, Opening(setup))
    ensures SysOk(setup, s.sys.(db := db))
    ensures forall q :: q in s.procs ==> ProcOk(setup, s.sys.(db := db), s.procs[q])
  {
    hide Inv, SysOk;
    StoresMean(setup, s);
    StatusChangeSys(setup, s.sys, db);
    forall q | q in s.procs
      ensures ProcOk(setup, s.sys.(db := db), s.procs[q])
    {
      InvMeans(setup, s, q);      DbProc(setup, s.sys, db, s.procs[q]);
    }
  }

  lemma TimeoutCancels(setup: Setup, s: State, p: Pid, commit: Commit, done: D.Unchecked)
    requires Inv(setup, s) && Enabled(s, ToCancelOrder(p, commit, done)) && Assumption(s, setup, ToCancelOrder(p, commit, done))
    ensures Inv(setup, Apply(setup, s, ToCancelOrder(p, commit, done)))
  {
    hide Inv, SysOk, ProcOk, D.CancelExpired;
    var ToCancel(o, u) := s.procs[p];
    var (db, cancelled) := D.CancelExpired(s.sys.db, o, done);
    if commit == NoEffect || cancelled.None? {
      JustStop(setup, s, p);
    } else {
      OrderCancelled(setup, s, p, done);
      if commit == ReplyLost {
        StopKeepsInv(setup, s, s.sys.(db := db), p);
      } else {
        NobodyElseReturns(setup, s, o, u);
        GotoKeepsInv(setup, s, s.sys.(db := db), p, ToRollback(o, u));
      }
    }
  }

  lemma OrderCancelled(setup: Setup, s: State, p: Pid, done: D.Unchecked)
    requires Inv(setup, s) && p in s.procs && s.procs[p].ToCancel?
    requires D.CancelExpired(s.sys.db, s.procs[p].o, done).1.Some? && done == D.BOTH
    ensures var ToCancel(o, u) := s.procs[p];
            var sys := s.sys.(db := D.CancelExpired(s.sys.db, o, done).0);
            && SysOk(setup, sys) && (forall q :: q in s.procs ==> ProcOk(setup, sys, s.procs[q]))
            && ProcOk(setup, sys, ToRollback(o, u))
            && o in s.sys.db.orders && s.sys.db.orders[o].status == D.Pending
  {
    hide Inv, SysOk, D.Ledger, D.Evolves;
    var ToCancel(o, u) := s.procs[p];
    InvMeans(setup, s, p);
    Facts(setup, s.sys, o);
    CancelLedger(setup, s.sys, o, done);
    StatusChange(setup, s, D.CancelExpired(s.sys.db, o, done).0);
  }

  /** While the order is pending nobody is about to give its unit back. */
  lemma NobodyElseReturns(setup: Setup, s: State, o: OrderNo, u: UserId)
    requires Inv(setup, s) && o in s.sys.db.orders && s.sys.db.orders[o].status == D.Pending
    ensures forall q :: q in s.procs ==> Compatible(ToRollback(o, u), s.procs[q])
  {
    hide Inv, SysOk;
    StoresMean(setup, s);
    forall q | q in s.procs
      ensures Compatible(ToRollback(o, u), s.procs[q])
    {
      InvMeans(setup, s, q);
    }
  }

  lemma CancelLedger(setup: Setup, s: Sys, o: OrderNo, done: D.Unchecked)
    requires SysOk(setup, s)
    ensures var (db, cancelled) := D.CancelExpired(s.db, o, done);
            D.Evolves(s.db, db) && (D.Ledger(db, Opening(setup)) <==> (cancelled.Some? ==> done == D.BOTH))
  {
    hide SysOk, OutboxesOk, D.Ledger, D.Evolves;
    Books(setup, s);
    D.CancelKeepsLedgerIff(s.db, Opening(setup), o, done);
    D.OpEvolves(s.db, D.CancelOp(o, done));
  }

  lemma PayLedger(setup: Setup, s: Sys, o: OrderNo, u: UserId)
    requires SysOk(setup, s)
    ensures D.Ledger(D.Pay(s.db, o, u).0, Opening(setup)) && D.Evolves(s.db, D.Pay(s.db, o, u).0)
  {
    hide SysOk, OutboxesOk, D.Books, D.Pay, D.Evolves;
    Books(setup, s);
    D.PayKeepsBooks(s.db, Opening(setup), D.NO_GAPS, o, u);
    D.OpEvolves(s.db, D.PayOp(o, u));
  }

  lemma TimeoutReceives(setup: Setup, s: State, p: Pid, o: OrderNo)
    requires Inv(setup, s) && Enabled(s, ToReceive(p, o))
    ensures Inv(setup, Apply(setup, s, ToReceive(p, o)))
  {
    hide Inv, SysOk, ApplyRequest, ApplyConsumer, ApplyCron, ApplyPoll;
    StoresMean(setup, s);
    Facts(setup, s.sys, o);
    if o in s.sys.db.orders && s.sys.db.orders[o].status == D.Pending {
      QuietGoto(setup, s, p, ToCancel(o, s.sys.issued[o]));
    }
  }

  lemma TimeoutReturns(setup: Setup, s: State, p: Pid, executed: bool)
    requires Inv(setup, s) && Enabled(s, ToRollBack(p, executed))
    ensures Inv(setup, Apply(setup, s, ToRollBack(p, executed)))
  {
    hide Inv, SysOk, ProcOk;
    InvMeans(setup, s, p);
    if executed {
      KnowsOwner(setup, s.sys, s.procs[p]);
      ReturnToken(setup, s, p, R.CancelOrderRollback(s.sys.redis, s.procs[p].u));
    } else {
      JustStop(setup, s, p);
    }
  }

  lemma OrderIsPaid(setup: Setup, s: State, o: OrderNo, u: UserId)
    requires Inv(setup, s)
    ensures Inv(setup, Apply(setup, s, PayOrder(o, u)))
  {
    hide Inv, SysOk, ProcOk, D.Ledger, D.Evolves, ApplyRequest, ApplyConsumer, ApplyCron, ApplyPoll;
    StoresMean(setup, s);
    var db := D.Pay(s.sys.db, o, u).0;
    PayLedger(setup, s.sys, o, u);
    StatusChange(setup, s, db);
    StayKeepsInv(setup, s, s.sys.(db := db));
  }

  lemma PollStarts(setup: Setup, s: State, p: Pid, u: UserId, asked: Option<OrderNo>)
    requires Inv(setup, s) && Enabled(s, PollStart(p, u, asked))
    ensures Inv(setup, Apply(setup, s, PollStart(p, u, asked)))
  {
    hide Inv, ApplyRequest, ApplyConsumer, ApplyCron, ApplyTimeout;
    if !D.HasBought(s.sys.db.orders, u, setup.activity) {
      QuietGoto(setup, s, p, if asked.Some? then PollPending(u, asked.value) else PollPurchased(u));
    }
  }

  lemma PollReads(setup: Setup, s: State, p: Pid, failed: bool)
    requires Inv(setup, s) && Enabled(s, PollReadPending(p, failed))
    ensures Inv(setup, Apply(setup, s, PollReadPending(p, failed)))
  {
    hide Inv;
    var PollPending(u, o) := s.procs[p];
    if !failed && o in s.sys.redis.pending {
      JustStop(setup, s, p);
    } else {
      QuietGoto(setup, s, p, PollPurchased(u));
    }
  }

  lemma ProcessEnds(setup: Setup, s: State, step: Step)
    requires Inv(setup, s) && Enabled(s, step) && (step.PollReadPurchased? || step.Crash?)
    ensures Inv(setup, Apply(setup, s, step))
  {
    hide Inv;
    JustStop(setup, s, step.p);
  }

  lemma TxOutboxChange(setup: Setup, s: State, x: O.Step)
    requires Inv(setup, s) && O.Enabled(s.sys.tx, x)
    ensures var sys := s.sys.(tx := O.Apply(O.TX, s.sys.tx, x), dropped := s.sys.dropped - Redelivered(s.sys.tx, x));
            SysOk(setup, sys) && forall q :: q in s.procs ==> ProcOk(setup, sys, s.procs[q])
  {
    hide Inv, SysOk, O.Apply, O.Inv, O.HasOrder, Over, ProcOk;
    StoresMean(setup, s);
    Books(setup, s.sys);
    var sys := s.sys;
    var tx := O.Apply(O.TX, sys.tx, x);
    var dropped := sys.dropped - Redelivered(sys.tx, x);
    assert sys.(tx := tx, dropped := dropped, reported := sys.reported) == sys.(tx := tx, dropped := dropped);
    SameRows(O.TX, sys.tx, x);
    forall q | Over(sys, q)
      ensures Over(sys.(tx := tx, dropped := dropped), q)
    {
      OverStays(sys, x, q);
    }
    TxSys(setup, sys, tx, dropped, sys.reported);
    forall q | q in s.procs
      ensures ProcOk(setup, sys.(tx := tx, dropped := dropped), s.procs[q])
    {
      InvMeans(setup, s, q);
      RequestHasNoRow(setup, sys, s.procs[q]);
      TxProc(setup, sys, tx, dropped, sys.reported, s.procs[q]);
    }
  }

  lemma RequestHasNoRow(setup: Setup, s: Sys, x: Proc)
    requires ProcOk(setup, s, x)
    ensures x.Requesting() ==> !HasRow(s, x.o)
  {
  }

  lemma OutboxStep(setup: Setup, s: State, step: Step)
    requires Inv(setup, s) && Enabled(s, step)
    requires step.TxOutbox? || step.TimeoutOutbox?
    ensures Inv(setup, Apply(setup, s, step))
  {
    hide Inv, SysOk, O.Apply, O.Inv, ApplyRequest, ApplyConsumer, ApplyCron, ApplyTimeout, ApplyPoll;
    StoresMean(setup, s);
    var sys := s.sys;
    Books(setup, sys);
    match step {
      case TxOutbox(x) =>
        var tx := O.Apply(O.TX, sys.tx, x);
        TxOutboxChange(setup, s, x);
        StayKeepsInv(setup, s, sys.(tx := tx, dropped := sys.dropped - Redelivered(sys.tx, x)));
      case TimeoutOutbox(x) =>
        var timeout := O.Apply(O.TIMEOUT, sys.timeout, x);
        SameRows(O.TIMEOUT, sys.timeout, x);
        TimeoutChange(setup, s, timeout);
        StayKeepsInv(setup, s, sys.(timeout := timeout));
    }
  }

  /** The stock row still reads `w` while nothing has been reserved. */
  lemma UntouchedStock(setup: Setup, s: State)
    requires Inv(setup, s) && s.sys.issued == map[]
    ensures setup.activity in s.sys.db.activities
    ensures s.sys.db.activities[setup.activity].available == setup.w
  {
    D.LedgerBalances(s.sys.db, Opening(setup), setup.activity);
    assert D.Live(s.sys.db, setup.activity) == {};
  }

  lemma WarmUpStep(setup: Setup, s: State, n: int)
    requires Inv(setup, s)
    ensures Inv(setup, Apply(setup, s, WarmUp(n))) <==> Assumption(s, setup, WarmUp(n))
  {
    hide Inv, SysOk, ProcOk, Compatible, StockOk, ApplyRequest, ApplyConsumer, ApplyCron, ApplyTimeout, ApplyPoll;
    StoresMean(setup, s);
    var sys' := s.sys.(redis := R.WarmUp(s.sys.redis, n));
    StockAfterWarmUp(setup, s, n);
    if StockOk(setup, sys') {
      WarmUpSys(setup, s.sys, n);
      forall q | q in s.procs
        ensures ProcOk(setup, sys', s.procs[q])
      {
        InvMeans(setup, s, q);
        WarmUpProc(setup, s.sys, n, s.procs[q]);
      }
      StayKeepsInv(setup, s, sys');
    } else {
      if Inv(setup, s.(sys := sys')) {
        StoresMean(setup, s.(sys := sys'));
        StockMeans(setup, sys');
      }
    }
  }

  lemma StockMeans(setup: Setup, s: Sys)
    requires SysOk(setup, s)
    ensures StockOk(setup, s)
  {
  }

  lemma WarmUpProc(setup: Setup, s: Sys, n: int, x: Proc)
    requires ProcOk(setup, s, x)
    ensures ProcOk(setup, s.(redis := R.WarmUp(s.redis, n)), x)
  {
  }

  lemma StockAfterWarmUp(setup: Setup, s: State, n: int)
    requires Inv(setup, s)
    ensures StockOk(setup, s.sys.(redis := R.WarmUp(s.sys.redis, n))) <==> Assumption(s, setup, WarmUp(n))
  {
    hide OutboxesOk, OrdersOk, PendingOk, NotOrphaned, ReturnedOk, D.Ledger, ProcOk, Compatible;
    if s.sys.redis.stock.None? {
      UntouchedStock(setup, s);
      assert s.sys.held == {};
    }
  }

  lemma WarmUpSys(setup: Setup, s: Sys, n: int)
    requires SysOk(setup, s) && StockOk(setup, s.(redis := R.WarmUp(s.redis, n)))
    ensures SysOk(setup, s.(redis := R.WarmUp(s.redis, n)))
  {
    hide StockOk, NotOrphaned, OutboxesOk, O.Inv, O.HasOrder, D.Ledger;
    var s' := s.(redis := R.WarmUp(s.redis, n));
    assert Owners(s') == Owners(s);
    OutboxesStay(s, s');
    OrphansStay(s, s');
  }

  lemma BrokenInsert(setup: Setup, s: State, p: Pid, id: O.TaskId, now: int)
    requires Inv(setup, s) && Enabled(s, WriteRowFails(p, Some(id), now))
    ensures !Inv(setup, Apply(setup, s, WriteRowFails(p, Some(id), now)))
  {
    hide SysOk, ApplyConsumer, ApplyCron, ApplyTimeout, ApplyPoll;
    var s' := Apply(setup, s, WriteRowFails(p, Some(id), now));
    Books(setup, s.sys);
    O.InsertKeepsInv(s.sys.tx, id, s.procs[p].o, now, now);
    assert HasRow(s'.sys, s.procs[p].o);
    assert !ProcOk(setup, s'.sys, s'.procs[p]);
  }

  lemma BrokenPick(setup: Setup, s: State, p: Pid, o: OrderNo)
    requires Enabled(s, CronPick(p, o)) && !Assumption(s, setup, CronPick(p, o))
    ensures !Inv(setup, Apply(setup, s, CronPick(p, o)))
  {
    hide SysOk;
    var s' := Apply(setup, s, CronPick(p, o));
    var q :| q in s.procs && s.procs[q].Requesting() && s.procs[q].o == o;
    assert q in s'.procs && q != p && !Compatible(s'.procs[q], s'.procs[p]);
  }

  lemma BrokenExpiry(setup: Setup, s: State, o: OrderNo)
    requires !Assumption(s, setup, MarkerExpires(o))
    ensures !Inv(setup, Apply(setup, s, MarkerExpires(o)))
  {
    hide SysOk;
    var s' := Apply(setup, s, MarkerExpires(o));
    if q :| q in s.procs && s.procs[q].Critical() && s.procs[q].o == o {
      assert !ProcOk(setup, s'.sys, s'.procs[q]);
    } else {
      BrokenRelease(setup, s, s', o);
    }
  }

  /** An order marked canceled whose unit was returned has no order row and no entry. */
  lemma MarkedIsGone(setup: Setup, s: Sys, o: OrderNo)
    requires SysOk(setup, s) && o in s.redis.canceled
    ensures o in s.issued && o !in s.db.orders
  {
  }

  lemma Forgetting(setup: Setup, s: State, o: OrderNo)
    ensures Enabled(s, CanceledExpires(o))
    ensures Apply(setup, s, CanceledExpires(o)) == s.(sys := s.sys.(redis := R.ForgetCanceled(s.sys.redis, o)))
  {
    hide ApplyRequest, ApplyConsumer, ApplyCron, ApplyTimeout, ApplyPoll;
  }

  lemma BrokenForgetting(setup: Setup, s: State, o: OrderNo)
    requires Inv(setup, s) && !Assumption(s, setup, CanceledExpires(o))
    ensures !Inv(setup, Apply(setup, s, CanceledExpires(o)))
  {
    hide Inv, SysOk, Over, Apply, Enabled;
    Forgetting(setup, s, o);
    var s' := Apply(setup, s, CanceledExpires(o));
    StoresMean(setup, s);
    MarkedIsGone(setup, s.sys, o);
    if q :| q in s.procs && (s.procs[q].CronRollback? || s.procs[q].Hdel?) && s.procs[q].o == o {
      WrongProc(setup, s', q);
    } else if q :| q in s.procs && s.procs[q].TxMark? && s.procs[q].o == o && o !in s.sys.held {
      WrongProc(setup, s', q);
    } else {
      ForgottenTooEarly(setup, s.sys, o);
      WrongStores(setup, s');
    }
  }

  lemma WrongProc(setup: Setup, s: State, p: Pid)
    requires p in s.procs && !ProcOk(setup, s.sys, s.procs[p])
    ensures !Inv(setup, s)
  {
  }

  lemma WrongStores(setup: Setup, s: State)
    requires !SysOk(setup, s.sys)
    ensures !Inv(setup, s)
  {
  }

  lemma ForgottenTooEarly(setup: Setup, s: Sys, o: OrderNo)
    requires o in s.issued && o !in s.held && o !in s.db.orders && !Over(s, o)
    ensures !SysOk(setup, s.(redis := R.ForgetCanceled(s.redis, o)))
  {
    hide Over;
    var s' := s.(redis := R.ForgetCanceled(s.redis, o));
    if Over(s', o) {
      OverDependsOn(s', s, o);
    }
    assert !ReturnedOk(s');
  }

  lemma BrokenCancel(setup: Setup, s: State, p: Pid, commit: Commit, done: D.Unchecked)
    requires Inv(setup, s) && Enabled(s, ToCancelOrder(p, commit, done)) && !Assumption(s, setup, ToCancelOrder(p, commit, done))
    ensures !Inv(setup, Apply(setup, s, ToCancelOrder(p, commit, done)))
  {
    hide Inv, SysOk, D.Ledger, D.Evolves, D.CancelExpired;
    var s' := Apply(setup, s, ToCancelOrder(p, commit, done));
    StoresMean(setup, s);
    CancelLedger(setup, s.sys, s.procs[p].o, done);
    if SysOk(setup, s'.sys) {
      Books(setup, s'.sys);
    }
    WrongStores(setup, s');
  }

  /** Each promise is needed where it is made: breaking it breaks the invariant in that very step. */
  lemma BrokenPromise(setup: Setup, s: State, step: Step)
    requires Inv(setup, s) && Enabled(s, step) && !Assumption(s, setup, step)
    ensures !Inv(setup, Apply(setup, s, step))
  {
    hide Inv, Apply, Over, D.CancelExpired;
    match step {
      case WarmUp(n) => WarmUpStep(setup, s, n);
      case WriteRowFails(p, written, now) => BrokenInsert(setup, s, p, written.value, now);
      case CronPick(p, o) => BrokenPick(setup, s, p, o);
      case TxClearMarker(p, executed) => BrokenClear(setup, s, p, executed);
      case MarkerExpires(o) => BrokenExpiry(setup, s, o);
      case CanceledExpires(o) => BrokenForgetting(setup, s, o);
      case ToCancelOrder(p, commit, done) => BrokenCancel(setup, s, p, commit, done);
    }
  }

  lemma BrokenClear(setup: Setup, s: State, p: Pid, executed: bool)
    requires Enabled(s, TxClearMarker(p, executed)) && !Assumption(s, setup, TxClearMarker(p, executed))
    ensures !Inv(setup, Apply(setup, s, TxClearMarker(p, executed)))
  {
    hide Inv, SysOk, ProcOk;
    BrokenRelease(setup, s, Apply(setup, s, TxClearMarker(p, executed)), s.procs[p].o);
  }

  lemma BrokenRelease(setup: Setup, s: State, s': State, o: OrderNo)
    requires !SafeToRelease(s, o) && s'.sys == s.sys.(redis := R.ClearProcessing(s.sys.redis, o))
    requires forall q :: q in s.procs && s.procs[q].CronMark? ==> q in s'.procs && s'.procs[q] == s.procs[q]
    ensures !Inv(setup, s')
  {
    hide SysOk;
    var q :| q in s.procs && s.procs[q].CronMark? && s.procs[q].o == o;
    assert !ProcOk(setup, s'.sys, s'.procs[q]);
  }

  predicate OfHandlers(step: Step) {
    || step.WarmUp? || step.Reserve? || step.WriteRow? || step.WriteRowFails? || step.Report? || step.Compensate?
    || step.TxReceive? || step.TxMarkProcessing? || step.TxCreateOrder? || step.TxDeletePending? || step.TxSendTimeout?
    || step.TxLogTask? || step.TxClearMarker? || step.MarkerExpires? || step.MessageDropped?
  }

  lemma HandlerStep(setup: Setup, s: State, step: Step)
    requires Inv(setup, s) && Enabled(s, step) && Assumption(s, setup, step) && OfHandlers(step)
    ensures Inv(setup, Apply(setup, s, step))
  {
    hide Inv, Apply;
    match step {
      case WarmUp(n) => WarmUpStep(setup, s, n);
      case Reserve(p, o, u, ts, replyLost) => RequestReserves(setup, s, p, o, u, ts, replyLost);
      case WriteRow(p, id, now) => RequestWritesRow(setup, s, p, id, now);
      case Report(p) => RequestReports(setup, s, p);
      case WriteRowFails(p, _, now) => RequestFails(setup, s, p, now);
      case Compensate(p, executed) => RequestCompensates(setup, s, p, executed);
      case TxMarkProcessing(p, replyLost) => ConsumerMarks(setup, s, p, replyLost);
      case TxCreateOrder(p, item, commit) => ConsumerCreates(setup, s, p, item, commit);
      case TxSendTimeout(p, accepted, acknowledged) => ConsumerSends(setup, s, p, accepted, acknowledged);
      case TxLogTask(p, written, now) => ConsumerLogsTask(setup, s, p, written, now);
      case TxDeletePending(p, executed) => ConsumerDeletes(setup, s, p, executed);
      case TxReceive(p, o) => ConsumerReceives(setup, s, p, o);
      case TxClearMarker(p, executed) => ConsumerClears(setup, s, p, executed);
      case MarkerExpires(o) => MarkerRunsOut(setup, s, o);
      case MessageDropped(o) => BrokerDrops(setup, s, o);
    }
  }

  lemma OtherStep(setup: Setup, s: State, step: Step)
    requires Inv(setup, s) && Enabled(s, step) && Assumption(s, setup, step) && !OfHandlers(step)
    ensures Inv(setup, Apply(setup, s, step))
  {
    hide Inv, Apply;
    match step {
      case CanceledExpires(o) => CanceledForgotten(setup, s, o);
      case CronMarkCanceled(p, replyLost) => CronMarks(setup, s, p, replyLost);
      case CronRollBack(p, executed) => CronRollsBack(setup, s, p, executed);
      case CronPick(p, o) => CronPicks(setup, s, p, o);
      case CronReadOrder(p) => CronReads(setup, s, p);
      case CleanPick(_, _) | CleanReadOrder(_) => CleanStep(setup, s, step);
      case CleanReadCanceled(p) => CleanReadsCanceled(setup, s, p);
      case DeleteAndStop(p, executed) => EntryDropped(setup, s, p, executed);
      case ToCancelOrder(p, commit, done) => TimeoutCancels(setup, s, p, commit, done);
      case ToReceive(p, o) => TimeoutReceives(setup, s, p, o);
      case ToRollBack(p, executed) => TimeoutReturns(setup, s, p, executed);
      case PayOrder(o, u) => OrderIsPaid(setup, s, o, u);
      case PollStart(p, u, asked) => PollStarts(setup, s, p, u, asked);
      case PollReadPending(p, failed) => PollReads(setup, s, p, failed);
      case PollReadPurchased(_, _) | Crash(_) => ProcessEnds(setup, s, step);
      case TxOutbox(_) | TimeoutOutbox(_) => OutboxStep(setup, s, step);
    }
  }

  /** A step the code can make keeps the invariant if and only if the environment keeps its promise. */
  lemma StepKeepsInvIff(setup: Setup, s: State, step: Step)
    requires Inv(setup, s) && Enabled(s, step)
    ensures Inv(setup, Apply(setup, s, step)) <==> Assumption(s, setup, step)
  {
    hide Inv, Apply, Enabled, Assumption;
    if !Assumption(s, setup, step) {
      BrokenPromise(setup, s, step);
    } else if OfHandlers(step) {
      HandlerStep(setup, s, step);
    } else {
      OtherStep(setup, s, step);
    }
  }

  /** Safety over whole runs, of any length and with any number of processes. */
  lemma {:induction false} RunKeepsInv(setup: Setup, s: State, steps: seq<Step>)
    requires Inv(setup, s) && Possible(setup, s, steps) && Assumed(setup, s, steps)
    ensures Inv(setup, Run(setup, s, steps))
    decreases |steps|
  {
    if steps != [] {
      StepKeepsInvIff(setup, s, steps[0]);
      RunKeepsInv(setup, Apply(setup, s, steps[0]), steps[1..]);
    }
  }
}
