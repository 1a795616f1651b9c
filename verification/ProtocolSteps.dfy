/**
 The invariant of the reservation protocol, effect by effect: what each script, transaction
 or broker call does to the shared state, and why no process at its program counter is hurt.
 */
module ProtocolSteps {
  import opened Common
  import R = RedisStore
  import D = Orders
  import O = Outbox
  import opened Protocol

  // ----- moving one process -----

  lemma GotoKeepsInv(setup: Setup, s: State, sys: Sys, p: Pid, x: Proc)
    requires Inv(setup, s) && SysOk(setup, sys) && ProcOk(setup, sys, x)
    requires forall q :: q in s.procs && q != p ==> ProcOk(setup, sys, s.procs[q]) && Compatible(x, s.procs[q])
    ensures Inv(setup, Goto(s, sys, p, x))
  {
    hide SysOk, ProcOk;
    var s' := Goto(s, sys, p, x);
    forall q | q in s'.procs
      ensures ProcOk(setup, sys, s'.procs[q])
    {
    }
    forall q, r | q in s'.procs && r in s'.procs && q != r
      ensures Compatible(s'.procs[q], s'.procs[r])
    {
      if r == p {
        assert Compatible(x, s.procs[q]);
      } else if q == p {
        assert Compatible(x, s.procs[r]);
      }
    }
  }

  lemma StopKeepsInv(setup: Setup, s: State, sys: Sys, p: Pid)
    requires Inv(setup, s) && SysOk(setup, sys)
    requires forall q :: q in s.procs && q != p ==> ProcOk(setup, sys, s.procs[q])
    ensures Inv(setup, Stop(s, sys, p))
  {
    hide SysOk, ProcOk;
  }

  lemma StayKeepsInv(setup: Setup, s: State, sys: Sys)
    requires Inv(setup, s) && SysOk(setup, sys)
    requires forall q :: q in s.procs ==> ProcOk(setup, sys, s.procs[q])
    ensures Inv(setup, s.(sys := sys))
  {
    hide SysOk, ProcOk;
  }

  /** A process that excludes nobody. */
  predicate Quiet(x: Proc) {
    !x.Critical() && !x.Requesting() && !x.Scanning() && !x.ToRollback?
  }

  lemma QuietGoto(setup: Setup, s: State, p: Pid, x: Proc)
    requires Inv(setup, s) && Quiet(x) && ProcOk(setup, s.sys, x)
    ensures Inv(setup, Goto(s, s.sys, p, x))
  {
    hide SysOk, ProcOk;
    forall q | q in s.procs && q != p
      ensures Compatible(x, s.procs[q])
    {
    }
    GotoKeepsInv(setup, s, s.sys, p, x);
  }

  lemma JustStop(setup: Setup, s: State, p: Pid)
    requires Inv(setup, s)
    ensures Inv(setup, Stop(s, s.sys, p))
  {
    hide SysOk, ProcOk, Compatible;
  }

  /** What the invariant says of the stores, of one process and of two. */
  lemma InvMeans(setup: Setup, s: State, p: Pid)
    requires Inv(setup, s)
    ensures SysOk(setup, s.sys) && (p in s.procs ==> ProcOk(setup, s.sys, s.procs[p]))
  {
  }

  lemma StoresMean(setup: Setup, s: State)
    requires Inv(setup, s)
    ensures SysOk(setup, s.sys)
  {
  }

  lemma TogetherMeans(setup: Setup, s: State, p: Pid, q: Pid)
    requires Inv(setup, s) && p in s.procs && q in s.procs && p != q
    ensures Compatible(s.procs[p], s.procs[q])
  {
    hide SysOk, ProcOk;
  }

  /** What the outbox and ledger lemmas need to know of a good state. */
  lemma Books(setup: Setup, s: Sys)
    requires SysOk(setup, s)
    ensures OutboxesOk(s) && D.Ledger(s.db, Opening(setup))
  {
  }

  /** What someone who picks up a message, an entry or an order may rely on. */
  lemma Facts(setup: Setup, s: Sys, o: OrderNo)
    requires SysOk(setup, s)
    ensures Deliverable(s, o) ==> HasRow(s, o) && (o in s.held || o in s.db.orders || o in s.redis.canceled)
    ensures o in s.redis.pending ==> EntryOk(setup, s, o, s.redis.pending[o])
    ensures o in s.db.orders ==> o in s.issued && s.db.orders[o].user == s.issued[o]
    ensures o in s.db.orders && s.db.orders[o].status != D.Cancelled ==> o in s.held
  {
  }

  // ----- what stays when a part of the state stays -----

  lemma TokensStay(setup: Setup, s: Sys, s': Sys)
    requires TokensOk(s) && s.redis.purchased == Owners(s) && StockOk(setup, s)
    requires s'.issued == s.issued && s'.held == s.held && s'.returned == s.returned
    requires s'.redis.stock == s.redis.stock && s'.redis.purchased == s.redis.purchased
    ensures TokensOk(s') && s'.redis.purchased == Owners(s') && StockOk(setup, s')
  {
    assert Owners(s') == Owners(s);
  }

  lemma OutboxesStay(s: Sys, s': Sys)
    requires OutboxesOk(s) && s'.tx == s.tx && s'.timeout == s.timeout && s'.reported == s.reported
    requires s'.issued == s.issued && s'.db.orders.Keys == s.db.orders.Keys
    ensures OutboxesOk(s')
  {
    hide O.Inv, O.HasOrder;
  }

  lemma OrphansStay(s: Sys, s': Sys)
    requires s.held <= s.issued.Keys && s'.held <= s.held && s'.issued == s.issued && s'.marked >= s.marked
    requires s'.db.orders == s.db.orders && s'.redis.pending.Keys >= s.redis.pending.Keys
    requires forall q :: q in s.held ==> NotOrphaned(s, q)
    ensures forall q :: q in s'.held ==> NotOrphaned(s', q)
  {
    forall q | q in s'.held
      ensures NotOrphaned(s', q)
    {
      assert NotOrphaned(s, q);
    }
  }

  // ----- pre-deduct -----

  lemma ReserveTokens(setup: Setup, s: Sys, o: OrderNo, u: UserId, ts: int)
    requires TokensOk(s) && s.redis.purchased == Owners(s) && o !in s.issued
    ensures var s' := DoReserve(s, setup, o, u, ts).0;
            TokensOk(s') && s'.redis.purchased == Owners(s')
  {
    var (s', code) := DoReserve(s, setup, o, u, ts);
    if code == R.DEDUCTED {
      assert u !in Owners(s);
      forall q | q in s.held
        ensures s.issued[q] in Owners(s) && s.issued[q] != u
      {
      }
      forall v
        ensures v in Owners(s') <==> v in Owners(s) || v == u
      {
        if v in Owners(s) {
          var q :| q in s.held && s.issued[q] == v;
          assert q in s'.held && s'.issued[q] == v;
        }
        if v == u {
          assert o in s'.held;
        }
      }
      assert Owners(s') == Owners(s) + {u};
    }
  }

  lemma ReserveOrphans(setup: Setup, s: Sys, o: OrderNo, u: UserId, ts: int)
    requires s.held <= s.issued.Keys && o !in s.issued
    requires forall q :: q in s.held ==> NotOrphaned(s, q)
    ensures var s' := DoReserve(s, setup, o, u, ts).0;
            s'.held <= s'.issued.Keys && forall q :: q in s'.held ==> NotOrphaned(s', q)
  {
    var s' := DoReserve(s, setup, o, u, ts).0;
    forall q | q in s'.held
      ensures NotOrphaned(s', q)
    {
      assert q != o ==> NotOrphaned(s, q);
    }
  }

  lemma ReserveStock(setup: Setup, s: Sys, o: OrderNo, u: UserId, ts: int)
    requires StockOk(setup, s) && o !in s.held
    ensures StockOk(setup, DoReserve(s, setup, o, u, ts).0)
  {
  }

  lemma ReserveEntries(setup: Setup, s: Sys, o: OrderNo, u: UserId, ts: int)
    requires PendingOk(setup, s) && ReturnedOk(s) && s.redis.canceled <= s.marked <= s.issued.Keys && o !in s.issued
    ensures var s' := DoReserve(s, setup, o, u, ts).0;
            PendingOk(setup, s') && ReturnedOk(s') && s'.redis.canceled <= s'.marked <= s'.issued.Keys
  {
    hide Over;
    var s' := DoReserve(s, setup, o, u, ts).0;
    forall q | Over(s, q)
      ensures Over(s', q)
    {
      OverDependsOn(s, s', q);
    }
  }

  /** Whether messages of an order can come is decided by the outbox and the broker alone. */
  lemma OverDependsOn(s: Sys, s': Sys, o: OrderNo)
    requires Over(s, o) && s'.tx == s.tx && s'.dropped >= s.dropped
    ensures Over(s', o)
  {
  }

  lemma NoRowIsOver(s: Sys, o: OrderNo)
    requires OutboxesOk(s) && !HasRow(s, o)
    ensures Over(s, o)
  {
    forall w | w in s.tx.senders && s.tx.senders[w].Holding?
      ensures s.tx.senders[w].copy.order != o
    {
      assert O.SenderOk(s.tx, s.tx.senders[w]);
    }
  }

  lemma ReserveOrders(setup: Setup, s: Sys, o: OrderNo, u: UserId, ts: int)
    requires OrdersOk(setup, s) && OutboxesOk(s) && o !in s.issued
    ensures var s' := DoReserve(s, setup, o, u, ts).0;
            OrdersOk(setup, s') && OutboxesOk(s')
  {
    hide O.HasOrder, O.Inv;
  }

  lemma ReserveSys(setup: Setup, s: Sys, o: OrderNo, u: UserId, ts: int)
    requires SysOk(setup, s) && o !in s.issued
    ensures SysOk(setup, DoReserve(s, setup, o, u, ts).0)
    ensures DoReserve(s, setup, o, u, ts).1 == R.DEDUCTED ==> ReservationOk(DoReserve(s, setup, o, u, ts).0, o, u)
  {
    ReserveTokens(setup, s, o, u, ts);
    ReserveOrphans(setup, s, o, u, ts);
    ReserveStock(setup, s, o, u, ts);
    ReserveEntries(setup, s, o, u, ts);
    ReserveOrders(setup, s, o, u, ts);
    var s' := DoReserve(s, setup, o, u, ts).0;
    assert s'.db == s.db && s'.tx == s.tx;
    assert !HasRow(s, o) && o !in s.redis.canceled;
    hide TokensOk, StockOk, PendingOk, OrdersOk, ReturnedOk, NotOrphaned, OutboxesOk, D.Ledger, Owners, HasRow;
  }

  /** Nobody knows an order number before it is issued. */
  lemma UnknownBefore(setup: Setup, s: Sys, o: OrderNo)
    requires SysOk(setup, s) && o !in s.issued
    ensures !HasRow(s, o) && o !in s.redis.canceled && o !in s.db.orders && o !in s.held
  {
  }

  lemma ReserveFrame(setup: Setup, s: Sys, o: OrderNo, u: UserId, ts: int)
    requires o !in s.issued
    ensures var (s', code) := DoReserve(s, setup, o, u, ts);
            && s'.db == s.db && s'.tx == s.tx
            && s'.redis.canceled == s.redis.canceled && s'.redis.processing == s.redis.processing
            && s'.redis.pending.Keys <= s.redis.pending.Keys + {o}
            && s.held <= s'.held && s.issued.Keys <= s'.issued.Keys
            && (forall q :: q in s.issued ==> s'.issued[q] == s.issued[q])
  {
  }

  lemma ReserveProc(setup: Setup, s: Sys, o: OrderNo, u: UserId, ts: int, x: Proc)
    requires SysOk(setup, s) && o !in s.issued && ProcOk(setup, s, x)
    ensures ProcOk(setup, DoReserve(s, setup, o, u, ts).0, x)
    ensures DoReserve(s, setup, o, u, ts).1 == R.DEDUCTED ==> Compatible(Reserved(o, u), x)
  {
    hide SysOk, Over, O.HasOrder, DoReserve, R.PreDeduct, Compatible;
    UnknownBefore(setup, s, o);
    ReserveFrame(setup, s, o, u, ts);
    NewIsCompatible(setup, s, o, u, x);
  }

  lemma NewIsCompatible(setup: Setup, s: Sys, o: OrderNo, u: UserId, x: Proc)
    requires ProcOk(setup, s, x) && o !in s.issued && o !in s.held
    ensures Compatible(Reserved(o, u), x)
  {
    hide O.HasOrder;
  }

  // ----- handing a token back -----

  lemma HandBackSys(setup: Setup, s: Sys, o: OrderNo, redis: R.Redis)
    requires SysOk(setup, s) && o in s.held
    requires o in s.db.orders || (o !in redis.pending && (o in s.redis.canceled || !HasRow(s, o)))
    requires o in s.db.orders ==> s.db.orders[o].status == D.Cancelled
    requires redis == s.redis.(stock := R.Incr(s.redis.stock), purchased := s.redis.purchased - {s.issued[o]}, pending := redis.pending)
    requires redis.pending == s.redis.pending || (redis.pending == s.redis.pending - {o})
    ensures SysOk(setup, HandBack(s, o, redis))
  {
    hide Over, D.Ledger, Owners, ReturnedOk, NotOrphaned, OutboxesOk, TokensOk, StockOk;
    var s' := HandBack(s, o, redis);
    HeldIsIssued(s);
    HandBackTokens(setup, s, o, redis);
    if !HasRow(s, o) {
      NoRowIsOver(s, o);
    }
    ReturnedStays(s, s', o);
    OutboxesStay(s, s');
    HandBackOrphans(s, o, redis);
  }

  lemma HandBackTokens(setup: Setup, s: Sys, o: OrderNo, redis: R.Redis)
    requires TokensOk(s) && s.redis.purchased == Owners(s) && StockOk(setup, s) && o in s.held && o in s.issued
    requires redis.stock == R.Incr(s.redis.stock) && redis.purchased == s.redis.purchased - {s.issued[o]}
    ensures var s' := HandBack(s, o, redis);
            TokensOk(s') && s'.redis.purchased == Owners(s') && StockOk(setup, s')
  {
    hide Owners;
    OwnersAfterReturn(s, HandBack(s, o, redis), o);
  }

  lemma HandBackOrphans(s: Sys, o: OrderNo, redis: R.Redis)
    requires s.held <= s.issued.Keys && forall q :: q in s.held ==> NotOrphaned(s, q)
    requires redis.pending == s.redis.pending || redis.pending == s.redis.pending - {o}
    ensures var s' := HandBack(s, o, redis);
            forall q :: q in s'.held ==> NotOrphaned(s', q)
  {
    var s' := HandBack(s, o, redis);
    forall q | q in s'.held
      ensures NotOrphaned(s', q)
    {
      assert NotOrphaned(s, q);
    }
  }

  /** Returned tokens stay settled while markers, orders and dropped messages grow and entries go. */
  lemma ReturnedStays(s: Sys, s': Sys, o: OrderNo)
    requires ReturnedOk(s) && s'.tx == s.tx && s'.dropped >= s.dropped && s'.issued == s.issued
    requires s'.db == s.db && s'.redis.canceled >= s.redis.canceled && s'.redis.pending.Keys <= s.redis.pending.Keys
    requires s'.held == s.held || s'.held == s.held - {o}
    requires s'.held != s.held ==> o in s.db.orders || (o !in s'.redis.pending && (o in s.redis.canceled || Over(s, o)))
    ensures ReturnedOk(s')
  {
    hide Over;
    forall q | Over(s, q)
      ensures Over(s', q)
    {
      OverDependsOn(s, s', q);
    }
  }

  lemma OwnersAfterReturn(s: Sys, s': Sys, o: OrderNo)
    requires TokensOk(s) && o in s.held && s'.held == s.held - {o} && s'.issued == s.issued
    ensures s'.held <= s'.issued.Keys && Owners(s') == Owners(s) - {s.issued[o]} && s.issued[o] in Owners(s)
  {
    var u := s.issued[o];
    assert u in Owners(s);
    forall v
      ensures v in Owners(s') <==> v in Owners(s) && v != u
    {
      if v in Owners(s) && v != u {
        var q :| q in s.held && s.issued[q] == v;
        assert q in s'.held;
      }
    }
  }

  lemma HandBackProc(setup: Setup, s: Sys, o: OrderNo, redis: R.Redis, x: Proc)
    requires SysOk(setup, s) && o in s.held && ProcOk(setup, s, x)
    requires redis.canceled == s.redis.canceled && redis.processing == s.redis.processing
    requires redis.pending == s.redis.pending || (redis.pending == s.redis.pending - {o})
    requires (x.Requesting() || x.CronRollback? || x.ToRollback?) ==> x.o != o
    requires o in s.redis.canceled || o in s.db.orders || !HasRow(s, o)
    ensures ProcOk(setup, HandBack(s, o, redis), x)
  {
    hide SysOk, O.HasOrder;
  }

  predicate Returning(x: Proc) {
    x.Compensating? || x.CronRollback? || x.ToRollback?
  }

  /** A process about to run a rollback script holds a token that no live order needs. */
  lemma MayReturn(setup: Setup, s: Sys, x: Proc)
    requires SysOk(setup, s) && ProcOk(setup, s, x) && Returning(x)
    ensures x.o in s.held
    ensures x.o in s.db.orders ==> s.db.orders[x.o].status == D.Cancelled
    ensures x.o in s.redis.canceled || x.o in s.db.orders || !HasRow(s, x.o)
  {
  }

  /** No two processes are about to return the same token. */
  lemma OnlyOneReturns(setup: Setup, s: Sys, x: Proc, y: Proc)
    requires SysOk(setup, s) && ProcOk(setup, s, x) && ProcOk(setup, s, y) && Compatible(x, y)
    requires Returning(x) && (y.Requesting() || y.CronRollback? || y.ToRollback?)
    ensures x.o != y.o
  {
  }

  lemma ReturnToken(setup: Setup, s: State, p: Pid, redis: R.Redis)
    requires Inv(setup, s) && p in s.procs && Returning(s.procs[p]) && s.procs[p].o in s.sys.issued
    requires var u := s.sys.issued[s.procs[p].o];
             redis == if s.procs[p].ToRollback? then R.CancelOrderRollback(s.sys.redis, u) else R.Rollback(s.sys.redis, u, s.procs[p].o)
    ensures Inv(setup, Stop(s, HandBack(s.sys, s.procs[p].o, redis), p))
  {
    hide SysOk;
    var x := s.procs[p];
    assert ProcOk(setup, s.sys, x);
    MayReturn(setup, s.sys, x);
    HandBackSys(setup, s.sys, x.o, redis);
    forall q | q in s.procs && q != p
      ensures ProcOk(setup, HandBack(s.sys, x.o, redis), s.procs[q])
    {
      var y := s.procs[q];
      assert ProcOk(setup, s.sys, y) && Compatible(x, y);
      if y.Requesting() || y.CronRollback? || y.ToRollback? {
        OnlyOneReturns(setup, s.sys, x, y);
      }
      HandBackProc(setup, s.sys, x.o, redis, y);
    }
    StopKeepsInv(setup, s, HandBack(s.sys, x.o, redis), p);
  }

  /** The owner a process remembers is the owner of the token. */
  lemma KnowsOwner(setup: Setup, s: Sys, x: Proc)
    requires SysOk(setup, s) && ProcOk(setup, s, x) && Returning(x)
    ensures x.o in s.issued && s.issued[x.o] == if x.CronRollback? then x.pv.uid else x.u
  {
  }

  // ----- pending entries -----

  lemma DeletePendingSys(setup: Setup, s: Sys, o: OrderNo, executed: bool)
    requires SysOk(setup, s)
    requires o in s.db.orders || o in s.redis.canceled || (o in s.issued && exists q :: q in s.db.orders && s.db.orders[q].user == s.issued[o])
    ensures SysOk(setup, DeletePending(s, o, executed))
  {
    hide Over, O.Inv, O.HasOrder, D.Ledger, ReturnedOk;
    var s' := DeletePending(s, o, executed);
    ReturnedStays(s, s', o);
    assert s.redis.canceled <= s.marked;
    forall q | q in s'.held
      ensures NotOrphaned(s', q)
    {
      assert NotOrphaned(s, q);
    }
    assert Owners(s') == Owners(s);
  }

  lemma DeletePendingProc(setup: Setup, s: Sys, o: OrderNo, executed: bool, x: Proc)
    requires ProcOk(setup, s, x)
    ensures ProcOk(setup, DeletePending(s, o, executed), x)
  {
  }

  // ----- the two markers -----

  function Marked(s: Sys, redis: R.Redis): Sys {
    s.(redis := redis, marked := s.marked + redis.canceled)
  }

  lemma MarkCanceledSys(setup: Setup, s: Sys, o: OrderNo)
    requires SysOk(setup, s) && o in s.issued
    requires o in s.db.orders && o in s.redis.pending ==> o in s.redis.processing
    ensures SysOk(setup, Marked(s, R.MarkCanceledIfPending(s.redis, o).0))
    ensures R.MarkCanceledIfPending(s.redis, o).1 == R.CANCEL_MARK_CREATED ==> o in s.held
  {
    hide D.Ledger, TokensOk, StockOk, ReturnedOk, NotOrphaned, OutboxesOk, Owners;
    var s' := Marked(s, R.MarkCanceledIfPending(s.redis, o).0);
    if o in s.redis.pending && o !in s.db.orders {
      EntryIsHeld(s, o);
    }
    TokensStay(setup, s, s');
    ReturnedStays(s, s', o);
    OutboxesStay(s, s');
    HeldIsIssued(s);
    OrphansStay(s, s');
  }

  lemma EntryIsHeld(s: Sys, o: OrderNo)
    requires ReturnedOk(s) && o in s.issued && o in s.redis.pending && o !in s.db.orders
    ensures o in s.held
  {
    hide Over;
  }

  lemma HeldIsIssued(s: Sys)
    requires TokensOk(s)
    ensures s.held <= s.issued.Keys
  {
  }

  lemma MarkCanceledProc(setup: Setup, s: Sys, o: OrderNo, x: Proc)
    requires ProcOk(setup, s, x)
    requires x.Requesting() ==> x.o != o
    ensures ProcOk(setup, Marked(s, R.MarkCanceledIfPending(s.redis, o).0), x)
  {
  }

  /** The marker of `o` may go: the unit is still held, or no message can bring the order about. */
  lemma ForgetSys(setup: Setup, s: Sys, o: OrderNo)
    requires SysOk(setup, s) && (o in s.redis.canceled ==> o in s.held || Over(s, o))
    ensures SysOk(setup, s.(redis := R.ForgetCanceled(s.redis, o)))
  {
    hide D.Ledger, O.Inv, Over;
    var s' := s.(redis := R.ForgetCanceled(s.redis, o));
    assert Owners(s') == Owners(s);
    forall q | Over(s, q)
      ensures Over(s', q)
    {
      OverDependsOn(s, s', q);
    }
    forall q | q in s'.held
      ensures NotOrphaned(s', q)
    {
      assert NotOrphaned(s, q);
    }
  }

  lemma ForgetProc(setup: Setup, s: Sys, o: OrderNo, x: Proc)
    requires SysOk(setup, s) && ProcOk(setup, s, x)
    requires o in s.redis.canceled && (x.CronRollback? || x.Hdel?) ==> x.o != o
    requires o in s.redis.canceled && x.TxMark? && x.o == o ==> o in s.held
    ensures ProcOk(setup, s.(redis := R.ForgetCanceled(s.redis, o)), x)
  {
  }

  lemma DroppedSys(setup: Setup, s: Sys, o: OrderNo)
    requires SysOk(setup, s)
    ensures SysOk(setup, s.(dropped := s.dropped + {o}))
  {
    hide D.Ledger, O.Inv, Over, ReturnedOk;
    var s' := s.(dropped := s.dropped + {o});
    ReturnedStays(s, s', o);
    assert Owners(s') == Owners(s);
    forall q | q in s'.held
      ensures NotOrphaned(s', q)
    {
      assert NotOrphaned(s, q);
    }
  }

  lemma DroppedProc(setup: Setup, s: Sys, dropped: set<OrderNo>, x: Proc)
    requires ProcOk(setup, s, x)
    ensures ProcOk(setup, s.(dropped := dropped), x)
  {
  }

  lemma ProcessingSys(setup: Setup, s: Sys, processing: set<OrderNo>)
    requires SysOk(setup, s)
    ensures SysOk(setup, s.(redis := s.redis.(processing := processing)))
  {
    hide TokensOk, StockOk, Owners, NotOrphaned, OutboxesOk, O.Inv, O.HasOrder, D.Ledger;
    var s' := s.(redis := s.redis.(processing := processing));
    HeldIsIssued(s);
    TokensStay(setup, s, s');
    OutboxesStay(s, s');
    OrphansStay(s, s');
  }

  lemma MarkProcessingProc(setup: Setup, s: Sys, o: OrderNo, x: Proc)
    requires ProcOk(setup, s, x)
    ensures ProcOk(setup, s.(redis := R.TryMarkProcessing(s.redis, o).0), x)
  {
  }

  lemma ClearProcessingProc(setup: Setup, s: Sys, o: OrderNo, x: Proc)
    requires ProcOk(setup, s, x)
    requires x.Critical() ==> x.o != o
    requires x.CronMark? && x.o == o ==> !(o in s.db.orders && o in s.redis.pending)
    ensures ProcOk(setup, s.(redis := R.ClearProcessing(s.redis, o)), x)
  {
  }

  // ----- transactions -----

  /** Live orders hold their tokens, and a token that has no order yet is one more: the
      stock row still has a unit for it. */
  lemma StockIsThere(setup: Setup, s: Sys, o: OrderNo)
    requires SysOk(setup, s) && o in s.held && o !in s.db.orders
    ensures setup.activity in s.db.activities && s.db.activities[setup.activity].available >= 1
  {
    hide O.Inv, PendingOk, NotOrphaned, Owners, ReturnedOk, D.Books;
    var live := D.Live(s.db, setup.activity);
    D.LedgerBalances(s.db, Opening(setup), setup.activity);
    assert live + {o} <= s.held;
    SubsetSize(live + {o}, s.held);
  }

  lemma {:induction false} SubsetSize<T>(a: set<T>, b: set<T>)
    requires a <= b
    ensures |a| <= |b|
  {
    assert |b - a| == |b| - |a|;
  }

  /** Nothing in the books is lost when orders are added or change status. */
  lemma NotOrphanedStays(s: Sys, db: D.Db)
    requires s.held <= s.issued.Keys && D.Evolves(s.db, db)
    requires forall q :: q in s.held ==> NotOrphaned(s, q)
    ensures forall q :: q in s.held ==> NotOrphaned(s.(db := db), q)
  {
    forall q | q in s.held
      ensures NotOrphaned(s.(db := db), q)
    {
      assert NotOrphaned(s, q);
      if exists r :: r in s.db.orders && s.db.orders[r].user == s.issued[q] {
        var r :| r in s.db.orders && s.db.orders[r].user == s.issued[q];
        assert r in db.orders && db.orders[r].user == s.issued[q];
      }
    }
  }

  /** A consumer in its critical section creates the order or meets an older one of the same
      user; the stock row never runs out under it. */
  lemma CreateResult(setup: Setup, s: Sys, o: OrderNo, item: D.Item)
    requires SysOk(setup, s) && o in s.issued && (o in s.held || o in s.db.orders)
    ensures var result := D.Create(s.db, o, s.issued[o], setup.activity, item).1;
            && result in {D.Created, D.DuplicateOrder}
            && (result == D.Created ==> o in s.held)
            && (result == D.DuplicateOrder ==> exists q :: q in s.db.orders && s.db.orders[q].user == s.issued[o])
  {
    if o !in s.db.orders {
      StockIsThere(setup, s, o);
    } else {
      assert s.db.orders[o].user == s.issued[o];
    }
  }

  lemma CreateOrders(setup: Setup, s: Sys, o: OrderNo, item: D.Item)
    requires SysOk(setup, s) && HasRow(s, o) && o in s.issued && o !in s.redis.canceled && (o in s.held || o in s.db.orders)
    ensures var s' := s.(db := D.Create(s.db, o, s.issued[o], setup.activity, item).0);
            OrdersOk(setup, s') && ReturnedOk(s') && OutboxesOk(s')
  {
    hide D.Ledger, O.Inv, O.HasOrder, NotOrphaned, D.Conflicts, ReturnedOk, TokensOk, StockOk, Owners, PendingOk;
    CreateResult(setup, s, o, item);
    ReturnedWithOrders(s, D.Create(s.db, o, s.issued[o], setup.activity, item).0);
  }

  lemma CreateSys(setup: Setup, s: Sys, o: OrderNo, item: D.Item)
    requires SysOk(setup, s) && HasRow(s, o) && o in s.issued && o !in s.redis.canceled && (o in s.held || o in s.db.orders)
    ensures SysOk(setup, s.(db := D.Create(s.db, o, s.issued[o], setup.activity, item).0))
  {
    hide D.Ledger, D.Create, NotOrphaned, OrdersOk, ReturnedOk, OutboxesOk, D.Evolves;
    D.OpEvolves(s.db, D.CreateOp(o, s.issued[o], setup.activity, item));
    var db := D.Create(s.db, o, s.issued[o], setup.activity, item).0;
    NotOrphanedStays(s, db);
    CreateLedger(setup, s, o, item);
    CreateOrders(setup, s, o, item);
    assert Owners(s.(db := db)) == Owners(s);
  }

  lemma CreateLedger(setup: Setup, s: Sys, o: OrderNo, item: D.Item)
    requires D.Ledger(s.db, Opening(setup)) && o in s.issued
    ensures D.Ledger(D.Create(s.db, o, s.issued[o], setup.activity, item).0, Opening(setup))
  {
    D.CreateKeepsBooks(s.db, Opening(setup), D.NO_GAPS, o, s.issued[o], setup.activity, item);
  }

  /** Orders stay, with their owner; a cancelled one stays cancelled. */
  lemma DbProc(setup: Setup, s: Sys, db: D.Db, x: Proc)
    requires ProcOk(setup, s, x) && D.Evolves(s.db, db)
    requires x.CronMark? && x.o in db.orders && x.o !in s.db.orders ==> x.o in s.redis.processing
    ensures ProcOk(setup, s.(db := db), x)
  {
    if x.TxHdelDuplicate? {
      var q :| q in s.db.orders && s.db.orders[q].user == s.issued[x.o];
      assert q in db.orders && db.orders[q].user == s.issued[x.o];
    }
  }

  lemma StatusChangeSys(setup: Setup, s: Sys, db: D.Db)
    requires SysOk(setup, s) && D.Evolves(s.db, db) && db.orders.Keys == s.db.orders.Keys
    requires D.Ledger(db, Opening(setup))
    ensures SysOk(setup, s.(db := db))
  {
    hide D.Ledger, TokensOk, StockOk, NotOrphaned, OutboxesOk, Owners, ReturnedOk, O.HasOrder;
    var s' := s.(db := db);
    TokensStay(setup, s, s');
    OutboxesStay(s, s');
    HeldIsIssued(s);
    NotOrphanedStays(s, db);
    ReturnedWithOrders(s, db);
  }

  lemma ReturnedWithOrders(s: Sys, db: D.Db)
    requires ReturnedOk(s) && s.db.orders.Keys <= db.orders.Keys
    ensures ReturnedOk(s.(db := db))
  {
    hide Over;
    forall q | Over(s, q)
      ensures Over(s.(db := db), q)
    {
      OverDependsOn(s, s.(db := db), q);
    }
  }

  // ----- outboxes and brokers -----

  lemma TxSys(setup: Setup, s: Sys, tx: O.System, dropped: set<OrderNo>, reported: set<OrderNo>)
    requires SysOk(setup, s) && O.Inv(tx)
    requires forall o :: HasRow(s, o) ==> O.HasOrder(tx.table, o)
    requires forall o :: O.HasOrder(tx.table, o) ==> HasRow(s, o) || o in s.held
    requires forall o :: o in tx.accepted || o in reported ==> O.HasOrder(tx.table, o)
    requires forall o :: o !in s.held && Over(s, o) ==> Over(s.(tx := tx, dropped := dropped), o)
    ensures SysOk(setup, s.(tx := tx, dropped := dropped, reported := reported))
  {
    hide O.Inv, D.Ledger, Over, TokensOk, StockOk, NotOrphaned, Owners, O.HasOrder;
    var s' := s.(tx := tx, dropped := dropped, reported := reported);
    forall q | Over(s.(tx := tx, dropped := dropped), q)
      ensures Over(s', q)
    {
      OverDependsOn(s.(tx := tx, dropped := dropped), s', q);
    }
    TokensStay(setup, s, s');
    HeldIsIssued(s);
    OrphansStay(s, s');
    assert forall o :: HasRow(s', o) ==> o in s'.issued;
  }

  lemma TxProc(setup: Setup, s: Sys, tx: O.System, dropped: set<OrderNo>, reported: set<OrderNo>, x: Proc)
    requires ProcOk(setup, s, x)
    requires forall o :: HasRow(s, o) ==> O.HasOrder(tx.table, o)
    requires x.Requesting() ==> !O.HasOrder(tx.table, x.o)
    ensures ProcOk(setup, s.(tx := tx, dropped := dropped, reported := reported), x)
  {
  }

  lemma TimeoutSys(setup: Setup, s: Sys, timeout: O.System)
    requires SysOk(setup, s) && O.Inv(timeout)
    requires forall o :: O.HasOrder(timeout.table, o) ==> o in s.db.orders
    requires timeout.accepted <= s.db.orders.Keys
    ensures SysOk(setup, s.(timeout := timeout))
  {
    hide O.Inv, D.Ledger, Over, TokensOk, StockOk, NotOrphaned, Owners, O.HasOrder, ReturnedOk;
    var s' := s.(timeout := timeout);
    TokensStay(setup, s, s');
    HeldIsIssued(s);
    OrphansStay(s, s');
    ReturnedStays(s, s', 0);
  }

  lemma TimeoutInsert(setup: Setup, s: Sys, id: O.TaskId, o: OrderNo, next: int, now: int)
    requires SysOk(setup, s) && id !in s.timeout.table && o in s.db.orders
    ensures var timeout := O.InsertTask(s.timeout, id, o, next, now);
            && O.Inv(timeout)
            && forall q :: q in timeout.accepted || O.HasOrder(timeout.table, q) ==> q in s.db.orders
  {
    O.InsertKeepsInv(s.timeout, id, o, next, now);
  }

  lemma TimeoutAccept(setup: Setup, s: Sys, o: OrderNo, accepted: bool)
    requires OutboxesOk(s) && o in s.db.orders
    ensures var timeout := if accepted then O.AcceptDirect(s.timeout, o) else s.timeout;
            && O.Inv(timeout)
            && forall q :: q in timeout.accepted || O.HasOrder(timeout.table, q) ==> q in s.db.orders
  {
  }

  lemma TimeoutProc(setup: Setup, s: Sys, timeout: O.System, x: Proc)
    requires ProcOk(setup, s, x)
    ensures ProcOk(setup, s.(timeout := timeout), x)
  {
  }

  /** A step of the dispatchers, seen through the set of orders that have a row. */
  lemma SameRows(cfg: O.Config, t: O.System, step: O.Step)
    requires O.Inv(t) && O.Enabled(t, step)
    ensures O.Inv(O.Apply(cfg, t, step))
    ensures forall o :: O.HasOrder(O.Apply(cfg, t, step).table, o) <==> O.HasOrder(t.table, o)
    ensures forall o :: o in O.Apply(cfg, t, step).accepted ==> o in t.accepted || O.HasOrder(t.table, o)
  {
    var t' := O.Apply(cfg, t, step);
    O.StepKeepsInv(cfg, t, step);
    forall o
      ensures O.HasOrder(t'.table, o) <==> O.HasOrder(t.table, o)
    {
      if O.HasOrder(t.table, o) {
        var i :| i in t.table && t.table[i].order == o;
        assert i in t'.table && t'.table[i].order == o;
      }
      if O.HasOrder(t'.table, o) {
        var i :| i in t'.table && t'.table[i].order == o;
        assert i in t.table && t.table[i].order == o;
      }
    }
  }

  /** No step of the dispatchers brings a settled message back. */
  lemma OverStays(s: Sys, step: O.Step, o: OrderNo)
    requires O.Inv(s.tx) && O.Enabled(s.tx, step) && Over(s, o)
    ensures Over(s.(tx := O.Apply(O.TX, s.tx, step), dropped := s.dropped - Redelivered(s.tx, step)), o)
  {
    var tx := O.Apply(O.TX, s.tx, step);
    SettledStays(s.tx, step, o);
  }

  /** Rows of settled messages stay sent. */
  lemma SettledStays(t: O.System, step: O.Step, o: OrderNo)
    requires O.Inv(t) && O.Enabled(t, step)
    requires forall id :: id in t.table && t.table[id].order == o ==> t.table[id].status == O.Sent
    ensures var t' := O.Apply(O.TX, t, step);
            forall id :: id in t'.table && t'.table[id].order == o ==> t'.table[id].status == O.Sent
  {
    hide O.Inv, O.Apply;
    O.StepKeepsInv(O.TX, t, step);
    var t' := O.Apply(O.TX, t, step);
    forall id | id in t'.table && t'.table[id].order == o
      ensures t'.table[id].status == O.Sent
    {
      assert t.table[id].status == O.Sent;
    }
  }

  /** A row for a held order settles or unsettles nobody else's message. */
  lemma OverOfOthers(s: Sys, id: O.TaskId, o: OrderNo, next: int, now: int, q: OrderNo)
    requires id !in s.tx.table && q != o && Over(s, q)
    ensures Over(s.(tx := O.InsertTask(s.tx, id, o, next, now)), q)
  {
  }
}
