/**
 Runs in which the environment breaks one promise. In four of them the code oversells: Redis ends
 up offering a unit although the only unit of the sale has a live order. When a warm-up comes in
 between, and when a cancellation loses its stock update, a sold reservation meets an empty stock row.
 */
module ProtocolFaults {
  import opened Common
  import R = RedisStore
  import D = Orders
  import O = Outbox
  import opened Protocol
  import ProtocolScan

  const SALE := Setup(1, 1, 1, 0)   // one unit
  const BUYER: UserId := 7
  const ORDER: OrderNo := 5
  const GOODS := D.Item(1, "", 100)
  const ENTRY := R.PendingValue(0, BUYER, 1)

  /** Redis still offers stock while live orders have used up the warmed-up stock. */
  ghost predicate Oversold(setup: Setup, s: State) {
    s.sys.redis.stock.Some? && s.sys.redis.stock.value + |D.Live(s.sys.db, setup.activity)| > setup.w
  }

  function Stores(stock: int, bought: bool, pending: bool, canceled: bool, processing: bool): R.Redis {
    R.Redis(Some(stock), if bought then {BUYER} else {}, if pending then map[ORDER := ENTRY] else map[],
            if canceled then {ORDER} else {}, if processing then {ORDER} else {})
  }

  /** The buyer has reserved the unit; its request is still running. */
  function AfterReserve(): seq<Step> {
    [WarmUp(1), Reserve(0, ORDER, BUYER, 0, false)]
  }

  ghost predicate Reserved1(s: State) {
    && s.sys.redis == Stores(0, true, true, false, false)
    && s.sys.db == Init(SALE).sys.db
    && s.sys.tx == O.EMPTY && s.sys.timeout == O.EMPTY && s.sys.dropped == {}
    && s.sys.issued == map[ORDER := BUYER] && s.sys.held == {ORDER}
    && s.procs == map[0 := Reserved(ORDER, BUYER)]
  }

  lemma ReachReserved()
    ensures Possible(SALE, Init(SALE), AfterReserve()) && Assumed(SALE, Init(SALE), AfterReserve())
    ensures Reserved1(Run(SALE, Init(SALE), AfterReserve()))
  {
    hide ApplyConsumer, ApplyCron, ApplyTimeout, ApplyPoll, Possible, Run, Assumed;
    var s0 := Init(SALE);
    Nothing(SALE, s0);
    FirstWarmUp(SALE);
    OneMore(SALE, s0, [], WarmUp(1));
    assert [] + [WarmUp(1)] == [WarmUp(1)];
    OneMore(SALE, s0, [WarmUp(1)], Reserve(0, ORDER, BUYER, 0, false));
    assert [WarmUp(1)] + [Reserve(0, ORDER, BUYER, 0, false)] == AfterReserve();
    var s2 := Run(SALE, s0, AfterReserve());
    assert s2.sys.redis.purchased == {BUYER} && s2.sys.redis.pending == map[ORDER := ENTRY];
  }

  /** The steps that publish the message of the order: claim its row, send it. */
  function Publish(): seq<Step> {
    [TxOutbox(O.Claim(0, 1, 0, O.TX.lease)), TxOutbox(O.Send(0, true, true))]
  }

  ghost predicate SentBy0(s: Sys) {
    s.tx.table.Keys == {1} && s.tx.table[1].order == ORDER && s.tx.senders.Keys == {0}
  }

  lemma Published(s: State, before: seq<Step>)
    requires Possible(SALE, Init(SALE), before) && Run(SALE, Init(SALE), before) == s && s.sys.dropped == {}
    requires s.sys.tx.table == map[1 := O.NewTask(ORDER, 0, 0)] && s.sys.tx.senders == map[] && s.sys.tx.accepted == {}
    ensures Possible(SALE, Init(SALE), before + Publish())
    ensures Assumed(SALE, Init(SALE), before) ==> Assumed(SALE, Init(SALE), before + Publish())
    ensures var s' := Run(SALE, Init(SALE), before + Publish());
            s' == s.(sys := s.sys.(tx := s'.sys.tx)) && s'.sys.tx.accepted == {ORDER} && SentBy0(s'.sys)
  {
    hide Possible, Run, Assumed, ApplyRequest, ApplyConsumer, ApplyCron, ApplyTimeout, ApplyPoll;
    var a := TxOutbox(O.Claim(0, 1, 0, O.TX.lease));
    var b := TxOutbox(O.Send(0, true, true));
    OneMore(SALE, Init(SALE), before, a);
    var s1 := Run(SALE, Init(SALE), before + [a]);
    assert s1.sys.tx.senders == map[0 := O.Holding(1, s.sys.tx.table[1])];
    assert s1.sys.dropped == {};
    OneMore(SALE, Init(SALE), before + [a], b);
    assert before + [a] + [b] == before + Publish();
  }

  // ----- the marker is released too early -----

  /** Everything up to a commit whose reply is lost; a scanner has read the database before it. */
  function UpToLostReply(): seq<Step> {
    AfterReserve() + [WriteRow(0, 1, 0), Report(0)] + Publish()
    + [CronPick(1, ORDER), CronReadOrder(1)]
    + [TxReceive(2, ORDER), TxMarkProcessing(2, false), TxCreateOrder(2, GOODS, ReplyLost)]
  }

  ghost predicate Committed(s: State) {
    && s.sys.redis == Stores(0, true, true, false, true)
    && s.sys.db.orders == map[ORDER := D.Order(BUYER, 1, 100, D.Pending)]
    && s.sys.held == {ORDER}
    && s.procs == map[1 := CronMark(ORDER, ENTRY), 2 := TxClear(ORDER)]
  }

  /** The message of the order is with the broker, and nobody has received it; Redis offers `stock` units. */
  ghost predicate Queued(s: State, stock: int) {
    && s.sys.redis == Stores(stock, true, true, false, false)
    && s.sys.db == Init(SALE).sys.db
    && s.sys.tx.accepted == {ORDER} && s.sys.dropped == {} && SentBy0(s.sys) && s.sys.timeout == O.EMPTY
    && s.sys.issued == map[ORDER := BUYER] && s.sys.held == {ORDER}
    && s.procs == map[]
  }

  lemma ReachPublished() returns (steps: seq<Step>)
    ensures steps == AfterReserve() + [WriteRow(0, 1, 0), Report(0)] + Publish()
    ensures Possible(SALE, Init(SALE), steps) && Assumed(SALE, Init(SALE), steps)
    ensures Queued(Run(SALE, Init(SALE), steps), 0)
  {
    hide Possible, Run, Assumed, ApplyConsumer, ApplyCron, ApplyTimeout, ApplyPoll;
    ReachReserved();
    OneMore(SALE, Init(SALE), AfterReserve(), WriteRow(0, 1, 0));
    steps := AfterReserve() + [WriteRow(0, 1, 0)];
    var s1 := Run(SALE, Init(SALE), steps);
    assert s1.sys.tx.table == map[1 := O.NewTask(ORDER, 0, 0)];
    assert s1.procs == map[0 := RowWritten(ORDER)];
    OneMore(SALE, Init(SALE), steps, Report(0));
    steps := steps + [Report(0)];
    var s2 := Run(SALE, Init(SALE), steps);
    assert s2.procs == map[];
    Published(s2, steps);
    steps := steps + Publish();
    assert steps == AfterReserve() + [WriteRow(0, 1, 0), Report(0)] + Publish();
  }

  lemma ReachScanned() returns (steps: seq<Step>)
    ensures steps == AfterReserve() + [WriteRow(0, 1, 0), Report(0)] + Publish() + [CronPick(1, ORDER), CronReadOrder(1)]
    ensures Possible(SALE, Init(SALE), steps) && Assumed(SALE, Init(SALE), steps)
    ensures var s := Run(SALE, Init(SALE), steps);
            && s.sys.redis == Stores(0, true, true, false, false)
            && s.sys.db == Init(SALE).sys.db
            && s.sys.tx.accepted == {ORDER} && s.sys.dropped == {}
            && s.sys.issued == map[ORDER := BUYER] && s.sys.held == {ORDER}
            && s.procs == map[1 := CronMark(ORDER, ENTRY)]
  {
    hide Possible, Run, Assumed, ApplyRequest, ApplyConsumer, ApplyTimeout, ApplyPoll;
    steps := ReachPublished();
    OneMore(SALE, Init(SALE), steps, CronPick(1, ORDER));
    steps := steps + [CronPick(1, ORDER)];
    OneMore(SALE, Init(SALE), steps, CronReadOrder(1));
    steps := steps + [CronReadOrder(1)];
    assert steps == AfterReserve() + [WriteRow(0, 1, 0), Report(0)] + Publish() + [CronPick(1, ORDER), CronReadOrder(1)];
  }

  lemma ReachMarked() returns (steps: seq<Step>)
    ensures steps + [TxCreateOrder(2, GOODS, ReplyLost)] == UpToLostReply()
    ensures Possible(SALE, Init(SALE), steps) && Assumed(SALE, Init(SALE), steps)
    ensures var s := Run(SALE, Init(SALE), steps);
            && s.sys.redis == Stores(0, true, true, false, true)
            && s.sys.db == Init(SALE).sys.db
            && s.sys.issued == map[ORDER := BUYER] && s.sys.held == {ORDER}
            && s.procs == map[1 := CronMark(ORDER, ENTRY), 2 := TxCreate(ORDER)]
  {
    hide Possible, Run, Assumed, ApplyRequest, ApplyCron, ApplyTimeout, ApplyPoll;
    steps := ReachScanned();
    OneMore(SALE, Init(SALE), steps, TxReceive(2, ORDER));
    steps := steps + [TxReceive(2, ORDER)];
    assert Run(SALE, Init(SALE), steps).procs == map[1 := CronMark(ORDER, ENTRY), 2 := TxMark(ORDER)];
    OneMore(SALE, Init(SALE), steps, TxMarkProcessing(2, false));
    steps := steps + [TxMarkProcessing(2, false)];
    assert steps + [TxCreateOrder(2, GOODS, ReplyLost)] == UpToLostReply();
  }

  lemma ReachLostReply()
    ensures Possible(SALE, Init(SALE), UpToLostReply()) && Assumed(SALE, Init(SALE), UpToLostReply())
    ensures Committed(Run(SALE, Init(SALE), UpToLostReply()))
  {
    hide Possible, Run, Assumed, ApplyRequest, ApplyCron, ApplyTimeout, ApplyPoll;
    var steps := ReachMarked();
    OneMore(SALE, Init(SALE), steps, TxCreateOrder(2, GOODS, ReplyLost));
  }

  const RELEASE := [TxClearMarker(2, true), CronMarkCanceled(1, false), CronRollBack(1, true)]

  lemma ReleaseIsEarly(s: State)
    requires Committed(s)
    ensures Enabled(s, TxClearMarker(2, true)) && !Assumption(s, SALE, TxClearMarker(2, true))
  {
    assert s.procs[1].CronMark? && s.procs[1].o == ORDER;
    assert s.procs[2] == TxClear(ORDER);
    assert !SafeToRelease(s, ORDER);
  }

  lemma Releases(s: State)
    requires Committed(s)
    ensures Enabled(s, TxClearMarker(2, true))
    ensures Apply(SALE, s, TxClearMarker(2, true))
            == State(s.sys.(redis := Stores(0, true, true, false, false)), map[1 := CronMark(ORDER, ENTRY)])
  {
    hide ApplyRequest, ApplyCron, ApplyTimeout, ApplyPoll;
    assert s.procs - {2} == map[1 := CronMark(ORDER, ENTRY)];
  }

  lemma ReleaseThenMark(s: State) returns (two: seq<Step>)
    requires Committed(s)
    ensures two == [TxClearMarker(2, true), CronMarkCanceled(1, false)] && Possible(SALE, s, two)
    ensures var s' := Run(SALE, s, two);
            && s'.sys.redis == Stores(0, true, true, true, false)
            && s'.sys.db.orders == s.sys.db.orders
            && s'.procs == map[1 := CronRollback(ORDER, ENTRY)]
  {
    hide Possible, Run, Assumed, Enabled, Assumption, Apply;
    Nothing(SALE, s);
    Releases(s);
    OneMore(SALE, s, [], TxClearMarker(2, true));
    var one := [] + [TxClearMarker(2, true)];
    ProtocolScan.Marks(SALE, Run(SALE, s, one), 1);
    OneMore(SALE, s, one, CronMarkCanceled(1, false));
    two := one + [CronMarkCanceled(1, false)];
  }

  lemma ReleaseFrom(s: State)
    requires Committed(s)
    ensures Possible(SALE, s, RELEASE)
    ensures Oversold(SALE, Run(SALE, s, RELEASE))
    ensures ORDER in Run(SALE, s, RELEASE).sys.redis.canceled && ORDER in Run(SALE, s, RELEASE).sys.db.orders
  {
    hide Possible, Run, Assumed, ApplyRequest, ApplyConsumer, ApplyTimeout, ApplyPoll;
    var two := ReleaseThenMark(s);
    OneMore(SALE, s, two, CronRollBack(1, true));
    assert two + [CronRollBack(1, true)] == RELEASE;
    assert D.Live(Run(SALE, s, RELEASE).sys.db, 1) == {ORDER};
  }

  /** The deferred marker clear after an ambiguous commit error, with the scanner in between: until
      then every promise is kept, the clear breaks one, and the order ends up canceled, created
      and oversold. */
  lemma EarlyReleaseOversells()
    ensures Possible(SALE, Init(SALE), UpToLostReply()) && Assumed(SALE, Init(SALE), UpToLostReply())
    ensures var s := Run(SALE, Init(SALE), UpToLostReply());
            && Possible(SALE, s, RELEASE) && !Assumption(s, SALE, RELEASE[0])
            && Oversold(SALE, Run(SALE, s, RELEASE))
            && ORDER in Run(SALE, s, RELEASE).sys.redis.canceled && ORDER in Run(SALE, s, RELEASE).sys.db.orders
  {
    hide Possible, Run, Assumed, Enabled, Apply;
    ReachLostReply();
    ReleaseFrom(Run(SALE, Init(SALE), UpToLostReply()));
    ReleaseIsEarly(Run(SALE, Init(SALE), UpToLostReply()));
  }

  // ----- an insert error although the row was written -----

  /** DoSeckill takes an ambiguous outbox error for a failure and rolls back, the row is sent all
      the same, and the consumer creates an order nobody holds a token for. */
  lemma AmbiguousInsertOversells() returns (after: seq<Step>)
    ensures var s := Run(SALE, Init(SALE), AfterReserve());
            && Possible(SALE, Init(SALE), AfterReserve()) && Assumed(SALE, Init(SALE), AfterReserve())
            && after == [WriteRowFails(0, Some(1), 0), Compensate(0, true)] + Publish()
                        + [TxReceive(2, ORDER), TxMarkProcessing(2, false), TxCreateOrder(2, GOODS, Fine)]
            && Possible(SALE, Init(SALE), AfterReserve() + after) && !Assumption(s, SALE, after[0])
            && Oversold(SALE, Run(SALE, Init(SALE), AfterReserve() + after))
            && ORDER !in Run(SALE, Init(SALE), AfterReserve() + after).sys.held
  {
    hide Possible, Run, Assumed, ApplyConsumer, ApplyCron, ApplyTimeout, ApplyPoll;
    ReachReserved();
    var s := Run(SALE, Init(SALE), AfterReserve());
    var steps := AfterReserve();
    OneMore(SALE, Init(SALE), steps, WriteRowFails(0, Some(1), 0));
    steps := steps + [WriteRowFails(0, Some(1), 0)];
    assert Run(SALE, Init(SALE), steps).procs == map[0 := Compensating(ORDER, BUYER)];
    OneMore(SALE, Init(SALE), steps, Compensate(0, true));
    steps := steps + [Compensate(0, true)];
    var s2 := Run(SALE, Init(SALE), steps);
    assert s2.procs == map[] && s2.sys.redis == Stores(1, false, false, false, false);
    assert s2.sys.tx.table == map[1 := O.NewTask(ORDER, 0, 0)];
    Published(s2, steps);
    steps := steps + Publish();
    after := [WriteRowFails(0, Some(1), 0), Compensate(0, true)] + Publish()
             + [TxReceive(2, ORDER), TxMarkProcessing(2, false), TxCreateOrder(2, GOODS, Fine)];
    CreateWithoutToken(steps);
    assert steps + [TxReceive(2, ORDER), TxMarkProcessing(2, false), TxCreateOrder(2, GOODS, Fine)] == AfterReserve() + after;
  }

  lemma CreateWithoutToken(steps: seq<Step>)
    requires Possible(SALE, Init(SALE), steps)
    requires var s := Run(SALE, Init(SALE), steps);
             && s.procs == map[] && s.sys.redis == Stores(1, false, false, false, false)
             && s.sys.db == Init(SALE).sys.db && s.sys.tx.accepted == {ORDER} && s.sys.dropped == {}
             && s.sys.issued == map[ORDER := BUYER] && s.sys.held == {}
    ensures var all := steps + [TxReceive(2, ORDER), TxMarkProcessing(2, false), TxCreateOrder(2, GOODS, Fine)];
            && Possible(SALE, Init(SALE), all)
            && Oversold(SALE, Run(SALE, Init(SALE), all))
            && ORDER !in Run(SALE, Init(SALE), all).sys.held
  {
    hide Possible, Run, Assumed, ApplyRequest, ApplyCron, ApplyTimeout, ApplyPoll;
    OneMore(SALE, Init(SALE), steps, TxReceive(2, ORDER));
    var one := steps + [TxReceive(2, ORDER)];
    assert Run(SALE, Init(SALE), one) == Goto(Run(SALE, Init(SALE), steps), Run(SALE, Init(SALE), steps).sys, 2, TxMark(ORDER));
    var two := MarkAndCreate(one);
    assert two == steps + [TxReceive(2, ORDER), TxMarkProcessing(2, false), TxCreateOrder(2, GOODS, Fine)];
  }

  lemma MarkAndCreate(one: seq<Step>) returns (three: seq<Step>)
    requires Possible(SALE, Init(SALE), one)
    requires var s := Run(SALE, Init(SALE), one);
             && s.procs == map[2 := TxMark(ORDER)] && s.sys.redis == Stores(1, false, false, false, false)
             && s.sys.db == Init(SALE).sys.db && s.sys.issued == map[ORDER := BUYER] && s.sys.held == {}
    ensures three == one + [TxMarkProcessing(2, false), TxCreateOrder(2, GOODS, Fine)]
    ensures Possible(SALE, Init(SALE), three) && Oversold(SALE, Run(SALE, Init(SALE), three))
    ensures ORDER !in Run(SALE, Init(SALE), three).sys.held
  {
    hide Possible, Run, Assumed, ApplyRequest, ApplyCron, ApplyTimeout, ApplyPoll;
    OneMore(SALE, Init(SALE), one, TxMarkProcessing(2, false));
    var two := one + [TxMarkProcessing(2, false)];
    assert Run(SALE, Init(SALE), two).procs[2] == TxCreate(ORDER);
    OneMore(SALE, Init(SALE), two, TxCreateOrder(2, GOODS, Fine));
    three := two + [TxCreateOrder(2, GOODS, Fine)];
    assert D.Live(Run(SALE, Init(SALE), three).sys.db, 1) == {ORDER};
  }

  // ----- the canceled marker expires while a message can still come -----

  lemma ReachRolledBack() returns (steps: seq<Step>)
    ensures Possible(SALE, Init(SALE), steps) && Assumed(SALE, Init(SALE), steps)
    ensures var s := Run(SALE, Init(SALE), steps);
            && s.sys.redis == Stores(1, false, false, true, false)
            && s.sys.db == Init(SALE).sys.db
            && s.sys.tx.accepted == {ORDER} && s.sys.dropped == {}
            && s.sys.issued == map[ORDER := BUYER] && s.sys.held == {}
            && s.procs == map[]
  {
    hide Possible, Run, Assumed, ApplyRequest, ApplyConsumer, ApplyTimeout, ApplyPoll;
    steps := ReachScanned();
    OneMore(SALE, Init(SALE), steps, CronMarkCanceled(1, false));
    steps := steps + [CronMarkCanceled(1, false)];
    assert Run(SALE, Init(SALE), steps).procs == map[1 := CronRollback(ORDER, ENTRY)];
    assert Run(SALE, Init(SALE), steps).sys.redis == Stores(0, true, true, true, false);
    OneMore(SALE, Init(SALE), steps, CronRollBack(1, true));
    steps := steps + [CronRollBack(1, true)];
    assert Run(SALE, Init(SALE), steps).procs == map[];
    assert Run(SALE, Init(SALE), steps).sys.redis == Stores(1, false, false, true, false);
  }

  /** The scanner has marked the order and returned its unit; the message outlives the marker, and
      the consumer creates an order nobody holds a token for. */
  lemma EarlyExpiryOversells() returns (before: seq<Step>, after: seq<Step>)
    ensures Possible(SALE, Init(SALE), before) && Assumed(SALE, Init(SALE), before)
    ensures after == [CanceledExpires(ORDER), TxReceive(2, ORDER), TxMarkProcessing(2, false), TxCreateOrder(2, GOODS, Fine)]
    ensures !Assumption(Run(SALE, Init(SALE), before), SALE, after[0])
    ensures Possible(SALE, Init(SALE), before + after) && Oversold(SALE, Run(SALE, Init(SALE), before + after))
  {
    hide Possible, Run, Assumed, ApplyRequest, ApplyConsumer, ApplyCron, ApplyTimeout, ApplyPoll;
    before := ReachRolledBack();
    assert Deliverable(Run(SALE, Init(SALE), before).sys, ORDER);
    OneMore(SALE, Init(SALE), before, CanceledExpires(ORDER));
    var steps := before + [CanceledExpires(ORDER)];
    assert Run(SALE, Init(SALE), steps).sys.redis == Stores(1, false, false, false, false);
    CreateWithoutToken(steps);
    after := [CanceledExpires(ORDER), TxReceive(2, ORDER), TxMarkProcessing(2, false), TxCreateOrder(2, GOODS, Fine)];
    assert before + after == steps + [TxReceive(2, ORDER), TxMarkProcessing(2, false), TxCreateOrder(2, GOODS, Fine)];
  }

  // ----- a cancellation loses its stock update -----

  const NEXT_BUYER: UserId := 8
  const NEXT_ORDER: OrderNo := 6

  function OrderOf(status: D.Status): map<OrderNo, D.Order> {
    map[ORDER := D.Order(BUYER, 1, 100, status)]
  }

  /** The order is created and its timeout message sent; the consumer is done. */
  ghost predicate Waiting(s: State, stock: int) {
    && s.sys.redis == Stores(stock, true, false, false, false)
    && s.sys.db.orders == OrderOf(D.Pending) && s.sys.db.activities == map[1 := D.Activity(0, 1)]
    && s.sys.tx.accepted == {ORDER} && s.sys.dropped == {} && SentBy0(s.sys)
    && s.sys.timeout.accepted == {ORDER}
    && s.sys.issued == map[ORDER := BUYER] && s.sys.held == {ORDER}
    && s.procs == map[]
  }

  lemma ConsumerCreates(s0: State, stock: int) returns (steps: seq<Step>)
    requires Queued(s0, stock)
    ensures Possible(SALE, s0, steps) && Assumed(SALE, s0, steps)
    ensures var s := Run(SALE, s0, steps);
            && s.sys == s0.sys.(redis := Stores(stock, true, true, false, true), db := s.sys.db)
            && s.sys.db.orders == OrderOf(D.Pending) && s.sys.db.activities == map[1 := D.Activity(0, 1)]
            && s.procs == map[2 := TxHdel(ORDER)]
  {
    hide Possible, Run, Assumed, Enabled, Assumption, Apply, SentBy0;
    Nothing(SALE, s0);
    Received(s0, ORDER);
    OneMore(SALE, s0, [], TxReceive(2, ORDER));
    steps := [] + [TxReceive(2, ORDER)];
    assert Run(SALE, s0, steps).procs == map[2 := TxMark(ORDER)];
    steps := MarkedAndCreated(s0, stock, steps);
  }

  lemma MarkedAndCreated(s0: State, stock: int, before: seq<Step>) returns (steps: seq<Step>)
    requires Possible(SALE, s0, before) && Assumed(SALE, s0, before)
    requires var s := Run(SALE, s0, before);
             && s.procs == map[2 := TxMark(ORDER)] && s.sys.redis == Stores(stock, true, true, false, false)
             && s.sys.db == Init(SALE).sys.db && s.sys.issued == map[ORDER := BUYER]
    ensures Possible(SALE, s0, steps) && Assumed(SALE, s0, steps)
    ensures var s, s' := Run(SALE, s0, before), Run(SALE, s0, steps);
            && s'.sys == s.sys.(redis := Stores(stock, true, true, false, true), db := s'.sys.db)
            && s'.sys.db.orders == OrderOf(D.Pending) && s'.sys.db.activities == map[1 := D.Activity(0, 1)]
            && s'.procs == map[2 := TxHdel(ORDER)]
  {
    hide Possible, Run, Assumed, ApplyRequest, ApplyCron, ApplyTimeout, ApplyPoll;
    OneMore(SALE, s0, before, TxMarkProcessing(2, false));
    steps := before + [TxMarkProcessing(2, false)];
    assert Run(SALE, s0, steps).procs == map[2 := TxCreate(ORDER)];
    OneMore(SALE, s0, steps, TxCreateOrder(2, GOODS, Fine));
    steps := steps + [TxCreateOrder(2, GOODS, Fine)];
  }

  /** The one consumer runs to its end. */
  lemma OrderIsCreated(s0: State, stock: int) returns (steps: seq<Step>)
    requires Queued(s0, stock)
    ensures Possible(SALE, s0, steps) && Assumed(SALE, s0, steps)
    ensures Waiting(Run(SALE, s0, steps), stock)
  {
    hide Possible, Run, Assumed, SentBy0, ApplyRequest, ApplyCron, ApplyTimeout, ApplyPoll;
    steps := ConsumerCreates(s0, stock);
    var s := Run(SALE, s0, steps);
    OneMore(SALE, s0, steps, TxDeletePending(2, true));
    steps := steps + [TxDeletePending(2, true)];
    assert Run(SALE, s0, steps) == Goto(s, s.sys.(redis := Stores(stock, true, false, false, true)), 2, TxSend(ORDER));
    steps := SentAndCleared(s0, stock, steps);
    SentBy0Same(s0.sys, Run(SALE, s0, steps).sys);
  }

  lemma SentBy0Same(s: Sys, s': Sys)
    requires SentBy0(s) && s'.tx == s.tx
    ensures SentBy0(s')
  {
  }

  lemma SentAndCleared(s0: State, stock: int, before: seq<Step>) returns (steps: seq<Step>)
    requires Possible(SALE, s0, before) && Assumed(SALE, s0, before)
    requires var s := Run(SALE, s0, before);
             s.procs == map[2 := TxSend(ORDER)] && s.sys.redis == Stores(stock, true, false, false, true) && s.sys.timeout == O.EMPTY
    ensures Possible(SALE, s0, steps) && Assumed(SALE, s0, steps)
    ensures var s, s' := Run(SALE, s0, before), Run(SALE, s0, steps);
            && s'.sys == s.sys.(redis := Stores(stock, true, false, false, false), timeout := s'.sys.timeout)
            && s'.sys.timeout.accepted == {ORDER} && s'.procs == map[]
  {
    hide Possible, Run, Assumed, ApplyRequest, ApplyCron, ApplyTimeout, ApplyPoll;
    OneMore(SALE, s0, before, TxSendTimeout(2, true, true));
    steps := before + [TxSendTimeout(2, true, true)];
    assert Run(SALE, s0, steps).procs == map[2 := TxClear(ORDER)];
    OneMore(SALE, s0, steps, TxClearMarker(2, true));
    steps := steps + [TxClearMarker(2, true)];
    assert Run(SALE, s0, steps).procs == map[];
  }

  const LOST_UPDATE := ToCancelOrder(3, Fine, D.Unchecked(false, true))

  ghost predicate TimingOut(s: State) {
    && s.procs == map[3 := ToCancel(ORDER, BUYER)]
    && Waiting(s.(procs := map[]), 0)
  }

  lemma ReachTimeout() returns (steps: seq<Step>)
    ensures Possible(SALE, Init(SALE), steps) && Assumed(SALE, Init(SALE), steps)
    ensures TimingOut(Run(SALE, Init(SALE), steps))
  {
    hide Possible, Run, Assumed, ApplyRequest, ApplyConsumer, ApplyCron, ApplyPoll;
    steps := ReachPublished();
    var consume := OrderIsCreated(Run(SALE, Init(SALE), steps), 0);
    RunsCompose(SALE, Init(SALE), steps, consume);
    steps := steps + consume;
    OneMore(SALE, Init(SALE), steps, ToReceive(3, ORDER));
    steps := steps + [ToReceive(3, ORDER)];
  }

  /** Redis offers a unit, the stock row does not: the first order is live, or was cancelled and gave its unit back. */
  ghost predicate Offered(s: State, live: bool) {
    && s.sys.redis == Stores(1, live, false, false, false)
    && s.sys.db.orders == OrderOf(if live then D.Pending else D.Cancelled) && s.sys.db.activities == map[1 := D.Activity(0, 1)]
    && s.sys.dropped == {} && SentBy0(s.sys)
    && s.sys.issued == map[ORDER := BUYER] && s.sys.held == (if live then {ORDER} else {})
    && s.procs == map[]
  }

  lemma UpdateIsLost(s: State)
    requires TimingOut(s)
    ensures Enabled(s, LOST_UPDATE) && !Assumption(s, SALE, LOST_UPDATE)
    ensures var s' := Apply(SALE, s, LOST_UPDATE);
            && s'.sys == s.sys.(db := s'.sys.db) && s'.procs == map[3 := ToRollback(ORDER, BUYER)]
            && s'.sys.db.orders == OrderOf(D.Cancelled) && s'.sys.db.activities == map[1 := D.Activity(0, 1)]
  {
    hide SentBy0, ApplyRequest, ApplyConsumer, ApplyCron, ApplyPoll;
    assert s.procs[3 := ToRollback(ORDER, BUYER)] == map[3 := ToRollback(ORDER, BUYER)];
  }

  lemma CancelsHalf(s: State) returns (steps: seq<Step>)
    requires TimingOut(s)
    ensures steps == [LOST_UPDATE] && Possible(SALE, s, steps) && !Assumption(s, SALE, LOST_UPDATE)
    ensures var s' := Run(SALE, s, steps);
            && s'.sys == s.sys.(db := s'.sys.db) && s'.procs == map[3 := ToRollback(ORDER, BUYER)]
            && s'.sys.db.orders == OrderOf(D.Cancelled) && s'.sys.db.activities == map[1 := D.Activity(0, 1)]
  {
    hide Possible, Run, Assumed, Enabled, Assumption, Apply, TimingOut;
    Nothing(SALE, s);
    UpdateIsLost(s);
    OneMore(SALE, s, [], LOST_UPDATE);
    steps := [] + [LOST_UPDATE];
  }

  lemma CancelsAndReturns(s: State) returns (steps: seq<Step>)
    requires TimingOut(s)
    ensures steps == [LOST_UPDATE, ToRollBack(3, true)] && Possible(SALE, s, steps) && !Assumption(s, SALE, LOST_UPDATE)
    ensures Offered(Run(SALE, s, steps), false)
  {
    hide Possible, Run, Assumed, SentBy0, ApplyRequest, ApplyConsumer, ApplyCron, ApplyPoll;
    steps := CancelsHalf(s);
    OneMore(SALE, s, steps, ToRollBack(3, true));
    steps := steps + [ToRollBack(3, true)];
    var s' := Run(SALE, s, steps);
    assert s'.procs == map[] && s'.sys.redis.purchased == {} && s'.sys.held == {};
    SentBy0Same(s.sys, s'.sys);
  }

  const NEXT_ENTRY := map[NEXT_ORDER := R.PendingValue(0, NEXT_BUYER, 1)]

  /** The next buyer has reserved the unit Redis offers and its request has written its row. */
  ghost predicate NextReserved(s: State, live: bool) {
    && s.sys.redis == R.Redis(Some(0), if live then {BUYER, NEXT_BUYER} else {NEXT_BUYER}, NEXT_ENTRY, {}, {})
    && s.sys.db.orders == OrderOf(if live then D.Pending else D.Cancelled) && s.sys.db.activities == map[1 := D.Activity(0, 1)]
    && s.sys.dropped == {}
    && 2 in s.sys.tx.table && s.sys.tx.table[2] == O.NewTask(NEXT_ORDER, 0, 0) && s.sys.tx.senders.Keys == {0}
    && s.sys.issued == map[ORDER := BUYER, NEXT_ORDER := NEXT_BUYER] && NEXT_ORDER in s.sys.held
    && s.procs == map[4 := RowWritten(NEXT_ORDER)]
  }

  lemma NextBuyerReserves(s: State, live: bool) returns (steps: seq<Step>)
    requires Offered(s, live)
    ensures Possible(SALE, s, steps) && Assumed(SALE, s, steps) && NextReserved(Run(SALE, s, steps), live)
  {
    hide Possible, Run, Assumed, ApplyConsumer, ApplyCron, ApplyTimeout, ApplyPoll;
    Nothing(SALE, s);
    OneMore(SALE, s, [], Reserve(4, NEXT_ORDER, NEXT_BUYER, 0, false));
    steps := [] + [Reserve(4, NEXT_ORDER, NEXT_BUYER, 0, false)];
    var s1 := Run(SALE, s, steps);
    assert s1.procs == map[4 := Reserved(NEXT_ORDER, NEXT_BUYER)];
    assert s1.sys.redis == R.Redis(Some(0), if live then {BUYER, NEXT_BUYER} else {NEXT_BUYER}, NEXT_ENTRY, {}, {});
    assert s1.sys.issued == map[ORDER := BUYER, NEXT_ORDER := NEXT_BUYER] && NEXT_ORDER in s1.sys.held;
    OneMore(SALE, s, steps, WriteRow(4, 2, 0));
    steps := steps + [WriteRow(4, 2, 0)];
  }

  lemma NextIsSent(s: State, live: bool) returns (steps: seq<Step>)
    requires NextReserved(s, live)
    ensures Possible(SALE, s, steps) && Assumed(SALE, s, steps)
    ensures var s' := Run(SALE, s, steps);
            s' == s.(sys := s.sys.(tx := s'.sys.tx)) && Deliverable(s'.sys, NEXT_ORDER)
  {
    hide Possible, Run, Assumed, ApplyRequest, ApplyConsumer, ApplyCron, ApplyTimeout, ApplyPoll;
    Nothing(SALE, s);
    OneMore(SALE, s, [], TxOutbox(O.Claim(1, 2, 0, O.TX.lease)));
    steps := [] + [TxOutbox(O.Claim(1, 2, 0, O.TX.lease))];
    var s1 := Run(SALE, s, steps);
    assert 1 in s1.sys.tx.senders && s1.sys.tx.senders[1] == O.Holding(2, s.sys.tx.table[2]) && s1.sys.dropped == {};
    OneMore(SALE, s, steps, TxOutbox(O.Send(1, true, true)));
    steps := steps + [TxOutbox(O.Send(1, true, true))];
    assert Run(SALE, s, steps).sys.dropped == {};
  }

  /** A consumer in its critical section, with the token held, finds the stock row empty. */
  ghost predicate SoldOutUnderToken(setup: Setup, s: State, o: OrderNo) {
    && o in s.sys.held && o in s.sys.issued
    && (exists p :: p in s.procs && s.procs[p] == TxCreate(o))
    && D.Create(s.sys.db, o, s.sys.issued[o], setup.activity, GOODS).1 == D.StockNotEnough
  }

  lemma NextIsRefused(s: State, status: D.Status) returns (steps: seq<Step>)
    requires s.procs == map[4 := RowWritten(NEXT_ORDER)] && Deliverable(s.sys, NEXT_ORDER)
    requires s.sys.redis.canceled == {} && s.sys.redis.processing == {}
    requires s.sys.db.orders == OrderOf(status) && s.sys.db.activities == map[1 := D.Activity(0, 1)]
    requires s.sys.issued == map[ORDER := BUYER, NEXT_ORDER := NEXT_BUYER] && NEXT_ORDER in s.sys.held
    ensures Possible(SALE, s, steps) && Assumed(SALE, s, steps) && SoldOutUnderToken(SALE, Run(SALE, s, steps), NEXT_ORDER)
  {
    hide Possible, Run, Assumed, Enabled, Assumption, Apply;
    Nothing(SALE, s);
    Received(s, NEXT_ORDER);
    OneMore(SALE, s, [], TxReceive(2, NEXT_ORDER));
    steps := [] + [TxReceive(2, NEXT_ORDER)];
    MarkerIsWon(Run(SALE, s, steps), NEXT_ORDER);
    OneMore(SALE, s, steps, TxMarkProcessing(2, false));
    steps := steps + [TxMarkProcessing(2, false)];
    var s2 := Run(SALE, s, steps);
    assert s2.procs[2] == TxCreate(NEXT_ORDER) && s2.sys.db == s.sys.db;
    RowIsEmpty(s.sys.db, status);
  }

  lemma Received(s: State, o: OrderNo)
    requires 2 !in s.procs && Deliverable(s.sys, o) && o !in s.sys.redis.canceled
    ensures Enabled(s, TxReceive(2, o)) && Assumption(s, SALE, TxReceive(2, o))
    ensures Apply(SALE, s, TxReceive(2, o)) == Goto(s, s.sys, 2, TxMark(o))
  {
    hide ApplyRequest, ApplyCron, ApplyTimeout, ApplyPoll;
  }

  lemma MarkerIsWon(s: State, o: OrderNo)
    requires 2 in s.procs && s.procs[2] == TxMark(o) && o !in s.sys.redis.canceled && o !in s.sys.redis.processing
    ensures Enabled(s, TxMarkProcessing(2, false)) && Assumption(s, SALE, TxMarkProcessing(2, false))
    ensures Apply(SALE, s, TxMarkProcessing(2, false)) ==
              Goto(s, s.sys.(redis := s.sys.redis.(processing := s.sys.redis.processing + {o})), 2, TxCreate(o))
  {
    hide ApplyRequest, ApplyCron, ApplyTimeout, ApplyPoll;
  }

  lemma RowIsEmpty(db: D.Db, status: D.Status)
    requires db.orders == OrderOf(status) && db.activities == map[1 := D.Activity(0, 1)]
    ensures D.Create(db, NEXT_ORDER, NEXT_BUYER, 1, GOODS).1 == D.StockNotEnough
  {
  }

  /** With a unit on offer that the stock row does not have, the next sale ends at an empty row. */
  lemma NextSaleFails(s: State, live: bool) returns (steps: seq<Step>)
    requires Offered(s, live)
    ensures Possible(SALE, s, steps) && Assumed(SALE, s, steps)
    ensures SoldOutUnderToken(SALE, Run(SALE, s, steps), NEXT_ORDER)
  {
    hide Possible, Run, Assumed, Enabled, Assumption, SoldOutUnderToken;
    steps := NextBuyerReserves(s, live);
    var send := NextIsSent(Run(SALE, s, steps), live);
    RunsCompose(SALE, s, steps, send);
    steps := steps + send;
    var refuse := NextIsRefused(Run(SALE, s, steps), if live then D.Pending else D.Cancelled);
    RunsCompose(SALE, s, steps, refuse);
    steps := steps + refuse;
  }

  /** Cancelling ignores the error of its stock update; Redis gives the unit back all the same, the next
      buyer takes it, and the consumer finds no stock. Up to the cancellation every promise is kept. */
  lemma LostUpdateSellsOut() returns (before: seq<Step>, after: seq<Step>)
    ensures Possible(SALE, Init(SALE), before) && Assumed(SALE, Init(SALE), before)
    ensures TimingOut(Run(SALE, Init(SALE), before)) && !Assumption(Run(SALE, Init(SALE), before), SALE, LOST_UPDATE)
    ensures after != [] && after[0] == LOST_UPDATE
    ensures Possible(SALE, Run(SALE, Init(SALE), before), after)
    ensures SoldOutUnderToken(SALE, Run(SALE, Run(SALE, Init(SALE), before), after), NEXT_ORDER)
  {
    hide Possible, Run, Assumed, Enabled, Assumption, SoldOutUnderToken;
    before := ReachTimeout();
    var s := Run(SALE, Init(SALE), before);
    after := CancelsAndReturns(s);
    var next := NextSaleFails(Run(SALE, s, after), false);
    PossibleRunsCompose(SALE, s, after, next);
    after := after + next;
  }

  // ----- a warm-up while a reservation is on its way -----

  lemma WarmUpInBetween(s: State)
    requires Queued(s, 0)
    ensures Enabled(s, WarmUp(1)) && !Assumption(s, SALE, WarmUp(1)) && Queued(Apply(SALE, s, WarmUp(1)), 1)
    ensures 1 in s.sys.db.activities && s.sys.db.activities[1].available == 1
  {
    hide SentBy0, ApplyRequest, ApplyConsumer, ApplyCron, ApplyTimeout, ApplyPoll;
    SentBy0Same(s.sys, Apply(SALE, s, WarmUp(1)).sys);
  }

  lemma OfferedAndLive(s: State)
    requires Waiting(s, 1)
    ensures Offered(s, true) && Oversold(SALE, s)
  {
    assert D.Live(s.sys.db, 1) == {ORDER};
  }

  /** The activity is warmed up again between a reservation and its order: the handler reads the stock row, which
      still has the unit, and writes it over the empty Redis stock. The order is created and Redis offers its unit
      once more; the next buyer takes it and meets an empty row. Every promise but that of the warm-up is kept. */
  lemma WarmUpAgainOversells() returns (before: seq<Step>, after: seq<Step>, next: seq<Step>)
    ensures Possible(SALE, Init(SALE), before) && Assumed(SALE, Init(SALE), before)
    ensures var s := Run(SALE, Init(SALE), before);
            && 1 in s.sys.db.activities && !Assumption(s, SALE, WarmUp(s.sys.db.activities[1].available))
            && var again := Apply(SALE, s, WarmUp(s.sys.db.activities[1].available));
               && Possible(SALE, again, after) && Assumed(SALE, again, after) && Oversold(SALE, Run(SALE, again, after))
               && Possible(SALE, again, after + next) && Assumed(SALE, again, after + next)
               && SoldOutUnderToken(SALE, Run(SALE, again, after + next), NEXT_ORDER)
  {
    hide Possible, Run, Assumed, Enabled, Assumption, Apply, Queued, Waiting, Offered, Oversold, SoldOutUnderToken;
    before := ReachPublished();
    var s := Run(SALE, Init(SALE), before);
    WarmUpInBetween(s);
    var again := Apply(SALE, s, WarmUp(1));
    after := OrderIsCreated(again, 1);
    OfferedAndLive(Run(SALE, again, after));
    next := NextSaleFails(Run(SALE, again, after), true);
    RunsCompose(SALE, again, after, next);
  }
}
