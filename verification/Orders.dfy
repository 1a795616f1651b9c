/**
 The order tables: orders, order items, activity stock rows and the append-only stock log.

 The three statements that change them are functions on `Db`; class `OrderRepo` runs the
 same transactions statement by statement, undoing everything when one of them fails.
 */
module Orders {
  import opened Common

  datatype Status = Pending | Paid | Cancelled

  datatype Order = Order(user: UserId, activity: ActivityId, amount: int, status: Status)
  datatype Item = Item(product: ProductId, title: string, price: int)
  datatype Activity = Activity(available: nat, version: nat)

  datatype LogKind = Deduct | Return
  datatype Log = Log(activity: ActivityId, order: OrderNo, kind: LogKind)

  datatype Db = Db(
    orders: map<OrderNo, Order>,
    items: map<OrderNo, Item>,
    activities: map<ActivityId, Activity>,
    logs: seq<Log>)

  datatype CreateResult = Created | DuplicateOrder | StockNotEnough | SystemError

  predicate HasBought(orders: map<OrderNo, Order>, u: UserId, a: ActivityId) {
    exists q :: q in orders && orders[q].user == u && orders[q].activity == a
  }

  /** Some row violates uk_order_no or uk_user_activity for a new order. */
  predicate Conflicts(orders: map<OrderNo, Order>, u: UserId, a: ActivityId, o: OrderNo) {
    o in orders || HasBought(orders, u, a)
  }

  function Create(db: Db, o: OrderNo, u: UserId, a: ActivityId, item: Item): (Db, CreateResult) {
    if Conflicts(db.orders, u, a, o) then (db, DuplicateOrder)
    else if a !in db.activities || db.activities[a].available == 0 then (db, StockNotEnough)
    else
      var row := db.activities[a];
      (Db(db.orders[o := Order(u, a, item.price, Pending)],
          db.items[o := item],
          db.activities[a := Activity(row.available - 1, row.version + 1)],
          db.logs + [Log(a, o, Deduct)]),
       Created)
  }

  function Pay(db: Db, o: OrderNo, u: UserId): (Db, bool) {
    if o in db.orders && db.orders[o].user == u && db.orders[o].status == Pending then
      (db.(orders := db.orders[o := db.orders[o].(status := Paid)]), true)
    else
      (db, false)
  }

  /** Which of the two statements whose errors CancelExpiredOrder ignores took effect. */
  datatype Unchecked = Unchecked(stock: bool, log: bool)

  const BOTH := Unchecked(true, true)

  function CancelExpired(db: Db, o: OrderNo, done: Unchecked): (Db, Option<Order>) {
    if o in db.orders && db.orders[o].status == Pending then
      var order := db.orders[o];
      var a := order.activity;
      (Db(db.orders[o := order.(status := Cancelled)],
          db.items,
          if done.stock && a in db.activities
          then db.activities[a := db.activities[a].(available := db.activities[a].available + 1)]
          else db.activities,
          if done.log then db.logs + [Log(a, o, Return)] else db.logs),
       Some(order))
    else
      (db, None)
  }

  /** With a unit in stock or a conflict, an order is created exactly when nothing conflicts. */
  lemma CreatedIff(db: Db, o: OrderNo, u: UserId, a: ActivityId, item: Item)
    requires Create(db, o, u, a, item).1 != StockNotEnough
    ensures Create(db, o, u, a, item).1 == Created <==> !Conflicts(db.orders, u, a, o)
  {
  }

  /** One order per user and activity: once `u` has an order in `a`, no order of `u` in `a` is created under any
      number, while orders of other users, and orders of `u` in other activities, get the answer they would
      have got before, unless they compete for the last unit. */
  lemma OneOrderPerActivity(db: Db, o: OrderNo, u: UserId, a: ActivityId, item: Item,
                            q: OrderNo, v: UserId, b: ActivityId, item': Item)
    requires Create(db, o, u, a, item).1 == Created && q != o
    ensures var db', before := Create(db, o, u, a, item).0, Create(db, q, v, b, item').1;
            var after := Create(db', q, v, b, item').1;
            && (v == u && b == a ==> after == DuplicateOrder)
            && (b != a ==> after == before)
            && (v != u && b == a ==>
                  after == if before == Created && db.activities[a].available == 1 then StockNotEnough else before)
  {
    var db' := Create(db, o, u, a, item).0;
    assert o in db'.orders && db'.orders[o].user == u && db'.orders[o].activity == a;
    if v != u || b != a {
      SameConflicts(db.orders, db'.orders, o, v, b, q);
    }
  }

  lemma SameConflicts(orders: map<OrderNo, Order>, orders': map<OrderNo, Order>, o: OrderNo, v: UserId, b: ActivityId, q: OrderNo)
    requires o !in orders && o in orders' && orders' == orders[o := orders'[o]] && q != o
    requires orders'[o].user != v || orders'[o].activity != b
    ensures Conflicts(orders', v, b, q) <==> Conflicts(orders, v, b, q)
  {
    if x :| x in orders && orders[x].user == v && orders[x].activity == b {
      assert x in orders' && orders'[x] == orders[x];
    }
  }

  /** A created order is the buyer's, pending, at the price of its item, and costs its activity one unit. */
  lemma CreatedMeans(db: Db, o: OrderNo, u: UserId, a: ActivityId, item: Item)
    requires Create(db, o, u, a, item).1 == Created
    ensures var db' := Create(db, o, u, a, item).0;
            && o !in db.orders && db'.orders == db.orders[o := Order(u, a, item.price, Pending)]
            && db'.items == db.items[o := item]
            && a in db.activities && db.activities[a].available > 0
            && db'.activities.Keys == db.activities.Keys
            && db'.activities[a].available == db.activities[a].available - 1
            && (forall b :: b in db.activities && b != a ==> db'.activities[b] == db.activities[b])
            && |db'.logs| == |db.logs| + 1
  {
  }

  /** Only the owner's call pays a pending order, it then always does, and what is paid can neither be paid again
      nor cancelled; what is cancelled cannot be paid. */
  lemma OnlyTheOwnerPays(db: Db, o: OrderNo, u: UserId, v: UserId, done: Unchecked)
    ensures var (db', ok) := Pay(db, o, u);
            && (ok <==> o in db.orders && db.orders[o].user == u && db.orders[o].status == Pending)
            && (!ok ==> db' == db)
            && (ok ==> && db'.orders == db.orders[o := db.orders[o].(status := Paid)]
                       && db'.items == db.items && db'.activities == db.activities && db'.logs == db.logs
                       && Pay(db', o, v) == (db', false) && CancelExpired(db', o, done) == (db', None))
    ensures CancelExpired(db, o, done).1.Some? ==> !Pay(CancelExpired(db, o, done).0, o, v).1
  {
  }

  /** A cancelled order keeps its row; its unit and its return line come with the two unchecked statements. */
  lemma CancelledMeans(db: Db, o: OrderNo, done: Unchecked)
    requires o in db.orders && db.orders[o].status == Pending
    ensures var db' := CancelExpired(db, o, done).0;
            var a := db.orders[o].activity;
            && db'.orders == db.orders[o := db.orders[o].(status := Cancelled)] && db'.items == db.items
            && db'.activities.Keys == db.activities.Keys
            && (a in db.activities ==>
                  db'.activities[a].available == db.activities[a].available + if done.stock then 1 else 0)
            && (forall b :: b in db.activities && b != a ==> db'.activities[b] == db.activities[b])
            && |db'.logs| == |db.logs| + if done.log then 1 else 0
  {
  }

  lemma NothingToCancel(db: Db, o: OrderNo, done: Unchecked)
    ensures var (db', cancelled) := CancelExpired(db, o, done);
            && (cancelled.Some? <==> o in db.orders && db.orders[o].status == Pending)
            && (cancelled.None? ==> db' == db)
  {
  }

  // ----- what the ledger says -----

  ghost function All(db: Db, a: ActivityId): set<OrderNo> {
    set o | o in db.orders && db.orders[o].activity == a
  }

  ghost function Live(db: Db, a: ActivityId): set<OrderNo> {
    set o | o in db.orders && db.orders[o].activity == a && db.orders[o].status != Cancelled
  }

  /** Log lines of one kind in one activity. */
  function LogsOfActivity(logs: seq<Log>, a: ActivityId, k: LogKind): nat {
    if logs == [] then 0
    else
      var last := logs[|logs| - 1];
      LogsOfActivity(logs[..|logs| - 1], a, k) + if last.activity == a && last.kind == k then 1 else 0
  }

  /** Log lines of one kind for one order. */
  function LogsOfOrder(logs: seq<Log>, o: OrderNo, k: LogKind): nat {
    if logs == [] then 0
    else
      var last := logs[|logs| - 1];
      LogsOfOrder(logs[..|logs| - 1], o, k) + if last.order == o && last.kind == k then 1 else 0
  }

  /** What each order's own rows say. */
  ghost predicate RowsOk(db: Db) {
    && db.items.Keys == db.orders.Keys
    && (forall o :: o in db.orders ==> db.orders[o].activity in db.activities && db.items[o].price == db.orders[o].amount)
    && (forall o, q :: o in db.orders && q in db.orders && o != q && db.orders[o].user == db.orders[q].user ==>
          db.orders[o].activity != db.orders[q].activity)
  }

  /** The cancelled orders whose unit, and those whose return line, the books are missing. */
  datatype Gaps = Gaps(units: set<OrderNo>, lines: set<OrderNo>)

  const NO_GAPS := Gaps({}, {})

  ghost function In(db: Db, orders: set<OrderNo>, a: ActivityId): set<OrderNo> {
    set o | o in orders && o in db.orders && db.orders[o].activity == a
  }

  ghost predicate AreCancelled(db: Db, orders: set<OrderNo>) {
    forall o :: o in orders ==> o in db.orders && db.orders[o].status == Cancelled
  }

  /** Every order has exactly one deduct line; a cancelled one has one return line unless it is missing. */
  ghost predicate LogLinesOk(db: Db, missing: set<OrderNo>) {
    forall o: OrderNo ::
      && LogsOfOrder(db.logs, o, Deduct) == (if o in db.orders then 1 else 0)
      && LogsOfOrder(db.logs, o, Return)
         == (if o in db.orders && db.orders[o].status == Cancelled && o !in missing then 1 else 0)
  }

  /** The books of activity `a`, opened with `stock0` units at version `version0`, balance up to the gaps. */
  ghost predicate Balanced(db: Db, a: ActivityId, stock0: nat, version0: nat, gaps: Gaps)
    requires a in db.activities
  {
    && db.activities[a].available + |Live(db, a)| + |In(db, gaps.units, a)| == stock0
    && db.activities[a].version == version0 + |All(db, a)|
    && LogsOfActivity(db.logs, a, Deduct) == |All(db, a)|
    && LogsOfActivity(db.logs, a, Deduct) - LogsOfActivity(db.logs, a, Return) == |Live(db, a)| + |In(db, gaps.lines, a)|
  }

  ghost predicate Books(db: Db, opening: map<ActivityId, Activity>, gaps: Gaps) {
    && RowsOk(db)
    && LogLinesOk(db, gaps.lines)
    && AreCancelled(db, gaps.units) && AreCancelled(db, gaps.lines)
    && db.activities.Keys == opening.Keys
    && forall a :: a in opening ==> Balanced(db, a, opening[a].available, opening[a].version, gaps)
  }

  /** Nothing is missing. */
  ghost predicate Ledger(db: Db, opening: map<ActivityId, Activity>) {
    Books(db, opening, NO_GAPS)
  }

  /** What a balanced ledger says of one activity. */
  lemma LedgerBalances(db: Db, opening: map<ActivityId, Activity>, a: ActivityId)
    requires Ledger(db, opening) && a in opening
    ensures a in db.activities
    ensures db.activities[a].available + |Live(db, a)| == opening[a].available
    ensures db.activities[a].version == opening[a].version + |All(db, a)|
    ensures LogsOfActivity(db.logs, a, Deduct) - LogsOfActivity(db.logs, a, Return) == |Live(db, a)|
  {
    assert Balanced(db, a, opening[a].available, opening[a].version, NO_GAPS);
    assert In(db, {}, a) == {};
  }

  /** A gap is never papered over: the ledger balances exactly when there is none. */
  lemma LedgerIffNoGaps(db: Db, opening: map<ActivityId, Activity>, gaps: Gaps)
    requires Books(db, opening, gaps)
    ensures Ledger(db, opening) <==> gaps == NO_GAPS
  {
    forall o | o in gaps.units
      ensures db.orders[o].activity in opening && In(db, gaps.units, db.orders[o].activity) != {}
    {
      assert o in In(db, gaps.units, db.orders[o].activity);
    }
    if Ledger(db, opening) {
      forall a | a in opening
        ensures In(db, gaps.units, a) == {}
      {
        LedgerBalances(db, opening, a);
        assert Balanced(db, a, opening[a].available, opening[a].version, gaps);
      }
      assert gaps.units == {};
      forall o
        ensures o !in gaps.lines
      {
        assert LogLinesOk(db, gaps.lines) && LogLinesOk(db, {});
      }
    }
  }

  lemma AppendLog(logs: seq<Log>, x: Log)
    ensures forall a, k :: LogsOfActivity(logs + [x], a, k) ==
                           LogsOfActivity(logs, a, k) + if x.activity == a && x.kind == k then 1 else 0
    ensures forall o, k :: LogsOfOrder(logs + [x], o, k) ==
                           LogsOfOrder(logs, o, k) + if x.order == o && x.kind == k then 1 else 0
  {
    assert (logs + [x])[..|logs|] == logs;
  }

  lemma OpeningLedger(db: Db)
    requires db.orders == map[] && db.items == map[] && db.logs == []
    ensures Ledger(db, db.activities)
  {
    forall a | a in db.activities
      ensures Balanced(db, a, db.activities[a].available, db.activities[a].version, NO_GAPS)
    {
      assert Live(db, a) == {} && All(db, a) == {} && In(db, {}, a) == {};
    }
  }

  lemma CreatedIsNew(db: Db, o: OrderNo, u: UserId, a: ActivityId, item: Item)
    requires Create(db, o, u, a, item).1 == Created
    ensures o !in db.orders && Create(db, o, u, a, item).0.orders == db.orders[o := Order(u, a, item.price, Pending)]
  {
  }

  lemma LiveIsSome(db: Db, a: ActivityId)
    ensures Live(db, a) <= All(db, a)
  {
  }

  lemma OneMoreOrder(db: Db, db': Db, b: ActivityId, o: OrderNo, order: Order)
    requires o !in db.orders && db'.orders == db.orders[o := order] && order.status != Cancelled
    ensures var more := if b == order.activity then {o} else {};
            Live(db', b) == Live(db, b) + more && All(db', b) == All(db, b) + more && o !in All(db, b)
  {
  }

  lemma {:induction false} CreateBalances(db: Db, b: ActivityId, stock0: nat, version0: nat, gaps: Gaps,
                                          o: OrderNo, u: UserId, a: ActivityId, item: Item)
    requires b in db.activities && Balanced(db, b, stock0, version0, gaps)
    requires AreCancelled(db, gaps.units) && AreCancelled(db, gaps.lines)
    ensures b in Create(db, o, u, a, item).0.activities
    ensures Balanced(Create(db, o, u, a, item).0, b, stock0, version0, gaps)
  {
    hide In, AreCancelled, Live, All, LogsOfActivity, LogsOfOrder, Conflicts;
    var (db', result) := Create(db, o, u, a, item);
    if result == Created {
      AppendLog(db.logs, Log(a, o, Deduct));
      CreatedIsNew(db, o, u, a, item);
      OneMoreOrder(db, db', b, o, Order(u, a, item.price, Pending));
      LiveIsSome(db, b);
      SameIn(db, db', gaps, b);
    }
  }

  /** Known orders keep their activity, so the gaps of an activity stay the same. */
  lemma SameIn(db: Db, db': Db, gaps: Gaps, a: ActivityId)
    requires AreCancelled(db, gaps.units) && AreCancelled(db, gaps.lines)
    requires forall o :: o in db.orders ==> o in db'.orders && db'.orders[o].activity == db.orders[o].activity
    ensures In(db', gaps.units, a) == In(db, gaps.units, a) && In(db', gaps.lines, a) == In(db, gaps.lines, a)
  {
  }

  lemma {:induction false} CreateKeepsRows(db: Db, o: OrderNo, u: UserId, a: ActivityId, item: Item)
    requires RowsOk(db)
    ensures RowsOk(Create(db, o, u, a, item).0)
  {
  }

  lemma {:induction false} CreateKeepsLogLines(db: Db, missing: set<OrderNo>, o: OrderNo, u: UserId, a: ActivityId, item: Item)
    requires LogLinesOk(db, missing)
    ensures LogLinesOk(Create(db, o, u, a, item).0, missing)
  {
    AppendLog(db.logs, Log(a, o, Deduct));
  }

  lemma {:induction false} CreateKeepsBooks(db: Db, opening: map<ActivityId, Activity>, gaps: Gaps,
                                            o: OrderNo, u: UserId, a: ActivityId, item: Item)
    requires Books(db, opening, gaps)
    ensures Books(Create(db, o, u, a, item).0, opening, gaps)
  {
    hide RowsOk, LogLinesOk, Balanced;
    var (db', result) := Create(db, o, u, a, item);
    forall b | b in opening
      ensures b in db'.activities && Balanced(db', b, opening[b].available, opening[b].version, gaps)
    {
      CreateBalances(db, b, opening[b].available, opening[b].version, gaps, o, u, a, item);
    }
    CreateKeepsRows(db, o, u, a, item);
    CreateKeepsLogLines(db, gaps.lines, o, u, a, item);
  }

  lemma {:induction false} PayKeepsRows(db: Db, o: OrderNo, u: UserId)
    requires RowsOk(db)
    ensures RowsOk(Pay(db, o, u).0)
  {
  }

  lemma {:induction false} PayBalances(db: Db, b: ActivityId, stock0: nat, version0: nat, gaps: Gaps, o: OrderNo, u: UserId)
    requires b in db.activities && Balanced(db, b, stock0, version0, gaps)
    requires AreCancelled(db, gaps.units) && AreCancelled(db, gaps.lines)
    ensures Balanced(Pay(db, o, u).0, b, stock0, version0, gaps)
  {
    hide In, AreCancelled;
    var db' := Pay(db, o, u).0;
    SameIn(db, db', gaps, b);
    assert Live(db', b) == Live(db, b);
    assert All(db', b) == All(db, b);
  }

  lemma {:induction false} PayKeepsLogLines(db: Db, missing: set<OrderNo>, o: OrderNo, u: UserId)
    requires LogLinesOk(db, missing)
    ensures LogLinesOk(Pay(db, o, u).0, missing)
  {
  }

  lemma {:induction false} PayKeepsBooks(db: Db, opening: map<ActivityId, Activity>, gaps: Gaps, o: OrderNo, u: UserId)
    requires Books(db, opening, gaps)
    ensures Books(Pay(db, o, u).0, opening, gaps)
  {
    hide RowsOk, LogLinesOk, Balanced;
    var db' := Pay(db, o, u).0;
    forall b | b in opening
      ensures Balanced(db', b, opening[b].available, opening[b].version, gaps)
    {
      PayBalances(db, b, opening[b].available, opening[b].version, gaps, o, u);
    }
    PayKeepsRows(db, o, u);
    PayKeepsLogLines(db, gaps.lines, o, u);
  }

  /** The gaps after cancelling: a statement that failed leaves its trace for good. */
  function GapsOfCancel(db: Db, gaps: Gaps, o: OrderNo, done: Unchecked): Gaps {
    if CancelExpired(db, o, done).1.None? then gaps
    else Gaps(if done.stock then gaps.units else gaps.units + {o}, if done.log then gaps.lines else gaps.lines + {o})
  }

  lemma CancelledOrders(db: Db, b: ActivityId, o: OrderNo, done: Unchecked)
    requires CancelExpired(db, o, done).1.Some?
    ensures var db' := CancelExpired(db, o, done).0;
            All(db', b) == All(db, b) && |Live(db', b)| == |Live(db, b)| - if db.orders[o].activity == b then 1 else 0
  {
    var db' := CancelExpired(db, o, done).0;
    assert All(db', b) == All(db, b);
    if db.orders[o].activity == b {
      assert Live(db', b) == Live(db, b) - {o};
      assert o in Live(db, b);
    } else {
      assert Live(db', b) == Live(db, b);
    }
  }

  lemma {:induction false} CancelBalances(db: Db, b: ActivityId, stock0: nat, version0: nat, gaps: Gaps, o: OrderNo, done: Unchecked)
    requires b in db.activities && Balanced(db, b, stock0, version0, gaps)
    requires AreCancelled(db, gaps.units) && AreCancelled(db, gaps.lines)
    ensures b in CancelExpired(db, o, done).0.activities
    ensures Balanced(CancelExpired(db, o, done).0, b, stock0, version0, GapsOfCancel(db, gaps, o, done))
  {
    hide In, Live, All, LogsOfActivity, LogsOfOrder;
    var (db', cancelled) := CancelExpired(db, o, done);
    if cancelled.Some? {
      AppendLog(db.logs, Log(cancelled.value.activity, o, Return));
      CancelledOrders(db, b, o, done);
      SameIn(db, db', gaps, b);
      InOneMore(db', gaps.units, o, b);
      InOneMore(db', gaps.lines, o, b);
    }
  }

  lemma InOneMore(db: Db, orders: set<OrderNo>, o: OrderNo, a: ActivityId)
    requires o in db.orders && o !in orders
    ensures |In(db, orders + {o}, a)| == |In(db, orders, a)| + if db.orders[o].activity == a then 1 else 0
  {
    if db.orders[o].activity == a {
      assert In(db, orders + {o}, a) == In(db, orders, a) + {o};
    } else {
      assert In(db, orders + {o}, a) == In(db, orders, a);
    }
  }

  lemma {:induction false} CancelKeepsRows(db: Db, o: OrderNo, done: Unchecked)
    requires RowsOk(db)
    ensures RowsOk(CancelExpired(db, o, done).0)
  {
  }

  lemma {:induction false} CancelKeepsLogLines(db: Db, gaps: Gaps, o: OrderNo, done: Unchecked)
    requires LogLinesOk(db, gaps.lines) && AreCancelled(db, gaps.lines)
    ensures LogLinesOk(CancelExpired(db, o, done).0, GapsOfCancel(db, gaps, o, done).lines)
  {
    if o in db.orders {
      AppendLog(db.logs, Log(db.orders[o].activity, o, Return));
    }
  }

  lemma {:induction false} CancelKeepsGaps(db: Db, gaps: Gaps, o: OrderNo, done: Unchecked)
    requires AreCancelled(db, gaps.units) && AreCancelled(db, gaps.lines)
    ensures var db' := CancelExpired(db, o, done).0;
            var gaps' := GapsOfCancel(db, gaps, o, done);
            AreCancelled(db', gaps'.units) && AreCancelled(db', gaps'.lines)
  {
  }

  lemma {:induction false} CancelKeepsBooks(db: Db, opening: map<ActivityId, Activity>, gaps: Gaps, o: OrderNo, done: Unchecked)
    requires Books(db, opening, gaps)
    ensures Books(CancelExpired(db, o, done).0, opening, GapsOfCancel(db, gaps, o, done))
  {
    hide RowsOk, LogLinesOk, Balanced, AreCancelled, GapsOfCancel;
    var (db', cancelled) := CancelExpired(db, o, done);
    forall b | b in opening
      ensures b in db'.activities
      ensures Balanced(db', b, opening[b].available, opening[b].version, GapsOfCancel(db, gaps, o, done))
    {
      CancelBalances(db, b, opening[b].available, opening[b].version, gaps, o, done);
    }
    CancelKeepsRows(db, o, done);
    CancelKeepsLogLines(db, gaps, o, done);
    CancelKeepsGaps(db, gaps, o, done);
  }

  /** Cancelling keeps the ledger balanced if and only if, when there is an order to cancel, neither of
      the two unchecked statements fails. */
  lemma CancelKeepsLedgerIff(db: Db, opening: map<ActivityId, Activity>, o: OrderNo, done: Unchecked)
    requires Ledger(db, opening)
    ensures Ledger(CancelExpired(db, o, done).0, opening) <==>
            (o in db.orders && db.orders[o].status == Pending ==> done.stock && done.log)
  {
    hide Books;
    CancelKeepsBooks(db, opening, NO_GAPS, o, done);
    LedgerIffNoGaps(CancelExpired(db, o, done).0, opening, GapsOfCancel(db, NO_GAPS, o, done));
    assert o in {} + {o};
  }

  // ----- whole runs -----

  datatype Op =
    | CreateOp(order: OrderNo, user: UserId, activity: ActivityId, item: Item)
    | PayOp(order: OrderNo, user: UserId)
    | CancelOp(order: OrderNo, done: Unchecked)

  function Do(db: Db, op: Op): Db {
    match op
    case CreateOp(o, u, a, item) => Create(db, o, u, a, item).0
    case PayOp(o, u) => Pay(db, o, u).0
    case CancelOp(o, done) => CancelExpired(db, o, done).0
  }

  function Run(db: Db, ops: seq<Op>): Db
    decreases |ops|
  {
    if ops == [] then db else Run(Do(db, ops[0]), ops[1..])
  }

  function GapsAfter(db: Db, gaps: Gaps, ops: seq<Op>): Gaps
    decreases |ops|
  {
    if ops == [] then gaps
    else
      GapsAfter(Do(db, ops[0]),
                if ops[0].CancelOp? then GapsOfCancel(db, gaps, ops[0].order, ops[0].done) else gaps,
                ops[1..])
  }

  /** Whatever orders are created, paid and cancelled, in any order and number and with any statement
      failing: the books balance up to the units and lines that failed statements left out. */
  lemma {:induction false} RunKeepsBooks(db: Db, opening: map<ActivityId, Activity>, gaps: Gaps, ops: seq<Op>)
    requires Books(db, opening, gaps)
    ensures Books(Run(db, ops), opening, GapsAfter(db, gaps, ops))
    decreases |ops|
  {
    hide Books;
    if ops != [] {
      match ops[0] {
        case CreateOp(o, u, a, item) =>
          CreateKeepsBooks(db, opening, gaps, o, u, a, item);
          RunKeepsBooks(Do(db, ops[0]), opening, gaps, ops[1..]);
        case PayOp(o, u) =>
          PayKeepsBooks(db, opening, gaps, o, u);
          RunKeepsBooks(Do(db, ops[0]), opening, gaps, ops[1..]);
        case CancelOp(o, done) =>
          CancelKeepsBooks(db, opening, gaps, o, done);
          RunKeepsBooks(Do(db, ops[0]), opening, GapsOfCancel(db, gaps, o, done), ops[1..]);
      }
    }
  }

  /** No cancellation of the run loses its stock update or its log line. */
  predicate Whole(db: Db, ops: seq<Op>)
    decreases |ops|
  {
    ops == [] ||
    (&& (ops[0].CancelOp? && CancelExpired(db, ops[0].order, ops[0].done).1.Some? ==> ops[0].done == BOTH)
     && Whole(Do(db, ops[0]), ops[1..]))
  }

  lemma {:induction false} WholeIffNoNewGaps(db: Db, gaps: Gaps, ops: seq<Op>)
    ensures GapsAfter(db, gaps, ops).units >= gaps.units && GapsAfter(db, gaps, ops).lines >= gaps.lines
    ensures Whole(db, ops) ==> GapsAfter(db, gaps, ops) == gaps
    ensures !Whole(db, ops) ==> GapsAfter(db, gaps, ops) != NO_GAPS
    decreases |ops|
  {
    if ops != [] {
      var mid := if ops[0].CancelOp? then GapsOfCancel(db, gaps, ops[0].order, ops[0].done) else gaps;
      WholeIffNoNewGaps(Do(db, ops[0]), mid, ops[1..]);
      if ops[0].CancelOp? && CancelExpired(db, ops[0].order, ops[0].done).1.Some? && ops[0].done != BOTH {
        assert ops[0].order in mid.units || ops[0].order in mid.lines;
      }
    }
  }

  /** A run that starts with balanced books ends with balanced books if and only if it is whole. */
  lemma RunKeepsLedgerIff(db: Db, opening: map<ActivityId, Activity>, ops: seq<Op>)
    requires Ledger(db, opening)
    ensures Ledger(Run(db, ops), opening) <==> Whole(db, ops)
  {
    hide Books;
    RunKeepsBooks(db, opening, NO_GAPS, ops);
    LedgerIffNoGaps(Run(db, ops), opening, GapsAfter(db, NO_GAPS, ops));
    WholeIffNoNewGaps(db, NO_GAPS, ops);
  }

  /** Orders are never removed, keep their owner, and paid and cancelled are final. */
  ghost predicate Evolves(db: Db, db': Db) {
    forall o :: o in db.orders ==>
      && o in db'.orders
      && db'.orders[o] == db.orders[o].(status := db'.orders[o].status)
      && (db.orders[o].status != Pending ==> db'.orders[o].status == db.orders[o].status)
  }

  lemma EvolvesItself(db: Db)
    ensures Evolves(db, db)
  {
  }

  lemma OpEvolves(db: Db, op: Op)
    ensures Evolves(db, Do(db, op))
  {
  }

  lemma {:induction false} RunEvolves(db: Db, ops: seq<Op>)
    ensures Evolves(db, Run(db, ops))
    decreases |ops|
  {
    if ops != [] {
      OpEvolves(db, ops[0]);
      RunEvolves(Do(db, ops[0]), ops[1..]);
    }
  }

  /** How often cancelling `o` succeeds in a run: only a success gives stock back. */
  ghost function CancelSuccesses(db: Db, ops: seq<Op>, o: OrderNo): nat
    decreases |ops|
  {
    if ops == [] then 0
    else
      (if ops[0].CancelOp? && ops[0].order == o && CancelExpired(db, o, ops[0].done).1.Some? then 1 else 0) +
      CancelSuccesses(Do(db, ops[0]), ops[1..], o)
  }

  /** However often a timeout is delivered and however payments race with it, an order is
      cancelled successfully once if it ends up newly cancelled and never otherwise. */
  lemma {:induction false} CancelledExactlyOnce(db: Db, ops: seq<Op>, o: OrderNo)
    ensures CancelSuccesses(db, ops, o) ==
              if o in Run(db, ops).orders && Run(db, ops).orders[o].status == Cancelled
                 && !(o in db.orders && db.orders[o].status == Cancelled)
              then 1 else 0
    decreases |ops|
  {
    if ops != [] {
      var mid := Do(db, ops[0]);
      CancelledExactlyOnce(mid, ops[1..], o);
      RunEvolves(mid, ops[1..]);
    }
  }

  // ----- the repository -----

  /** The statement of a transaction that fails, if any. */
  datatype TxFault = NoFault | FailsAt(statement: nat)

  /** The creation runs into the fault: the first statement always runs, the next two when there is no duplicate, the last
      one and the commit when there is stock, too. */
  predicate Meets(db: Db, o: OrderNo, u: UserId, a: ActivityId, fault: TxFault) {
    fault.FailsAt? &&
    (fault.statement == 1 ||
     (o !in db.orders && (forall q :: q in db.orders ==> db.orders[q].user != u || db.orders[q].activity != a)
      && (fault.statement in {2, 3} || (a in db.activities && db.activities[a].available > 0))))
  }

  /** Which statements of the cancelling transaction fail on their own. */
  datatype CancelFaults = CancelFaults(read: bool, update: bool, stock: bool, log: bool)

  class OrderRepo {
    var orders: map<OrderNo, Order>
    var items: map<OrderNo, Item>
    var activities: map<ActivityId, Activity>
    var logs: seq<Log>

    ghost function View(): Db
      reads this
    {
      Db(orders, items, activities, logs)
    }

    constructor (activities: map<ActivityId, Activity>)
      ensures View() == Db(map[], map[], activities, [])
    {
      orders, items, this.activities, logs := map[], map[], activities, [];
    }

    method CreateSeckillOrderTx(o: OrderNo, u: UserId, a: ActivityId, item: Item, fault: TxFault)
      returns (result: CreateResult)
      modifies this
      // a failing statement counts only if it is reached
      ensures result == SystemError <==> Meets(old(View()), o, u, a, fault)
      ensures result == SystemError ==> View() == old(View())
      ensures result != SystemError ==> (View(), result) == Create(old(View()), o, u, a, item)
    {
      var orders0, items0, activities0 := orders, items, activities;
      if fault == FailsAt(1) {
        return SystemError;
      }
      if Conflicts(orders, u, a, o) {
        return DuplicateOrder;
      }
      orders := orders[o := Order(u, a, item.price, Pending)];
      if fault == FailsAt(2) {
        orders := orders0;
        return SystemError;
      }
      items := items[o := item];
      if fault == FailsAt(3) {
        orders, items := orders0, items0;
        return SystemError;
      }
      if a !in activities || activities[a].available == 0 {
        orders, items := orders0, items0;
        return StockNotEnough;
      }
      var row := activities[a];
      activities := activities[a := Activity(row.available - 1, row.version + 1)];
      if fault.FailsAt? {
        orders, items, activities := orders0, items0, activities0;
        return SystemError;
      }
      logs := logs + [Log(a, o, Deduct)];
      return Created;
    }

    method PayOrder(o: OrderNo, u: UserId) returns (ok: bool)
      modifies this
      ensures (View(), ok) == Pay(old(View()), o, u)
    {
      ok := o in orders && orders[o].user == u && orders[o].status == Pending;
      if ok {
        orders := orders[o := orders[o].(status := Paid)];
      }
    }

    /** The errors of the query and of the commit are reported; a failed status update looks like an order
        that is not pending any more; the errors of the last two statements go unnoticed. */
    method CancelExpiredOrder(o: OrderNo, f: CancelFaults) returns (cancelled: Option<Order>, error: bool)
      modifies this
      ensures error == f.read
      ensures if f.read || f.update then View() == old(View()) && cancelled == None
              else (View(), cancelled) == CancelExpired(old(View()), o, Unchecked(!f.stock, !f.log))
    {
      if f.read {
        return None, true;
      }
      if o !in orders || orders[o].status != Pending {
        return None, false;
      }
      var order := orders[o];
      if f.update {
        return None, false;
      }
      orders := orders[o := order.(status := Cancelled)];
      var a := order.activity;
      if !f.stock && a in activities {
        activities := activities[a := activities[a].(available := activities[a].available + 1)];
      }
      if !f.log {
        logs := logs + [Log(a, o, Return)];
      }
      return Some(order), false;
    }

    method FindByUserAndActivity(u: UserId, a: ActivityId) returns (found: Option<OrderNo>)
      ensures found.Some? ==> found.value in orders && orders[found.value].user == u && orders[found.value].activity == a
      ensures found.None? ==> forall q :: q in orders ==> orders[q].user != u || orders[q].activity != a
    {
      if q :| q in orders && orders[q].user == u && orders[q].activity == a {
        return Some(q);
      }
      return None;
    }

    method FindByOrderNo(o: OrderNo) returns (found: Option<Order>)
      ensures found == if o in orders then Some(orders[o]) else None
    {
      found := if o in orders then Some(orders[o]) else None;
    }
  }
}
