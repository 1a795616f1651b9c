/**
 The Redis data of one activity and the five Lua scripts that change it.

 Each script is one atomic function on `Redis`. Class `SeckillCache` holds the same
 data as fields and runs every script command by command; its methods are proved to
 be the functions.
 */
module RedisStore {
  import opened Common

  /** The JSON value of a pending entry: acceptance time in seconds, user, product. */
  datatype PendingValue = PendingValue(ts: int, uid: UserId, pid: ProductId)

  datatype Redis = Redis(
    stock: Option<int>,                     // None: the stock key does not exist
    purchased: set<UserId>,
    pending: map<OrderNo, PendingValue>,
    canceled: set<OrderNo>,
    processing: set<OrderNo>)

  const EMPTY := Redis(None, {}, map[], {}, {})

  // Return codes of the pre-deduct script
  const NOT_STARTED := -2
  const REPEAT_BUY := -1
  const SOLD_OUT := 0
  const DEDUCTED := 1

  // Return codes of the mark-canceled script
  const CANCEL_MARK_CREATED := 1
  const CANCEL_MARK_ALREADY_EXISTS := 0
  const CANCEL_MARK_NO_PENDING := -1
  const CANCEL_MARK_PROCESSING := -2

  // Return codes of the mark-processing script
  const PROCESSING_MARKED := 1
  const PROCESSING_CANCELED := 0
  const PROCESSING_TAKEN := -1

  /** INCR: a missing key counts as 0. */
  function Incr(stock: Option<int>): Option<int> {
    match stock
    case None => Some(1)
    case Some(n) => Some(n + 1)
  }

  function PreDeduct(r: Redis, u: UserId, o: OrderNo, pv: PendingValue): (Redis, int) {
    if r.stock.None? then (r, NOT_STARTED)
    else if u in r.purchased then (r, REPEAT_BUY)
    else if r.stock.value <= 0 then (r, SOLD_OUT)
    else
      (r.(stock := Some(r.stock.value - 1), purchased := r.purchased + {u}, pending := r.pending[o := pv]), DEDUCTED)
  }

  function MarkCanceledIfPending(r: Redis, o: OrderNo): (Redis, int) {
    if o !in r.pending then (r, CANCEL_MARK_NO_PENDING)
    else if o in r.processing then (r, CANCEL_MARK_PROCESSING)
    else if o !in r.canceled then (r.(canceled := r.canceled + {o}), CANCEL_MARK_CREATED)
    else (r, CANCEL_MARK_ALREADY_EXISTS)
  }

  function TryMarkProcessing(r: Redis, o: OrderNo): (Redis, int) {
    if o in r.canceled then (r, PROCESSING_CANCELED)
    else if o !in r.processing then (r.(processing := r.processing + {o}), PROCESSING_MARKED)
    else (r, PROCESSING_TAKEN)
  }

  function ClearProcessing(r: Redis, o: OrderNo): Redis {
    r.(processing := r.processing - {o})
  }

  /** The canceled marker reaches the end of its 24 hours. */
  function ForgetCanceled(r: Redis, o: OrderNo): Redis {
    r.(canceled := r.canceled - {o})
  }

  function DeletePending(r: Redis, o: OrderNo): Redis {
    r.(pending := r.pending - {o})
  }

  function Rollback(r: Redis, u: UserId, o: OrderNo): Redis {
    r.(stock := Incr(r.stock), purchased := r.purchased - {u}, pending := r.pending - {o})
  }

  function CancelOrderRollback(r: Redis, u: UserId): Redis {
    r.(stock := Incr(r.stock), purchased := r.purchased - {u})
  }

  function WarmUp(r: Redis, n: int): Redis {
    r.(stock := Some(n))
  }

  /** The compensation script undoes a successful pre-deduction exactly, whatever else Redis holds. */
  lemma RollbackUndoesPreDeduct(r: Redis, u: UserId, o: OrderNo, pv: PendingValue)
    requires o !in r.pending
    ensures var (r', code) := PreDeduct(r, u, o, pv);
            if code == DEDUCTED then r' != r && Rollback(r', u, o) == r else r' == r
  {
    var (r', code) := PreDeduct(r, u, o, pv);
    if code == DEDUCTED {
      assert r'.stock != r.stock;
      assert r'.pending - {o} == r.pending;
      assert r'.purchased - {u} == r.purchased;
    }
  }

  /** A sale that is consumed and then times out leaves Redis as it was before the reservation. */
  lemma TimedOutSaleIsUndone(r: Redis, u: UserId, o: OrderNo, pv: PendingValue)
    requires o !in r.pending && PreDeduct(r, u, o, pv).1 == DEDUCTED
    ensures CancelOrderRollback(DeletePending(PreDeduct(r, u, o, pv).0, o), u) == r
  {
    assert r.pending[o := pv] - {o} == r.pending;
    assert r.purchased + {u} - {u} == r.purchased;
  }

  /** Once one of the two marking scripts has won an order, the other one loses it, in either order. */
  lemma MarksExcludeEachOther(r: Redis, o: OrderNo)
    ensures MarkCanceledIfPending(r, o).1 == CANCEL_MARK_CREATED ==>
              TryMarkProcessing(MarkCanceledIfPending(r, o).0, o).1 == PROCESSING_CANCELED
    ensures TryMarkProcessing(r, o).1 == PROCESSING_MARKED ==>
              MarkCanceledIfPending(TryMarkProcessing(r, o).0, o).1 in {CANCEL_MARK_PROCESSING, CANCEL_MARK_NO_PENDING}
    ensures TryMarkProcessing(r, o).1 == PROCESSING_MARKED ==>
              TryMarkProcessing(TryMarkProcessing(r, o).0, o).1 == PROCESSING_TAKEN
  {
  }

  class SeckillCache {
    var stock: Option<int>
    var purchased: set<UserId>
    var pending: map<OrderNo, PendingValue>
    var canceled: set<OrderNo>
    var processing: set<OrderNo>

    ghost function View(): Redis
      reads this
    {
      Redis(stock, purchased, pending, canceled, processing)
    }

    constructor ()
      ensures View() == EMPTY
    {
      stock, purchased, pending, canceled, processing := None, {}, map[], {}, {};
    }

    method PreDeductStock(u: UserId, o: OrderNo, pv: PendingValue) returns (code: int)
      modifies this
      ensures (View(), code) == PreDeduct(old(View()), u, o, pv)
    {
      if stock.None? {
        return NOT_STARTED;
      }
      if u in purchased {
        return REPEAT_BUY;
      }
      var left := stock.value;
      if left <= 0 {
        return SOLD_OUT;
      }
      stock := Some(left - 1);
      purchased := purchased + {u};
      pending := pending[o := pv];
      return DEDUCTED;
    }

    method TryMarkOrderCanceledIfPending(o: OrderNo) returns (code: int)
      modifies this
      ensures (View(), code) == MarkCanceledIfPending(old(View()), o)
    {
      if o !in pending {
        return CANCEL_MARK_NO_PENDING;
      }
      if o in processing {
        return CANCEL_MARK_PROCESSING;
      }
      if o !in canceled {
        canceled := canceled + {o};
        return CANCEL_MARK_CREATED;
      }
      return CANCEL_MARK_ALREADY_EXISTS;
    }

    method TryMarkOrderProcessing(o: OrderNo) returns (marked: bool)
      modifies this
      ensures View() == TryMarkProcessing(old(View()), o).0
      ensures marked <==> TryMarkProcessing(old(View()), o).1 == PROCESSING_MARKED
    {
      if o in canceled {
        return false;
      }
      if o !in processing {
        processing := processing + {o};
        return true;
      }
      return false;
    }

    method ClearOrderProcessing(o: OrderNo)
      modifies this
      ensures View() == ClearProcessing(old(View()), o)
    {
      processing := processing - {o};
    }

    method HDelPending(o: OrderNo)
      modifies this
      ensures View() == DeletePending(old(View()), o)
    {
      pending := pending - {o};
    }

    method RollbackPreDeduct(u: UserId, o: OrderNo)
      modifies this
      ensures View() == Rollback(old(View()), u, o)
    {
      stock := Incr(stock);
      purchased := purchased - {u};
      pending := pending - {o};
    }

    method RollbackCancelledOrder(u: UserId)
      modifies this
      ensures View() == CancelOrderRollback(old(View()), u)
    {
      stock := Incr(stock);
      purchased := purchased - {u};
    }

    method WarmUpActivity(n: int)
      modifies this
      ensures View() == WarmUp(old(View()), n)
    {
      stock := Some(n);
    }
  }
}
