/**
 The reservation protocol of one activity: any number of requests, message consumers, cron
 scanners, garbage cleaners, timeout consumers, payers and pollers, interleaved one store
 access at a time.

 A process is a program counter with its local variables. Everything it does to Redis, to the
 database or to a broker is one `Step`; between two of its steps anyone else may run. Messages
 are sets, so they can be delivered late, in any order and repeatedly; the broker stops delivering
 a main message at some point, until somebody sends it again. An access may fail without effect,
 or take effect and lose its reply, and a process may crash anywhere. Both markers may expire at
 any time.

 `Enabled` is what the code can do. `Assumption` is what the environment promises besides.
 */
module Protocol {
  import opened Common
  import R = RedisStore
  import D = Orders
  import O = Outbox

  /** The activity, its one product, and the stock row as it is before the sale. */
  datatype Setup = Setup(activity: ActivityId, product: ProductId, w: nat, version0: nat)

  type Pid = nat

  datatype Proc =
    // a request after the pre-deduct script
    | Reserved(o: OrderNo, u: UserId)
    | Compensating(o: OrderNo, u: UserId)
    | RowWritten(o: OrderNo)
    // a main-message consumer
    | TxMark(o: OrderNo)
    | TxCreate(o: OrderNo)
    | TxHdel(o: OrderNo)
    | TxSend(o: OrderNo)
    | TxLog(o: OrderNo)
    | TxHdelDuplicate(o: OrderNo)
    | TxClear(o: OrderNo)
    // a cron scanner with one entry of its snapshot
    | CronRead(o: OrderNo, pv: R.PendingValue)
    | CronMark(o: OrderNo, pv: R.PendingValue)
    | CronRollback(o: OrderNo, pv: R.PendingValue)
    // a garbage cleaner with one entry of its snapshot
    | CleanRead(o: OrderNo)
    | CleanCheck(o: OrderNo)
    // about to delete the pending entry and stop (consumer, scanner or cleaner)
    | Hdel(o: OrderNo)
    // a timeout consumer
    | ToCancel(o: OrderNo, u: UserId)
    | ToRollback(o: OrderNo, u: UserId)
    // a poll for the result
    | PollPending(u: UserId, o: OrderNo)
    | PollPurchased(u: UserId)
  {
    predicate Requesting() {
      Reserved? || Compensating?
    }

    /** Between winning the processing marker and giving it back. */
    predicate Critical() {
      TxCreate? || TxHdel? || TxSend? || TxLog? || TxHdelDuplicate? || TxClear?
    }

    predicate Scanning() {
      CronRead? || CronMark? || CronRollback?
    }
  }

  /**
   The stores, the main messages the broker has stopped delivering, and the history the laws speak
   about: the token of an order number is issued by a successful pre-deduct script, held from then
   on, and returned by a rollback script; `marked` remembers every canceled marker.
   */
  datatype Sys = Sys(
    redis: R.Redis,
    db: D.Db,
    tx: O.System,
    timeout: O.System,
    dropped: set<OrderNo>,
    marked: set<OrderNo>,
    issued: map<OrderNo, UserId>,
    held: set<OrderNo>,
    returned: multiset<OrderNo>,
    reported: set<OrderNo>)

  datatype State = State(sys: Sys, procs: map<Pid, Proc>)

  datatype Commit = Fine | NoEffect | ReplyLost

  datatype Step =
    | WarmUp(n: int)
    // DoSeckill
    | Reserve(p: Pid, o: OrderNo, u: UserId, ts: int, replyLost: bool)
    | WriteRow(p: Pid, id: O.TaskId, now: int)
    | WriteRowFails(p: Pid, written: Option<O.TaskId>, now: int)
    | Report(p: Pid)
    | Compensate(p: Pid, executed: bool)
    // processTxMessage
    | TxReceive(p: Pid, o: OrderNo)
    | TxMarkProcessing(p: Pid, replyLost: bool)
    | TxCreateOrder(p: Pid, item: D.Item, commit: Commit)
    | TxDeletePending(p: Pid, executed: bool)
    | TxSendTimeout(p: Pid, accepted: bool, acknowledged: bool)
    | TxLogTask(p: Pid, written: Option<O.TaskId>, now: int)
    | TxClearMarker(p: Pid, executed: bool)
    | MarkerExpires(o: OrderNo)
    | MessageDropped(o: OrderNo)
    // checkOnePendingHash, checkAndRollback
    | CronPick(p: Pid, o: OrderNo)
    | CronReadOrder(p: Pid)
    | CronMarkCanceled(p: Pid, replyLost: bool)
    | CronRollBack(p: Pid, executed: bool)
    | CanceledExpires(o: OrderNo)
    // cleanupPendingGarbage
    | CleanPick(p: Pid, o: OrderNo)
    | CleanReadOrder(p: Pid)
    | CleanReadCanceled(p: Pid)
    | DeleteAndStop(p: Pid, executed: bool)
    // processTimeoutMessage
    | ToReceive(p: Pid, o: OrderNo)
    | ToCancelOrder(p: Pid, commit: Commit, done: D.Unchecked)
    | ToRollBack(p: Pid, executed: bool)
    // PayOrder
    | PayOrder(o: OrderNo, u: UserId)
    // QuerySeckillResult
    | PollStart(p: Pid, u: UserId, asked: Option<OrderNo>)
    | PollReadPending(p: Pid, failed: bool)
    | PollReadPurchased(p: Pid, failed: bool)
    // the dispatchers and replayers of the two outboxes
    | TxOutbox(step: O.Step)
    | TimeoutOutbox(step: O.Step)
    | Crash(p: Pid)

  // ----- what the code can do -----

  /** Steps that only read the stores. */
  predicate Reads(step: Step) {
    || step.TxReceive? || step.CronPick? || step.CronReadOrder? || step.CleanPick? || step.CleanReadOrder?
    || step.CleanReadCanceled? || step.ToReceive? || step.PollStart? || step.PollReadPending? || step.PollReadPurchased? || step.Crash?
  }

  /** Steps that may run a rollback script. */
  predicate RollsBack(step: Step) {
    step.Compensate? || step.CronRollBack? || step.ToRollBack?
  }

  /** Steps that change stock, buyers, entries or the processing marker otherwise. */
  predicate WritesRedis(step: Step) {
    step.WarmUp? || step.Reserve? || step.TxMarkProcessing? || step.TxDeletePending? || step.DeleteAndStop?
  }

  /** A marker or a message goes away. */
  predicate Forgets(step: Step) {
    step.TxClearMarker? || step.MarkerExpires? || step.MessageDropped? || step.CanceledExpires?
  }

  /** The broker may deliver the main message of `o` (again). */
  predicate Deliverable(s: Sys, o: OrderNo) {
    o in s.tx.accepted && o !in s.dropped
  }

  predicate Enabled(s: State, step: Step) {
    match step
    case WarmUp(_) => true
    case Reserve(p, o, _, _, _) => p !in s.procs && o !in s.sys.issued      // order numbers are unique
    case WriteRow(p, id, _) => p in s.procs && s.procs[p].Reserved? && id !in s.sys.tx.table
    case WriteRowFails(p, written, _) =>
      p in s.procs && s.procs[p].Reserved? && (written.Some? ==> written.value !in s.sys.tx.table)
    case Report(p) => p in s.procs && s.procs[p].RowWritten?
    case Compensate(p, _) => p in s.procs && s.procs[p].Compensating?
    case TxReceive(p, o) => p !in s.procs && Deliverable(s.sys, o)
    case TxMarkProcessing(p, _) => p in s.procs && s.procs[p].TxMark?
    case TxCreateOrder(p, _, _) => p in s.procs && s.procs[p].TxCreate? && s.procs[p].o in s.sys.issued
    case TxDeletePending(p, _) => p in s.procs && (s.procs[p].TxHdel? || s.procs[p].TxHdelDuplicate?)
    case TxSendTimeout(p, accepted, acknowledged) => p in s.procs && s.procs[p].TxSend? && (acknowledged ==> accepted)
    case TxLogTask(p, written, _) =>
      p in s.procs && s.procs[p].TxLog? && (written.Some? ==> written.value !in s.sys.timeout.table)
    case TxClearMarker(p, _) => p in s.procs && s.procs[p].TxClear?
    case MarkerExpires(_) => true
    case MessageDropped(o) => o in s.sys.tx.accepted
    case CronPick(p, o) => p !in s.procs && o in s.sys.redis.pending
    case CronReadOrder(p) => p in s.procs && s.procs[p].CronRead?
    case CronMarkCanceled(p, _) => p in s.procs && s.procs[p].CronMark?
    case CronRollBack(p, _) => p in s.procs && s.procs[p].CronRollback?
    case CanceledExpires(_) => true
    case CleanPick(p, o) => p !in s.procs && o in s.sys.redis.pending
    case CleanReadOrder(p) => p in s.procs && s.procs[p].CleanRead?
    case CleanReadCanceled(p) => p in s.procs && s.procs[p].CleanCheck?
    case DeleteAndStop(p, _) => p in s.procs && s.procs[p].Hdel?
    case ToReceive(p, o) => p !in s.procs && o in s.sys.timeout.accepted && o in s.sys.issued
    case ToCancelOrder(p, _, _) => p in s.procs && s.procs[p].ToCancel?
    case ToRollBack(p, _) => p in s.procs && s.procs[p].ToRollback?
    case PayOrder(_, _) => true
    case PollStart(p, _, _) => p !in s.procs
    case PollReadPending(p, _) => p in s.procs && s.procs[p].PollPending?
    case PollReadPurchased(p, _) => p in s.procs && s.procs[p].PollPurchased?
    case TxOutbox(step) => O.Enabled(s.sys.tx, step)
    case TimeoutOutbox(step) => O.Enabled(s.sys.timeout, step)
    case Crash(p) => p in s.procs
  }

  function Goto(s: State, sys: Sys, p: Pid, at: Proc): State {
    State(sys, s.procs[p := at])
  }

  function Stop(s: State, sys: Sys, p: Pid): State {
    State(sys, s.procs - {p})
  }

  function DoReserve(sys: Sys, setup: Setup, o: OrderNo, u: UserId, ts: int): (Sys, int) {
    var (redis, code) := R.PreDeduct(sys.redis, u, o, R.PendingValue(ts, u, setup.product));
    (if code == R.DEDUCTED
     then sys.(redis := redis, issued := sys.issued[o := u], held := sys.held + {o})
     else sys.(redis := redis),
     code)
  }

  /** A rollback script ran for order `o`: its token is handed back once more. */
  function HandBack(sys: Sys, o: OrderNo, redis: R.Redis): Sys {
    sys.(redis := redis, held := sys.held - {o}, returned := sys.returned + multiset{o})
  }

  /** A message sent again is delivered again. */
  function Redelivered(tx: O.System, step: O.Step): set<OrderNo>
    requires O.Enabled(tx, step)
  {
    if step.Send? && step.accepted then {tx.senders[step.sender].copy.order} else {}
  }

  function DeletePending(sys: Sys, o: OrderNo, executed: bool): Sys {
    if executed then sys.(redis := R.DeletePending(sys.redis, o)) else sys
  }

  predicate OfRequest(step: Step) {
    step.Reserve? || step.WriteRow? || step.WriteRowFails? || step.Report? || step.Compensate?
  }

  /** DoSeckill after its checks. */
  function ApplyRequest(setup: Setup, s: State, step: Step): State
    requires Enabled(s, step) && OfRequest(step)
  {
    var sys := s.sys;
    match step
    case Reserve(p, o, u, ts, replyLost) =>
      var (sys', code) := DoReserve(sys, setup, o, u, ts);
      if code == R.DEDUCTED && !replyLost then Goto(s, sys', p, Reserved(o, u)) else s.(sys := sys')
    case WriteRow(p, id, now) =>
      var o := s.procs[p].o;
      Goto(s, sys.(tx := O.InsertTask(sys.tx, id, o, now, now)), p, RowWritten(o))
    case WriteRowFails(p, written, now) =>
      var Reserved(o, u) := s.procs[p];
      var tx := if written.Some? then O.InsertTask(sys.tx, written.value, o, now, now) else sys.tx;
      Goto(s, sys.(tx := tx), p, Compensating(o, u))
    case Report(p) => Stop(s, sys.(reported := sys.reported + {s.procs[p].o}), p)
    case Compensate(p, executed) =>
      var Compensating(o, u) := s.procs[p];
      Stop(s, if executed then HandBack(sys, o, R.Rollback(sys.redis, u, o)) else sys, p)
  }

  predicate OfConsumer(step: Step) {
    || step.TxReceive? || step.TxMarkProcessing? || step.TxCreateOrder? || step.TxDeletePending?
    || step.TxSendTimeout? || step.TxLogTask? || step.TxClearMarker?
  }

  /** processTxMessage. */
  function ApplyConsumer(setup: Setup, s: State, step: Step): State
    requires Enabled(s, step) && OfConsumer(step)
  {
    var sys := s.sys;
    match step
    case TxReceive(p, o) => Goto(s, sys, p, if o in sys.redis.canceled then Hdel(o) else TxMark(o))
    case TxMarkProcessing(p, replyLost) =>
      var o := s.procs[p].o;
      var (redis, code) := R.TryMarkProcessing(sys.redis, o);
      var sys' := sys.(redis := redis);
      if code == R.PROCESSING_MARKED && !replyLost then Goto(s, sys', p, TxCreate(o)) else Stop(s, sys', p)
    case TxCreateOrder(p, item, commit) =>
      var o := s.procs[p].o;
      var (db, result) := D.Create(sys.db, o, sys.issued[o], setup.activity, item);
      if commit == NoEffect then Goto(s, sys, p, TxClear(o))
      else if result == D.Created then
        Goto(s, sys.(db := db), p, if commit == ReplyLost then TxClear(o) else TxHdel(o))
      else if result == D.DuplicateOrder then Goto(s, sys, p, TxHdelDuplicate(o))
      else Goto(s, sys, p, TxClear(o))
    case TxDeletePending(p, executed) =>
      var o := s.procs[p].o;
      Goto(s, DeletePending(sys, o, executed), p, if s.procs[p].TxHdel? then TxSend(o) else TxClear(o))
    case TxSendTimeout(p, accepted, acknowledged) =>
      var o := s.procs[p].o;
      Goto(s, if accepted then sys.(timeout := O.AcceptDirect(sys.timeout, o)) else sys, p,
           if acknowledged then TxClear(o) else TxLog(o))
    case TxLogTask(p, written, now) =>
      var o := s.procs[p].o;
      Goto(s, if written.Some?
              then sys.(timeout := O.InsertTask(sys.timeout, written.value, o, now + 30 * SECOND, now))
              else sys, p, TxClear(o))
    case TxClearMarker(p, executed) =>
      Stop(s, if executed then sys.(redis := R.ClearProcessing(sys.redis, s.procs[p].o)) else sys, p)
  }

  predicate OfCron(step: Step) {
    || step.CronPick? || step.CronReadOrder? || step.CronMarkCanceled? || step.CronRollBack?
    || step.CleanPick? || step.CleanReadOrder? || step.CleanReadCanceled? || step.DeleteAndStop?
  }

  /** checkAndRollback and cleanupPendingGarbage at one entry. */
  function ApplyCron(s: State, step: Step): State
    requires Enabled(s, step) && OfCron(step)
  {
    var sys := s.sys;
    match step
    case CronPick(p, o) => Goto(s, sys, p, CronRead(o, sys.redis.pending[o]))
    case CronReadOrder(p) =>
      var CronRead(o, pv) := s.procs[p];
      Goto(s, sys, p, if o in sys.db.orders then Hdel(o) else CronMark(o, pv))
    case CronMarkCanceled(p, replyLost) =>
      var CronMark(o, pv) := s.procs[p];
      var (redis, code) := R.MarkCanceledIfPending(sys.redis, o);
      var sys' := sys.(redis := redis, marked := sys.marked + redis.canceled);
      if code == R.CANCEL_MARK_CREATED && !replyLost then Goto(s, sys', p, CronRollback(o, pv)) else Stop(s, sys', p)
    case CronRollBack(p, executed) =>
      var CronRollback(o, pv) := s.procs[p];
      Stop(s, if !executed then sys
              else if pv.uid > 0 && pv.pid > 0 then HandBack(sys, o, R.Rollback(sys.redis, pv.uid, o))
              else DeletePending(sys, o, true), p)
    case CleanPick(p, o) => Goto(s, sys, p, CleanRead(o))
    case CleanReadOrder(p) =>
      var o := s.procs[p].o;
      Goto(s, sys, p, if o in sys.db.orders then Hdel(o) else CleanCheck(o))
    case CleanReadCanceled(p) =>
      var o := s.procs[p].o;
      if o in sys.redis.canceled then Goto(s, sys, p, Hdel(o)) else Stop(s, sys, p)
    case DeleteAndStop(p, executed) => Stop(s, DeletePending(sys, s.procs[p].o, executed), p)
  }

  predicate OfTimeout(step: Step) {
    step.ToReceive? || step.ToCancelOrder? || step.ToRollBack? || step.PayOrder?
  }

  /** processTimeoutMessage, and PayOrder. */
  function ApplyTimeout(s: State, step: Step): State
    requires Enabled(s, step) && OfTimeout(step)
  {
    var sys := s.sys;
    match step
    case ToReceive(p, o) =>
      if o in sys.db.orders && sys.db.orders[o].status == D.Pending
      then Goto(s, sys, p, ToCancel(o, sys.issued[o]))
      else s
    case ToCancelOrder(p, commit, done) =>
      var ToCancel(o, u) := s.procs[p];
      var (db, cancelled) := D.CancelExpired(sys.db, o, done);
      if commit == NoEffect || cancelled.None? then Stop(s, sys, p)
      else if commit == ReplyLost then Stop(s, sys.(db := db), p)
      else Goto(s, sys.(db := db), p, ToRollback(o, u))
    case ToRollBack(p, executed) =>
      var ToRollback(o, u) := s.procs[p];
      Stop(s, if executed then HandBack(sys, o, R.CancelOrderRollback(sys.redis, u)) else sys, p)
    case PayOrder(o, u) => s.(sys := sys.(db := D.Pay(sys.db, o, u).0))
  }

  predicate OfPoll(step: Step) {
    step.PollStart? || step.PollReadPending? || step.PollReadPurchased?
  }

  /** QuerySeckillResult. */
  function ApplyPoll(setup: Setup, s: State, step: Step): State
    requires Enabled(s, step) && OfPoll(step)
  {
    var sys := s.sys;
    match step
    case PollStart(p, u, asked) =>
      if D.HasBought(sys.db.orders, u, setup.activity) then s
      else Goto(s, sys, p, if asked.Some? then PollPending(u, asked.value) else PollPurchased(u))
    case PollReadPending(p, failed) =>
      var PollPending(u, o) := s.procs[p];
      if !failed && o in sys.redis.pending then Stop(s, sys, p) else Goto(s, sys, p, PollPurchased(u))
    case PollReadPurchased(p, _) => Stop(s, sys, p)
  }

  function Apply(setup: Setup, s: State, step: Step): State
    requires Enabled(s, step)
  {
    var sys := s.sys;
    if OfRequest(step) then ApplyRequest(setup, s, step)
    else if OfConsumer(step) then ApplyConsumer(setup, s, step)
    else if OfCron(step) then ApplyCron(s, step)
    else if OfTimeout(step) then ApplyTimeout(s, step)
    else if OfPoll(step) then ApplyPoll(setup, s, step)
    else
      match step
      case WarmUp(n) => s.(sys := sys.(redis := R.WarmUp(sys.redis, n)))
      case MarkerExpires(o) => s.(sys := sys.(redis := R.ClearProcessing(sys.redis, o)))
      case MessageDropped(o) => s.(sys := sys.(dropped := sys.dropped + {o}))
      case CanceledExpires(o) => s.(sys := sys.(redis := R.ForgetCanceled(sys.redis, o)))
      case TxOutbox(step) => s.(sys := sys.(tx := O.Apply(O.TX, sys.tx, step), dropped := sys.dropped - Redelivered(sys.tx, step)))
      case TimeoutOutbox(step) => s.(sys := sys.(timeout := O.Apply(O.TIMEOUT, sys.timeout, step)))
      case Crash(p) => Stop(s, sys, p)
  }

  datatype Reply = Success | Processing | Failed

  /** What a step of a poll tells user `u`, if it ends the poll. */
  function Answer(setup: Setup, s: State, step: Step): Option<(UserId, Reply)>
    requires Enabled(s, step)
  {
    match step
    case PollStart(_, u, _) =>
      if D.HasBought(s.sys.db.orders, u, setup.activity) then Some((u, Success)) else None
    case PollReadPending(p, failed) =>
      if !failed && s.procs[p].o in s.sys.redis.pending then Some((s.procs[p].u, Processing)) else None
    case PollReadPurchased(p, failed) =>
      Some((s.procs[p].u, if failed || s.procs[p].u in s.sys.redis.purchased then Processing else Failed))
    case _ => None
  }

  // ----- what the environment promises -----

  /** Giving the marker of `o` back does not overtake a scanner that has read the database
      before the order was committed and can still mark it. */
  ghost predicate SafeToRelease(s: State, o: OrderNo) {
    !(&& o in s.sys.db.orders
      && o in s.sys.redis.pending
      && exists q :: q in s.procs && s.procs[q].CronMark? && s.procs[q].o == o)
  }

  /** No message of `o` will come any more: its row, if any, is settled, nobody is about to send it,
      and the broker does not deliver it. */
  ghost predicate Over(s: Sys, o: OrderNo) {
    && (forall id :: id in s.tx.table && s.tx.table[id].order == o ==> s.tx.table[id].status == O.Sent)
    && (forall w :: w in s.tx.senders && s.tx.senders[w].Holding? ==> s.tx.senders[w].copy.order != o)
    && !Deliverable(s, o)
  }

  /** The canceled marker of `o` has served: nobody is acting on it, and if the unit has been
      returned no message of `o` will come and no consumer has just received one. */
  ghost predicate SafeToForget(s: State, o: OrderNo) {
    && (forall q :: q in s.procs && (s.procs[q].CronRollback? || s.procs[q].Hdel?) ==> s.procs[q].o != o)
    && (o in s.sys.held ||
        (Over(s.sys, o) && forall q :: q in s.procs && s.procs[q].TxMark? ==> s.procs[q].o != o))
  }

  ghost predicate Assumption(s: State, setup: Setup, step: Step)
    requires Enabled(s, step)
  {
    match step
    // a first warm-up loads the stock row; a repeated one writes what is there
    case WarmUp(n) =>
      if s.sys.redis.stock.None?
      then setup.activity in s.sys.db.activities && n == s.sys.db.activities[setup.activity].available
      else n == s.sys.redis.stock.value
    // an outbox insert that reports an error wrote no row
    case WriteRowFails(_, written, _) => written.None?
    // a request is over before its entry is old enough for the scanner
    case CronPick(_, o) => forall q :: q in s.procs && s.procs[q].Requesting() ==> s.procs[q].o != o
    // the marker is released or expires only when that is safe, and never under a live critical section
    case TxClearMarker(p, executed) => executed ==> SafeToRelease(s, s.procs[p].o)
    case MarkerExpires(o) =>
      && (forall q :: q in s.procs && s.procs[q].Critical() ==> s.procs[q].o != o)
      && (o in s.sys.redis.processing ==> SafeToRelease(s, o))
    // the canceled marker outlives whoever relies on it
    case CanceledExpires(o) => o in s.sys.redis.canceled ==> SafeToForget(s, o)
    // when an order is cancelled the two unchecked statements succeed
    case ToCancelOrder(p, commit, done) =>
      commit != NoEffect && D.CancelExpired(s.sys.db, s.procs[p].o, done).1.Some? ==> done == D.BOTH
    case _ => true
  }

  function Init(setup: Setup): State {
    State(
      Sys(R.EMPTY, D.Db(map[], map[], map[setup.activity := D.Activity(setup.w, setup.version0)], []),
          O.EMPTY, O.EMPTY, {}, {}, map[], {}, multiset{}, {}),
      map[])
  }

  // ----- the invariant -----

  ghost predicate HasRow(s: Sys, o: OrderNo) {
    O.HasOrder(s.tx.table, o)
  }

  ghost function Owners(s: Sys): set<UserId>
    requires s.held <= s.issued.Keys
  {
    set o | o in s.held :: s.issued[o]
  }

  /** A token is returned once if it is not held any more and never otherwise; no two held tokens have one owner. */
  ghost predicate TokensOk(s: Sys) {
    && s.held <= s.issued.Keys
    && (forall o :: s.returned[o] == if o in s.issued && o !in s.held then 1 else 0)
    && (forall o, q :: o in s.held && q in s.held && s.issued[o] == s.issued[q] ==> o == q)
  }

  ghost predicate StockOk(setup: Setup, s: Sys) {
    && |s.redis.purchased| == |s.held|
    && match s.redis.stock
       case None => s.issued == map[]
       case Some(n) => n >= 0 && n + |s.held| == setup.w
  }

  ghost predicate PendingOk(setup: Setup, s: Sys) {
    forall o :: o in s.redis.pending ==>
      o in s.issued && s.redis.pending[o].uid == s.issued[o] && s.redis.pending[o].pid == setup.product
  }

  ghost predicate OrdersOk(setup: Setup, s: Sys) {
    forall o :: o in s.db.orders ==>
      && o in s.issued
      && s.db.orders[o].user == s.issued[o]
      && s.db.orders[o].activity == setup.activity
      && HasRow(s, o)
      && o !in s.redis.canceled
      && (s.db.orders[o].status != D.Cancelled ==> o in s.held)
  }

  /** A token that is not held any more has its order, or nothing can bring the order about. */
  ghost predicate ReturnedOk(s: Sys) {
    forall o :: o in s.issued && o !in s.held ==>
      o in s.db.orders || (o !in s.redis.pending && (o in s.redis.canceled || Over(s, o)))
  }

  /** Who still looks after a held token. */
  ghost predicate NotOrphaned(s: Sys, o: OrderNo)
    requires o in s.issued
  {
    || o in s.db.orders
    || o in s.redis.pending
    || o in s.marked
    || exists q :: q in s.db.orders && s.db.orders[q].user == s.issued[o]
  }

  ghost predicate OutboxesOk(s: Sys) {
    && O.Inv(s.tx)
    && O.Inv(s.timeout)
    && (forall o :: HasRow(s, o) ==> o in s.issued)
    && (forall o :: o in s.tx.accepted ==> HasRow(s, o))
    && (forall o :: o in s.reported ==> HasRow(s, o))
    && (forall o :: O.HasOrder(s.timeout.table, o) ==> o in s.db.orders)
    && s.timeout.accepted <= s.db.orders.Keys
  }

  ghost function Opening(setup: Setup): map<ActivityId, D.Activity> {
    map[setup.activity := D.Activity(setup.w, setup.version0)]
  }

  ghost predicate SysOk(setup: Setup, s: Sys) {
    && TokensOk(s)
    && s.redis.purchased == Owners(s)
    && StockOk(setup, s)
    && PendingOk(setup, s)
    && OrdersOk(setup, s)
    && ReturnedOk(s)
    && s.redis.canceled <= s.marked <= s.issued.Keys
    && (forall o :: o in s.held ==> NotOrphaned(s, o))
    && OutboxesOk(s)
    && D.Ledger(s.db, Opening(setup))
  }

  /** What a process relies on at its program counter, whatever the others do. */
  ghost predicate ProcOk(setup: Setup, s: Sys, x: Proc) {
    match x
    case Reserved(o, u) => ReservationOk(s, o, u)
    case Compensating(o, u) => ReservationOk(s, o, u)
    case RowWritten(o) => HasRow(s, o)
    case TxMark(o) => HasRow(s, o) && (o in s.held || o in s.db.orders || o in s.redis.canceled)
    case TxCreate(o) =>
      HasRow(s, o) && o in s.redis.processing && o !in s.redis.canceled && (o in s.held || o in s.db.orders)
    case TxHdel(o) => o in s.db.orders && o in s.redis.processing
    case TxSend(o) => o in s.db.orders && o in s.redis.processing
    case TxLog(o) => o in s.db.orders && o in s.redis.processing
    case TxHdelDuplicate(o) =>
      o in s.redis.processing && o in s.issued && exists q :: q in s.db.orders && s.db.orders[q].user == s.issued[o]
    case TxClear(o) => o in s.redis.processing
    case CronRead(o, pv) => EntryOk(setup, s, o, pv)
    case CronMark(o, pv) => EntryOk(setup, s, o, pv) && (o in s.db.orders && o in s.redis.pending ==> o in s.redis.processing)
    case CronRollback(o, pv) => EntryOk(setup, s, o, pv) && o in s.redis.canceled && o in s.held
    case CleanRead(o) => true
    case CleanCheck(o) => true
    case Hdel(o) => o in s.db.orders || o in s.redis.canceled
    case ToCancel(o, u) => o in s.db.orders && s.db.orders[o].user == u
    case ToRollback(o, u) =>
      o in s.db.orders && s.db.orders[o].user == u && s.db.orders[o].status == D.Cancelled && o in s.held
    case PollPending(_, _) => true
    case PollPurchased(_) => true
  }

  ghost predicate ReservationOk(s: Sys, o: OrderNo, u: UserId) {
    o in s.held && o in s.issued && s.issued[o] == u && !HasRow(s, o) && o !in s.redis.canceled
  }

  ghost predicate EntryOk(setup: Setup, s: Sys, o: OrderNo, pv: R.PendingValue) {
    o in s.issued && pv.uid == s.issued[o] && pv.pid == setup.product
  }

  /** Two processes that may exist side by side. */
  ghost predicate Compatible(x: Proc, y: Proc) {
    && !(x.Critical() && y.Critical() && x.o == y.o)
    && !(x.CronRollback? && y.CronRollback? && x.o == y.o)
    && !(x.ToRollback? && y.ToRollback? && x.o == y.o)
    && !(x.Requesting() && (y.Requesting() || y.Scanning()) && x.o == y.o)
    && !(y.Requesting() && x.Scanning() && x.o == y.o)
  }

  ghost predicate Inv(setup: Setup, s: State) {
    && SysOk(setup, s.sys)
    && (forall p :: p in s.procs ==> ProcOk(setup, s.sys, s.procs[p]))
    && (forall p, q :: p in s.procs && q in s.procs && p != q ==> Compatible(s.procs[p], s.procs[q]))
  }

  // ----- runs -----

  /** A run the code can make. */
  ghost predicate Possible(setup: Setup, s: State, steps: seq<Step>)
    decreases |steps|
  {
    steps == [] || (Enabled(s, steps[0]) && Possible(setup, Apply(setup, s, steps[0]), steps[1..]))
  }

  ghost function Run(setup: Setup, s: State, steps: seq<Step>): State
    requires Possible(setup, s, steps)
    decreases |steps|
  {
    if steps == [] then s else Run(setup, Apply(setup, s, steps[0]), steps[1..])
  }

  /** A run in which the environment keeps its promises. */
  ghost predicate Assumed(setup: Setup, s: State, steps: seq<Step>)
    requires Possible(setup, s, steps)
    decreases |steps|
  {
    steps == [] || (Assumption(s, setup, steps[0]) && Assumed(setup, Apply(setup, s, steps[0]), steps[1..]))
  }

  /** A longer run: one more step. */
  lemma {:induction false} OneMore(setup: Setup, s: State, steps: seq<Step>, step: Step)
    requires Possible(setup, s, steps) && Enabled(Run(setup, s, steps), step)
    ensures Possible(setup, s, steps + [step])
    ensures Run(setup, s, steps + [step]) == Apply(setup, Run(setup, s, steps), step)
    ensures Assumed(setup, s, steps + [step]) <==> Assumed(setup, s, steps) && Assumption(Run(setup, s, steps), setup, step)
    decreases |steps|
  {
    hide Apply, Enabled, Assumption;
    if steps == [] {
      assert steps + [step] == [step] && [step][1..] == [];
      assert Possible(setup, Apply(setup, s, step), []);
      assert Run(setup, Apply(setup, s, step), []) == Apply(setup, s, step);
    } else {
      assert (steps + [step])[1..] == steps[1..] + [step];
      OneMore(setup, Apply(setup, s, steps[0]), steps[1..], step);
    }
  }

  lemma Nothing(setup: Setup, s: State)
    ensures Possible(setup, s, []) && Assumed(setup, s, []) && Run(setup, s, []) == s
  {
  }

  lemma FirstWarmUp(setup: Setup)
    ensures Enabled(Init(setup), WarmUp(setup.w)) && Assumption(Init(setup), setup, WarmUp(setup.w))
    ensures Apply(setup, Init(setup), WarmUp(setup.w)) ==
              Init(setup).(sys := Init(setup).sys.(redis := R.Redis(Some(setup.w), {}, map[], {}, {})))
  {
    hide ApplyRequest, ApplyConsumer, ApplyCron, ApplyTimeout, ApplyPoll;
  }

  lemma {:induction false} PossibleRunsCompose(setup: Setup, s: State, first: seq<Step>, second: seq<Step>)
    requires Possible(setup, s, first) && Possible(setup, Run(setup, s, first), second)
    ensures Possible(setup, s, first + second)
    ensures Run(setup, s, first + second) == Run(setup, Run(setup, s, first), second)
    decreases |first|
  {
    hide Apply, Enabled;
    if first == [] {
      assert first + second == second;
    } else {
      assert (first + second)[1..] == first[1..] + second;
      PossibleRunsCompose(setup, Apply(setup, s, first[0]), first[1..], second);
    }
  }

  lemma {:induction false} RunsCompose(setup: Setup, s: State, first: seq<Step>, second: seq<Step>)
    requires Possible(setup, s, first) && Assumed(setup, s, first)
    requires Possible(setup, Run(setup, s, first), second) && Assumed(setup, Run(setup, s, first), second)
    ensures Possible(setup, s, first + second) && Assumed(setup, s, first + second)
    ensures Run(setup, s, first + second) == Run(setup, Run(setup, s, first), second)
    decreases |first|
  {
    hide Apply, Enabled, Assumption;
    if first == [] {
      assert first + second == second;
    } else {
      assert (first + second)[1..] == first[1..] + second;
      RunsCompose(setup, Apply(setup, s, first[0]), first[1..], second);
    }
  }
}
