/**
 A pass of the scanner and the cleanup after it are runs of the protocol: what the two loops
 compute when nobody interferes is what their steps do when nobody runs in between.
 */
module ProtocolScan {
  import opened Common
  import R = RedisStore
  import D = Orders
  import opened Protocol
  import C = PendingChecker
  import ProtocolLaws

  /** `steps` leads from `s` to a state with other Redis data and the same database and processes. */
  ghost predicate LeadsTo(setup: Setup, s: State, steps: seq<Step>, redis: R.Redis) {
    && Possible(setup, s, steps) && Assumed(setup, s, steps)
    && Run(setup, s, steps).sys.redis == redis
    && Run(setup, s, steps).sys.db == s.sys.db
    && Run(setup, s, steps).procs == s.procs
  }

  lemma Append(setup: Setup, s: State, first: seq<Step>, mid: R.Redis, second: seq<Step>, last: R.Redis)
    requires LeadsTo(setup, s, first, mid) && LeadsTo(setup, Run(setup, s, first), second, last)
    ensures LeadsTo(setup, s, first + second, last)
  {
    hide Possible, Run, Assumed;
    RunsCompose(setup, s, first, second);
  }

  ghost predicate NotRequested(s: State, o: OrderNo) {
    forall q :: q in s.procs && s.procs[q].Requesting() ==> s.procs[q].o != o
  }

  // ----- single steps of a scanner and of a cleaner -----

  lemma Picks(setup: Setup, s: State, p: Pid, o: OrderNo)
    requires p !in s.procs && o in s.sys.redis.pending && NotRequested(s, o)
    ensures Enabled(s, CronPick(p, o)) && Assumption(s, setup, CronPick(p, o))
    ensures Apply(setup, s, CronPick(p, o)) == Goto(s, s.sys, p, CronRead(o, s.sys.redis.pending[o]))
  {
    hide ApplyRequest, ApplyConsumer, ApplyTimeout, ApplyPoll;
  }

  lemma ReadsOrder(setup: Setup, s: State, p: Pid)
    requires p in s.procs && s.procs[p].CronRead?
    ensures Enabled(s, CronReadOrder(p)) && Assumption(s, setup, CronReadOrder(p))
    ensures Apply(setup, s, CronReadOrder(p)) ==
              Goto(s, s.sys, p, if s.procs[p].o in s.sys.db.orders then Hdel(s.procs[p].o) else CronMark(s.procs[p].o, s.procs[p].pv))
  {
    hide ApplyRequest, ApplyConsumer, ApplyTimeout, ApplyPoll;
  }

  lemma Marks(setup: Setup, s: State, p: Pid)
    requires p in s.procs && s.procs[p].CronMark?
    ensures Enabled(s, CronMarkCanceled(p, false)) && Assumption(s, setup, CronMarkCanceled(p, false))
    ensures var s' := Apply(setup, s, CronMarkCanceled(p, false));
            var (redis, code) := R.MarkCanceledIfPending(s.sys.redis, s.procs[p].o);
            && s'.sys.redis == redis && s'.sys.db == s.sys.db
            && s'.procs == if code == R.CANCEL_MARK_CREATED then s.procs[p := CronRollback(s.procs[p].o, s.procs[p].pv)] else s.procs - {p}
  {
    hide ApplyRequest, ApplyConsumer, ApplyTimeout, ApplyPoll;
  }

  lemma RollsBackEntry(setup: Setup, s: State, p: Pid)
    requires p in s.procs && s.procs[p].CronRollback?
    ensures Enabled(s, CronRollBack(p, true)) && Assumption(s, setup, CronRollBack(p, true))
    ensures var s' := Apply(setup, s, CronRollBack(p, true));
            var CronRollback(o, pv) := s.procs[p];
            && s'.sys.redis == (if pv.uid > 0 && pv.pid > 0 then R.Rollback(s.sys.redis, pv.uid, o) else R.DeletePending(s.sys.redis, o))
            && s'.sys.db == s.sys.db && s'.procs == s.procs - {p}
  {
    hide ApplyRequest, ApplyConsumer, ApplyTimeout, ApplyPoll;
  }

  lemma CleanerPicks(setup: Setup, s: State, p: Pid, o: OrderNo)
    requires p !in s.procs && o in s.sys.redis.pending
    ensures Enabled(s, CleanPick(p, o)) && Assumption(s, setup, CleanPick(p, o))
    ensures Apply(setup, s, CleanPick(p, o)) == Goto(s, s.sys, p, CleanRead(o))
  {
    hide ApplyRequest, ApplyConsumer, ApplyTimeout, ApplyPoll;
  }

  lemma CleanerReads(setup: Setup, s: State, p: Pid)
    requires p in s.procs && s.procs[p].CleanRead?
    ensures Enabled(s, CleanReadOrder(p)) && Assumption(s, setup, CleanReadOrder(p))
    ensures Apply(setup, s, CleanReadOrder(p)) ==
              Goto(s, s.sys, p, if s.procs[p].o in s.sys.db.orders then Hdel(s.procs[p].o) else CleanCheck(s.procs[p].o))
  {
    hide ApplyRequest, ApplyConsumer, ApplyTimeout, ApplyPoll;
  }

  // ----- a whole turn of the loop -----

  lemma PickAndRead(setup: Setup, s: State, p: Pid, o: OrderNo) returns (steps: seq<Step>)
    requires p !in s.procs && o in s.sys.redis.pending && NotRequested(s, o)
    ensures Possible(setup, s, steps) && Assumed(setup, s, steps)
    ensures Run(setup, s, steps) ==
              Goto(s, s.sys, p, if o in s.sys.db.orders then Hdel(o) else CronMark(o, s.sys.redis.pending[o]))
  {
    hide Possible, Run, Assumed, Enabled, Assumption, Apply, NotRequested;
    Nothing(setup, s);
    Picks(setup, s, p, o);
    OneMore(setup, s, [], CronPick(p, o));
    steps := [] + [CronPick(p, o)];
    ReadsOrder(setup, Run(setup, s, steps), p);
    OneMore(setup, s, steps, CronReadOrder(p));
    steps := steps + [CronReadOrder(p)];
    assert Run(setup, s, steps).procs == s.procs[p := if o in s.sys.db.orders then Hdel(o) else CronMark(o, s.sys.redis.pending[o])];
  }

  lemma DropEntry(setup: Setup, s0: State, s: State, p: Pid, o: OrderNo) returns (steps: seq<Step>)
    requires p !in s0.procs && s == Goto(s0, s0.sys, p, Hdel(o))
    ensures Possible(setup, s, steps) && Assumed(setup, s, steps)
    ensures Run(setup, s, steps) == s0.(sys := DeletePending(s0.sys, o, true))
  {
    hide Possible, Run, Assumed, ApplyRequest, ApplyConsumer, ApplyTimeout, ApplyPoll;
    Nothing(setup, s);
    OneMore(setup, s, [], DeleteAndStop(p, true));
    steps := [] + [DeleteAndStop(p, true)];
    assert Run(setup, s, steps).procs == s0.procs;
  }

  lemma MarkAndRollBack(setup: Setup, s0: State, s: State, p: Pid, o: OrderNo) returns (steps: seq<Step>)
    requires p !in s0.procs && o in s0.sys.redis.pending && o !in s0.sys.db.orders
    requires s == Goto(s0, s0.sys, p, CronMark(o, s0.sys.redis.pending[o]))
    ensures Possible(setup, s, steps) && Assumed(setup, s, steps)
    ensures Run(setup, s, steps).procs == s0.procs && Run(setup, s, steps).sys.db == s0.sys.db
    ensures Run(setup, s, steps).sys.redis == C.Checked(s0.sys.redis, s0.sys.db, o, s0.sys.redis.pending[o])
  {
    hide Possible, Run, Assumed, Enabled, Assumption, Apply;
    Nothing(setup, s);
    Marks(setup, s, p);
    OneMore(setup, s, [], CronMarkCanceled(p, false));
    steps := [] + [CronMarkCanceled(p, false)];
    if R.MarkCanceledIfPending(s0.sys.redis, o).1 == R.CANCEL_MARK_CREATED {
      RollsBackEntry(setup, Run(setup, s, steps), p);
      OneMore(setup, s, steps, CronRollBack(p, true));
      steps := steps + [CronRollBack(p, true)];
    }
    assert Run(setup, s, steps).procs == s0.procs;
  }

  /** checkAndRollback on one entry. */
  lemma CheckIsARun(setup: Setup, s: State, p: Pid, o: OrderNo) returns (steps: seq<Step>)
    requires p !in s.procs && o in s.sys.redis.pending && NotRequested(s, o)
    ensures LeadsTo(setup, s, steps, C.Checked(s.sys.redis, s.sys.db, o, s.sys.redis.pending[o]))
  {
    hide Possible, Run, Assumed;
    var first := PickAndRead(setup, s, p, o);
    var second: seq<Step>;
    if o in s.sys.db.orders {
      second := DropEntry(setup, s, Run(setup, s, first), p, o);
    } else {
      second := MarkAndRollBack(setup, s, Run(setup, s, first), p, o);
    }
    RunsCompose(setup, s, first, second);
    steps := first + second;
  }

  /** One more turn of the loop of checkOnePendingHash, after it has looked at `done`. */
  lemma ScanOneMore(setup: Setup, s: State, p: Pid, steps: seq<Step>, done: set<OrderNo>, o: OrderNo, now: int, expireAfter: int)
    returns (steps': seq<Step>)
    requires p !in s.procs && o in s.sys.redis.pending && o !in done
    requires C.Expired(s.sys.redis.pending[o], now, expireAfter) ==> NotRequested(s, o)
    requires LeadsTo(setup, s, steps, C.Scanned(s.sys.redis, s.sys.db, now, expireAfter, done))
    ensures LeadsTo(setup, s, steps', C.Scanned(s.sys.redis, s.sys.db, now, expireAfter, done + {o}))
  {
    hide Possible, Run, Assumed, C.Expired, C.Checked, C.Scanned;
    C.CheckOneMore(s.sys.redis, s.sys.db, now, expireAfter, done, o);
    steps' := steps;
    if C.Expired(s.sys.redis.pending[o], now, expireAfter) {
      StillPending(s.sys.redis, s.sys.db, now, expireAfter, done, o);
      var more := CheckIsARun(setup, Run(setup, s, steps), p, o);
      Append(setup, s, steps, C.Scanned(s.sys.redis, s.sys.db, now, expireAfter, done), more,
             C.Scanned(s.sys.redis, s.sys.db, now, expireAfter, done + {o}));
      steps' := steps + more;
    }
  }

  /** The loop of checkOnePendingHash, up to its `n`-th entry. */
  lemma {:induction false} ScanIsARun(setup: Setup, s: State, p: Pid, order: seq<OrderNo>, n: nat, now: int, expireAfter: int)
    returns (steps: seq<Step>)
    requires p !in s.procs && C.Arranges(order, s.sys.redis.pending.Keys) && n <= |order|
    requires forall o :: o in s.sys.redis.pending && C.Expired(s.sys.redis.pending[o], now, expireAfter) ==> NotRequested(s, o)
    ensures LeadsTo(setup, s, steps, C.Scanned(s.sys.redis, s.sys.db, now, expireAfter, C.Prefix(order, n)))
  {
    hide LeadsTo, C.Expired, C.Scanned, NotRequested;
    if n == 0 {
      C.ScannedNothing(s.sys.redis, s.sys.db, now, expireAfter);
      assert C.Prefix(order, 0) == {};
      steps := StaysThere(setup, s);
    } else {
      var before := ScanIsARun(setup, s, p, order, n - 1, now, expireAfter);
      C.PrefixGrows(order, s.sys.redis.pending.Keys, n - 1);
      steps := ScanOneMore(setup, s, p, before, C.Prefix(order, n - 1), order[n - 1], now, expireAfter);
    }
  }

  lemma StaysThere(setup: Setup, s: State) returns (steps: seq<Step>)
    ensures LeadsTo(setup, s, steps, s.sys.redis)
  {
    Nothing(setup, s);
    steps := [];
  }

  /** An entry that has not been looked at is as the snapshot has it. */
  lemma StillPending(r: R.Redis, db: D.Db, now: int, expireAfter: int, done: set<OrderNo>, o: OrderNo)
    requires o in r.pending && o !in done
    ensures var scanned := C.Scanned(r, db, now, expireAfter, done);
            o in scanned.pending && scanned.pending[o] == r.pending[o]
  {
    hide C.Expired;
  }

  /** One entry of cleanupPendingGarbage. */
  lemma CleanIsARun(setup: Setup, s: State, p: Pid, o: OrderNo) returns (steps: seq<Step>)
    requires p !in s.procs && o in s.sys.redis.pending
    ensures LeadsTo(setup, s, steps, if o in s.sys.db.orders || o in s.sys.redis.canceled
                                     then R.DeletePending(s.sys.redis, o) else s.sys.redis)
  {
    hide Possible, Run, Assumed;
    steps := LookAtEntry(setup, s, p, o);
    if o in s.sys.db.orders || o in s.sys.redis.canceled {
      var second := DropEntry(setup, s, Run(setup, s, steps), p, o);
      RunsCompose(setup, s, steps, second);
      steps := steps + second;
    }
  }

  lemma LookUpOrder(setup: Setup, s: State, p: Pid, o: OrderNo) returns (steps: seq<Step>)
    requires p !in s.procs && o in s.sys.redis.pending
    ensures Possible(setup, s, steps) && Assumed(setup, s, steps)
    ensures Run(setup, s, steps) == Goto(s, s.sys, p, if o in s.sys.db.orders then Hdel(o) else CleanCheck(o))
  {
    hide Possible, Run, Assumed, Enabled, Assumption, Apply;
    Nothing(setup, s);
    CleanerPicks(setup, s, p, o);
    OneMore(setup, s, [], CleanPick(p, o));
    steps := [] + [CleanPick(p, o)];
    CleanerReads(setup, Run(setup, s, steps), p);
    OneMore(setup, s, steps, CleanReadOrder(p));
    steps := steps + [CleanReadOrder(p)];
    var x := if o in s.sys.db.orders then Hdel(o) else CleanCheck(o);
    assert s.procs[p := CleanRead(o)][p := x] == s.procs[p := x];
  }

  lemma LookAtEntry(setup: Setup, s: State, p: Pid, o: OrderNo) returns (steps: seq<Step>)
    requires p !in s.procs && o in s.sys.redis.pending
    ensures Possible(setup, s, steps) && Assumed(setup, s, steps)
    ensures Run(setup, s, steps) ==
              if o in s.sys.db.orders || o in s.sys.redis.canceled then Goto(s, s.sys, p, Hdel(o)) else s
  {
    hide Possible, Run, Assumed, ApplyRequest, ApplyConsumer, ApplyTimeout, ApplyPoll;
    steps := LookUpOrder(setup, s, p, o);
    if o !in s.sys.db.orders {
      OneMore(setup, s, steps, CleanReadCanceled(p));
      steps := steps + [CleanReadCanceled(p)];
      assert s.procs[p := CleanCheck(o)][p := Hdel(o)] == s.procs[p := Hdel(o)];
      assert s.procs[p := CleanCheck(o)] - {p} == s.procs;
    }
  }

  lemma NotGarbageYet(r: R.Redis, db: D.Db, done: set<OrderNo>, o: OrderNo)
    requires o in r.pending && o !in done
    ensures o in r.pending - C.Garbage(r, db, done)
  {
  }

  function Cleaned(r: R.Redis, garbage: set<OrderNo>): R.Redis {
    r.(pending := r.pending - garbage)
  }

  lemma CleanOneMore(setup: Setup, s: State, p: Pid, steps: seq<Step>, done: set<OrderNo>, o: OrderNo) returns (steps': seq<Step>)
    requires p !in s.procs && o in s.sys.redis.pending && o !in done
    requires LeadsTo(setup, s, steps, Cleaned(s.sys.redis, C.Garbage(s.sys.redis, s.sys.db, done)))
    ensures LeadsTo(setup, s, steps', Cleaned(s.sys.redis, C.Garbage(s.sys.redis, s.sys.db, done + {o})))
  {
    hide Possible, Run, Assumed, C.Garbage;
    var r, db := s.sys.redis, s.sys.db;
    C.GarbageOneMore(r, db, done, o);
    NotGarbageYet(r, db, done, o);
    var more := CleanIsARun(setup, Run(setup, s, steps), p, o);
    Append(setup, s, steps, Cleaned(r, C.Garbage(r, db, done)), more, Cleaned(r, C.Garbage(r, db, done + {o})));
    steps' := steps + more;
  }

  /** The loop of cleanupPendingGarbage, up to its `n`-th entry. */
  lemma {:induction false} CleanupIsARun(setup: Setup, s: State, p: Pid, order: seq<OrderNo>, n: nat) returns (steps: seq<Step>)
    requires p !in s.procs && C.Arranges(order, s.sys.redis.pending.Keys) && n <= |order|
    ensures LeadsTo(setup, s, steps, Cleaned(s.sys.redis, C.Garbage(s.sys.redis, s.sys.db, C.Prefix(order, n))))
  {
    hide LeadsTo;
    if n == 0 {
      assert C.Prefix(order, 0) == {} && C.Garbage(s.sys.redis, s.sys.db, {}) == {};
      assert Cleaned(s.sys.redis, {}) == s.sys.redis;
      steps := StaysThere(setup, s);
    } else {
      hide C.Garbage, Cleaned;
      var before := CleanupIsARun(setup, s, p, order, n - 1);
      C.PrefixGrows(order, s.sys.redis.pending.Keys, n - 1);
      steps := CleanOneMore(setup, s, p, before, C.Prefix(order, n - 1), order[n - 1]);
    }
  }

  /** In every reachable state whose requests are all younger than the threshold, a whole pass and a
      whole cleanup lead to a reachable state, so all laws hold afterwards; and Redis then is what the two
      loops compute. */
  lemma ScanThenCleanupIsReachable(setup: Setup, s: State, p: Pid, order: seq<OrderNo>, order': seq<OrderNo>,
                                   now: int, expireAfter: int) returns (s': State)
    requires ProtocolLaws.Reachable(setup, s) && p !in s.procs
    requires C.Arranges(order, s.sys.redis.pending.Keys)
    requires C.Arranges(order', C.Scanned(s.sys.redis, s.sys.db, now, expireAfter, s.sys.redis.pending.Keys).pending.Keys)
    requires forall o :: o in s.sys.redis.pending && C.Expired(s.sys.redis.pending[o], now, expireAfter) ==> NotRequested(s, o)
    ensures ProtocolLaws.Reachable(setup, s') && s'.sys.db == s.sys.db && s'.procs == s.procs
    ensures var scanned := C.Scanned(s.sys.redis, s.sys.db, now, expireAfter, s.sys.redis.pending.Keys);
            s'.sys.redis == Cleaned(scanned, C.Garbage(scanned, s.sys.db, scanned.pending.Keys))
  {
    hide Possible, Run, Assumed, C.Expired, C.Scanned, C.Garbage;
    var before :| Possible(setup, Init(setup), before) && Assumed(setup, Init(setup), before) && Run(setup, Init(setup), before) == s;
    var scan := ScanIsARun(setup, s, p, order, |order|, now, expireAfter);
    AllOfIt(order, s.sys.redis.pending.Keys);
    RunsCompose(setup, Init(setup), before, scan);
    var mid := Run(setup, s, scan);
    AllOfIt(order', mid.sys.redis.pending.Keys);
    var clean := CleanupIsARun(setup, mid, p, order', |order'|);
    RunsCompose(setup, Init(setup), before + scan, clean);
    s' := Run(setup, mid, clean);
  }

  lemma AllOfIt(order: seq<OrderNo>, keys: set<OrderNo>)
    requires C.Arranges(order, keys)
    ensures C.Prefix(order, |order|) == keys
  {
    assert order[..|order|] == order;
  }
}
