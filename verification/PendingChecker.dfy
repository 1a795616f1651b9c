/**
 One pass of the cron scanner over the pending hash of an activity, and the garbage cleanup
 after it, when no call fails and nobody interferes.
 */
module PendingChecker {
  import opened Common
  import opened RedisStore
  import D = Orders

  /** The order in which a map is iterated: any arrangement of its keys. */
  ghost predicate Arranges(order: seq<OrderNo>, keys: set<OrderNo>) {
    && (forall j, k :: 0 <= j < k < |order| ==> order[j] != order[k])
    && keys == set o | o in order
  }

  function Prefix(order: seq<OrderNo>, n: nat): set<OrderNo>
    requires n <= |order|
  {
    set o | o in order[..n]
  }

  lemma PrefixGrows(order: seq<OrderNo>, keys: set<OrderNo>, i: nat)
    requires Arranges(order, keys) && i < |order|
    ensures Prefix(order, i + 1) == Prefix(order, i) + {order[i]}
    ensures order[i] in keys && order[i] !in Prefix(order, i)
  {
    assert order[..i + 1] == order[..i] + [order[i]];
  }

  /** Ages are whole seconds, the threshold is a duration in nanoseconds. */
  predicate Expired(pv: PendingValue, now: int, expireAfter: int) {
    (now - pv.ts) * SECOND >= expireAfter
  }

  /** Entries the pass must roll back: old, without an order, not canceled, not being processed. */
  ghost function Stale(r: Redis, db: D.Db, now: int, expireAfter: int): set<OrderNo> {
    set o | o in r.pending && Expired(r.pending[o], now, expireAfter)
            && o !in db.orders && o !in r.canceled && o !in r.processing
  }

  ghost function Settled(r: Redis, db: D.Db, now: int, expireAfter: int): set<OrderNo> {
    set o | o in r.pending && Expired(r.pending[o], now, expireAfter) && o in db.orders
  }

  /** Entries that say whose unit they hold; only for these can stock be given back. */
  ghost function WithOwner(r: Redis, orders: set<OrderNo>): set<OrderNo> {
    set o | o in orders && o in r.pending && r.pending[o].uid > 0 && r.pending[o].pid > 0
  }

  ghost function OwnersOf(r: Redis, orders: set<OrderNo>): set<UserId> {
    set o | o in orders && o in r.pending :: r.pending[o].uid
  }

  ghost function Raise(stock: Option<int>, n: nat): Option<int> {
    if n == 0 then stock else Some((if stock.None? then 0 else stock.value) + n)
  }

  /** Redis after the entries in `stale` have been rolled back and those in `settled` dropped. */
  ghost function RolledBack(r: Redis, stale: set<OrderNo>, settled: set<OrderNo>): Redis {
    Redis(
      Raise(r.stock, |WithOwner(r, stale)|),
      r.purchased - OwnersOf(r, WithOwner(r, stale)),
      r.pending - (stale + settled),
      r.canceled + stale,
      r.processing)
  }

  /** Redis after the entries in `done` have been looked at. */
  ghost function Scanned(r: Redis, db: D.Db, now: int, expireAfter: int, done: set<OrderNo>): Redis {
    RolledBack(r, Stale(r, db, now, expireAfter) * done, Settled(r, db, now, expireAfter) * done)
  }

  /** What checkAndRollback does to one entry. */
  function Checked(r: Redis, db: D.Db, o: OrderNo, pv: PendingValue): Redis {
    if o in db.orders then DeletePending(r, o)
    else
      var (marked, code) := MarkCanceledIfPending(r, o);
      if code != CANCEL_MARK_CREATED then marked
      else if pv.uid > 0 && pv.pid > 0 then Rollback(marked, pv.uid, o)
      else DeletePending(marked, o)
  }

  lemma RollBackOneMore(r: Redis, db: D.Db, stale: set<OrderNo>, settled: set<OrderNo>, o: OrderNo)
    requires o in r.pending && o !in stale + settled && o !in db.orders && o !in r.canceled && o !in r.processing
    ensures RolledBack(r, stale + {o}, settled) == Checked(RolledBack(r, stale, settled), db, o, r.pending[o])
  {
    assert r.pending - (stale + {o} + settled) == r.pending - (stale + settled) - {o};
    assert r.canceled + (stale + {o}) == r.canceled + stale + {o};
    StaleOwners(r, stale, o);
    assert o !in WithOwner(r, stale);
    hide WithOwner, OwnersOf;
  }

  lemma StaleOwners(r: Redis, stale: set<OrderNo>, o: OrderNo)
    requires o in r.pending && o !in stale
    ensures var before, after := WithOwner(r, stale), WithOwner(r, stale + {o});
            if r.pending[o].uid > 0 && r.pending[o].pid > 0
            then |after| == |before| + 1 && r.purchased - OwnersOf(r, after) == r.purchased - OwnersOf(r, before) - {r.pending[o].uid}
            else after == before
  {
    var before, after := WithOwner(r, stale), WithOwner(r, stale + {o});
    if r.pending[o].uid > 0 && r.pending[o].pid > 0 {
      assert after == before + {o};
      OneMoreOwner(r, before, o);
    } else {
      assert after == before;
    }
  }

  lemma DropOneMore(r: Redis, db: D.Db, stale: set<OrderNo>, settled: set<OrderNo>, o: OrderNo)
    requires o in r.pending && o in db.orders
    ensures RolledBack(r, stale, settled + {o}) == Checked(RolledBack(r, stale, settled), db, o, r.pending[o])
  {
    assert r.pending - (stale + (settled + {o})) == r.pending - (stale + settled) - {o};
  }

  lemma CheckOneMore(r: Redis, db: D.Db, now: int, expireAfter: int, done: set<OrderNo>, o: OrderNo)
    requires o in r.pending && o !in done
    ensures Scanned(r, db, now, expireAfter, done + {o}) ==
            if Expired(r.pending[o], now, expireAfter)
            then Checked(Scanned(r, db, now, expireAfter, done), db, o, r.pending[o])
            else Scanned(r, db, now, expireAfter, done)
  {
    hide Expired;
    var stale := Stale(r, db, now, expireAfter);
    var settled := Settled(r, db, now, expireAfter);
    if o in stale {
      assert stale * (done + {o}) == stale * done + {o} && settled * (done + {o}) == settled * done;
      RollBackOneMore(r, db, stale * done, settled * done, o);
    } else if o in settled {
      assert stale * (done + {o}) == stale * done && settled * (done + {o}) == settled * done + {o};
      DropOneMore(r, db, stale * done, settled * done, o);
    } else {
      assert stale * (done + {o}) == stale * done && settled * (done + {o}) == settled * done;
      LeftAlone(r, db, stale * done, settled * done, o, Expired(r.pending[o], now, expireAfter));
    }
  }

  /** A canceled or processing entry is refused by the marking script. */
  lemma LeftAlone(r: Redis, db: D.Db, stale: set<OrderNo>, settled: set<OrderNo>, o: OrderNo, expired: bool)
    requires o in r.pending && o !in stale + settled
    requires expired ==> o !in db.orders && (o in r.canceled || o in r.processing)
    ensures expired ==> Checked(RolledBack(r, stale, settled), db, o, r.pending[o]) == RolledBack(r, stale, settled)
  {
  }

  lemma OneMoreOwner(r: Redis, orders: set<OrderNo>, o: OrderNo)
    requires o in r.pending && o !in orders
    ensures OwnersOf(r, orders + {o}) == OwnersOf(r, orders) + {r.pending[o].uid}
  {
  }

  lemma ScannedNothing(r: Redis, db: D.Db, now: int, expireAfter: int)
    ensures Scanned(r, db, now, expireAfter, {}) == r
  {
    hide Stale, Settled;
    assert Stale(r, db, now, expireAfter) * {} == {} && Settled(r, db, now, expireAfter) * {} == {};
    assert WithOwner(r, {}) == {} && OwnersOf(r, {}) == {};
  }

  ghost function Garbage(r: Redis, db: D.Db, done: set<OrderNo>): set<OrderNo> {
    set o | o in done && (o in db.orders || o in r.canceled)
  }

  class Checker {
    const cache: SeckillCache
    const repo: D.OrderRepo
    const expireAfter: int

    constructor (cache: SeckillCache, repo: D.OrderRepo, expireAfter: int)
      ensures this.cache == cache && this.repo == repo
      ensures this.expireAfter == if expireAfter <= 0 then 5 * MINUTE else expireAfter
    {
      this.cache := cache;
      this.repo := repo;
      this.expireAfter := if expireAfter <= 0 then 5 * MINUTE else expireAfter;
    }

    method CheckAndRollback(o: OrderNo, pv: PendingValue)
      modifies cache
      ensures cache.View() == Checked(old(cache.View()), repo.View(), o, pv)
    {
      var order := repo.FindByOrderNo(o);
      if order.Some? {
        cache.HDelPending(o);
        return;
      }
      var code := cache.TryMarkOrderCanceledIfPending(o);
      if code != CANCEL_MARK_CREATED {
        return;
      }
      if pv.uid > 0 && pv.pid > 0 {
        cache.RollbackPreDeduct(pv.uid, o);
        return;
      }
      cache.HDelPending(o);
    }

    /** checkOnePendingHash: the snapshot of the hash, in whatever order it comes. */
    method CheckOnePendingHash(order: seq<OrderNo>, now: int)
      requires Arranges(order, cache.pending.Keys)
      modifies cache
      ensures cache.View() == Scanned(old(cache.View()), repo.View(), now, expireAfter, old(cache.pending).Keys)
      // with the default threshold an entry without order and marker goes from its 300th second on, not before
      ensures expireAfter == 5 * MINUTE ==> forall o :: o in old(cache.pending) ==>
                (o in cache.pending <==> now - old(cache.pending)[o].ts < 300
                                         || (o !in repo.orders && (o in old(cache.canceled) || o in old(cache.processing))))
    {
      hide Expired, Checked, Stale, Settled, RolledBack;
      var entries := cache.pending;
      ghost var r := cache.View();
      ghost var db := repo.View();
      ScannedNothing(r, db, now, expireAfter);
      assert Prefix(order, 0) == {};
      for i := 0 to |order|
        invariant cache.View() == Scanned(r, db, now, expireAfter, Prefix(order, i))
        invariant repo.View() == db
      {
        var o := order[i];
        PrefixGrows(order, entries.Keys, i);
        CheckOneMore(r, db, now, expireAfter, Prefix(order, i), o);
        if Expired(entries[o], now, expireAfter) {
          CheckAndRollback(o, entries[o]);
        }
      }
      assert order[..|order|] == order;
      assert Prefix(order, |order|) == entries.Keys;
      if expireAfter == 5 * MINUTE {
        PassInSeconds(r, db, now, expireAfter, 300);
      }
    }

    /** cleanupPendingGarbage: drops the entries of created and of canceled orders. */
    method CleanupPendingGarbage(order: seq<OrderNo>) returns (cleaned: nat)
      requires Arranges(order, cache.pending.Keys)
      modifies cache
      ensures var r := old(cache.View());
              var garbage := Garbage(r, repo.View(), r.pending.Keys);
              cache.View() == r.(pending := r.pending - garbage) && cleaned == |garbage|
    {
      ghost var r := cache.View();
      ghost var db := repo.View();
      cleaned := 0;
      assert Prefix(order, 0) == {} && Garbage(r, db, {}) == {};
      for i := 0 to |order|
        invariant cache.View() == r.(pending := r.pending - Garbage(r, db, Prefix(order, i)))
        invariant cleaned == |Garbage(r, db, Prefix(order, i))|
      {
        var o := order[i];
        PrefixGrows(order, r.pending.Keys, i);
        GarbageOneMore(r, db, Prefix(order, i), o);
        var found := repo.FindByOrderNo(o);
        if found.Some? {
          cache.HDelPending(o);
          cleaned := cleaned + 1;
        } else if o in cache.canceled {
          cache.HDelPending(o);
          cleaned := cleaned + 1;
        }
      }
      assert order[..|order|] == order;
      assert Prefix(order, |order|) == r.pending.Keys;
    }
  }

  lemma GarbageOneMore(r: Redis, db: D.Db, done: set<OrderNo>, o: OrderNo)
    requires o !in done
    ensures var before, after := Garbage(r, db, done), Garbage(r, db, done + {o});
            if o in db.orders || o in r.canceled
            then |after| == |before| + 1 && r.pending - after == r.pending - before - {o}
            else after == before
  {
    var before, after := Garbage(r, db, done), Garbage(r, db, done + {o});
    if o in db.orders || o in r.canceled {
      assert after == before + {o};
    } else {
      assert after == before;
    }
  }

  /** Ages count in whole seconds: with a threshold of more than `n - 1` and at most `n` seconds an entry is old
      from its `n`-th second on. */
  lemma ExpiredInSeconds(pv: PendingValue, now: int, expireAfter: int, n: int)
    requires (n - 1) * SECOND < expireAfter <= n * SECOND
    ensures Expired(pv, now, expireAfter) <==> now - pv.ts >= n
  {
  }

  /** The default threshold. */
  lemma FiveMinutes(pv: PendingValue, now: int)
    ensures Expired(pv, now, 5 * MINUTE) <==> now - pv.ts >= 300
  {
    ExpiredInSeconds(pv, now, 5 * MINUTE, 300);
  }

  /** The pass, entry by entry and in seconds. With a threshold of `n` seconds, rounded up: an entry younger than that is untouched;
      an older one is gone if it has an order or no marker, and stays as it was if it has a marker and no order. Canceled
      now are, besides those that were, exactly the older entries with neither; for each of them that names its
      owner a unit is back on the shelf and that user may buy again; nothing else in Redis has changed. */
  lemma PassInSeconds(r: Redis, db: D.Db, now: int, expireAfter: int, n: int)
    requires (n - 1) * SECOND < expireAfter <= n * SECOND
    ensures var scanned := Scanned(r, db, now, expireAfter, r.pending.Keys);
            var stale := set o | o in r.pending && now - r.pending[o].ts >= n
                                 && o !in db.orders && o !in r.canceled && o !in r.processing;
            var owned := set o | o in stale && r.pending[o].uid > 0 && r.pending[o].pid > 0;
            && (forall o :: o in scanned.pending ==> o in r.pending && scanned.pending[o] == r.pending[o])
            && (forall o :: o in r.pending ==>
                  (o in scanned.pending <==>
                   now - r.pending[o].ts < n || (o !in db.orders && (o in r.canceled || o in r.processing))))
            && scanned.canceled == r.canceled + stale && scanned.processing == r.processing
            && scanned.stock == (if owned == {} then r.stock else Some((if r.stock.None? then 0 else r.stock.value) + |owned|))
            && scanned.purchased == r.purchased - set o | o in owned :: r.pending[o].uid
  {
    hide Expired;
    forall o | o in r.pending
      ensures Expired(r.pending[o], now, expireAfter) <==> now - r.pending[o].ts >= n
    {
      ExpiredInSeconds(r.pending[o], now, expireAfter, n);
    }
    var stale := Stale(r, db, now, expireAfter);
    assert stale == set o | o in r.pending && now - r.pending[o].ts >= n && o !in db.orders && o !in r.canceled && o !in r.processing;
    assert stale * r.pending.Keys == stale;
    assert WithOwner(r, stale) == set o | o in stale && r.pending[o].uid > 0 && r.pending[o].pid > 0;
    assert OwnersOf(r, WithOwner(r, stale)) == set o | o in WithOwner(r, stale) :: r.pending[o].uid;
  }

  /** After a scan with a threshold of `n` seconds, rounded up, and a cleanup, the hash holds exactly the entries somebody still
      has to decide: no order, not canceled before, and either younger than that or being processed. */
  lemma ScanThenCleanup(r: Redis, db: D.Db, now: int, expireAfter: int, n: int)
    requires (n - 1) * SECOND < expireAfter <= n * SECOND
    ensures var scanned := Scanned(r, db, now, expireAfter, r.pending.Keys);
            scanned.pending - Garbage(scanned, db, scanned.pending.Keys) ==
            map o | o in r.pending && o !in db.orders && o !in r.canceled
                    && (now - r.pending[o].ts < n || o in r.processing) :: r.pending[o]
  {
    hide Scanned, Expired;
    PassInSeconds(r, db, now, expireAfter, n);
  }
}
