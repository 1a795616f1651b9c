/**
 The historical-order seeder: orders are dealt to users round by round, one activity per
 round, so that no user gets two orders in one activity.
 */
module Seeding {
  import opened Common
  import Keys

  const HISTORICAL_ACTIVITY_BASE := 100000

  /** seed_hist_{activity}_{user}_{index} */
  function SeedNo(activity: ActivityId, user: UserId, index: nat): string {
    "seed_hist_" + (Keys.Itoa(activity) + "_" + (Keys.Itoa(user) + "_" + Keys.Itoa(index)))
  }

  datatype SeedOrder = SeedOrder(no: string, user: UserId, activity: ActivityId)

  /** Which user and which activity order number `k` of the whole run gets. */
  function Dealt(users: seq<UserId>, k: nat): SeedOrder
    requires users != []
  {
    var u := users[k % |users|];
    var a := HISTORICAL_ACTIVITY_BASE + k / |users|;
    SeedOrder(SeedNo(a, u, k), u, a)
  }

  function CeilDiv(total: nat, n: nat): nat
    requires n > 0
  {
    (total + n - 1) / n
  }

  /** Inserting in batches of size zero or less fails, and that ends the program. */
  method CreateHistoricalActivities(bucketCount: int, batchSize: int) returns (ok: bool, activities: seq<ActivityId>)
    ensures ok <==> bucketCount <= 0 || batchSize > 0
    ensures |activities| == if !ok || bucketCount <= 0 then 0 else bucketCount
    ensures forall i :: 0 <= i < |activities| ==> activities[i] == HISTORICAL_ACTIVITY_BASE + i
  {
    activities := [];
    if bucketCount <= 0 {
      return true, [];
    }
    for i := 0 to bucketCount
      invariant |activities| == i
      invariant forall j :: 0 <= j < i ==> activities[j] == HISTORICAL_ACTIVITY_BASE + j
    {
      activities := activities + [HISTORICAL_ACTIVITY_BASE + i];
    }
    ok := batchSize > 0;
    if !ok {
      activities := [];
    }
  }

  /** The inner loop: one batch, starting at the `created`-th order of the run. */
  method DealBatch(users: seq<UserId>, created: nat, size: nat) returns (batch: seq<SeedOrder>)
    requires users != []
    ensures |batch| == size
    ensures forall j :: 0 <= j < size ==> batch[j] == Dealt(users, created + j)
  {
    hide SeedNo, Keys.Itoa;
    batch := [];
    for i := 0 to size
      invariant |batch| == i
      invariant forall j :: 0 <= j < i ==> batch[j] == Dealt(users, created + j)
    {
      var globalIndex := created + i;
      var u := users[globalIndex % |users|];
      var bucket := globalIndex / |users|;
      var activity := HISTORICAL_ACTIVITY_BASE + bucket;
      batch := batch + [SeedOrder(SeedNo(activity, u, globalIndex), u, activity)];
    }
  }

  /** One item for every order of the batch. */
  method ItemsOf(batch: seq<SeedOrder>) returns (items: seq<string>)
    ensures |items| == |batch|
    ensures forall j :: 0 <= j < |batch| ==> items[j] == batch[j].no
  {
    items := [];
    for i := 0 to |batch|
      invariant |items| == i
      invariant forall j :: 0 <= j < i ==> items[j] == batch[j].no
    {
      items := items + [batch[i].no];
    }
  }

  /** The tables hold the orders dealt so far, in dealing order, and one item for each of them. */
  ghost predicate Seeded(users: seq<UserId>, orders: seq<SeedOrder>, items: seq<string>)
    requires users != []
  {
    |items| == |orders| &&
    forall k :: 0 <= k < |orders| ==> orders[k] == Dealt(users, k) && items[k] == orders[k].no
  }

  lemma {:induction false} AppendBatch(users: seq<UserId>, orders: seq<SeedOrder>, items: seq<string>,
                                       batch: seq<SeedOrder>, batchItems: seq<string>)
    requires users != [] && Seeded(users, orders, items) && |batchItems| == |batch|
    requires forall j :: 0 <= j < |batch| ==> batch[j] == Dealt(users, |orders| + j) && batchItems[j] == batch[j].no
    ensures Seeded(users, orders + batch, items + batchItems)
  {
    hide Dealt;
    forall k | 0 <= k < |orders + batch|
      ensures (orders + batch)[k] == Dealt(users, k) && (items + batchItems)[k] == (orders + batch)[k].no
    {
      if k >= |orders| {
        assert (orders + batch)[k] == batch[k - |orders|];
      }
    }
  }

  /** Inserts batch by batch; every batch writes its orders and then one item for each of them. */
  method SeedHistoricalOrders(users: seq<UserId>, total: int, batchSize: int)
    returns (ok: bool, activities: seq<ActivityId>, orders: seq<SeedOrder>, items: seq<string>)
    ensures ok <==> total <= 0 || users == [] || batchSize > 0
    ensures !ok || total <= 0 || users == [] ==> activities == [] && orders == [] && items == []
    ensures ok && total > 0 && users != [] ==>
              && |orders| == total && Seeded(users, orders, items)
              && |activities| == CeilDiv(total, |users|)
              && (forall i :: 0 <= i < |activities| ==> activities[i] == HISTORICAL_ACTIVITY_BASE + i)
  {
    hide CeilDiv, Seeded, Dealt;
    ok, activities, orders, items := true, [], [], [];
    if total <= 0 || |users| == 0 {
      return;
    }
    var bucketCount := CeilDiv(total, |users|);
    CeilIsPositive(total, |users|);
    NothingSeeded(users);
    ok, activities := CreateHistoricalActivities(bucketCount, batchSize);
    if !ok {
      return;
    }
    var created := 0;
    while created < total
      invariant 0 <= created <= total
      invariant |orders| == created && Seeded(users, orders, items)
    {
      var remain := total - created;
      var currBatch := batchSize;
      if currBatch <= 0 {
        currBatch := 500;
      }
      if remain < currBatch {
        currBatch := remain;
      }
      var batch := DealBatch(users, created, currBatch);
      var batchItems := ItemsOf(batch);
      AppendBatch(users, orders, items, batch, batchItems);
      orders := orders + batch;
      items := items + batchItems;
      created := created + currBatch;
    }
  }

  lemma CeilIsPositive(total: nat, n: nat)
    requires total > 0 && n > 0
    ensures CeilDiv(total, n) > 0
  {
    DivMod(total + n - 1, n);
  }

  lemma NothingSeeded(users: seq<UserId>)
    requires users != []
    ensures Seeded(users, [], [])
  {
  }

  lemma DivMod(k: nat, n: nat)
    requires n > 0
    ensures k == (k / n) * n + k % n && 0 <= k % n < n
  {
  }

  lemma QuotientBounds(k: nat, n: nat, q: nat)
    requires n > 0 && k < q * n
    ensures k / n < q
  {
    DivMod(k, n);
    if k / n >= q {
      assert (k / n) * n >= q * n by {
        MulMonotone(q, k / n, n);
      }
      assert false;
    }
  }

  lemma MulMonotone(a: nat, b: nat, n: nat)
    requires a <= b
    ensures a * n <= b * n
  {
  }

  /** Round `q` deals one order to every user, in the order of the list, and all of them in its own activity. */
  lemma DealtInRounds(users: seq<UserId>, q: nat, i: nat)
    requires i < |users|
    ensures Dealt(users, q * |users| + i).user == users[i]
    ensures Dealt(users, q * |users| + i).activity == 100000 + q
    ensures Dealt(users, q * |users| + i).no == SeedNo(100000 + q, users[i], q * |users| + i)
  {
    hide SeedNo;
    var n, k := |users|, q * |users| + i;
    assert k / n == q && k % n == i by {
      DivMod(k, n);
      QuotientIs(k, n, q, i);
    }
  }

  lemma QuotientIs(k: nat, n: nat, q: nat, i: nat)
    requires i < n && k == q * n + i
    ensures k / n == q && k % n == i
  {
    DivMod(k, n);
    QuotientBounds(k, n, q + 1);
    if k / n < q {
      MulMonotone(k / n + 1, q, n);
      assert false;
    }
  }

  ghost predicate SamePair(users: seq<UserId>, j: nat, k: nat)
    requires users != []
  {
    Dealt(users, j).user == Dealt(users, k).user && Dealt(users, j).activity == Dealt(users, k).activity
  }

  lemma FirstRound(users: seq<UserId>, k: nat)
    requires k < |users|
    ensures Dealt(users, k).user == users[k] && Dealt(users, k).activity == HISTORICAL_ACTIVITY_BASE
  {
    hide SeedNo;
  }

  lemma SamePairSameUser(users: seq<UserId>, j: nat, k: nat)
    requires users != [] && j < k && SamePair(users, j, k)
    ensures var n := |users|;
            j % n < k % n <= k && users[j % n] == users[k % n]
  {
    hide SeedNo;
    DivMod(j, |users|);
    DivMod(k, |users|);
  }

  /** No (user, activity) pair occurs twice exactly when no user occurs twice among those dealt to. */
  lemma PairsAreDistinctIff(users: seq<UserId>, total: nat)
    requires users != []
    ensures (forall j, k :: 0 <= j < k < total ==> !SamePair(users, j, k)) <==>
            (forall a, b :: 0 <= a < b < |users| && b < total ==> users[a] != users[b])
  {
    hide SeedNo;
    if forall j, k :: 0 <= j < k < total ==> !SamePair(users, j, k) {
      forall a, b | 0 <= a < b < |users| && b < total
        ensures users[a] != users[b]
      {
        FirstRound(users, a);
        FirstRound(users, b);
        assert !SamePair(users, a, b);
      }
    }
    if j, k :| 0 <= j < k < total && SamePair(users, j, k) {
      SamePairSameUser(users, j, k);
    }
  }

  /** The printed order numbers are distinct in any case. */
  lemma NumbersAreDistinct(users: seq<UserId>, j: nat, k: nat)
    requires users != [] && Dealt(users, j).no == Dealt(users, k).no
    ensures j == k
  {
    hide SeedNo;
    var n := |users|;
    NumberTellsIndex(HISTORICAL_ACTIVITY_BASE + j / n, users[j % n], j, HISTORICAL_ACTIVITY_BASE + k / n, users[k % n], k);
  }

  lemma NumberTellsIndex(a: ActivityId, u: UserId, j: nat, b: ActivityId, v: UserId, k: nat)
    requires SeedNo(a, u, j) == SeedNo(b, v, k)
    ensures a == b && u == v && j == k
  {
    hide Keys.Itoa;
    var x, y := Keys.Itoa(u) + "_" + Keys.Itoa(j), Keys.Itoa(v) + "_" + Keys.Itoa(k);
    assert SeedNo(a, u, j)[|"seed_hist_"|..] == Keys.Itoa(a) + ['_'] + x;
    assert SeedNo(b, v, k)[|"seed_hist_"|..] == Keys.Itoa(b) + ['_'] + y;
    Keys.SplitsOnce(a, x, b, y, '_');
    Keys.PairInjective(u, j, v, k, '_');
  }

  lemma DealtIsCreated(users: seq<UserId>, total: nat, k: nat)
    requires users != [] && k < total
    ensures HISTORICAL_ACTIVITY_BASE <= Dealt(users, k).activity < HISTORICAL_ACTIVITY_BASE + CeilDiv(total, |users|)
  {
    hide SeedNo;
    var n := |users|;
    DivMod(total + n - 1, n);
    assert total <= CeilDiv(total, n) * n;
    QuotientBounds(k, n, CeilDiv(total, n));
  }

  /** Every created activity but the last has an order of every user, and the last one is not empty. */
  lemma ActivitiesAreFilled(users: seq<UserId>, total: nat, b: nat, i: nat)
    requires users != [] && total > 0 && b < CeilDiv(total, |users|) && i < |users|
    requires b + 1 < CeilDiv(total, |users|) || i == 0
    ensures var k := b * |users| + i;
            k < total && Dealt(users, k).user == users[i] && Dealt(users, k).activity == HISTORICAL_ACTIVITY_BASE + b
  {
    hide SeedNo;
    var n := |users|;
    var k := b * n + i;
    DivMod(total + n - 1, n);
    var buckets := CeilDiv(total, n);
    if b + 1 < buckets {
      MulMonotone(b + 2, buckets, n);
      assert (b + 2) * n == b * n + n + n;
    } else {
      assert buckets == b + 1;
      assert (b + 1) * n == b * n + n;
    }
    DivMod(k, n);
    Place(b, i, n);
  }

  lemma Place(b: nat, i: nat, n: nat)
    requires i < n
    ensures (b * n + i) / n == b && (b * n + i) % n == i
  {
    var k := b * n + i;
    DivMod(k, n);
    var q := k / n;
    if q < b { MulMonotone(q + 1, b, n); }
    if q > b { MulMonotone(b + 1, q, n); }
    assert (q + 1) * n == q * n + n && (b + 1) * n == b * n + n;
    assert q == b;
  }
}
