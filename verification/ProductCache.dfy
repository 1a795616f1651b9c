/**
 The three-level read cache for one product or activity: a local cache in every process, one
 Redis entry they share, and the database row they all speed up.

 The row changes at arbitrary times: `Db` says what it holds at each instant. Loads are
 atomic, and a lookup happens at one instant of the clock.
 */
module ProductCache {
  import opened Common

  const LOCAL_TTL := 30 * SECOND
  const REDIS_TTL := 10 * MINUTE
  const NULL_TTL := 1 * MINUTE

  /** The row: None while it does not exist. */
  type Row<V> = Option<V>
  type Db<!V> = int -> Row<V>

  /** A cached answer and the last instant at which it is served. */
  datatype Entry<V> = Entry(row: Row<V>, until: int)

  datatype Caches<V> = Caches(local: map<nat, Entry<V>>, redis: Option<Entry<V>>)

  /** What varies between loads: the two random jitters and the calls that fail. */
  datatype Load = Load(localJitter: int, redisJitter: int, readFails: bool, garbled: bool, dbFails: bool, writeFails: bool)

  /** randomTTL: up to, and not including, a fifth more than the base. */
  predicate Jitter(base: int, jitter: int) {
    0 <= jitter < base / 5
  }

  predicate LoadOk(load: Load) {
    Jitter(LOCAL_TTL, load.localJitter) && Jitter(REDIS_TTL, load.redisJitter)
  }

  datatype Answer<V> = Served(row: Row<V>) | Failed

  predicate Live<V>(entry: Option<Entry<V>>, now: int) {
    entry.Some? && now <= entry.value.until
  }

  function LocalEntry<V>(row: Row<V>, now: int, load: Load): Entry<V> {
    Entry(row, now + if row.None? then NULL_TTL else LOCAL_TTL + load.localJitter)
  }

  function RedisEntry<V>(row: Row<V>, now: int, load: Load): Entry<V> {
    Entry(row, now + if row.None? then NULL_TTL else REDIS_TTL + load.redisJitter)
  }

  /** A stored null marker is recognised by its text; a stored row may fail to decode. */
  predicate RedisHit<V>(c: Caches<V>, now: int, load: Load) {
    Live(c.redis, now) && !load.readFails && (load.garbled ==> c.redis.value.row.None?)
  }

  function Get<V>(c: Caches<V>, process: nat, row: Row<V>, now: int, load: Load): (Caches<V>, Answer<V>) {
    if process in c.local && now <= c.local[process].until then
      (c, Served(c.local[process].row))
    else if RedisHit(c, now, load) then
      var cached := c.redis.value.row;
      (c.(local := c.local[process := LocalEntry(cached, now, load)]), Served(cached))
    else if load.dbFails then
      (c, Failed)
    else
      (Caches(c.local[process := LocalEntry(row, now, load)],
              if load.writeFails then c.redis else Some(RedisEntry(row, now, load))),
       Served(row))
  }

  /** A lookup in terms of what is stored: it is served from the process's own entry while that lives, else from the Redis
      entry while that lives and can be read, else from the database, and fails only if the database read does. */
  lemma LookupSource<V>(c: Caches<V>, process: nat, row: Row<V>, now: int, load: Load)
    ensures var answer := Get(c, process, row, now, load).1;
            var local := process in c.local && now <= c.local[process].until;
            var redis := c.redis.Some? && now <= c.redis.value.until && !load.readFails && (c.redis.value.row.None? || !load.garbled);
            && (local ==> answer == Served(c.local[process].row))
            && (!local && redis ==> answer == Served(c.redis.value.row))
            && (!local && !redis && !load.dbFails ==> answer == Served(row))
            && (answer.Failed? <==> !local && !redis && load.dbFails)
  {
  }

  /** What a lookup stores: nothing when it is served locally or fails; otherwise the answer, locally for 30 to 36 s and,
      if it came from the database and the write works, in Redis for 10 to 12 min; a null for 1 min in both. */
  lemma LookupStores<V>(c: Caches<V>, process: nat, row: Row<V>, now: int, load: Load)
    requires LoadOk(load)
    ensures var (c', answer) := Get(c, process, row, now, load);
            var local := process in c.local && now <= c.local[process].until;
            var redis := c.redis.Some? && now <= c.redis.value.until && !load.readFails && (c.redis.value.row.None? || !load.garbled);
            && (local || answer.Failed? ==> c' == c)
            && (!local && answer.Served? ==>
                  && process in c'.local && c'.local == c.local[process := c'.local[process]] && c'.local[process].row == answer.row
                  && (answer.row.Some? ==> 30 * SECOND <= c'.local[process].until - now < 36 * SECOND)
                  && (answer.row.None? ==> c'.local[process].until - now == 60 * SECOND))
            && (redis || load.writeFails ==> c'.redis == c.redis)
            && (!local && !redis && answer.Served? && !load.writeFails ==>
                  && c'.redis.Some? && c'.redis.value.row == row
                  && (row.Some? ==> 600 * SECOND <= c'.redis.value.until - now < 720 * SECOND)
                  && (row.None? ==> c'.redis.value.until - now == 60 * SECOND))
  {
  }

  class Cache<V> {
    var local: map<nat, Entry<V>>
    var redis: Option<Entry<V>>

    ghost function View(): Caches<V>
      reads this
    {
      Caches(local, redis)
    }

    constructor ()
      ensures View() == Caches(map[], None)
    {
      local, redis := map[], None;
    }

    method GetRow(process: nat, row: Row<V>, now: int, load: Load) returns (answer: Answer<V>)
      modifies this
      ensures (View(), answer) == Get(old(View()), process, row, now, load)
      ensures answer.Failed? ==> load.dbFails
    {
      LookupSource(View(), process, row, now, load);
      if process in local && now <= local[process].until {
        return Served(local[process].row);
      }
      answer := LoadRow(process, row, now, load);
    }

    method LoadRow(process: nat, row: Row<V>, now: int, load: Load) returns (answer: Answer<V>)
      requires !(process in local && now <= local[process].until)
      modifies this
      ensures (View(), answer) == Get(old(View()), process, row, now, load)
    {
      if redis.Some? && now <= redis.value.until && !load.readFails {
        var cached := redis.value.row;
        if cached.None? {
          local := local[process := Entry(None, now + NULL_TTL)];
          return Served(None);
        }
        if !load.garbled {
          local := local[process := Entry(cached, now + (LOCAL_TTL + load.localJitter))];
          return Served(cached);
        }
      }
      if load.dbFails {
        return Failed;
      }
      if row.None? {
        if !load.writeFails {
          redis := Some(Entry(None, now + NULL_TTL));
        }
        local := local[process := Entry(None, now + NULL_TTL)];
        return Served(None);
      }
      if !load.writeFails {
        redis := Some(Entry(row, now + (REDIS_TTL + load.redisJitter)));
      }
      local := local[process := Entry(row, now + (LOCAL_TTL + load.localJitter))];
      return Served(row);
    }
  }

  // ----- staleness -----

  /** The row held `row` at some instant of the window. */
  ghost predicate WasTrue<V>(db: Db<V>, row: Row<V>, from: int, to: int) {
    exists t :: from <= t <= to && db(t) == row
  }

  /** How old an answer may be: strictly less for a row, at most for a null. */
  function RedisAge<V>(row: Row<V>): int {
    if row.None? then NULL_TTL else REDIS_TTL + REDIS_TTL / 5 - 1
  }

  function LocalAge<V>(row: Row<V>): int {
    if row.None? then NULL_TTL else LOCAL_TTL + LOCAL_TTL / 5 - 1
  }

  /** Both in figures: an answer can be this old at most. */
  function MaxAge<V>(row: Row<V>): int {
    if row.None? then 2 * MINUTE else 12 * MINUTE + 36 * SECOND - 2
  }

  /** Every entry was the truth not too long before it stops being served, and not in the future. */
  ghost predicate Fresh<V>(db: Db<V>, c: Caches<V>, now: int) {
    && (c.redis.Some? ==> WasTrue(db, c.redis.value.row, c.redis.value.until - RedisAge(c.redis.value.row), now))
    && (forall p :: p in c.local ==>
          WasTrue(db, c.local[p].row, c.local[p].until - RedisAge(c.local[p].row) - LocalAge(c.local[p].row), now))
  }

  lemma TrueForLonger<V>(db: Db<V>, row: Row<V>, from: int, to: int, from': int, to': int)
    requires WasTrue(db, row, from, to) && from' <= from && to <= to'
    ensures WasTrue(db, row, from', to')
  {
  }

  lemma TrueNow<V>(db: Db<V>, from: int, now: int)
    requires from <= now
    ensures WasTrue(db, db(now), from, now)
  {
  }

  lemma WaitingKeepsFresh<V>(db: Db<V>, c: Caches<V>, before: int, now: int)
    requires Fresh(db, c, before) && before <= now
    ensures Fresh(db, c, now)
  {
    hide WasTrue, RedisAge, LocalAge;
    if c.redis.Some? {
      var from := c.redis.value.until - RedisAge(c.redis.value.row);
      TrueForLonger(db, c.redis.value.row, from, before, from, now);
    }
    forall p | p in c.local
      ensures WasTrue(db, c.local[p].row, c.local[p].until - RedisAge(c.local[p].row) - LocalAge(c.local[p].row), now)
    {
      var from := c.local[p].until - RedisAge(c.local[p].row) - LocalAge(c.local[p].row);
      TrueForLonger(db, c.local[p].row, from, before, from, now);
    }
  }

  /** A new entry is due no later than its age allows. */
  lemma NewEntryAges<V>(row: Row<V>, now: int, load: Load)
    requires LoadOk(load)
    ensures LocalEntry(row, now, load).until - LocalAge(row) <= now
    ensures RedisEntry(row, now, load).until - RedisAge(row) <= now
    ensures LocalAge(row) >= 0 && RedisAge(row) >= 0
  {
  }

  lemma GetKeepsFresh<V>(db: Db<V>, c: Caches<V>, before: int, process: nat, now: int, load: Load)
    requires Fresh(db, c, before) && before <= now && LoadOk(load)
    ensures Fresh(db, Get(c, process, db(now), now, load).0, now)
    ensures var answer := Get(c, process, db(now), now, load).1;
            answer.Served? ==> WasTrue(db, answer.row, now - RedisAge(answer.row) - LocalAge(answer.row), now)
  {
    hide WasTrue, RedisAge, LocalAge, LoadOk;
    WaitingKeepsFresh(db, c, before, now);
    if process in c.local && now <= c.local[process].until {
      var Entry(row, until) := c.local[process];
      TrueForLonger(db, row, until - RedisAge(row) - LocalAge(row), now, now - RedisAge(row) - LocalAge(row), now);
    } else if RedisHit(c, now, load) {
      var Entry(row, until) := c.redis.value;
      NewEntryAges(row, now, load);
      TrueForLonger(db, row, until - RedisAge(row), now, now - RedisAge(row) - LocalAge(row), now);
      var local := LocalEntry(row, now, load);
      TrueForLonger(db, row, until - RedisAge(row), now, local.until - RedisAge(row) - LocalAge(row), now);
    } else {
      var row := db(now);
      NewEntryAges(row, now, load);
      TrueNow(db, now - RedisAge(row) - LocalAge(row), now);
      TrueNow(db, LocalEntry(row, now, load).until - RedisAge(row) - LocalAge(row), now);
      TrueNow(db, RedisEntry(row, now, load).until - RedisAge(row), now);
    }
  }

  datatype Lookup = Lookup(process: nat, now: int, load: Load)

  ghost predicate Timely(lookups: seq<Lookup>, from: int) {
    && (forall k :: 0 <= k < |lookups| ==> from <= lookups[k].now && LoadOk(lookups[k].load))
    && (forall j, k :: 0 <= j < k < |lookups| ==> lookups[j].now <= lookups[k].now)
  }

  ghost function Answers<V>(db: Db<V>, c: Caches<V>, lookups: seq<Lookup>): seq<Answer<V>>
    decreases |lookups|
  {
    if lookups == [] then []
    else
      var x := lookups[0];
      var (c', answer) := Get(c, x.process, db(x.now), x.now, x.load);
      [answer] + Answers(db, c', lookups[1..])
  }

  ghost predicate Bounded<V>(db: Db<V>, lookups: seq<Lookup>, answers: seq<Answer<V>>) {
    && |answers| == |lookups|
    && forall k :: 0 <= k < |answers| && answers[k].Served? ==>
         var now, row := lookups[k].now, answers[k].row;
         WasTrue(db, row, now - MaxAge(row), now)
  }

  /** Any number of processes look up at any times while the row changes at any times: a row served at
      `now` was in the database less than 12 min + 36 s before, a null at most 2 min before. */
  lemma {:induction false} StalenessBound<V>(db: Db<V>, c: Caches<V>, lookups: seq<Lookup>, from: int)
    requires Fresh(db, c, from) && Timely(lookups, from)
    ensures Bounded(db, lookups, Answers(db, c, lookups))
    decreases |lookups|
  {
    if lookups != [] {
      var x := lookups[0];
      var (c', answer) := Get(c, x.process, db(x.now), x.now, x.load);
      GetKeepsFresh(db, c, from, x.process, x.now, x.load);
      StalenessBound(db, c', lookups[1..], x.now);
      var answers := Answers(db, c, lookups);
      forall k | 0 <= k < |answers| && answers[k].Served?
        ensures WasTrue(db, answers[k].row, lookups[k].now - MaxAge(answers[k].row), lookups[k].now)
      {
        if k > 0 {
          assert answers[k] == Answers(db, c', lookups[1..])[k - 1];
          assert lookups[k] == lookups[1..][k - 1];
        }
      }
    }
  }

  /** The row changes right after instant 0. */
  ghost function Replaced(): Db<int> {
    t => if t <= 0 then Some(1) else Some(2)
  }

  /** The row is inserted right after instant 0. */
  ghost function Appeared(): Db<int> {
    t => if t <= 0 then None else Some(1)
  }

  /** The bound for rows is reached to the last nanosecond: one process fills Redis, a second one copies
      the entry just before it expires there and serves its copy just before that expires. */
  lemma StalenessReached()
    ensures var db := Replaced();
            var load := Load(LOCAL_TTL / 5 - 1, REDIS_TTL / 5 - 1, false, false, false, false);
            var end := MaxAge(Some(1));
            var lookups := [Lookup(0, 0, load), Lookup(1, RedisAge(Some(1)), load), Lookup(1, end, load)];
            var answers := Answers(db, Caches(map[], None), lookups);
            && Timely(lookups, 0)
            && |answers| == 3 && answers[2] == Served(Some(1))
            && !WasTrue(db, Some(1), 1, end)
  {
    hide Answers;
    var db := Replaced();
    var load := Load(LOCAL_TTL / 5 - 1, REDIS_TTL / 5 - 1, false, false, false, false);
    var end := MaxAge(Some(1));
    var c0: Caches<int> := Caches(map[], None);
    var (c1, a1) := Get(c0, 0, db(0), 0, load);
    var (c2, a2) := Get(c1, 1, db(RedisAge(Some(1))), RedisAge(Some(1)), load);
    var (c3, a3) := Get(c2, 1, db(end), end, load);
    var one, two, three := Lookup(0, 0, load), Lookup(1, RedisAge(Some(1)), load), Lookup(1, end, load);
    AnswersOneByOne(db, c2, three, []);
    AnswersOneByOne(db, c1, two, [three]);
    AnswersOneByOne(db, c0, one, [two, three]);
    assert [two] + [three] == [two, three] && [one] + [two, three] == [one, two, three];
  }

  /** The bound for nulls is reached, too: the row is created right after one process has cached its absence, and a
      second process that copies the null in its last instant in Redis serves it for another minute. */
  lemma NullStalenessReached()
    ensures var db := Appeared();
            var load := Load(0, 0, false, false, false, false);
            var end := MaxAge<int>(None);
            var lookups := [Lookup(0, 0, load), Lookup(1, 60 * SECOND, load), Lookup(1, end, load)];
            var answers := Answers(db, Caches(map[], None), lookups);
            && end == 120 * SECOND && Timely(lookups, 0)
            && |answers| == 3 && answers[2] == Served(None)
            && !WasTrue(db, None, 1, end)
  {
    hide Answers;
    var db := Appeared();
    var load := Load(0, 0, false, false, false, false);
    var end := MaxAge<int>(None);
    var c0: Caches<int> := Caches(map[], None);
    var (c1, a1) := Get(c0, 0, db(0), 0, load);
    var (c2, a2) := Get(c1, 1, db(60 * SECOND), 60 * SECOND, load);
    var (c3, a3) := Get(c2, 1, db(end), end, load);
    var one, two, three := Lookup(0, 0, load), Lookup(1, 60 * SECOND, load), Lookup(1, end, load);
    AnswersOneByOne(db, c2, three, []);
    AnswersOneByOne(db, c1, two, [three]);
    AnswersOneByOne(db, c0, one, [two, three]);
    assert [two] + [three] == [two, three] && [one] + [two, three] == [one, two, three];
  }

  lemma AnswersOneByOne<V>(db: Db<V>, c: Caches<V>, x: Lookup, rest: seq<Lookup>)
    ensures var (c', answer) := Get(c, x.process, db(x.now), x.now, x.load);
            && Answers(db, c, [x] + rest) == [answer] + Answers(db, c', rest)
            && (rest == [] ==> Answers(db, c, [x]) == [answer])
  {
    assert ([x] + rest)[1..] == rest;
    if rest == [] {
      assert [x] + rest == [x];
    }
  }

  lemma EmptyIsFresh<V>(db: Db<V>, now: int)
    ensures Fresh(db, Caches(map[], None), now)
  {
  }

  /** While the row does not change the cache is invisible: every answered lookup equals a read. */
  lemma {:induction false} UnchangingRow<V>(db: Db<V>, lookups: seq<Lookup>, from: int, row: Row<V>)
    requires Timely(lookups, from) && forall t :: db(t) == row
    ensures var answers := Answers(db, Caches(map[], None), lookups);
            && |answers| == |lookups|
            && forall k :: 0 <= k < |lookups| ==> answers[k].Failed? || answers[k].row == row
  {
    EmptyIsFresh(db, from);
    StalenessBound(db, Caches(map[], None), lookups, from);
    var answers := Answers(db, Caches(map[], None), lookups);
    forall k | 0 <= k < |lookups| && answers[k].Served?
      ensures answers[k].row == row
    {
      var r := answers[k].row;
      assert WasTrue(db, r, lookups[k].now - MaxAge(r), lookups[k].now);
    }
  }
}
