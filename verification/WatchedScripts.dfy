/** The indexer's cache of watched scripts: how stale an answer can be. */
module WatchedScripts {
  import opened Prelude
  import opened Models
  import opened Database

  type Scripts = map<string, WatchedScript>

  /** Durations in nanoseconds. */
  const FIVE_MINUTES := 300_000_000_000
  const ONE_HOUR := 3_600_000_000_000

  /** The clock, the watched_script table, and the two fields of the cache. */
  datatype World = World(now: int, table: Scripts, cache: Scripts, expiry: int)

  /** What any process may do. A read looks at the cache under the read lock and, on a miss,
      again under the write lock, where it may reload; other steps may come in between. */
  datatype Event = Tick(elapsed: nat) | Insert(script: WatchedScript) | FastRead | SlowRead(fault: Option<Error>) | Invalidate

  predicate Fresh(s: World) { s.now < s.expiry && |s.cache| > 0 }

  function Next(s: World, e: Event): World {
    match e
    case Tick(elapsed) => s.(now := s.now + elapsed)
    case Insert(script) => if script.scriptHex in s.table then s else s.(table := s.table[script.scriptHex := script])
    case FastRead => s
    case SlowRead(fault) => if Fresh(s) || fault.Some? then s else s.(cache := s.table, expiry := s.now + FIVE_MINUTES)
    case Invalidate => s.(expiry := s.now - ONE_HOUR)
  }

  /** The map a read returns, if it returns one. */
  function Returned(s: World, e: Event): Option<Scripts> {
    match e
    case FastRead => if Fresh(s) then Some(s.cache) else None
    case SlowRead(fault) => if Fresh(s) then Some(s.cache) else if fault.Some? then None else Some(s.table)
    case _ => None
  }

  ghost predicate Run(states: seq<World>, events: seq<Event>) {
    && |states| == |events| + 1
    && states[0].cache == map[] && states[0].expiry <= states[0].now
    && forall n :: 0 <= n < |events| ==> states[n + 1] == Next(states[n], events[n])
  }

  /** The cache is a copy of the table made five minutes before it expires. */
  ghost predicate Copied(states: seq<World>, n: nat)
    requires n < |states|
  {
    states[n].now < states[n].expiry ==>
      exists k :: 0 <= k <= n && states[k].table == states[n].cache && states[k].now + FIVE_MINUTES == states[n].expiry
  }

  lemma {:induction false} RunKeepsCopied(states: seq<World>, events: seq<Event>, n: nat)
    requires Run(states, events) && n <= |events|
    ensures Copied(states, n)
  {
    if n > 0 {
      RunKeepsCopied(states, events, n - 1);
      assert states[n] == Next(states[n - 1], events[n - 1]);
      if states[n].now < states[n].expiry {
        var before, e := states[n - 1], events[n - 1];
        if e.SlowRead? && !Fresh(before) && e.fault.None? {
          assert before.table == states[n].cache;
        } else {
          var k :| 0 <= k <= n - 1 && states[k].table == before.cache && states[k].now + FIVE_MINUTES == before.expiry;
          assert states[n].cache == before.cache;
        }
      }
    }
  }

  predicate Extends(a: Scripts, b: Scripts) {
    forall h :: h in a ==> h in b && b[h] == a[h]
  }

  /** Time only passes and the table only grows. */
  lemma {:induction false} RunGrows(states: seq<World>, events: seq<Event>, k: nat, n: nat)
    requires Run(states, events) && k <= n <= |events|
    ensures states[k].now <= states[n].now && Extends(states[k].table, states[n].table)
    decreases n - k
  {
    if k < n {
      RunGrows(states, events, k, n - 1);
      assert states[n] == Next(states[n - 1], events[n - 1]);
    }
  }

  /** Whatever readers, refreshes, inserts and invalidations do: the map a read returns is the
      table as it was at some moment less than five minutes earlier, and it is empty only if the
      table is empty now. */
  lemma ReadIsRecent(states: seq<World>, events: seq<Event>, n: nat) returns (k: nat)
    requires Run(states, events) && n < |events| && Returned(states[n], events[n]).Some?
    ensures k <= n && Returned(states[n], events[n]) == Some(states[k].table)
    ensures states[n].now - 5 * 60 * 1_000_000_000 < states[k].now <= states[n].now
    ensures |states[k].table| == 0 ==> |states[n].table| == 0
  {
    RunKeepsCopied(states, events, n);
    if Fresh(states[n]) {
      k :| 0 <= k <= n && states[k].table == states[n].cache && states[k].now + FIVE_MINUTES == states[n].expiry;
      RunGrows(states, events, k, n);
    } else {
      k := n;
    }
  }

  /** So every hit is correct, and every script at least five minutes old is found. */
  lemma HitsAreCorrect(states: seq<World>, events: seq<Event>, n: nat, j: nat)
    requires Run(states, events) && n < |events| && Returned(states[n], events[n]).Some?
    requires j <= n && states[j].now <= states[n].now - 5 * 60 * 1_000_000_000
    ensures var m := Returned(states[n], events[n]).value;
            Extends(m, states[n].table) && Extends(states[j].table, m)
  {
    var k := ReadIsRecent(states, events, n);
    RunGrows(states, events, k, n);
    if j < k {
      RunGrows(states, events, j, k);
    } else {
      RunGrows(states, events, k, j);
    }
  }

  /** The step reads the whole table and keeps it. */
  predicate Reloads(s: World, e: Event) { e.SlowRead? && !Fresh(s) && e.fault.None? }

  /** And a loaded cache is used: until it is invalidated, every read in the five minutes after
      a reload of a table with scripts gets that table, without asking the database. */
  lemma {:induction false} CacheLasts(states: seq<World>, events: seq<Event>, k: nat, n: nat)
    requires Run(states, events) && k < n <= |events| && Reloads(states[k], events[k])
    requires |states[k].table| > 0
    requires forall m :: k < m < n ==> !events[m].Invalidate?
    requires states[n].now < states[k].now + 5 * 60 * 1_000_000_000
    ensures Returned(states[n], FastRead) == Some(states[k].table)
    ensures states[n].cache == states[k].table && states[n].expiry == states[k].now + 5 * 60 * 1_000_000_000
  {
    assert states[n] == Next(states[n - 1], events[n - 1]);
    if k < n - 1 {
      RunGrows(states, events, n - 1, n);
      CacheLasts(states, events, k, n - 1);
    }
  }

  /** An invalidation takes effect at once: until the next reload nobody is answered from the
      cache, and whoever finds the database willing gets the table as it is then. */
  lemma {:induction false} InvalidatedReloads(states: seq<World>, events: seq<Event>, k: nat, n: nat)
    requires Run(states, events) && k < n <= |events| && events[k].Invalidate?
    requires forall m :: k < m < n ==> !Reloads(states[m], events[m])
    ensures states[n].expiry < states[n].now
    ensures Returned(states[n], FastRead) == None && Returned(states[n], SlowRead(None)) == Some(states[n].table)
  {
    assert states[n] == Next(states[n - 1], events[n - 1]);
    if k < n - 1 { InvalidatedReloads(states, events, k, n - 1); }
  }

  // ----- the code

  class ScriptCache {
    var watchedScriptsCache: Scripts
    var cacheExpiry: int

    ghost function Now(now: int, db: DB): World
      reads this, db
    {
      World(now, db.watched, watchedScriptsCache, cacheExpiry)
    }

    constructor (zeroTime: int)
      ensures watchedScriptsCache == map[] && cacheExpiry == zeroTime
    {
      watchedScriptsCache, cacheExpiry := map[], zeroTime;
    }

    /** The first look, under the read lock. */
    method ReadCached(now: int, ghost db: DB) returns (r: Option<Scripts>)
      ensures r == Returned(Now(now, db), FastRead)
      ensures r == if now < cacheExpiry && |watchedScriptsCache| > 0 then Some(watchedScriptsCache) else None
    {
      if now < cacheExpiry && |watchedScriptsCache| > 0 { return Some(watchedScriptsCache); }
      r := None;
    }

    /** The second look and the reload, under the write lock. */
    method Refresh(now: int, db: DB, fault: Option<Error>) returns (r: Result<Scripts>)
      modifies this
      ensures Now(now, db) == Next(old(Now(now, db)), SlowRead(fault))
      ensures r.Success? <==> Returned(old(Now(now, db)), SlowRead(fault)).Some?
      ensures r.Success? ==> Some(r.value) == Returned(old(Now(now, db)), SlowRead(fault))
      ensures r.Success? ==> r.value == watchedScriptsCache
      ensures r.Success? ==> unchanged(this) || (watchedScriptsCache == db.watched && cacheExpiry == now + 5 * 60 * 1_000_000_000)
      ensures r.Failure? ==> unchanged(this)
    {
      if now < cacheExpiry && |watchedScriptsCache| > 0 { return Success(watchedScriptsCache); }
      if fault.Some? { return Failure(fault.value); }
      // The rows come in no particular order.
      var left := db.watched.Keys;
      watchedScriptsCache := map[];
      while left != {}
        invariant left <= db.watched.Keys
        invariant watchedScriptsCache == map h | h in db.watched && h !in left :: db.watched[h]
        decreases |left|
      {
        var h :| h in left;
        watchedScriptsCache := watchedScriptsCache[h := db.watched[h]];
        left := left - {h};
      }
      assert watchedScriptsCache == db.watched;
      cacheExpiry := now + FIVE_MINUTES;
      r := Success(watchedScriptsCache);
    }

    method InvalidateCache(now: int, ghost db: DB)
      modifies this
      ensures Now(now, db) == Next(old(Now(now, db)), Invalidate)
      ensures watchedScriptsCache == old(watchedScriptsCache) && cacheExpiry == now - 60 * 60 * 1_000_000_000
    {
      cacheExpiry := now - ONE_HOUR;
    }
  }

  /** Adding a script, by any process, is the insert of the model. */
  method AddScript(db: DB, script: WatchedScript, now: int, cache: ScriptCache)
    modifies db`watched
    ensures cache.Now(now, db) == Next(old(cache.Now(now, db)), Insert(script))
  {
    db.AddWatchedScript(script);
    assert db.watched == if script.scriptHex in old(db.watched) then old(db.watched) else old(db.watched)[script.scriptHex := script];
  }
}
