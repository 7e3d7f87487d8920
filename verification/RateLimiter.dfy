/**
 The rate-limiting interceptor: one record per key, mutated in place, with fixed windows, a block
 after too many requests, and a purge of old records every ten minutes.
 Times are milliseconds; durations are configured in seconds.
 */
module RateLimiter {
  import opened Common

  datatype Config = Config(points: nat, duration: nat, blockDuration: Option<nat>) {
    function Window(): nat { duration * 1000 }

    /** A missing or zero block duration means five minutes. */
    function Block(): nat {
      if blockDuration.Some? && blockDuration.value != 0 then blockDuration.value * 1000 else 300 * 1000
    }
  }

  /** The value of a record. blockedUntil is None until the key is first blocked. */
  datatype Rec = Rec(count: nat, resetTime: int, blockedUntil: Option<int>)

  const CLEANUP_KEY := "rateLimitCleanup"
  const CLEANUP_INTERVAL := 10 * 60 * 1000

  predicate Blocked(r: Rec, now: int) {
    r.blockedUntil.Some? && r.blockedUntil.value != 0 && r.blockedUntil.value > now
  }

  /** A request on a key whose record, possibly just made, is r: the new record, and whether it is admitted. */
  function Hit(c: Config, r: Rec, now: int): (Rec, bool) {
    if Blocked(r, now) then (r, false)
    else
      var r1 := if r.resetTime <= now then r.(count := 0, resetTime := now + c.Window()) else r;
      var r2 := r1.(count := r1.count + 1);
      if r2.count > c.points then (r2.(blockedUntil := Some(now + c.Block())), false)
      else (r2, true)
  }

  function NewRec(c: Config, now: int): Rec {
    Rec(0, now + c.Window(), None)
  }

  function RecOf(c: Config, m: map<string, Rec>, key: string, now: int): Rec {
    if key in m then m[key] else NewRec(c, now)
  }

  /** The test of `cleanupStore`. */
  predicate Stale(r: Rec, now: int) {
    r.resetTime < now && (r.blockedUntil.None? || r.blockedUntil.value == 0 || r.blockedUntil.value < now)
  }

  function Purge(m: map<string, Rec>, now: int): map<string, Rec> {
    map k | k in m && !Stale(m[k], now) :: m[k]
  }

  function LastCleanup(m: map<string, Rec>): int {
    if CLEANUP_KEY in m then m[CLEANUP_KEY].resetTime else 0
  }

  /** One request, as the interceptor serves it. */
  function Serve(c: Config, m: map<string, Rec>, key: string, now: int): (map<string, Rec>, bool) {
    var r0 := RecOf(c, m, key, now);
    if Blocked(r0, now) then (m, false)
    else
      var (r, ok) := Hit(c, r0, now);
      var m1 := m[key := r];
      if ok && now - LastCleanup(m1) > CLEANUP_INTERVAL
      then (Purge(m1, now)[CLEANUP_KEY := Rec(0, now, None)], true)
      else (m1, ok)
  }

  /** One request, served without ever deleting a record. */
  function ServeKeeping(c: Config, m: map<string, Rec>, key: string, now: int): (map<string, Rec>, bool) {
    var (r, ok) := Hit(c, RecOf(c, m, key, now), now);
    (m[key := r], ok)
  }

  // ---------------------------------------------------------------------------------------------
  // The interceptor object
  // ---------------------------------------------------------------------------------------------

  class Record {
    var count: nat
    var resetTime: int
    var blockedUntil: Option<int>

    constructor (resetTime: int)
      ensures Value() == Rec(0, resetTime, None)
    {
      this.count, this.resetTime, this.blockedUntil := 0, resetTime, None;
    }

    ghost function Value(): Rec
      reads this
    {
      Rec(count, resetTime, blockedUntil)
    }
  }

  class Interceptor {
    var store: map<string, Record>
    const config: Config

    constructor (config: Config)
      ensures this.config == config && Valid() && Abs() == map[]
    {
      this.config := config;
      store := map[];
    }

    /** No two keys share a record. */
    ghost predicate Valid()
      reads this
    {
      forall k, l :: k in store && l in store && store[k] == store[l] ==> k == l
    }

    ghost function Abs(): map<string, Rec>
      reads this, store.Values
    {
      map k | k in store :: store[k].Value()
    }

    method Intercept(key: string, now: int) returns (admitted: bool)
      requires Valid()
      modifies this, store.Values
      ensures Valid() && fresh(store.Values - old(store.Values))
      ensures Abs() == Serve(config, old(Abs()), key, now).0
      ensures admitted == Serve(config, old(Abs()), key, now).1
    {
      ghost var m := Abs();
      var record: Record;
      if key in store {
        record := store[key];
      } else {
        record := new Record(now + config.Window());
      }
      assert record.Value() == RecOf(config, m, key, now);
      if record.blockedUntil.Some? && record.blockedUntil.value != 0 && record.blockedUntil.value > now {
        return false;
      }
      admitted := HitRecord(record, key, now);
      assert Abs() == m[key := record.Value()];
      if admitted {
        CleanUpIfDue(now);
      }
    }

    /** Counts the request in its record, which the store then holds. */
    method HitRecord(record: Record, key: string, now: int) returns (admitted: bool)
      requires Valid() && (if key in store then store[key] == record else record !in store.Values)
      requires !Blocked(record.Value(), now)
      modifies this`store, record
      ensures Valid() && store == old(store)[key := record]
      ensures record.Value() == Hit(config, old(record.Value()), now).0
      ensures admitted == Hit(config, old(record.Value()), now).1
    {
      if record.resetTime <= now {
        record.count := 0;
        record.resetTime := now + config.Window();
      }
      record.count := record.count + 1;
      store := store[key := record];
      if record.count > config.points {
        record.blockedUntil := Some(now + config.Block());
        return false;
      }
      return true;
    }

    method CleanUpIfDue(now: int)
      requires Valid()
      modifies this`store
      ensures Valid() && fresh(store.Values - old(store.Values))
      ensures Abs() == if now - LastCleanup(old(Abs())) > CLEANUP_INTERVAL
                       then Purge(old(Abs()), now)[CLEANUP_KEY := Rec(0, now, None)] else old(Abs())
    {
      var lastCleanup := if CLEANUP_KEY in store then store[CLEANUP_KEY].resetTime else 0;
      if now - lastCleanup > CLEANUP_INTERVAL {
        CleanupStore(now);
        ghost var m := Abs();
        var marker := new Record(now);
        store := store[CLEANUP_KEY := marker];
        assert Abs() == m[CLEANUP_KEY := Rec(0, now, None)];
      }
    }

    method CleanupStore(now: int)
      requires Valid()
      modifies this`store
      ensures Valid() && store.Values <= old(store.Values)
      ensures Abs() == Purge(old(Abs()), now)
    {
      var todo := store.Keys;
      while todo != {}
        invariant todo <= store.Keys <= old(store.Keys)
        invariant forall k :: k in store ==> store[k] == old(store[k])
        invariant forall k :: k in old(store) && k !in todo ==> (k in store <==> !Stale(old(store[k].Value()), now))
        invariant forall k :: k in todo ==> k in store
        decreases |todo|
      {
        var key :| key in todo;
        var record := store[key];
        if record.resetTime < now
           && (record.blockedUntil.None? || record.blockedUntil.value == 0 || record.blockedUntil.value < now) {
          store := store - {key};
        }
        todo := todo - {key};
      }
    }
  }
}
