/** The Redis store behind the API handlers, reduced to the commands they
 *  use: GET, INCR, DECR, EXPIRE, SET NX EX, ZSCORE, ZADD and ZRANGE REV.
 *  Integer values live in `counters`, plain strings in `strings`, the
 *  time-to-live set on a key (in seconds) in `expiries`, and sorted sets
 *  in `zsets`. */
module Store {
  import opened Basics
  import opened SortedSet

  /** The integer under `key`, 0 when it is absent (what INCR starts
   *  from). */
  function Count(counters: map<string, int>, key: string): int {
    if key in counters then counters[key] else 0
  }

  class Redis {
    var counters: map<string, int>
    var strings: map<string, string>
    var expiries: map<string, real>
    var zsets: map<string, seq<ZEntry>>

    /** Every sorted set is best first with unique members. */
    ghost predicate Valid()
      reads this
    {
      forall key :: key in zsets ==> Good(zsets[key])
    }

    constructor ()
      ensures Valid()
      ensures counters == map[] && strings == map[] && expiries == map[] && zsets == map[]
    {
      counters, strings, expiries, zsets := map[], map[], map[], map[];
    }

    /** GET on an integer key: null exactly when the key is absent, so
     *  that the handlers' `?? 0` reads the count INCR would start from. */
    function Get(key: string): (v: Option<int>)
      reads this
      ensures v.None? <==> key !in counters
      ensures (if v.Some? then v.value else 0) == Count(counters, key)
    {
      if key in counters then Some(counters[key]) else None
    }

    /** `(await redis.get(key)) ?? 0`: the stored count, 0 when absent. */
    method ReadCount(key: string) returns (n: int)
      ensures n == Count(counters, key)
    {
      var stored := Get(key);
      n := if stored.Some? then stored.value else 0;
    }

    /** INCR: adds one (an absent key counts as 0) and returns the new
     *  value. */
    method Incr(key: string) returns (v: int)
      modifies this`counters
      ensures v == Count(old(counters), key) + 1
      ensures counters == old(counters)[key := v]
    {
      v := Count(counters, key) + 1;
      counters := counters[key := v];
    }

    /** DECR: subtracts one (an absent key counts as 0) and returns the new
     *  value. */
    method Decr(key: string) returns (v: int)
      modifies this`counters
      ensures v == Count(old(counters), key) - 1
      ensures counters == old(counters)[key := v]
    {
      v := Count(counters, key) - 1;
      counters := counters[key := v];
    }

    /** EXPIRE: records the key's time to live. */
    method Expire(key: string, seconds: real)
      modifies this`expiries
      ensures expiries == old(expiries)[key := seconds]
    {
      expiries := expiries[key := seconds];
    }

    /** SET key value NX EX seconds: writes only when the key does not exist
     *  yet, and says whether it wrote. */
    method SetIfAbsent(key: string, value: string, seconds: real) returns (written: bool)
      modifies this`strings, this`expiries
      ensures written <==> key !in old(strings) && key !in counters
      ensures written ==> strings == old(strings)[key := value] && expiries == old(expiries)[key := seconds]
      ensures !written ==> strings == old(strings) && expiries == old(expiries)
    {
      written := key !in strings && key !in counters;
      if written {
        strings := strings[key := value];
        expiries := expiries[key := seconds];
      }
    }

    /** The sorted set under `key`, empty when absent. */
    function ZSet(key: string): (s: seq<ZEntry>)
      reads this
      requires Valid()
      ensures Good(s)
    {
      if key in zsets then zsets[key] else []
    }

    /** ZADD key score member: sets the member's score. */
    method ZAddMember(key: string, member: string, score: real)
      requires Valid()
      modifies this`zsets
      ensures Valid()
      ensures zsets == old(zsets)[key := ZAdd(old(ZSet(key)), member, score)]
    {
      zsets := zsets[key := ZAdd(ZSet(key), member, score)];
    }
  }
}
