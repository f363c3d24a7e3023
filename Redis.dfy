/**
 * The Redis server as the task service sees it: an in-memory map from key to
 * (value, expiry), read lazily against an injected clock, with SETEX, GET and
 * PING. A server that cannot be reached answers every command with the
 * connection error held in `outage`.
 */
module Redis {
  import opened Wrappers
  import opened Json

  datatype Entry = Entry(value: Blob, expiresAt: int)

  /**
   * What `GET key` answers at time `now`: the connection error, the live
   * value, or nothing (absent or expired; the two look the same).
   */
  function Lookup(entries: map<string, Entry>, outage: Option<string>, key: string, now: int)
    : (r: Result<Option<Blob>, string>)
    ensures outage.Some? <==> r.Failure?
    ensures r.Success? && r.value.Some? <==>
              outage.None? && key in entries && now < entries[key].expiresAt
    ensures r.Failure? ==> r.error == outage.value
    ensures r.Success? && r.value.Some? ==> r.value.value == entries[key].value
  {
    if outage.Some? then Failure(outage.value)
    else if key in entries && now < entries[key].expiresAt then Success(Some(entries[key].value))
    else Success(None)
  }

  /** The entry map after a successful `SETEX key ttl value` at time `now`. */
  function Written(entries: map<string, Entry>, key: string, ttl: int, value: Blob, now: int)
    : (m: map<string, Entry>)
    ensures m.Keys == entries.Keys + {key}
  {
    entries[key := Entry(value, now + ttl)]
  }

  /** A value written with TTL `ttl` is read back exactly while less than `ttl` seconds have passed. */
  lemma ReadAfterWrite(entries: map<string, Entry>, key: string, ttl: int, value: Blob, now: int, later: int)
    requires now <= later
    ensures Lookup(Written(entries, key, ttl, value, now), None, key, later)
            == if later < now + ttl then Success(Some(value)) else Success(None)
  {
  }

  /** Writing one key leaves what every other key reads unchanged. */
  lemma WriteIsolated(entries: map<string, Entry>, key: string, ttl: int, value: Blob, now: int,
                      other: string, outage: Option<string>, at: int)
    requires other != key
    ensures Lookup(Written(entries, key, ttl, value, now), outage, other, at)
            == Lookup(entries, outage, other, at)
  {
  }

  class Store {
    var entries: map<string, Entry>
    var outage: Option<string>

    constructor (outage: Option<string>)
      ensures entries == map[] && this.outage == outage
    {
      entries := map[];
      this.outage := outage;
    }

    /** `GET key` */
    method Get(key: string, now: int) returns (r: Result<Option<Blob>, string>)
      ensures r == Lookup(entries, outage, key, now)
    {
      r := Lookup(entries, outage, key, now);
    }

    /** `SETEX key ttl value`: on success replaces the key's value and expiry, nothing else. */
    method SetEx(key: string, ttl: int, value: Blob, now: int) returns (err: Option<string>)
      requires ttl > 0
      modifies this
      ensures outage == old(outage) && err == outage
      ensures entries == if err.Some? then old(entries) else Written(old(entries), key, ttl, value, now)
    {
      err := outage;
      if err.None? {
        entries := entries[key := Entry(value, now + ttl)];
      }
    }

    /** `PING` */
    method Ping() returns (err: Option<string>)
      ensures err == outage
    {
      err := outage;
    }
  }
}
