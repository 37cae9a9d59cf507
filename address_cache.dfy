/**
  `AddressCache`: an in-memory map from an address string to a stored result
  and the moment it was stored. Entries expire on lookup: a lookup that finds
  an entry whose age has reached the maximum age deletes it and misses.
  The clock is a parameter (an integer count of microseconds).
 */
module AddressCaching {
  import opened Common

  datatype CacheEntry<T> = CacheEntry(data: T, timestamp: int)

  /** The entry for `address` exists and is younger than `maxAge` at time `now`. */
  predicate IsFresh<T>(entries: map<string, CacheEntry<T>>, maxAge: int, address: string, now: int) {
    address in entries && now - entries[address].timestamp < maxAge
  }

  /** What `get` returns. */
  function Lookup<T>(entries: map<string, CacheEntry<T>>, maxAge: int, address: string, now: int): Option<T> {
    if IsFresh(entries, maxAge, address, now) then Some(entries[address].data) else None
  }

  /** The entries after `get`: an expired entry for `address` is deleted, nothing else changes. */
  function AfterLookup<T>(entries: map<string, CacheEntry<T>>, maxAge: int, address: string, now: int): map<string, CacheEntry<T>> {
    if address in entries && !IsFresh(entries, maxAge, address, now) then entries - {address} else entries
  }

  class AddressCache<T> {
    var entries: map<string, CacheEntry<T>>
    const maxAge: int

    constructor (maxAgeHours: nat)
      ensures entries == map[] && maxAge == maxAgeHours * MicrosPerHour
    {
      entries := map[];
      maxAge := maxAgeHours * MicrosPerHour;
    }

    method Get(address: string, now: int) returns (r: Option<T>)
      modifies this
      ensures r == Lookup(old(entries), maxAge, address, now)
      ensures entries == AfterLookup(old(entries), maxAge, address, now)
    {
      r := None;
      if address in entries {
        var entry := entries[address];
        var age := now - entry.timestamp;
        if age < maxAge {
          r := Some(entry.data);
        } else {
          entries := entries - {address};
        }
      }
    }

    method Set(address: string, data: T, now: int)
      modifies this
      ensures entries == old(entries)[address := CacheEntry(data, now)]
    {
      entries := entries[address := CacheEntry(data, now)];
    }

    method Clear()
      modifies this
      ensures entries == map[]
    {
      entries := map[];
    }
  }

  /** After `set(a, d)` at time `t`, `get(a)` returns `d` while the age is below `maxAge`, and misses after. */
  lemma LookupAfterSet<T>(entries: map<string, CacheEntry<T>>, maxAge: int, address: string, data: T, t: int, now: int)
    ensures Lookup(entries[address := CacheEntry(data, t)], maxAge, address, now)
         == if now - t < maxAge then Some(data) else None
  {
  }

  /** Setting one address does not change what a lookup of another address returns. */
  lemma SetLeavesOtherAddresses<T>(entries: map<string, CacheEntry<T>>, maxAge: int, a: string, b: string, data: T, t: int, now: int)
    requires a != b
    ensures Lookup(entries[a := CacheEntry(data, t)], maxAge, b, now) == Lookup(entries, maxAge, b, now)
  {
  }

  /** After `clear()` every lookup misses. */
  lemma LookupAfterClear<T>(maxAge: int, address: string, now: int)
    ensures Lookup<T>(map[], maxAge, address, now) == None
  {
  }

  /**
    A lookup of an expired entry misses, deletes that entry and leaves every
    other entry as it was; a lookup that hits changes nothing.
   */
  lemma ExpiredLookupRemovesOnlyThatEntry<T>(entries: map<string, CacheEntry<T>>, maxAge: int, address: string, now: int)
    ensures address in entries && now - entries[address].timestamp >= maxAge ==>
      && Lookup(entries, maxAge, address, now) == None
      && AfterLookup(entries, maxAge, address, now).Keys == entries.Keys - {address}
      && forall k :: k in entries && k != address ==> AfterLookup(entries, maxAge, address, now)[k] == entries[k]
    ensures IsFresh(entries, maxAge, address, now) ==> AfterLookup(entries, maxAge, address, now) == entries
  {
  }
}
