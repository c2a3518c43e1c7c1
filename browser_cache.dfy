/** The browser cache over `localStorage`. Storage is a map from keys to
    stored items; an item is either a well-formed entry (data, the time it
    was written and the time it expires) or something that does not parse.
    Every key this cache writes carries the prefix `gamepass_`; keys without
    it belong to other code and are never touched. The clock is `now`. */
module BrowserCache {
  import opened Common

  const CachePrefix := "gamepass_"

  /** Thirty minutes, in milliseconds. */
  const DefaultTtl: int := 30 * 60 * 1000

  datatype Item<T> = Entry(data: T, timestamp: int, expiresAt: int) | Corrupt

  function StorageKey(key: string): string {
    CachePrefix + key
  }

  // ---------------------------------------------------------------------------
  // Each operation as a function of the storage before it.

  function SetStore<T>(st: map<string, Item<T>>, key: string, data: T, ttl: int, now: int): (r: map<string, Item<T>>)
    ensures r.Keys == st.Keys + {StorageKey(key)}
    ensures r[StorageKey(key)] == Entry(data, now, now + ttl)
    ensures forall k :: k in st && k != StorageKey(key) ==> r[k] == st[k]
  {
    st[StorageKey(key) := Entry(data, now, now + ttl)]
  }

  /** The value `get` returns. */
  function GetResult<T>(st: map<string, Item<T>>, key: string, now: int): (r: Option<T>)
    ensures r.Some? <==> StorageKey(key) in st && st[StorageKey(key)].Entry? && now <= st[StorageKey(key)].expiresAt
    ensures r.Some? ==> r.value == st[StorageKey(key)].data
  {
    var k := StorageKey(key);
    if k !in st then None
    else match st[k]
      case Corrupt => None
      case Entry(data, _, expiresAt) => if now > expiresAt then None else Some(data)
  }

  /** The storage after `get`: an expired entry is removed, nothing else
      changes. */
  function GetStore<T>(st: map<string, Item<T>>, key: string, now: int): (r: map<string, Item<T>>)
    ensures forall k :: k != StorageKey(key) ==> (k in r <==> k in st) && (k in r ==> r[k] == st[k])
    ensures StorageKey(key) in r <==>
      StorageKey(key) in st && !(st[StorageKey(key)].Entry? && now > st[StorageKey(key)].expiresAt)
    ensures StorageKey(key) in r ==> r[StorageKey(key)] == st[StorageKey(key)]
  {
    var k := StorageKey(key);
    if k in st && st[k].Entry? && now > st[k].expiresAt then RemoveStore(st, key) else st
  }

  function RemoveStore<T>(st: map<string, Item<T>>, key: string): (r: map<string, Item<T>>)
    ensures r.Keys == st.Keys - {StorageKey(key)}
    ensures forall k :: k in r ==> r[k] == st[k]
  {
    st - {StorageKey(key)}
  }

  function ClearAllStore<T>(st: map<string, Item<T>>): (r: map<string, Item<T>>)
    ensures forall k :: k in r <==> k in st && !(CachePrefix <= k)
    ensures forall k :: k in r ==> r[k] == st[k]
  {
    map k | k in st && !(CachePrefix <= k) :: st[k]
  }

  /** `Math.floor((now - timestamp) / 60000)` for a readable entry. */
  function CacheAge<T>(st: map<string, Item<T>>, key: string, now: int): (r: Option<int>)
    ensures r.None? <==> StorageKey(key) !in st || st[StorageKey(key)].Corrupt?
    ensures r.Some? ==>
      var age := now - st[StorageKey(key)].timestamp;
      r.value * 60000 <= age < (r.value + 1) * 60000
  {
    var k := StorageKey(key);
    if k !in st then None
    else match st[k]
      case Corrupt => None
      case Entry(_, timestamp, _) => Some((now - timestamp) / 60000)
  }

  // ---------------------------------------------------------------------------
  // Properties.

  /** Writing and reading back at any time up to the expiry gives the data,
      and the read leaves storage as the write left it. */
  lemma SetThenGet<T>(st: map<string, Item<T>>, key: string, data: T, ttl: int, t1: int, t2: int)
    requires t2 <= t1 + ttl
    ensures GetResult(SetStore(st, key, data, ttl, t1), key, t2) == Some(data)
    ensures GetStore(SetStore(st, key, data, ttl, t1), key, t2) == SetStore(st, key, data, ttl, t1)
  {
  }

  /** A read after the expiry gives nothing and deletes the entry. */
  lemma SetThenGetExpired<T>(st: map<string, Item<T>>, key: string, data: T, ttl: int, t1: int, t2: int)
    requires t2 > t1 + ttl
    ensures GetResult(SetStore(st, key, data, ttl, t1), key, t2) == None
    ensures GetStore(SetStore(st, key, data, ttl, t1), key, t2) == RemoveStore(st, key)
  {
    var s1 := SetStore(st, key, data, ttl, t1);
    assert s1 - {StorageKey(key)} == st - {StorageKey(key)};
  }

  /** A corrupt item reads as nothing and stays where it is. */
  lemma GetCorrupt<T>(st: map<string, Item<T>>, key: string, now: int)
    requires StorageKey(key) in st && st[StorageKey(key)].Corrupt?
    ensures GetResult(st, key, now) == None && GetStore(st, key, now) == st
  {
  }

  /** Clearing leaves the cache empty for every key, keeps every foreign key,
      and clearing twice is clearing once. */
  lemma ClearAllProperties<T>(st: map<string, Item<T>>, key: string, now: int)
    ensures GetResult(ClearAllStore(st), key, now) == None
    ensures CacheAge(ClearAllStore(st), key, now) == None
    ensures ClearAllStore(ClearAllStore(st)) == ClearAllStore(st)
    ensures forall k :: k in st && !(CachePrefix <= k) ==> k in ClearAllStore(st) && ClearAllStore(st)[k] == st[k]
  {
    assert CachePrefix <= StorageKey(key);
  }

  /** Writing, removing and reading through the cache never touch a key
      without the prefix. */
  lemma ForeignKeysUntouched<T>(st: map<string, Item<T>>, k: string, key: string, data: T, ttl: int, now: int)
    requires !(CachePrefix <= k)
    ensures k in SetStore(st, key, data, ttl, now) <==> k in st
    ensures k in RemoveStore(st, key) <==> k in st
    ensures k in GetStore(st, key, now) <==> k in st
    ensures k in st ==> SetStore(st, key, data, ttl, now)[k] == st[k]
    ensures k in st ==> RemoveStore(st, key)[k] == st[k]
    ensures k in st ==> GetStore(st, key, now)[k] == st[k]
  {
    assert CachePrefix <= StorageKey(key);
  }

  /** The age is reported whether or not the entry has expired. */
  lemma AgeIgnoresExpiry<T>(st: map<string, Item<T>>, key: string, data: T, ttl: int, t1: int, t2: int)
    requires t2 > t1 + ttl
    ensures CacheAge(SetStore(st, key, data, ttl, t1), key, t2) == Some((t2 - t1) / 60000)
    ensures GetResult(SetStore(st, key, data, ttl, t1), key, t2) == None
  {
  }

  // ---------------------------------------------------------------------------
  // The service object over the storage.

  class CacheService<T> {
    var storage: map<string, Item<T>>

    constructor (initial: map<string, Item<T>>)
      ensures storage == initial
    {
      storage := initial;
    }

    method Set(key: string, data: T, ttl: int, now: int)
      modifies this
      ensures storage == SetStore(old(storage), key, data, ttl, now)
    {
      storage := storage[StorageKey(key) := Entry(data, now, now + ttl)];
    }

    method Get(key: string, now: int) returns (r: Option<T>)
      modifies this
      ensures r == GetResult(old(storage), key, now)
      ensures storage == GetStore(old(storage), key, now)
    {
      var k := StorageKey(key);
      if k !in storage {
        return None;
      }
      match storage[k]
      case Corrupt =>
        r := None;
      case Entry(data, _, expiresAt) =>
        if now > expiresAt {
          Remove(key);
          r := None;
        } else {
          r := Some(data);
        }
    }

    method Remove(key: string)
      modifies this
      ensures storage == RemoveStore(old(storage), key)
    {
      storage := storage - {StorageKey(key)};
    }

    /** Visit every key present and delete those with the prefix. */
    method ClearAll()
      modifies this
      ensures storage == ClearAllStore(old(storage))
    {
      var keys := storage.Keys;
      while keys != {}
        invariant keys <= old(storage).Keys
        invariant forall k :: k in storage <==> k in old(storage) && (k in keys || !(CachePrefix <= k))
        invariant forall k :: k in storage ==> storage[k] == old(storage)[k]
        decreases keys
      {
        var k :| k in keys;
        if CachePrefix <= k {
          storage := storage - {k};
        }
        keys := keys - {k};
      }
    }

    method GetCacheAge(key: string, now: int) returns (age: Option<int>)
      ensures age == CacheAge(storage, key, now)
    {
      var k := StorageKey(key);
      if k !in storage {
        return None;
      }
      match storage[k]
      case Corrupt =>
        age := None;
      case Entry(_, timestamp, _) =>
        age := Some((now - timestamp) / 60000);
    }
  }
}
