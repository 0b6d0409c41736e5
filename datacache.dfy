/**
 * The two-tier data cache of the Android app: a memory map of timestamped
 * items in front of the shared-preferences store on disk. Entries live five
 * minutes; the memory tier is trimmed to its 100 most recent entries after
 * every write. The clock is a parameter, and JSON (de)serialisation of the
 * cached records is taken to be lossless, so the disk tier holds the records
 * themselves.
 */
module DataCache {
  import opened Common

  /** `CACHE_EXPIRY_TIME`: five minutes, in milliseconds. */
  const CacheExpiryTime := 300000
  /** `MAX_MEMORY_CACHE_SIZE`. */
  const MaxMemoryCacheSize := 100

  /** Cached records, each a JSON object. */
  type Records = seq<map<string, string>>

  datatype CacheItem = CacheItem(data: Records, timestamp: int)

  /** `CacheItem.isExpired`: strictly more than five minutes old. */
  predicate IsExpired(item: CacheItem, now: int) {
    now - item.timestamp > CacheExpiryTime
  }

  /** An item is fresh when written and, once expired, stays expired. */
  lemma ExpiryMonotone(item: CacheItem, now: int, later: int)
    requires now <= later
    ensures !IsExpired(CacheItem(item.data, now), now)
    ensures IsExpired(item, now) ==> IsExpired(item, later)
  {
  }

  /** The three kinds of cached list, each under `<kind>_<id>`. */
  datatype Kind = Conversations | Memoirs | Messages

  function KindName(kind: Kind): string {
    match kind
    case Conversations => "conversations"
    case Memoirs => "memoirs"
    case Messages => "messages"
  }

  function CacheKey(kind: Kind, id: string): (key: string)
    ensures StartsWith(key, KindName(kind) + "_")
  {
    KindName(kind) + "_" + id
  }

  function TimestampKey(key: string): string {
    key + "_timestamp"
  }

  /** A value in the preferences store: a JSON string (kept decoded) or a long. */
  datatype PrefValue = PString(records: Records) | PLong(value: int)

  /** How the lookup of a key goes: found fresh in memory, found fresh on disk, found expired on disk, or not usable. */
  datatype Path = MemoryHit(item: CacheItem) | DiskHit(item: CacheItem) | DiskExpired | Miss

  /**
   * The two-tier lookup. A fresh memory item wins. Otherwise the disk entry
   * is used when its string and a positive timestamp are both there; reading
   * either key as the wrong type throws, which ends the lookup with nothing.
   */
  function LookupPath(memory: map<string, CacheItem>, prefs: map<string, PrefValue>, key: string, now: int): (p: Path)
    ensures p.MemoryHit? ==> key in memory && p.item == memory[key] && !IsExpired(p.item, now)
    ensures p.DiskHit? ==> key in prefs && prefs[key] == PString(p.item.data) && p.item.timestamp > 0 &&
                           TimestampKey(key) in prefs && prefs[TimestampKey(key)] == PLong(p.item.timestamp) &&
                           !IsExpired(p.item, now)
    ensures !p.MemoryHit? ==> key !in memory || IsExpired(memory[key], now)
  {
    var tsKey := TimestampKey(key);
    if key in memory && !IsExpired(memory[key], now) then MemoryHit(memory[key])
    else if key in prefs && prefs[key].PLong? then Miss
    else if tsKey in prefs && prefs[tsKey].PString? then Miss
    else if key in prefs && tsKey in prefs && prefs[tsKey].value > 0 then
      var item := CacheItem(prefs[key].records, prefs[tsKey].value);
      if IsExpired(item, now) then DiskExpired else DiskHit(item)
    else Miss
  }

  function PathResult(p: Path): (r: Option<Records>)
    ensures r.Some? <==> p.MemoryHit? || p.DiskHit?
  {
    match p
    case MemoryHit(item) => Some(item.data)
    case DiskHit(item) => Some(item.data)
    case _ => None
  }

  /**
   * What was cached at time `t > 0` is read back, unchanged, until five
   * minutes have passed, whether or not the memory tier still holds it.
   */
  lemma CacheRoundTrip(memory: map<string, CacheItem>, prefs: map<string, PrefValue>, key: string, data: Records, t: int, now: int)
    requires key in prefs && prefs[key] == PString(data)
    requires TimestampKey(key) in prefs && prefs[TimestampKey(key)] == PLong(t)
    requires key in memory ==> memory[key] == CacheItem(data, t)
    requires t > 0 && now - t <= CacheExpiryTime
    ensures PathResult(LookupPath(memory, prefs, key, now)) == Some(data)
  {
  }

  /** After five minutes nothing is returned for an entry written only at time `t`. */
  lemma CacheExpires(memory: map<string, CacheItem>, prefs: map<string, PrefValue>, key: string, data: Records, t: int, now: int)
    requires key in prefs && prefs[key] == PString(data)
    requires TimestampKey(key) in prefs && prefs[TimestampKey(key)] == PLong(t)
    requires key in memory ==> memory[key] == CacheItem(data, t)
    requires now - t > CacheExpiryTime
    ensures PathResult(LookupPath(memory, prefs, key, now)) == None
  {
  }

  /** Every map that is not empty has an entry no newer than all others. */
  lemma {:induction false} OldestExists(m: map<string, CacheItem>)
    requires |m| > 0
    ensures exists k :: k in m && forall j :: j in m ==> m[k].timestamp <= m[j].timestamp
    decreases |m|
  {
    var k :| k in m;
    var rest := m - {k};
    assert m.Keys == rest.Keys + {k};
    if |rest| == 0 {
      assert rest.Keys == {};
    } else {
      OldestExists(rest);
      var o :| o in rest && forall j :: j in rest ==> rest[o].timestamp <= rest[j].timestamp;
      if m[k].timestamp <= m[o].timestamp {
        assert forall j :: j in m ==> m[k].timestamp <= m[j].timestamp by {
          forall j | j in m ensures m[k].timestamp <= m[j].timestamp {
            if j != k {
              assert j in rest;
            }
          }
        }
      } else {
        assert forall j :: j in m ==> m[o].timestamp <= m[j].timestamp by {
          forall j | j in m ensures m[o].timestamp <= m[j].timestamp {
            if j != k {
              assert j in rest;
            }
          }
        }
      }
    }
  }

  /** The entries of `m` whose keys do not start with `prefix`. */
  function WithoutPrefix<V>(m: map<string, V>, prefix: string): (r: map<string, V>)
    ensures forall k :: k in r <==> k in m && !StartsWith(k, prefix)
    ensures forall k :: k in r ==> r[k] == m[k]
  {
    map k | k in m && !StartsWith(k, prefix) :: m[k]
  }

  /** `"${dataType}_$userId"` with a null `dataType`: Kotlin renders null as `null`. */
  function NullTypePrefix(userId: string): string {
    "null_" + userId
  }

  /**
   * With a null data type the prefix is `null_<id>`, which no cache key has,
   * so the user's cached lists all survive.
   */
  lemma NullTypeKeepsTypedEntries<V>(m: map<string, V>, kind: Kind, userId: string)
    requires CacheKey(kind, userId) in m
    ensures CacheKey(kind, userId) in WithoutPrefix(m, NullTypePrefix(userId))
  {
    var key := CacheKey(kind, userId);
    assert key[0] != 'n';
    assert NullTypePrefix(userId)[0] == 'n';
  }

  /** The keys of a user's cached lists. */
  function ListKeys(userId: string): (ks: set<string>)
    ensures forall kind: Kind :: CacheKey(kind, userId) in ks
  {
    {CacheKey(Conversations, userId), CacheKey(Memoirs, userId), CacheKey(Messages, userId)}
  }

  /** Every key a user's cached lists occupy on disk, timestamps included. */
  function UserKeys(userId: string): (ks: set<string>)
    ensures forall kind: Kind :: CacheKey(kind, userId) in ks && TimestampKey(CacheKey(kind, userId)) in ks
  {
    var c, m, g := CacheKey(Conversations, userId), CacheKey(Memoirs, userId), CacheKey(Messages, userId);
    {c, m, g, TimestampKey(c), TimestampKey(m), TimestampKey(g)}
  }

  class DataCacheManager {
    var memory: map<string, CacheItem>
    var prefs: map<string, PrefValue>

    constructor ()
      ensures memory == map[] && prefs == map[]
    {
      memory := map[];
      prefs := map[];
    }

    /**
     * `cleanupMemoryCache`: above 100 entries, the oldest are dropped until
     * 100 remain; every dropped entry is no newer than every kept one.
     */
    method CleanupMemoryCache()
      modifies this`memory
      ensures |old(memory)| <= MaxMemoryCacheSize ==> memory == old(memory)
      ensures |old(memory)| > MaxMemoryCacheSize ==> |memory| == MaxMemoryCacheSize
      ensures forall k :: k in memory ==> k in old(memory) && memory[k] == old(memory)[k]
      ensures forall k, j :: k in old(memory) && k !in memory && j in memory ==> old(memory)[k].timestamp <= memory[j].timestamp
    {
      if |memory| > MaxMemoryCacheSize {
        var toRemove := |memory| - MaxMemoryCacheSize;
        while toRemove > 0
          invariant toRemove >= 0 && |memory| == MaxMemoryCacheSize + toRemove
          invariant forall k :: k in memory ==> k in old(memory) && memory[k] == old(memory)[k]
          invariant forall k, j :: k in old(memory) && k !in memory && j in memory ==> old(memory)[k].timestamp <= memory[j].timestamp
        {
          OldestExists(memory);
          var oldest :| oldest in memory && forall j :: j in memory ==> memory[oldest].timestamp <= memory[j].timestamp;
          assert memory.Keys == (memory - {oldest}).Keys + {oldest};
          assert |(memory - {oldest}).Keys| == |memory.Keys| - 1;
          memory := memory - {oldest};
          toRemove := toRemove - 1;
        }
      }
    }

    /**
     * `cacheConversations`, `cacheMemoirs`, `cacheConversationMessages`: the
     * list is stored under `<kind>_<id>` in memory and on disk, with its
     * timestamp beside it on disk, then the memory tier is trimmed: nothing
     * is evicted while at most 100 entries are held, and otherwise the oldest
     * go first until 100 remain (the new entry too, if it is among them).
     */
    method Cache(kind: Kind, id: string, data: Records, now: int)
      modifies this
      ensures var key := CacheKey(kind, id);
              prefs == old(prefs)[key := PString(data)][TimestampKey(key) := PLong(now)]
      ensures var added := old(memory)[CacheKey(kind, id) := CacheItem(data, now)];
              (|added| <= MaxMemoryCacheSize ==> memory == added) &&
              (|added| > MaxMemoryCacheSize ==> |memory| == MaxMemoryCacheSize) &&
              (forall k :: k in memory ==> k in added && memory[k] == added[k]) &&
              (forall k, j :: k in added && k !in memory && j in memory ==> added[k].timestamp <= memory[j].timestamp)
    {
      var key := CacheKey(kind, id);
      var item := CacheItem(data, now);
      memory := memory[key := item];
      prefs := prefs[key := PString(data)][TimestampKey(key) := PLong(now)];
      CleanupMemoryCache();
    }

    /**
     * `getCachedConversations`, `getCachedMemoirs`,
     * `getCachedConversationMessages`: the result of `LookupPath`; a disk hit
     * is restored into memory, and an expired disk entry is removed with its
     * timestamp from both tiers.
     */
    method GetCached(kind: Kind, id: string, now: int) returns (r: Option<Records>)
      modifies this
      ensures var p := LookupPath(old(memory), old(prefs), CacheKey(kind, id), now);
              r == PathResult(p) &&
              memory == (match p
                         case DiskHit(item) => old(memory)[CacheKey(kind, id) := item]
                         case DiskExpired => old(memory) - {CacheKey(kind, id)}
                         case _ => old(memory)) &&
              prefs == if p.DiskExpired? then old(prefs) - {CacheKey(kind, id), TimestampKey(CacheKey(kind, id))} else old(prefs)
    {
      var key := CacheKey(kind, id);
      var p := LookupPath(memory, prefs, key, now);
      match p {
        case MemoryHit(item) =>
          r := Some(item.data);
        case DiskHit(item) =>
          memory := memory[key := item];
          r := Some(item.data);
        case DiskExpired =>
          ClearCacheForUser(id, Some(KindName(kind)));
          r := None;
        case Miss =>
          r := None;
      }
    }

    /**
     * `clearCacheForUser`: with a data type, the key `<type>_<id>` and its
     * timestamp leave both tiers. Without one, every key starting with
     * `null_<id>` is removed from memory, and from disk together with its
     * timestamp key.
     */
    method ClearCacheForUser(userId: string, dataType: Option<string>)
      modifies this
      ensures dataType.Some? ==> var key := dataType.value + "_" + userId;
              memory == old(memory) - {key} && prefs == old(prefs) - {key, TimestampKey(key)}
      ensures dataType.None? ==> memory == WithoutPrefix(old(memory), NullTypePrefix(userId)) &&
                                 prefs == WithoutPrefix(old(prefs), NullTypePrefix(userId))
    {
      if dataType.None? {
        var prefix := NullTypePrefix(userId);
        var keysToRemove := set k | k in memory && StartsWith(k, prefix);
        while keysToRemove != {}
          invariant keysToRemove <= old(memory).Keys
          invariant forall k :: k in memory <==> k in old(memory) && (k in keysToRemove || !StartsWith(k, prefix))
          invariant forall k :: k in memory ==> memory[k] == old(memory)[k]
          invariant prefs == old(prefs)
          decreases keysToRemove
        {
          var k :| k in keysToRemove;
          memory := memory - {k};
          keysToRemove := keysToRemove - {k};
        }
        assert memory == WithoutPrefix(old(memory), prefix);
        var prefKeys := set k | k in prefs && StartsWith(k, prefix);
        while prefKeys != {}
          invariant forall k :: k in prefs ==> k in old(prefs) && prefs[k] == old(prefs)[k] && (k in prefKeys || !StartsWith(k, prefix))
          invariant forall k :: k in old(prefs) && !StartsWith(k, prefix) ==> k in prefs
          invariant memory == WithoutPrefix(old(memory), prefix)
          decreases prefKeys
        {
          var k :| k in prefKeys;
          assert StartsWith(TimestampKey(k), prefix);
          prefs := prefs - {k, TimestampKey(k)};
          prefKeys := prefKeys - {k};
        }
        assert prefs == WithoutPrefix(old(prefs), prefix);
      } else {
        var key := dataType.value + "_" + userId;
        memory := memory - {key};
        prefs := prefs - {key, TimestampKey(key)};
      }
    }

    /**
     * What clearing all of a user's cache evidently intends: each of the
     * user's lists and its timestamp leaves both tiers, and nothing else does.
     */
    method ClearAllForUser(userId: string)
      modifies this
      ensures forall kind: Kind :: CacheKey(kind, userId) !in memory && CacheKey(kind, userId) !in prefs
      ensures forall kind: Kind :: TimestampKey(CacheKey(kind, userId)) !in prefs
      ensures memory == old(memory) - ListKeys(userId) && prefs == old(prefs) - UserKeys(userId)
    {
      var c, m, g := CacheKey(Conversations, userId), CacheKey(Memoirs, userId), CacheKey(Messages, userId);
      ClearCacheForUser(userId, Some(KindName(Conversations)));
      assert memory == old(memory) - {c} && prefs == old(prefs) - {c, TimestampKey(c)};
      ClearCacheForUser(userId, Some(KindName(Memoirs)));
      assert memory == old(memory) - {c, m} && prefs == old(prefs) - {c, m, TimestampKey(c), TimestampKey(m)};
      ClearCacheForUser(userId, Some(KindName(Messages)));
      assert memory == old(memory) - {c, m, g};
    }

    /** `clearAllCache`: both tiers become empty. */
    method ClearAllCache()
      modifies this
      ensures memory == map[] && prefs == map[]
    {
      memory := map[];
      prefs := map[];
    }
  }
}
