/**
 * The per-feed page cache in local storage (`cacheKey`, `saveCache`,
 * `loadCache`). Storage is a map from key to the parsed stored value; a value
 * that is empty, not JSON or JSON `null` is `Unreadable`.
 */
module Cache {
  import opened Wrappers
  import opened Stories

  /** Two minutes, in milliseconds. */
  const CACHE_TTL: int := 1000 * 60 * 2
  const KEY_PREFIX: string := "hn_quickview_cache_"

  /** A stored value: unreadable, or an object whose `ts` and `items` may each be missing. */
  datatype Slot = Unreadable | Payload(ts: Option<int>, items: Option<seq<Item>>)

  type Storage = map<string, Slot>

  /** `cacheKey()` for the feed that is current. */
  function Key(feed: string): (k: string)
    ensures |k| == |KEY_PREFIX| + |feed|
    ensures k[..|KEY_PREFIX|] == KEY_PREFIX && k[|KEY_PREFIX|..] == feed
  {
    KEY_PREFIX + feed
  }

  /** Each feed has its own slot. */
  lemma KeyInjective(a: string, b: string)
    ensures Key(a) == Key(b) <==> a == b
  {
  }

  /**
   * The tests of `loadCache` after parsing: `ts` present and not zero, `items`
   * present, and no more than `CACHE_TTL` milliseconds old.
   */
  predicate Usable(slot: Slot, nowMs: int) {
    && slot.Payload?
    && slot.ts.Some? && slot.ts.value != 0
    && slot.items.Some?
    && nowMs - slot.ts.value <= CACHE_TTL
  }

  /** `loadCache()`: the stored items, or absent in every other case; it never fails. */
  function Load(store: Storage, feed: string, nowMs: int): (r: Option<seq<Item>>)
    ensures r.Some? <==> Key(feed) in store && Usable(store[Key(feed)], nowMs)
    ensures r.Some? ==> r == store[Key(feed)].items
  {
    var key := Key(feed);
    if key !in store then None
    else
      var slot := store[key];
      if !slot.Payload? then None
      else if slot.ts.None? || slot.ts.value == 0 || slot.items.None? then None
      else if nowMs - slot.ts.value > CACHE_TTL then None
      else slot.items
  }

  /** `saveCache(items)`: overwrites the feed's slot with `{ts: now, items}` and nothing else. */
  function Save(store: Storage, feed: string, nowMs: int, items: seq<Item>): (r: Storage)
    ensures r.Keys == store.Keys + {Key(feed)}
    ensures r[Key(feed)] == Payload(Some(nowMs), Some(items))
    ensures forall k :: k in store && k != Key(feed) ==> r[k] == store[k]
  {
    store[Key(feed) := Payload(Some(nowMs), Some(items))]
  }

  /** A page saved at `t` is read back unchanged at any time up to `CACHE_TTL` later. */
  lemma SaveThenLoad(store: Storage, feed: string, t: int, items: seq<Item>, later: int)
    requires t != 0 && later - t <= CACHE_TTL
    ensures Load(Save(store, feed, t, items), feed, later) == Some(items)
  {
  }

  /** Past `CACHE_TTL` the same page reads as absent. */
  lemma SaveThenExpire(store: Storage, feed: string, t: int, items: seq<Item>, later: int)
    requires later - t > CACHE_TTL
    ensures Load(Save(store, feed, t, items), feed, later) == None
  {
  }

  /** A timestamp of zero is falsy, so a page saved at the epoch never reads back. */
  lemma SaveAtEpochIsAbsent(store: Storage, feed: string, items: seq<Item>, later: int)
    ensures Load(Save(store, feed, 0, items), feed, later) == None
  {
  }

  /** Exactly two minutes old is still valid; one millisecond more is expired. */
  lemma ExpiryBoundary(store: Storage, feed: string, t: int, items: seq<Item>)
    requires t != 0
    ensures CACHE_TTL == 120000
    ensures Load(Save(store, feed, t, items), feed, t + 120000) == Some(items)
    ensures Load(Save(store, feed, t, items), feed, t + 120001) == None
  {
  }

  /** Saving one feed's page leaves what every other feed loads unchanged. */
  lemma SaveKeepsOtherFeeds(store: Storage, feed: string, other: string, t: int, items: seq<Item>, later: int)
    requires other != feed
    ensures Load(Save(store, feed, t, items), other, later) == Load(store, other, later)
  {
  }
}
