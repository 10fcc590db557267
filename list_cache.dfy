/** The module-level cache of loaded list pages, keyed by a string that
    names the list view. `clearListCache(key)` drops one key when `key` is
    truthy and everything otherwise, so an empty key clears the whole
    cache. */
module ListCaches {
  import opened Wrappers

  /** A cached list page: the levels shown so far and the current page. */
  datatype ListCacheEntry<L> = ListCacheEntry(levels: seq<L>, curPage: int)

  /** JavaScript truthiness of an optional string: absent and `""` are
      false. */
  predicate Truthy(key: Option<string>) {
    key.Some? && key.value != ""
  }

  /** The map `clearListCache(key)` leaves behind. */
  function Cleared<V>(m: map<string, V>, key: Option<string>): (r: map<string, V>)
    ensures Truthy(key) ==> r.Keys == m.Keys - {key.value}
    ensures !Truthy(key) ==> r == map[]
    ensures forall k :: k in r ==> k in m && r[k] == m[k]
  {
    if Truthy(key) then m - {key.value} else map[]
  }

  class ListCache<L> {
    var cache: map<string, ListCacheEntry<L>>

    constructor ()
      ensures cache == map[]
    {
      cache := map[];
    }

    /** `getListCache(key)`. */
    function Get(key: string): (r: Option<ListCacheEntry<L>>)
      reads this
      ensures r.Some? <==> key in cache
      ensures r.Some? ==> r.value == cache[key]
    {
      if key in cache then Some(cache[key]) else None
    }

    /** `setListCache(key, value)`: overwrites any earlier value for `key`
        and leaves the other keys alone. */
    method Set(key: string, value: ListCacheEntry<L>)
      modifies this
      ensures cache == old(cache)[key := value]
      ensures Get(key) == Some(value)
      ensures forall k :: k != key ==> Get(k) == old(Get(k))
    {
      cache := cache[key := value];
    }

    /** `clearListCache(key)`: `None` is a call without an argument. */
    method Clear(key: Option<string>)
      modifies this
      ensures cache == Cleared(old(cache), key)
      ensures Truthy(key) ==> Get(key.value) == None
      ensures Truthy(key) ==> forall k :: k != key.value ==> Get(k) == old(Get(k))
      ensures !Truthy(key) ==> forall k :: Get(k) == None
    {
      if Truthy(key) {
        cache := cache - {key.value};
      } else {
        cache := map[];
      }
    }
  }

  /** An empty key clears every entry, like a call without a key; a
      non-empty key removes only itself. */
  lemma EmptyKeyClearsAll<V>(m: map<string, V>, key: string)
    ensures Cleared(m, Some("")) == Cleared(m, None) == map[]
    ensures key != "" ==> forall k :: k in m && k != key ==> k in Cleared(m, Some(key))
    ensures key != "" ==> key !in Cleared(m, Some(key))
  {
  }

  /** A fresh cache reads `undefined` for a key never set; a value set is
      read back; after clearing with `""` it reads `undefined` again. */
  method SetGetClear<L>(key: string, other: string, value: ListCacheEntry<L>)
    returns (before: Option<ListCacheEntry<L>>, after: Option<ListCacheEntry<L>>, cleared: Option<ListCacheEntry<L>>)
    requires key != other && other != ""
    ensures before == None && after == Some(value) && cleared == None
  {
    var c := new ListCache<L>();
    before := c.Get(key);
    c.Set(key, value);
    c.Clear(Some(other));
    after := c.Get(key);
    c.Clear(Some(""));
    cleared := c.Get(key);
  }
}
