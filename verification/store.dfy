/** The in-memory store of the ramcache driver (ramcache/store.go): a map
    from key to item, and a snapshot of its entries ordered by expiry, closest
    to expiry first. The read/write lock is left out: every operation is one
    atomic step on an immutable value. */
module Store {
  import opened Results
  import opened GoTypes

  /** `Item`: a value and the instant after which it is stale. */
  datatype Item = Item(value: seq<byte>, expiry: Time) {

    /** `IsExpired`, with the clock reading passed in: strictly after the
        expiry instant. */
    predicate IsExpired(now: Time): (r: bool)
      ensures r <==> expiry < now
      ensures now == expiry ==> !r
    {
      After(now, expiry)
    }
  }

  /** `keyItem`: one entry of a snapshot. */
  datatype KeyItem = KeyItem(key: string, item: Item)

  /** An item is live up to and including its expiry instant, and stays
      expired once it has expired. */
  lemma ExpiryIsMonotone(it: Item, now: Time, later: Time)
    requires now <= later
    ensures !it.IsExpired(it.expiry) && it.IsExpired(it.expiry + 1)
    ensures it.IsExpired(now) ==> it.IsExpired(later)
  {
  }

  /** `store`: at most one item per key. */
  datatype Store = Store(items: map<string, Item>) {

    /** `Get`: the item under `key`, if there is one. */
    function Get(key: string): (r: Option<Item>)
      ensures r.Some? <==> key in items
      ensures r.Some? ==> r.value == items[key]
    {
      if key in items then Some(items[key]) else None
    }

    /** `Set`: `key` now holds `item`, replacing what it held; other keys
        are untouched. */
    function Set(key: string, item: Item): (r: Store)
      ensures r.Get(key) == Some(item)
      ensures forall k :: k != key ==> r.Get(k) == Get(k)
    {
      Store(items[key := item])
    }

    /** `Delete`: `key` holds nothing; other keys are untouched, and
        deleting an absent key changes nothing. */
    function Delete(key: string): (r: Store)
      ensures r.Get(key) == None
      ensures forall k :: k != key ==> r.Get(k) == Get(k)
      ensures Get(key) == None ==> r == this
    {
      Store(items - {key})
    }

    /** `Clear`: no key holds anything. */
    function Clear(): (r: Store)
      ensures forall k :: r.Get(k) == None
    {
      Store(map[])
    }

    /** `GetItemsSortedByExpiry`: every entry once, closest to expiry first.
        Entries with equal expiry come in no promised order. */
    method GetItemsSortedByExpiry() returns (snapshot: seq<KeyItem>)
      ensures IsSnapshotOf(snapshot, items)
      ensures SortedByExpiry(snapshot)
    {
      snapshot := [];
      var rest := items.Keys;
      while rest != {}
        invariant rest <= items.Keys
        invariant |snapshot| + |rest| == |items|
        invariant SortedByExpiry(snapshot)
        invariant PartialSnapshot(snapshot, items, rest)
        decreases |rest|
      {
        var k :| k in rest;
        var entry := KeyItem(k, items[k]);
        InsertKeepsPartialSnapshot(snapshot, items, rest, k);
        snapshot := InsertByExpiry(snapshot, entry);
        rest := rest - {k};
      }
    }
  }

  /** `newStore`: a store holding nothing. */
  function NewStore(): (s: Store)
    ensures forall k :: s.Get(k) == None
  {
    Store(map[])
  }

  /** Some entry of `s` is under `key`. */
  ghost predicate Lists(s: seq<KeyItem>, key: string)
  {
    exists i :: 0 <= i < |s| && s[i].key == key
  }

  /** `s` holds exactly the entries of `items`, one per key. */
  ghost predicate IsSnapshotOf(s: seq<KeyItem>, items: map<string, Item>)
  {
    && |s| == |items|
    && (forall i :: 0 <= i < |s| ==> s[i].key in items && s[i].item == items[s[i].key])
    && (forall i, j :: 0 <= i < j < |s| ==> s[i].key != s[j].key)
    && (forall k :: k in items ==> Lists(s, k))
  }

  /** Expiries never decrease along `s`. */
  ghost predicate SortedByExpiry(s: seq<KeyItem>)
  {
    forall i, j :: 0 <= i < j < |s| ==> s[i].item.expiry <= s[j].item.expiry
  }

  /** `s` holds, once each, exactly the entries of `items` whose keys are
      not in `rest`. */
  ghost predicate PartialSnapshot(s: seq<KeyItem>, items: map<string, Item>, rest: set<string>)
  {
    && (forall i :: 0 <= i < |s| ==>
         s[i].key in items && s[i].key !in rest && s[i].item == items[s[i].key])
    && (forall i, j :: 0 <= i < j < |s| ==> s[i].key != s[j].key)
    && (forall k :: k in items && k !in rest ==> Lists(s, k))
  }

  /** Where an entry expiring at `expiry` goes in a sorted snapshot: after
      every entry expiring earlier, before every entry expiring no earlier. */
  function InsertionPoint(s: seq<KeyItem>, expiry: Time): (p: nat)
    ensures p <= |s|
    ensures forall i :: 0 <= i < p ==> s[i].item.expiry < expiry
    ensures SortedByExpiry(s) ==> forall i :: p <= i < |s| ==> expiry <= s[i].item.expiry
  {
    if |s| == 0 || expiry <= s[0].item.expiry then 0
    else 1 + InsertionPoint(s[1..], expiry)
  }

  /** `e` placed into the sorted `s` at its insertion point. */
  function InsertByExpiry(s: seq<KeyItem>, e: KeyItem): (r: seq<KeyItem>)
    requires SortedByExpiry(s)
    ensures |r| == |s| + 1
    ensures SortedByExpiry(r)
    ensures var p := InsertionPoint(s, e.item.expiry);
      && r[p] == e
      && (forall i :: 0 <= i < p ==> r[i] == s[i])
      && (forall i :: p < i < |r| ==> r[i] == s[i - 1])
  {
    var p := InsertionPoint(s, e.item.expiry);
    s[..p] + [e] + s[p..]
  }

  /** Adding the entry of a not-yet-listed key extends a partial snapshot. */
  lemma InsertKeepsPartialSnapshot(s: seq<KeyItem>, items: map<string, Item>, rest: set<string>, k: string)
    requires SortedByExpiry(s) && PartialSnapshot(s, items, rest)
    requires k in rest && rest <= items.Keys
    ensures PartialSnapshot(InsertByExpiry(s, KeyItem(k, items[k])), items, rest - {k})
  {
    var e := KeyItem(k, items[k]);
    var r := InsertByExpiry(s, e);
    var p := InsertionPoint(s, e.item.expiry);
    forall i | 0 <= i < |r|
      ensures r[i].key in items && r[i].key !in rest - {k} && r[i].item == items[r[i].key]
    {
      if i > p {
        assert r[i] == s[i - 1];
      }
    }
    forall i, j | 0 <= i < j < |r|
      ensures r[i].key != r[j].key
    {
      if i < p && j > p {
        assert r[j] == s[j - 1];
      } else if i > p {
        assert r[i] == s[i - 1] && r[j] == s[j - 1];
      }
    }
    forall k' | k' in items && k' !in rest - {k}
      ensures Lists(r, k')
    {
      if k' == k {
        assert r[p].key == k;
      } else {
        var i :| 0 <= i < |s| && s[i].key == k';
        if i < p {
          assert r[i].key == k';
        } else {
          assert r[i + 1].key == k';
        }
      }
    }
  }

  /** How many entries at the front of `s` are expired at `now`: where an
      expiry-ordered sweep stops. */
  function ExpiredPrefixLength(s: seq<KeyItem>, now: Time): (p: nat)
    ensures p <= |s|
    ensures forall i :: 0 <= i < p ==> s[i].item.IsExpired(now)
    ensures p < |s| ==> !s[p].item.IsExpired(now)
  {
    if |s| == 0 || !s[0].item.IsExpired(now) then 0
    else 1 + ExpiredPrefixLength(s[1..], now)
  }

  /** In an expiry-ordered snapshot the expired entries are exactly a prefix:
      once a live entry appears, every later entry is live, so a sweep that
      stops at the first live entry leaves nothing expired behind. */
  lemma ExpiredEntriesFormAPrefix(s: seq<KeyItem>, now: Time)
    requires SortedByExpiry(s)
    ensures forall i :: 0 <= i < |s| ==>
      (s[i].item.IsExpired(now) <==> i < ExpiredPrefixLength(s, now))
  {
    var p := ExpiredPrefixLength(s, now);
    forall i | p <= i < |s|
      ensures !s[i].item.IsExpired(now)
    {
      assert s[p].item.expiry <= s[i].item.expiry;
    }
  }
}
