/** The in-memory cache driver (ramcache/ramcache.go), as that file stands:
    its own `Item` and map (it does not use the separate store), a default
    time-to-live applied by `Set`, and lazy expiry on the read paths. The
    clock reading `now` is a parameter of every operation that consults it;
    the lock and the one-time initialisation guard are left out. */
module RamCache {
  import opened Results
  import opened GoTypes
  import opened GcErrors
  import opened Strings
  import Cache
  import KeyMod

  /** `Scheme`: the URL scheme the driver registers under. */
  const Scheme: string := "ramcache"

  /** The time-to-live `Options.Revise` falls back to. */
  const FallbackTTL: Duration := 24 * Hour

  /** `Options`: the time-to-live `Set` gives items. */
  datatype Options = Options(defaultTtl: Duration) {

    /** `Revise`: a non-positive default time-to-live becomes 24 hours; a
        positive one is kept. The revised value is always positive. */
    function Revise(): (r: Options)
      ensures r.defaultTtl > 0
      ensures defaultTtl > 0 ==> r == this
      ensures defaultTtl <= 0 ==> r.defaultTtl == FallbackTTL
    {
      if defaultTtl <= 0 then Options(FallbackTTL) else this
    }
  }

  /** Revising twice is revising once. */
  lemma ReviseIsIdempotent(o: Options)
    ensures o.Revise().Revise() == o.Revise()
  {
  }

  /** `Item`: a stored value and the instant after which it is stale. */
  datatype Item = Item(value: seq<byte>, expiry: Time)

  /** The dynamic type of a value handed to `Set`: a Go string (a byte
      string, so `[]byte(v)` keeps its bytes), a byte slice, or anything else,
      known only by the name `%T` prints for it. */
  datatype Value = Str(text: seq<byte>) | Bytes(bytes: seq<byte>) | Other(typeName: string) {

    predicate Supported()
    {
      !Other?
    }

    /** The bytes stored for a supported value. */
    function Payload(): seq<byte>
      requires Supported()
    {
      if Str? then text else bytes
    }
  }

  /** What an operation leaves behind and what it returns. */
  datatype Step<+T> = Step(next: RamCache, out: T)

  /** The error `Get` returns for a missing or stale key. */
  const KeyNotFound: Error := NewWithScheme(Scheme, Cache.ErrKeyNotFound)

  /** The error `Del` returns for a missing key. */
  function DelKeyNotFound(key: string): Error
  {
    NewWithScheme(Scheme, Wrapped(key, Cache.ErrKeyNotFound))
  }

  /** The error `Set` and `SetWithExpiry` return for a value they cannot store. */
  function UnsupportedValueType(v: Value): Error
    requires !v.Supported()
  {
    NewWithScheme(Scheme, Text("unsupported value type: " + v.typeName))
  }

  /** `ramcache`: the map from (modified) key to item, and the options. */
  datatype RamCache = RamCache(store: map<string, Item>, opts: Options) {

    /** `Count`: pattern matching is not supported; nothing is read or changed. */
    function Count(pattern: string, modifiers: seq<KeyMod.KeyModifier>): (r: Step<Result<int64, Error>>)
      ensures r.next == this
      ensures r.out.Failure? && Is(r.out.error, Cache.ErrPatternMatchingNotSupported)
      ensures r.out.error == NewWithScheme(Scheme, Wrapped("Count not supported", Cache.ErrPatternMatchingNotSupported))
    {
      Step(this, Failure(NewWithScheme(Scheme, Wrapped("Count not supported", Cache.ErrPatternMatchingNotSupported))))
    }

    /** `Exists`: whether the modified key holds an item that is not stale at
        `now`. A stale item is dropped on the way; the call never fails. */
    function Exists(key: string, modifiers: seq<KeyMod.KeyModifier>, now: Time): (r: Step<Result<bool, Error>>)
      ensures var k := KeyMod.ModifyKey(key, modifiers);
        && r.out.Success?
        && (r.out.value <==> k in store && now <= store[k].expiry)
        && (k !in store ==> r.next == this)
        && (k in store && now > store[k].expiry ==> r.next == RamCache(store - {k}, opts))
        && (r.out.value ==> r.next == this)
    {
      var k := KeyMod.ModifyKey(key, modifiers);
      if k in store && After(now, store[k].expiry) then
        Step(RamCache(store - {k}, opts), Success(false))
      else
        Step(this, Success(k in store))
    }

    /** `Del`: removes the modified key, stale or not; a missing key is an
        error that names it, and then nothing changes. */
    function Del(key: string, modifiers: seq<KeyMod.KeyModifier>): (r: Step<Status<Error>>)
      ensures var k := KeyMod.ModifyKey(key, modifiers);
        && (r.out.Ok? <==> k in store)
        && (r.out.Ok? ==> r.next == RamCache(store - {k}, opts) && k !in r.next.store)
        && (r.out.Fail? ==> r.next == this && r.out.error == DelKeyNotFound(k))
        && (r.out.Fail? ==> Is(r.out.error, Cache.ErrKeyNotFound))
    {
      var k := KeyMod.ModifyKey(key, modifiers);
      if k !in store then Step(this, Fail(DelKeyNotFound(k)))
      else Step(RamCache(store - {k}, opts), Ok)
    }

    /** `DelKeys`: pattern matching is not supported; nothing changes. */
    function DelKeys(pattern: string, modifiers: seq<KeyMod.KeyModifier>): (r: Step<Status<Error>>)
      ensures r.next == this
      ensures r.out.Fail? && Is(r.out.error, Cache.ErrPatternMatchingNotSupported)
      ensures r.out.error == NewWithScheme(Scheme, Wrapped("DelKeys not supported", Cache.ErrPatternMatchingNotSupported))
    {
      Step(this, Fail(NewWithScheme(Scheme, Wrapped("DelKeys not supported", Cache.ErrPatternMatchingNotSupported))))
    }

    /** `Clear`: drops every item and keeps the options. */
    function Clear(): (r: Step<Status<Error>>)
      ensures r.out.Ok?
      ensures |r.next.store| == 0 && r.next.opts == opts
    {
      Step(RamCache(map[], opts), Ok)
    }

    /** `Get`: the bytes under the modified key when it holds an item that is
        not stale at `now`, with nothing changed; otherwise key-not-found,
        and the key holds nothing afterwards. */
    function Get(key: string, modifiers: seq<KeyMod.KeyModifier>, now: Time): (r: Step<Result<seq<byte>, Error>>)
      ensures var k := KeyMod.ModifyKey(key, modifiers);
        && (r.out.Success? <==> k in store && now <= store[k].expiry)
        && (r.out.Success? ==> r.out.value == store[k].value && r.next == this)
        && (r.out.Failure? ==> r.out.error == KeyNotFound && r.next == RamCache(store - {k}, opts))
    {
      var k := KeyMod.ModifyKey(key, modifiers);
      if k !in store || After(now, store[k].expiry) then
        Step(RamCache(store - {k}, opts), Failure(KeyNotFound))
      else
        Step(this, Success(store[k].value))
    }

    /** `Set`: a string or byte slice is stored under the modified key, to
        expire the default time-to-live after `now`; any other value is
        refused and nothing changes. */
    function Set(key: string, value: Value, modifiers: seq<KeyMod.KeyModifier>, now: Time): (r: Step<Status<Error>>)
      ensures var k := KeyMod.ModifyKey(key, modifiers);
        && (r.out.Ok? <==> value.Supported())
        && (r.out.Ok? ==> r.next == RamCache(store[k := Item(value.Payload(), now + opts.defaultTtl as int)], opts))
        && (r.out.Fail? ==> r.next == this && r.out.error == UnsupportedValueType(value))
    {
      var k := KeyMod.ModifyKey(key, modifiers);
      match value
      case Str(text) => Step(RamCache(store[k := Item(text, Add(now, opts.defaultTtl))], opts), Ok)
      case Bytes(bytes) => Step(RamCache(store[k := Item(bytes, Add(now, opts.defaultTtl))], opts), Ok)
      case Other(_) => Step(this, Fail(UnsupportedValueType(value)))
    }

    /** `SetWithExpiry`: like `Set` with the given time-to-live, whose sign
        is not checked. */
    function SetWithExpiry(key: string, value: Value, expiry: Duration, modifiers: seq<KeyMod.KeyModifier>, now: Time): (r: Step<Status<Error>>)
      ensures var k := KeyMod.ModifyKey(key, modifiers);
        && (r.out.Ok? <==> value.Supported())
        && (r.out.Ok? ==> r.next == RamCache(store[k := Item(value.Payload(), now + expiry as int)], opts))
        && (r.out.Fail? ==> r.next == this && r.out.error == UnsupportedValueType(value))
    {
      var k := KeyMod.ModifyKey(key, modifiers);
      match value
      case Str(text) => Step(RamCache(store[k := Item(text, Add(now, expiry))], opts), Ok)
      case Bytes(bytes) => Step(RamCache(store[k := Item(bytes, Add(now, expiry))], opts), Ok)
      case Other(_) => Step(this, Fail(UnsupportedValueType(value)))
    }

    /** `Close`: always succeeds. */
    function Close(): (r: Status<Error>)
      ensures r.Ok?
    {
      Ok
    }

    /** `Ping`: always succeeds. */
    function Ping(): (r: Status<Error>)
      ensures r.Ok?
    {
      Ok
    }
  }

  /** `New`: an empty cache with revised options. */
  function New(options: Options): (c: RamCache)
    ensures |c.store| == 0
    ensures c.opts.defaultTtl > 0
    ensures options.defaultTtl > 0 ==> c.opts == options
    ensures c.opts == options.Revise()
  {
    RamCache(map[], options.Revise())
  }

  /** A fresh cache holds nothing: every lookup reports key-not-found and
      every existence test is false, whatever the key and the clock. */
  lemma NewCacheFindsNothing(options: Options)
    ensures forall key, modifiers, now :: New(options).Get(key, modifiers, now).out == Failure(KeyNotFound)
    ensures forall key, modifiers, now :: New(options).Exists(key, modifiers, now).out == Success(false)
  {
  }

  /** After `Clear`, every lookup reports key-not-found and every existence
      test is false, and the options are untouched. */
  lemma ClearedCacheFindsNothing(c: RamCache)
    ensures forall key, modifiers, now :: c.Clear().next.Get(key, modifiers, now).out == Failure(KeyNotFound)
    ensures forall key, modifiers, now :: c.Clear().next.Exists(key, modifiers, now).out == Success(false)
    ensures c.Clear().next.opts == c.opts
  {
  }

  /** Round trip: after `Set` at `t`, `Get` of the same key returns the
      stored bytes exactly up to `t` plus the default time-to-live, and
      key-not-found after that. */
  lemma SetThenGet(c: RamCache, key: string, value: Value, modifiers: seq<KeyMod.KeyModifier>, t: Time, later: Time)
    requires value.Supported()
    ensures var got := c.Set(key, value, modifiers, t).next.Get(key, modifiers, later).out;
      && (got.Success? <==> later <= t + c.opts.defaultTtl as int)
      && (got.Success? ==> got.value == value.Payload())
      && (got.Failure? ==> got.error == KeyNotFound)
  {
  }

  /** `SetWithExpiry` does not check the sign of the time-to-live: with a
      negative one the call succeeds, yet the item is stale at once, so `Get`
      and `Exists` at the same or any later instant find nothing. */
  lemma NegativeExpiryIsNeverReadable(c: RamCache, key: string, value: Value, expiry: Duration,
                                      modifiers: seq<KeyMod.KeyModifier>, t: Time, later: Time)
    requires value.Supported() && expiry < 0 && t <= later
    ensures c.SetWithExpiry(key, value, expiry, modifiers, t).out.Ok?
    ensures c.SetWithExpiry(key, value, expiry, modifiers, t).next.Get(key, modifiers, later).out.Failure?
    ensures c.SetWithExpiry(key, value, expiry, modifiers, t).next.Exists(key, modifiers, later).out == Success(false)
  {
  }

  /** A time-to-live that `ValidateTTL` accepts keeps the item readable from
      the instant it is set until the time-to-live has passed. */
  lemma ValidatedExpiryIsReadableUntilItPasses(c: RamCache, key: string, value: Value, expiry: Duration,
                                               modifiers: seq<KeyMod.KeyModifier>, t: Time, later: Time)
    requires value.Supported() && Cache.ValidateTTL(expiry).Ok?
    requires t <= later <= t + expiry as int
    ensures c.SetWithExpiry(key, value, expiry, modifiers, t).next.Get(key, modifiers, later).out == Success(value.Payload())
  {
  }

  /** A second write under the same key fully supersedes the first: the
      cache is as if only the second had happened. */
  lemma SecondWriteSupersedesFirst(c: RamCache, key: string, v1: Value, d1: Duration, v2: Value, d2: Duration,
                                   modifiers: seq<KeyMod.KeyModifier>, t1: Time, t2: Time)
    requires v1.Supported() && v2.Supported()
    ensures var once := c.SetWithExpiry(key, v1, d1, modifiers, t1).next;
      once.SetWithExpiry(key, v2, d2, modifiers, t2) == c.SetWithExpiry(key, v2, d2, modifiers, t2)
  {
    var k := KeyMod.ModifyKey(key, modifiers);
    var once := c.SetWithExpiry(key, v1, d1, modifiers, t1).next;
    var it := Item(v2.Payload(), t2 + d2 as int);
    assert once.store[k := it] == c.store[k := it];
  }

  /** `Exists` is `Get` without the payload: same answer, same state left
      behind (removing an absent key changes nothing). */
  lemma ExistsAgreesWithGet(c: RamCache, key: string, modifiers: seq<KeyMod.KeyModifier>, now: Time)
    ensures c.Exists(key, modifiers, now).out == Success(c.Get(key, modifiers, now).out.Success?)
    ensures c.Exists(key, modifiers, now).next == c.Get(key, modifiers, now).next
  {
    var k := KeyMod.ModifyKey(key, modifiers);
    if k !in c.store {
      assert c.store - {k} == c.store;
    }
  }

  /** After a successful `Del`, the key does not exist and a second `Del`
      of it fails with key-not-found, changing nothing. */
  lemma DelTwice(c: RamCache, key: string, modifiers: seq<KeyMod.KeyModifier>, now: Time)
    requires c.Del(key, modifiers).out.Ok?
    ensures var once := c.Del(key, modifiers).next;
      && once.Exists(key, modifiers, now).out == Success(false)
      && once.Del(key, modifiers).out.Fail?
      && Is(once.Del(key, modifiers).out.error, Cache.ErrKeyNotFound)
      && once.Del(key, modifiers).next == once
  {
  }

  /** The message of a failed `Get`. */
  lemma GetKeyNotFoundMessage()
    ensures Message(KeyNotFound) == "gocache/ramcache: gocache: key not found"
  {
    var inner := Message(Cache.ErrKeyNotFound);
    assert inner == "gocache: key not found";
    assert Message(KeyNotFound) == "gocache/" + Scheme + ": " + inner;
  }

  /** The message of a failed `Del` names the key. */
  lemma DelKeyNotFoundMessage(key: string)
    ensures Message(DelKeyNotFound(key)) == "gocache/ramcache: " + key + ": " + Message(Cache.ErrKeyNotFound)
  {
    var inner := Message(Cache.ErrKeyNotFound);
    var wrapped := Message(Wrapped(key, Cache.ErrKeyNotFound));
    assert wrapped == key + ": " + inner;
    assert Scheme != "";
    var head := "gocache/" + Scheme + ": ";
    assert head == "gocache/ramcache: ";
    assert Message(DelKeyNotFound(key)) == head + wrapped;
    assert head + wrapped == head + key + ": " + inner;
  }

  /** Both key-not-found errors end with the message of `ErrKeyNotFound`,
      which is what callers search for. */
  lemma KeyNotFoundMessagesEndWithSentinel(key: string)
    ensures EndsWith(Message(KeyNotFound), Message(Cache.ErrKeyNotFound))
    ensures EndsWith(Message(DelKeyNotFound(key)), Message(Cache.ErrKeyNotFound))
  {
    var wrapped := Wrapped(key, Cache.ErrKeyNotFound);
    assert EndsWith(Message(DelKeyNotFound(key)), Message(wrapped));
    assert EndsWith(Message(wrapped), Message(Cache.ErrKeyNotFound));
    EndsWithTransitive(Message(DelKeyNotFound(key)), Message(wrapped), Message(Cache.ErrKeyNotFound));
  }
}
