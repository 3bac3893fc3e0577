/**
 * The review cache as the AI routes use it: a key derived from the code, a JSON value per
 * key with its time to live, and a hit only for a present, truthy value.
 */
module Cache {
  import opened Wrappers
  import Json
  import Text
  import Base64

  /** A stored value, the time it was stored (milliseconds) and its time to live in seconds:
   *  `setEx(key, ttl, …)` makes Redis drop the key `ttl` seconds after the write. */
  datatype Entry = Entry(value: Json.Json, storedAt: nat, ttlSeconds: nat)

  type Store = map<string, Entry>

  /** The entry has not expired yet at time `now`. */
  predicate Live(e: Entry, now: nat) {
    now < e.storedAt + e.ttlSeconds * 1000
  }

  /** `await cacheService.get(key)` at time `now` followed by `if (cachedResult)`: an expired
   *  key is gone, and a stored value that is falsy counts as a miss. */
  function Hit(store: Store, key: string, now: nat): (r: Option<Json.Json>)
    ensures r.Some? <==> key in store && Live(store[key], now) && Json.Truthy(store[key].value)
    ensures r.Some? ==> r.value == store[key].value
  {
    if key in store && Live(store[key], now) && Json.Truthy(store[key].value) then Some(store[key].value) else None
  }

  function Min(a: nat, b: nat): nat {
    if a < b then a else b
  }

  /** `prefix + Buffer.from(code).toString('base64').substring(0, 32)`. */
  function Key(prefix: string, code: string): (k: string)
    ensures Text.StartsWith(k, prefix)
    ensures |k| == |prefix| + Min(32, 4 * ((|Base64.Utf8(code)| + 2) / 3))
    ensures forall i :: |prefix| <= i < |k| ==> Base64.IsEncodingChar(k[i])
  {
    Base64.EncodeLength(Base64.Utf8(code));
    Base64.EncodeChars(Base64.Utf8(code));
    prefix + Text.Take(Base64.TextToBase64(code), 32)
  }

  /** Two codes whose UTF-8 encodings agree on the first 24 bytes get the same key, whatever
   *  follows: the key sees nothing else of the code. */
  lemma KeySeesOnly24Bytes(prefix: string, a: string, b: string)
    requires |Base64.Utf8(a)| >= 24 && |Base64.Utf8(b)| >= 24
    requires Base64.Utf8(a)[..24] == Base64.Utf8(b)[..24]
    ensures Key(prefix, a) == Key(prefix, b)
  {
    Base64.Prefix32(Base64.Utf8(a));
    Base64.Prefix32(Base64.Utf8(b));
  }

  /** In particular two codes that share their first 24 characters share their key. */
  lemma KeySharedPrefix(prefix: string, a: string, b: string)
    requires |a| >= 24 && |b| >= 24 && a[..24] == b[..24]
    ensures Key(prefix, a) == Key(prefix, b)
  {
    Base64.Utf8Append(a[..24], a[24..]);
    Base64.Utf8Append(b[..24], b[24..]);
    assert a == a[..24] + a[24..];
    assert b == b[..24] + b[24..];
    var head := Base64.Utf8(a[..24]);
    assert Base64.Utf8(a)[..24] == head[..24];
    assert Base64.Utf8(b)[..24] == head[..24];
    KeySeesOnly24Bytes(prefix, a, b);
  }

  /** `cacheService.set(key, value, ttl)` at time `now`: the key hits with a truthy value until
   *  `ttl` seconds have passed and misses from then on; no other key changes. */
  function Put(store: Store, key: string, value: Json.Json, ttlSeconds: nat, now: nat): (r: Store)
    ensures forall later: nat :: now <= later < now + ttlSeconds * 1000 ==>
              Hit(r, key, later) == (if Json.Truthy(value) then Some(value) else None)
    ensures forall later: nat :: now + ttlSeconds * 1000 <= later ==> Hit(r, key, later).None?
    ensures forall k, t: nat :: k != key ==> Hit(r, k, t) == Hit(store, k, t)
  {
    store[key := Entry(value, now, ttlSeconds)]
  }
}
