/** The browser key-value store used as a settings store and a response cache
    with a time-to-live. The store is a map from key to the stored JSON value
    (serialisation is taken to be lossless); the current time is a parameter. */
module Storage {
  import opened JsValues

  datatype Json =
    | JNull
    | JBool(b: bool)
    | JNumber(n: real)
    | JString(s: string)
    | JArray(elems: seq<Json>)
    | JObject(members: map<string, Json>)

  const CachePrefix := "analyst-cache:"
  const SettingsKey := "analyst-settings"

  /** `cacheKey(ticker, endpoint, period)` */
  function CacheKey(ticker: string, endpoint: string, period: string): (k: string)
    ensures CachePrefix <= k
    ensures k[|CachePrefix|..] == ticker + ":" + endpoint + ":" + period
  {
    CachePrefix + ticker + ":" + endpoint + ":" + period
  }

  predicate IsCacheKey(key: string)
  {
    CachePrefix <= key
  }

  /** `parsed.timestamp` as the subtraction `Date.now() - parsed.timestamp`
      sees it: `None` where that subtraction gives NaN. */
  function TimestampOf(v: Json): Option<real>
  {
    match v
    case JObject(m) =>
      if "timestamp" !in m then None
      else (match m["timestamp"]
            case JNumber(t) => Some(t)
            case JNull => Some(0.0)
            case JBool(b) => Some(if b then 1.0 else 0.0)
            case JArray(_) => ArrayAsNumber(m["timestamp"])
            case _ => None)
    case _ => None
  }

  /** An array in a subtraction is first joined into text: `[]` gives `""`,
      which is 0; a one-element array gives its element's text; two or more
      elements give text with a comma, which is NaN. */
  function ArrayAsNumber(v: Json): (t: Option<real>)
    requires v.JArray?
    ensures |v.elems| == 0 ==> t == Some(0.0)
    ensures |v.elems| > 1 ==> t.None?
  {
    if |v.elems| == 0 then Some(0.0)
    else if |v.elems| > 1 then None
    else match v.elems[0]
      case JNumber(n) => Some(n)
      case JNull => Some(0.0)
      case JArray(_) => ArrayAsNumber(v.elems[0])
      case _ => None
  }

  /** `Date.now() - parsed.timestamp > ttlMs`; a NaN difference is never stale. */
  predicate IsStale(v: Json, ttl: int, now: int)
  {
    TimestampOf(v).Some? && (now as real) - TimestampOf(v).value > ttl as real
  }

  /** What `readCache(key, ttlMs)` returns at time `now`. */
  function CachedValue(items: map<string, Json>, key: string, ttl: int, now: int): Option<Json>
  {
    if key !in items then None
    else if IsStale(items[key], ttl, now) then None
    else Some(items[key])
  }

  /** What `writeCache(key, payload)` stores at time `now`: the payload's
      members with `timestamp` set to `now`. */
  function Stamped(payload: map<string, Json>, now: int): Json
  {
    JObject(payload["timestamp" := JNumber(now as real)])
  }

  /** The store after `clearCache()`. */
  function WithoutCache(items: map<string, Json>): map<string, Json>
  {
    map k | k in items && !IsCacheKey(k) :: items[k]
  }

  class LocalStore {
    /** `localStorage`: key to stored value. */
    var items: map<string, Json>

    constructor (initial: map<string, Json>)
      ensures items == initial
    {
      items := initial;
    }

    /** `loadSettings()` */
    method LoadSettings() returns (settings: Json)
      ensures SettingsKey in items ==> settings == items[SettingsKey]
      ensures SettingsKey !in items ==> settings == JObject(map[])
    {
      if SettingsKey in items {
        settings := items[SettingsKey];
      } else {
        settings := JObject(map[]);
      }
    }

    /** `saveSettings(settings)` */
    method SaveSettings(settings: Json)
      modifies this
      ensures items == old(items)[SettingsKey := settings]
    {
      items := items[SettingsKey := settings];
    }

    /** `readCache(key, ttlMs)` at time `now`. A stored `null` would make the
        source throw; cache entries are always objects. */
    method ReadCache(key: string, ttl: int, now: int) returns (r: Option<Json>)
      requires key in items ==> items[key] != JNull
      ensures r.None? <==> key !in items || IsStale(items[key], ttl, now)
      ensures r.Some? ==> r.value == items[key]
    {
      if key !in items {
        return None;
      }
      var parsed := items[key];
      if IsStale(parsed, ttl, now) {
        return None;
      }
      return Some(parsed);
    }

    /** `writeCache(key, payload)` at time `now`. */
    method WriteCache(key: string, payload: map<string, Json>, now: int)
      modifies this
      ensures items == old(items)[key := Stamped(payload, now)]
    {
      items := items[key := Stamped(payload, now)];
    }

    /** `clearCache()`: removes every key that starts with the cache prefix. */
    method ClearCache()
      modifies this
      ensures items == WithoutCache(old(items))
    {
      var keys := items.Keys;
      while keys != {}
        invariant keys <= old(items).Keys
        invariant items == map k | k in old(items) && (k in keys || !IsCacheKey(k)) :: old(items)[k]
        decreases keys
      {
        var k :| k in keys;
        if IsCacheKey(k) {
          items := items - {k};
        }
        keys := keys - {k};
      }
    }

    /** `saveSettings(s)` then `loadSettings()`: the settings read back are
        the ones saved, and nothing but the settings key has changed. */
    method SettingsRoundTrip(settings: Json) returns (loaded: Json)
      modifies this
      ensures loaded == settings
      ensures items == old(items)[SettingsKey := settings]
    {
      SaveSettings(settings);
      loaded := LoadSettings();
    }

    /** `writeCache(key, payload)` then `readCache(key, ttlMs)` at the same
        time: the stamped payload, unless the time-to-live is negative. */
    method CacheRoundTrip(key: string, payload: map<string, Json>, ttl: int, now: int) returns (r: Option<Json>)
      modifies this
      ensures r == if ttl >= 0 then Some(Stamped(payload, now)) else None
      ensures items == old(items)[key := Stamped(payload, now)]
    {
      WriteCache(key, payload, now);
      assert TimestampOf(Stamped(payload, now)) == Some(now as real);
      r := ReadCache(key, ttl, now);
    }
  }

  /** An array `timestamp` is coerced as the subtraction does: `[]` counts as
      time 0 and `[t]` as time `t`, so such entries do go stale. */
  lemma ArrayTimestampIsCoerced(t: real)
    ensures CachedValue(map["k" := JObject(map["timestamp" := JArray([])])], "k", 1000, 5000).None?
    ensures var entry := JObject(map["timestamp" := JArray([JNumber(t)])]);
            CachedValue(map["k" := entry], "k", 1000, 5000) == if 5000.0 - t > 1000.0 then None else Some(entry)
    ensures CachedValue(map["k" := JObject(map["timestamp" := JArray([JNull, JNull])])], "k", 1000, 5000).Some?
  {
    var entry := JObject(map["timestamp" := JArray([JNumber(t)])]);
    assert TimestampOf(entry) == Some(t);
    var pair := JObject(map["timestamp" := JArray([JNull, JNull])]);
    assert TimestampOf(pair).None?;
  }

  /** An entry read back within the time-to-live is the one written, still
      returned when exactly `ttl` old, and gone once older. */
  lemma ReadAfterWrite(items: map<string, Json>, key: string, payload: map<string, Json>,
                       written: int, ttl: int, now: int)
    ensures written <= now <= written + ttl
            ==> CachedValue(items[key := Stamped(payload, written)], key, ttl, now) == Some(Stamped(payload, written))
    ensures now > written + ttl
            ==> CachedValue(items[key := Stamped(payload, written)], key, ttl, now).None?
  {
    assert TimestampOf(Stamped(payload, written)) == Some(written as real);
  }

  /** Writing one key leaves every other key's cached value as it was. */
  lemma WriteTouchesOnlyItsKey(items: map<string, Json>, key: string, other: string,
                               payload: map<string, Json>, written: int, ttl: int, now: int)
    requires other != key
    ensures CachedValue(items[key := Stamped(payload, written)], other, ttl, now) == CachedValue(items, other, ttl, now)
  {
  }

  /** The settings key is not a cache key, so clearing the cache keeps the
      settings; every cache key is removed and every other key is kept. */
  lemma ClearCacheKeepsSettings(items: map<string, Json>, ticker: string, endpoint: string, period: string)
    ensures !IsCacheKey(SettingsKey)
    ensures SettingsKey in items ==> SettingsKey in WithoutCache(items)
                                     && WithoutCache(items)[SettingsKey] == items[SettingsKey]
    ensures CacheKey(ticker, endpoint, period) !in WithoutCache(items)
    ensures forall k :: k in WithoutCache(items) <==> k in items && !IsCacheKey(k)
  {
    assert SettingsKey[8] != CachePrefix[8];
  }

}
