/**
 * The bot's shared cache on Redis: one-shot claims with a cooldown (timely
 * rewards, affinity and divorce cooldowns, rate limits), cached aggregates,
 * and the checkpoint of the currency decay job. The store is modelled as a map
 * from key to value and absolute expiry time; the clock is the `now`
 * parameter of each operation.
 */
module RedisCaching {
  import opened Wrappers
  import opened Decimal
  import opened Text
  import opened DiscordUserModel

  /** Milliseconds since `DateTime.MinValue`, which is time 0. */
  type Time = nat

  const MinValue: Time := 0
  const MsPerSecond: int := 1000
  const MsPerMinute: int := 60 * MsPerSecond
  const MsPerHour: int := 60 * MsPerMinute

  const AffinityCooldown: int := 30 * MsPerMinute
  const DivorceCooldown: int := 6 * MsPerHour
  const EconomyTtl: int := 3 * MsPerMinute
  const AnimeTtl: int := 3 * MsPerHour
  const NovelTtl: int := 3 * MsPerHour
  const StreamTtl: int := 6 * MsPerHour

  /** The value Redis holds for the boolean `true` (stored as the integer 1). */
  const TrueValue: string := "1"
  /** The value a rate-limit key holds; it is never read. */
  const ZeroValue: string := "0"

  /** A `TimeSpan` counts ticks of 100 ns in a `long`. */
  const TicksPerHour: int := 36_000_000_000
  const LongMin: int := -0x8000_0000_0000_0000
  const LongMax: int := 0x7FFF_FFFF_FFFF_FFFF

  /** The most whole hours a `TimeSpan` holds, in either direction. */
  const MaxTimeSpanHours: int := 256204778

  /**
   * `TimeSpan.FromHours`: the span in milliseconds, or an overflow when its
   * ticks fall outside the range of a `long`.
   */
  function FromHours(hours: int): (r: Result<int, CacheError>)
    ensures r.Ok? <==> -MaxTimeSpanHours <= hours <= MaxTimeSpanHours
    ensures r.Ok? ==> r.value == hours * MsPerHour
    ensures r.Err? ==> r.error == TimeSpanOverflow
  {
    var ticks := hours * TicksPerHour;
    if LongMin <= ticks <= LongMax then Ok(hours * MsPerHour) else Err(TimeSpanOverflow)
  }

  /** A stored value and the absolute time it expires at, if it has an expiry. */
  datatype Entry = Entry(value: string, expiresAt: Option<int>)

  type Store = map<string, Entry>

  /** Why an operation raised instead of answering. */
  datatype CacheError =
    | InvalidExpireTime        // Redis refuses a SET whose expiry is not positive
    | DeserializationFailed    // the stored text is not a value of the expected type
    | TimeSpanOverflow         // `TimeSpan.FromHours` of more hours than a `TimeSpan` holds

  // ---------------------------------------------------------------------------
  // The store
  // ---------------------------------------------------------------------------

  /** The key holds a value at time `now`: present and not yet expired. */
  predicate Live(st: Store, key: string, now: Time) {
    key in st && (st[key].expiresAt.None? || now < st[key].expiresAt.value)
  }

  /** `StringGet`: the live value, or null. */
  function Get(st: Store, key: string, now: Time): (r: Option<string>)
    ensures r.Some? <==> Live(st, key, now)
    ensures r.Some? ==> r.value == st[key].value
  {
    if Live(st, key, now) then Some(st[key].value) else None
  }

  /** `KeyTimeToLive`: the time left on a live key with an expiry; null for a missing key or one without expiry. */
  function TimeToLive(st: Store, key: string, now: Time): (r: Option<int>)
    ensures r.Some? <==> Live(st, key, now) && st[key].expiresAt.Some?
    ensures r.Some? ==> r.value > 0 && r.value == st[key].expiresAt.value - now
  {
    if Live(st, key, now) && st[key].expiresAt.Some? then Some(st[key].expiresAt.value - now) else None
  }

  /** `StringSet` with an optional expiry, which overwrites whatever the key held. */
  function Put(st: Store, key: string, value: string, ttl: Option<int>, now: Time): (r: Store)
    requires ttl.Some? ==> ttl.value > 0
    ensures r.Keys == st.Keys + {key}
    ensures forall k :: k in st && k != key ==> r[k] == st[k]
    ensures Get(r, key, now) == Some(value)
    ensures TimeToLive(r, key, now) == ttl
  {
    st[key := Entry(value, if ttl.Some? then Some(now + ttl.value) else None)]
  }

  /** A value written with a time-to-live `ttl` reads back, with the right time left, until it expires. */
  lemma PutReadsBackUntilExpiry(st: Store, key: string, value: string, ttl: int, now: Time, later: Time)
    requires ttl > 0 && now <= later
    ensures later < now + ttl ==>
      && Get(Put(st, key, value, Some(ttl), now), key, later) == Some(value)
      && TimeToLive(Put(st, key, value, Some(ttl), now), key, later) == Some(now + ttl - later)
      && 0 < now + ttl - later <= ttl
    ensures later >= now + ttl ==> Get(Put(st, key, value, Some(ttl), now), key, later) == None
  {
  }

  // ---------------------------------------------------------------------------
  // Keys
  // ---------------------------------------------------------------------------

  function TimelyClaimPrefix(redisKey: string): string { redisKey + "_timelyclaim_" }
  function TimelyClaimKey(redisKey: string, id: UserId): string { TimelyClaimPrefix(redisKey) + Show(id) }
  function AffinityKey(redisKey: string, id: UserId): string { redisKey + "_affinity_" + Show(id) }
  function DivorceKey(redisKey: string, id: UserId): string { redisKey + "_divorce_" + Show(id) }
  function RatelimitKey(redisKey: string, id: UserId, name: string): string {
    redisKey + "_ratelimit_" + Show(id) + "_" + name
  }
  function EconomyKey(redisKey: string): string { redisKey + "_economy" }
  function LastCurrencyDecayKey(redisKey: string): string { redisKey + "_last_currency_decay" }
  function StreamKey(redisKey: string, url: string): string { redisKey + "_stream_" + url }
  function ImageKey(uri: string): string { "image_" + uri }
  function AnimeKey(key: string): string { "anime_" + key }
  function NovelKey(key: string): string { "novel_" + key }

  /** The key matches the pattern `{redisKey}_timelyclaim_*`. */
  predicate IsTimelyClaimKey(redisKey: string, key: string) {
    TimelyClaimPrefix(redisKey) <= key
  }

  /** Different users have different claim keys. */
  lemma TimelyClaimKeyInjective(redisKey: string, a: UserId, b: UserId)
    requires TimelyClaimKey(redisKey, a) == TimelyClaimKey(redisKey, b)
    ensures a == b
  {
    var p := TimelyClaimPrefix(redisKey);
    assert Show(a) == TimelyClaimKey(redisKey, a)[|p|..];
    assert Show(b) == TimelyClaimKey(redisKey, b)[|p|..];
    ShowInjective(a, b);
  }

  /** A key whose character after `{redisKey}_` is not 't' does not match the claim pattern. */
  lemma TimelyPatternNeedsT(redisKey: string, key: string)
    requires |key| > |redisKey| + 1 && key[|redisKey| + 1] != 't'
    ensures !IsTimelyClaimKey(redisKey, key)
  {
    var p := TimelyClaimPrefix(redisKey);
    assert p[|redisKey| + 1] == 't';
    assert |p| <= |key| ==> p[|redisKey| + 1] != key[..|p|][|redisKey| + 1];
  }

  /** Clearing the timely claims cannot hit the other keys of the same installation. */
  lemma OtherKeysAreNoTimelyClaims(redisKey: string, id: UserId, name: string)
    ensures !IsTimelyClaimKey(redisKey, AffinityKey(redisKey, id))
    ensures !IsTimelyClaimKey(redisKey, DivorceKey(redisKey, id))
    ensures !IsTimelyClaimKey(redisKey, RatelimitKey(redisKey, id, name))
    ensures !IsTimelyClaimKey(redisKey, EconomyKey(redisKey))
    ensures !IsTimelyClaimKey(redisKey, LastCurrencyDecayKey(redisKey))
    ensures !IsTimelyClaimKey(redisKey, StreamKey(redisKey, name))
  {
    var i := |redisKey| + 1;
    assert (redisKey + "_affinity_")[i] == 'a';
    TimelyPatternNeedsT(redisKey, AffinityKey(redisKey, id));
    assert (redisKey + "_divorce_")[i] == 'd';
    TimelyPatternNeedsT(redisKey, DivorceKey(redisKey, id));
    assert (redisKey + "_ratelimit_")[i] == 'r';
    TimelyPatternNeedsT(redisKey, RatelimitKey(redisKey, id, name));
    assert (redisKey + "_economy")[i] == 'e';
    TimelyPatternNeedsT(redisKey, EconomyKey(redisKey));
    assert (redisKey + "_last_currency_decay")[i] == 'l';
    TimelyPatternNeedsT(redisKey, LastCurrencyDecayKey(redisKey));
    assert (redisKey + "_stream_")[i] == 's';
    TimelyPatternNeedsT(redisKey, StreamKey(redisKey, name));
  }

  // ---------------------------------------------------------------------------
  // The currency decay checkpoint
  // ---------------------------------------------------------------------------

  /** The checkpoint as `GetLastCurrencyDecay` reads it: missing or empty text means `DateTime.MinValue`. */
  function ReadCheckpoint(st: Store, key: string, now: Time): (r: Result<Time, CacheError>)
    ensures Get(st, key, now).None? ==> r == Ok(MinValue)
    ensures r.Err? ==> r.error == DeserializationFailed
  {
    match Get(st, key, now)
    case None => Ok(MinValue)
    case Some(text) =>
      if |text| == 0 then Ok(MinValue)
      else match Parse(text)
        case None => Err(DeserializationFailed)
        case Some(t) => Ok(t)
  }

  /** The store after `SetLastCurrencyDecay` at time `t`: the time, without expiry. */
  function WriteCheckpoint(st: Store, key: string, t: Time): (r: Store)
    ensures Get(r, key, t) == Some(Show(t))
    ensures forall k :: k in st && k != key ==> k in r && r[k] == st[k]
  {
    Put(st, key, Show(t), None, t)
  }

  /** Whatever time was written last is read back, at any later time. */
  lemma {:induction false} CheckpointRoundTrip(st: Store, key: string, t: Time, later: Time)
    ensures ReadCheckpoint(WriteCheckpoint(st, key, t), key, later) == Ok(t)
  {
    ParseShow(t);
  }

  // ---------------------------------------------------------------------------
  // The cache object
  // ---------------------------------------------------------------------------

  class RedisCache {
    /** The installation key that prefixes the keys of this bot. */
    const redisKey: string
    /** The contents of the shared Redis database. */
    var store: Store

    constructor (redisKey: string, initial: Store)
      ensures this.redisKey == redisKey && store == initial
    {
      this.redisKey := redisKey;
      store := initial;
    }

    /** `TryGetImageDataAsync`: image keys are shared between installations. */
    function TryGetImageData(uri: string, now: Time): (r: (bool, Option<string>))
      reads this
      ensures r.0 <==> Live(store, ImageKey(uri), now)
      ensures r.0 ==> r.1 == Some(store[ImageKey(uri)].value)
      ensures !r.0 ==> r.1 == None
    {
      var x := Get(store, ImageKey(uri), now);
      (x.Some?, x)
    }

    /** `SetImageDataAsync`: stored without expiry. */
    method SetImageData(uri: string, data: string, now: Time)
      modifies this
      ensures store == Put(old(store), ImageKey(uri), data, None, now)
    {
      store := Put(store, ImageKey(uri), data, None, now);
    }

    function TryGetAnimeData(key: string, now: Time): (r: (bool, Option<string>))
      reads this
      ensures r.0 <==> Live(store, AnimeKey(key), now)
      ensures r.0 ==> r.1 == Some(store[AnimeKey(key)].value)
      ensures !r.0 ==> r.1 == None
    {
      var x := Get(store, AnimeKey(key), now);
      (x.Some?, x)
    }

    /** `SetAnimeDataAsync`: kept for three hours. */
    method SetAnimeData(key: string, data: string, now: Time)
      modifies this
      ensures store == Put(old(store), AnimeKey(key), data, Some(AnimeTtl), now)
    {
      store := Put(store, AnimeKey(key), data, Some(AnimeTtl), now);
    }

    function TryGetNovelData(key: string, now: Time): (r: (bool, Option<string>))
      reads this
      ensures r.0 <==> Live(store, NovelKey(key), now)
      ensures r.0 ==> r.1 == Some(store[NovelKey(key)].value)
      ensures !r.0 ==> r.1 == None
    {
      var x := Get(store, NovelKey(key), now);
      (x.Some?, x)
    }

    /** `SetNovelDataAsync`: kept for three hours. */
    method SetNovelData(key: string, data: string, now: Time)
      modifies this
      ensures store == Put(old(store), NovelKey(key), data, Some(NovelTtl), now)
    {
      store := Put(store, NovelKey(key), data, Some(NovelTtl), now);
    }

    /** `SetStreamDataAsync`: kept for six hours. */
    method SetStreamData(url: string, data: string, now: Time)
      modifies this
      ensures store == Put(old(store), StreamKey(redisKey, url), data, Some(StreamTtl), now)
    {
      store := Put(store, StreamKey(redisKey, url), data, Some(StreamTtl), now);
    }

    /** `TryGetStreamData`: succeeds only for a live, non-blank value. */
    function TryGetStreamData(url: string, now: Time): (r: (bool, Option<string>))
      reads this
      ensures r.1 == Get(store, StreamKey(redisKey, url), now)
      ensures r.0 <==> Live(store, StreamKey(redisKey, url), now)
                       && !IsBlank(store[StreamKey(redisKey, url)].value)
    {
      var data := Get(store, StreamKey(redisKey, url), now);
      (data.Some? && !IsBlank(data.value), data)
    }

    /**
     * `AddTimelyClaim`: a period of 0 disables the cooldown. Otherwise an id
     * without a live claim gets one that lasts `period` hours and the answer is
     * null; an id with a live claim gets the claim's remaining time and nothing
     * is written. A period beyond what a `TimeSpan` holds raises before the
     * lookup; a negative period is refused by Redis when it has to be written.
     */
    method AddTimelyClaim(id: UserId, period: int, now: Time) returns (r: Result<Option<int>, CacheError>)
      modifies this
      ensures period == 0 ==> r == Ok(None) && store == old(store)
      ensures period != 0 && FromHours(period).Err? ==> r == Err(TimeSpanOverflow) && store == old(store)
      ensures period != 0 && FromHours(period).Ok? && Live(old(store), TimelyClaimKey(redisKey, id), now) ==>
        r == Ok(TimeToLive(old(store), TimelyClaimKey(redisKey, id), now)) && store == old(store)
      ensures 0 < period <= MaxTimeSpanHours && !Live(old(store), TimelyClaimKey(redisKey, id), now) ==>
        r == Ok(None) && store == Put(old(store), TimelyClaimKey(redisKey, id), TrueValue, Some(period * MsPerHour), now)
      ensures -MaxTimeSpanHours <= period < 0 && !Live(old(store), TimelyClaimKey(redisKey, id), now) ==>
        r == Err(InvalidExpireTime) && store == old(store)
    {
      if period == 0 {
        return Ok(None);
      }
      var span := FromHours(period);
      if span.Err? {
        return Err(span.error);
      }
      var time := span.value;
      var key := TimelyClaimKey(redisKey, id);
      if Get(store, key, now).None? {
        if time <= 0 {
          return Err(InvalidExpireTime);
        }
        store := Put(store, key, TrueValue, Some(time), now);
        return Ok(None);
      }
      r := Ok(TimeToLive(store, key, now));
    }

    /** `RemoveAllTimelyClaims`: deletes each key matching `{redisKey}_timelyclaim_*`, one by one. */
    method RemoveAllTimelyClaims()
      modifies this
      ensures forall k :: k in store <==> k in old(store) && !IsTimelyClaimKey(redisKey, k)
      ensures forall k :: k in store ==> store[k] == old(store)[k]
    {
      var keys := set k | k in store && IsTimelyClaimKey(redisKey, k);
      while keys != {}
        invariant keys <= store.Keys
        invariant forall k :: k in store <==> k in old(store) && (!IsTimelyClaimKey(redisKey, k) || k in keys)
        invariant forall k :: k in store ==> store[k] == old(store)[k]
        decreases keys
      {
        var k :| k in keys;
        store := store - {k};
        keys := keys - {k};
      }
    }

    /**
     * `TryAddAffinityCooldown`: without a time-to-live on the key, starts a
     * 30-minute cooldown and reports it; otherwise reports the time left.
     */
    method TryAddAffinityCooldown(userId: UserId, now: Time) returns (added: bool, time: Option<int>)
      modifies this
      ensures var old_ttl := TimeToLive(old(store), AffinityKey(redisKey, userId), now);
        && (added <==> old_ttl.None?)
        && (added ==>
              && time == Some(AffinityCooldown)
              && store == Put(old(store), AffinityKey(redisKey, userId), TrueValue, Some(AffinityCooldown), now))
        && (!added ==> time == old_ttl && store == old(store))
    {
      var key := AffinityKey(redisKey, userId);
      time := TimeToLive(store, key, now);
      if time.None? {
        time := Some(AffinityCooldown);
        store := Put(store, key, TrueValue, time, now);
        return true, time;
      }
      added := false;
    }

    /**
     * `TryAddDivorceCooldown`: without a time-to-live on the key, starts a
     * 6-hour cooldown and reports it; otherwise reports the time left.
     */
    method TryAddDivorceCooldown(userId: UserId, now: Time) returns (added: bool, time: Option<int>)
      modifies this
      ensures var old_ttl := TimeToLive(old(store), DivorceKey(redisKey, userId), now);
        && (added <==> old_ttl.None?)
        && (added ==>
              && time == Some(DivorceCooldown)
              && store == Put(old(store), DivorceKey(redisKey, userId), TrueValue, Some(DivorceCooldown), now))
        && (!added ==> time == old_ttl && store == old(store))
    {
      var key := DivorceKey(redisKey, userId);
      time := TimeToLive(store, key, now);
      if time.None? {
        time := Some(DivorceCooldown);
        store := Put(store, key, TrueValue, time, now);
        return true, time;
      }
      added := false;
    }

    /**
     * `TryAddRatelimit`: an atomic set-if-absent with an `expireIn`-second
     * expiry. Null when the limit was just started; otherwise the time left on
     * the existing key, which stays untouched.
     */
    method TryAddRatelimit(id: UserId, name: string, expireIn: int, now: Time) returns (r: Result<Option<int>, CacheError>)
      modifies this
      ensures expireIn <= 0 ==> r == Err(InvalidExpireTime) && store == old(store)
      ensures expireIn > 0 && !Live(old(store), RatelimitKey(redisKey, id, name), now) ==>
        r == Ok(None)
        && store == Put(old(store), RatelimitKey(redisKey, id, name), ZeroValue, Some(expireIn * MsPerSecond), now)
      ensures expireIn > 0 && Live(old(store), RatelimitKey(redisKey, id, name), now) ==>
        r == Ok(TimeToLive(old(store), RatelimitKey(redisKey, id, name), now)) && store == old(store)
    {
      var key := RatelimitKey(redisKey, id, name);
      var ttl := expireIn * MsPerSecond;
      if ttl <= 0 {
        return Err(InvalidExpireTime);
      }
      if !Live(store, key, now) {
        store := Put(store, key, ZeroValue, Some(ttl), now);
        return Ok(None);
      }
      r := Ok(TimeToLive(store, key, now));
    }

    /** `TryGetEconomy`: the cached economy text, if any. */
    function TryGetEconomy(now: Time): (r: (bool, Option<string>))
      reads this
      ensures r.0 <==> Live(store, EconomyKey(redisKey), now)
      ensures r.0 ==> r.1 == Some(store[EconomyKey(redisKey)].value)
      ensures !r.0 ==> r.1 == None
    {
      var data := Get(store, EconomyKey(redisKey), now);
      (data.Some?, data)
    }

    /** `SetEconomy`: kept for three minutes. */
    method SetEconomy(data: string, now: Time)
      modifies this
      ensures store == Put(old(store), EconomyKey(redisKey), data, Some(EconomyTtl), now)
    {
      store := Put(store, EconomyKey(redisKey), data, Some(EconomyTtl), now);
    }

    /**
     * `GetOrAddCachedDataAsync`: on a hit the stored text is deserialised and
     * the factory is not called; on a miss the factory is called once, and a
     * non-null result is stored with `expiry` and returned, a null one returned
     * without being stored. A stored text that does not deserialise raises.
     */
    method GetOrAddCachedData<P, T>(
      key: string, factory: P -> Option<T>, param: P, expiry: int, now: Time,
      serialize: T -> string, deserialize: string -> Option<T>)
      returns (r: Result<Option<T>, CacheError>, factoryCalls: nat)
      modifies this
      ensures Live(old(store), key, now) ==>
        && factoryCalls == 0
        && store == old(store)
        && r == (match deserialize(old(store)[key].value)
                 case Some(x) => Ok(Some(x))
                 case None => Err(DeserializationFailed))
      ensures !Live(old(store), key, now) ==> factoryCalls == 1
      ensures !Live(old(store), key, now) && factory(param).None? ==> r == Ok(None) && store == old(store)
      ensures !Live(old(store), key, now) && factory(param).Some? && expiry <= 0 ==>
        r == Err(InvalidExpireTime) && store == old(store)
      ensures !Live(old(store), key, now) && factory(param).Some? && expiry > 0 ==>
        && r == Ok(factory(param))
        && store == Put(old(store), key, serialize(factory(param).value), Some(expiry), now)
    {
      var data := Get(store, key, now);
      if data.None? {
        var obj := factory(param);
        factoryCalls := 1;
        if obj.None? {
          return Ok(None), factoryCalls;
        }
        if expiry <= 0 {
          return Err(InvalidExpireTime), factoryCalls;
        }
        store := Put(store, key, serialize(obj.value), Some(expiry), now);
        return Ok(obj), factoryCalls;
      }
      factoryCalls := 0;
      match deserialize(data.value)
      case Some(x) => r := Ok(Some(x));
      case None => r := Err(DeserializationFailed);
    }

    /** `GetLastCurrencyDecay`. */
    function GetLastCurrencyDecay(now: Time): (r: Result<Time, CacheError>)
      reads this
      ensures !Live(store, LastCurrencyDecayKey(redisKey), now) ==> r == Ok(MinValue)
      ensures Live(store, LastCurrencyDecayKey(redisKey), now) && |store[LastCurrencyDecayKey(redisKey)].value| == 0 ==>
        r == Ok(MinValue)
      ensures r.Err? ==> r.error == DeserializationFailed && Live(store, LastCurrencyDecayKey(redisKey), now)
    {
      ReadCheckpoint(store, LastCurrencyDecayKey(redisKey), now)
    }

    /** `SetLastCurrencyDecay`: records the current time, without expiry. */
    method SetLastCurrencyDecay(now: Time)
      modifies this
      ensures store == WriteCheckpoint(old(store), LastCurrencyDecayKey(redisKey), now)
      ensures forall later: Time :: GetLastCurrencyDecay(later) == Ok(now)
    {
      store := WriteCheckpoint(store, LastCurrencyDecayKey(redisKey), now);
      forall later: Time ensures GetLastCurrencyDecay(later) == Ok(now) {
        CheckpointRoundTrip(old(store), LastCurrencyDecayKey(redisKey), now, later);
      }
    }
  }

  /**
   * A non-null result that `GetOrAddCachedData` stored is served from the cache
   * until it expires, provided the serialiser and deserialiser round-trip.
   */
  lemma MemoisedUntilExpiry<T>(st: Store, key: string, v: T, expiry: int, now: Time, later: Time,
                               serialize: T -> string, deserialize: string -> Option<T>)
    requires expiry > 0 && now <= later < now + expiry
    requires deserialize(serialize(v)) == Some(v)
    ensures var st' := Put(st, key, serialize(v), Some(expiry), now);
      Live(st', key, later) && deserialize(st'[key].value) == Some(v)
  {
  }

  /** A live timely claim reports a remaining time of at most the period it was taken with. */
  lemma ClaimRemainingWithinPeriod(st: Store, redisKey: string, id: UserId, period: int, now: Time, later: Time)
    requires period > 0 && now <= later
    ensures var st' := Put(st, TimelyClaimKey(redisKey, id), TrueValue, Some(period * MsPerHour), now);
      var ttl := TimeToLive(st', TimelyClaimKey(redisKey, id), later);
      (later < now + period * MsPerHour ==> ttl.Some? && 0 < ttl.value <= period * MsPerHour)
      && (later >= now + period * MsPerHour ==> !Live(st', TimelyClaimKey(redisKey, id), later))
  {
  }
}
