/**
 * The gambling service: the periodic currency decay, which shard 0 runs over
 * the users table and checkpoints in the cache; the cached economy overview;
 * and the entry check of the slot machine.
 */
module Gambling {
  import opened Wrappers
  import opened Decimal
  import opened DiscordUserModel
  import opened RedisCaching
  import opened Numbers

  /** The decay section of the gambling configuration. */
  datatype DecayConfig = DecayConfig(percent: real, maxDecay: int, minThreshold: int, hourInterval: int)

  // ---------------------------------------------------------------------------
  // The per-row formula
  // ---------------------------------------------------------------------------

  /** SQLite `ROUND(x)`: the nearest integer, halves rounded away from zero. */
  function Round(x: real): (r: int)
    ensures x >= 0.0 ==> x - 0.5 < r as real <= x + 0.5
    ensures x < 0.0 ==> x - 0.5 <= r as real < x + 0.5
  {
    if x >= 0.0 then (x + 0.5).Floor else -((-x + 0.5).Floor)
  }

  /** What a balance `b` loses before the cap: `ROUND(b * percent - 0.5)`. */
  function Deduction(b: int, percent: real): int {
    Round(b as real * percent - 0.5)
  }

  /** A configured maximum of 0 means no cap, that is `int.MaxValue`. */
  function EffectiveCap(maxDecay: int): (cap: int)
    ensures maxDecay != 0 ==> cap == maxDecay
    ensures maxDecay == 0 ==> cap == IntMax
  {
    if maxDecay == 0 then IntMax else maxDecay
  }

  /** The `CASE` of the update: the deduction, or the cap when the deduction reaches it. */
  function DecayedBalance(b: int, percent: real, cap: int): int {
    Capped(b, Deduction(b, percent), cap)
  }

  /** A balance `b` after losing `d`, or the cap when `d` reaches it. */
  function Capped(b: int, d: int, cap: int): int {
    if cap > d then b - d else b - cap
  }

  lemma CappedWithin(b: int, d: int, cap: int)
    requires 0 <= d <= b && cap >= 0
    ensures 0 <= Capped(b, d, cap) <= b
  {
  }

  /** For a positive product the rounded deduction is the floor of `b * percent`. */
  lemma DeductionIsFloor(b: int, percent: real)
    requires b as real * percent > 0.0
    ensures Deduction(b, percent) == (b as real * percent).Floor
  {
    RoundDownOfPositive(b as real * percent);
  }

  /** Rounding half away from zero after subtracting one half is the floor, for a positive value. */
  lemma RoundDownOfPositive(x: real)
    requires x > 0.0
    ensures Round(x - 0.5) == x.Floor
  {
    if x - 0.5 < 0.0 {
      assert (-(x - 0.5) + 0.5).Floor == 0;
    }
  }

  /** For a positive product a row loses the floor of `b * percent`, but never more than the cap. */
  lemma DecayIsCappedFloor(b: int, percent: real, cap: int)
    requires b as real * percent > 0.0
    ensures b - DecayedBalance(b, percent, cap) == Min((b as real * percent).Floor, cap)
  {
    DeductionIsFloor(b, percent);
  }

  /** With a positive balance and a percent in (0, 1], a decayed balance stays within [0, b]. */
  lemma DecayStaysWithinBalance(b: int, percent: real, maxDecay: int)
    requires b > 0 && 0.0 < percent <= 1.0 && maxDecay >= 0
    ensures 0 <= DecayedBalance(b, percent, EffectiveCap(maxDecay)) <= b
  {
    FloorOfShareWithin(b, percent);
    DeductionIsFloor(b, percent);
    CappedWithin(b, Deduction(b, percent), EffectiveCap(maxDecay));
  }

  /** The floor of `b * percent` lies within [0, b]. */
  lemma FloorOfShareWithin(b: int, percent: real)
    requires b > 0 && 0.0 < percent <= 1.0
    ensures 0 <= (b as real * percent).Floor <= b
  {
    var x := b as real * percent;
    assert 0.0 < x <= b as real by {
      assert b as real * percent <= b as real * 1.0;
    }
  }

  /** A zero balance gains one coin: the deduction `ROUND(-0.5)` is -1, below any cap. */
  lemma ZeroBalanceGainsOne(percent: real, maxDecay: int)
    requires maxDecay >= 0
    ensures DecayedBalance(0, percent, EffectiveCap(maxDecay)) == 1
  {
    assert Deduction(0, percent) == Round(-0.5) == -1;
  }

  // ---------------------------------------------------------------------------
  // The guards and the bulk update
  // ---------------------------------------------------------------------------

  /** The decay is configured to run: a percent in (0, 1] and a non-negative maximum. */
  predicate DecayEnabled(cfg: DecayConfig) {
    !(cfg.percent <= 0.0 || cfg.percent > 1.0 || cfg.maxDecay < 0)
  }

  /** At least `hourInterval` hours have passed since the checkpoint. */
  predicate IntervalElapsed(now: Time, last: Time, hourInterval: int)
    requires FromHours(hourInterval).Ok?
  {
    now - last >= FromHours(hourInterval).value
  }

  /** The row takes part in the update: above the threshold and not the bot itself. */
  predicate Eligible(u: DiscordUser, minThreshold: int, botId: UserId) {
    u.currencyAmount > minThreshold && u.userId != botId
  }

  /** Database rows are identified by their own integer key. */
  type RowId = int

  /** The users table after the decay update. */
  function DecayAll(users: map<RowId, DiscordUser>, cfg: DecayConfig, botId: UserId): (r: map<RowId, DiscordUser>)
    ensures r.Keys == users.Keys
    ensures forall k :: k in users && !Eligible(users[k], cfg.minThreshold, botId) ==> r[k] == users[k]
    ensures forall k :: k in users ==> r[k] == users[k].(currencyAmount := r[k].currencyAmount)
    ensures forall k :: k in users && Eligible(users[k], cfg.minThreshold, botId) ==>
      r[k].currencyAmount == DecayedBalance(users[k].currencyAmount, cfg.percent, EffectiveCap(cfg.maxDecay))
  {
    map k | k in users ::
      if Eligible(users[k], cfg.minThreshold, botId)
      then users[k].(currencyAmount := DecayedBalance(users[k].currencyAmount, cfg.percent, EffectiveCap(cfg.maxDecay)))
      else users[k]
  }

  /**
   * Under an enabled configuration and a non-negative threshold, no balance
   * grows, none goes negative, and the bot's row keeps its balance.
   */
  lemma DecayAllShrinksBalances(users: map<RowId, DiscordUser>, cfg: DecayConfig, botId: UserId)
    requires DecayEnabled(cfg) && cfg.minThreshold >= 0
    ensures forall k :: k in users && users[k].currencyAmount >= 0 ==>
      0 <= DecayAll(users, cfg, botId)[k].currencyAmount <= users[k].currencyAmount
    ensures forall k :: k in users && users[k].userId == botId ==> DecayAll(users, cfg, botId)[k] == users[k]
    ensures forall k :: k in users ==> Equals(DecayAll(users, cfg, botId)[k], UserObject(users[k]))
  {
    var r := DecayAll(users, cfg, botId);
    forall k | k in users && users[k].currencyAmount >= 0
      ensures 0 <= r[k].currencyAmount <= users[k].currencyAmount
    {
      if Eligible(users[k], cfg.minThreshold, botId) {
        DecayStaysWithinBalance(users[k].currencyAmount, cfg.percent, cfg.maxDecay);
      }
    }
  }

  // ---------------------------------------------------------------------------
  // The economy overview and its cache encoding
  // ---------------------------------------------------------------------------

  /** The overview of all currency in circulation; every amount is a sum of whole coins. */
  datatype EconomyResult = EconomyResult(cash: int, planted: int, waifus: int, onePercent: int, bot: int)

  /** The index of the first comma, or the length when there is none. */
  function CommaIndex(s: string): (i: nat)
    ensures i <= |s|
    ensures i < |s| ==> s[i] == ','
    ensures forall j :: 0 <= j < i ==> s[j] != ','
  {
    if |s| == 0 || s[0] == ',' then 0 else 1 + CommaIndex(s[1..])
  }

  /** The comma-separated fields of a text. */
  function Split(s: string): (r: seq<string>)
    ensures |r| > 0
    decreases |s|
  {
    var i := CommaIndex(s);
    if i == |s| then [s] else [s[..i]] + Split(s[i + 1..])
  }

  /** Fields joined with commas. */
  function Join(fs: seq<string>): string
    requires |fs| > 0
  {
    if |fs| == 1 then fs[0] else fs[0] + "," + Join(fs[1..])
  }

  predicate NoComma(f: string) { forall j :: 0 <= j < |f| ==> f[j] != ',' }

  /** Splitting undoes joining fields that hold no comma. */
  lemma {:induction false} SplitJoin(fs: seq<string>)
    requires |fs| > 0 && forall n :: 0 <= n < |fs| ==> NoComma(fs[n])
    ensures Split(Join(fs)) == fs
  {
    if |fs| == 1 {
      assert CommaIndex(fs[0]) == |fs[0]|;
    } else {
      SplitField(fs[0], Join(fs[1..]));
      SplitJoin(fs[1..]);
    }
  }

  /** A field without a comma, a comma, and a rest split into the field and the rest's fields. */
  lemma SplitField(f: string, rest: string)
    requires NoComma(f)
    ensures Split(f + "," + rest) == [f] + Split(rest)
  {
    var s := f + "," + rest;
    assert s[|f|] == ',';
    assert forall j :: 0 <= j < |f| ==> s[j] == f[j];
    assert CommaIndex(s) == |f|;
    assert s[..|f|] == f;
    assert s[|f| + 1..] == rest;
  }

  function EconomyFields(e: EconomyResult): seq<string> {
    [ShowInt(e.cash), ShowInt(e.planted), ShowInt(e.waifus), ShowInt(e.onePercent), ShowInt(e.bot)]
  }

  /** The text `GetEconomy` stores in the cache. */
  function EncodeEconomy(e: EconomyResult): string {
    Join(EconomyFields(e))
  }

  /** Reads back an overview; any other text fails to decode. */
  function DecodeEconomy(s: string): Option<EconomyResult> {
    var fs := Split(s);
    if |fs| != 5 then None
    else match (ParseInt(fs[0]), ParseInt(fs[1]), ParseInt(fs[2]), ParseInt(fs[3]), ParseInt(fs[4]))
      case (Some(c), Some(p), Some(w), Some(o), Some(b)) => Some(EconomyResult(c, p, w, o, b))
      case _ => None
  }

  lemma {:induction false} EconomyRoundTrip(e: EconomyResult)
    ensures DecodeEconomy(EncodeEconomy(e)) == Some(e)
  {
    var fs := EconomyFields(e);
    forall n | 0 <= n < |fs| ensures NoComma(fs[n]) {
      assert forall k :: 0 <= k < |fs[n]| ==> IsDigit(fs[n][k]) || fs[n][k] == '-';
    }
    SplitJoin(fs);
    ParseShowInt(e.cash);
    ParseShowInt(e.planted);
    ParseShowInt(e.waifus);
    ParseShowInt(e.onePercent);
    ParseShowInt(e.bot);
  }

  // ---------------------------------------------------------------------------
  // The slot machine entry
  // ---------------------------------------------------------------------------

  /** `(long)x`: conversion toward zero. */
  function Truncate(x: real): (r: int)
    ensures x >= 0.0 ==> 0 <= r && r as real <= x < r as real + 1.0
    ensures x < 0.0 ==> r <= 0 && r as real - 1.0 < x <= r as real
  {
    if x >= 0.0 then x.Floor else -((-x).Floor)
  }

  datatype SpinResult = SpinResult(multiplier: real, rolls: seq<int>)
  datatype GamblingError = NotEnough
  datatype SlotResponse = SlotResponse(error: Option<GamblingError>, multiplier: real, won: int, rolls: seq<int>)

  /**
   * `SlotAsync`, given whether the bet could be taken from the user and the
   * spin the game produced: a bet that cannot be paid ends with `NotEnough`
   * and no payout; otherwise the payout is credited when the multiplier is
   * positive. The second component is the amount credited back, if any.
   */
  function Slot(taken: bool, spin: SpinResult, amount: int): (r: (SlotResponse, Option<int>))
    ensures !taken ==> r.0.error == Some(NotEnough) && r.0.won == 0 && r.1 == None
    ensures taken ==> r.0.error == None && r.0.rolls == spin.rolls && r.0.multiplier == spin.multiplier
    ensures taken && spin.multiplier <= 0.0 ==> r.0.won == 0 && r.1 == None
    ensures taken && spin.multiplier > 0.0 ==> r.1 == Some(r.0.won)
    ensures taken && spin.multiplier > 0.0 ==> r.0.won == Truncate(spin.multiplier * amount as real)
    ensures taken && spin.multiplier > 0.0 && amount >= 0 ==>
      0 <= r.0.won && r.0.won as real <= spin.multiplier * amount as real
  {
    if !taken then (SlotResponse(Some(NotEnough), 0.0, 0, []), None)
    else if spin.multiplier > 0.0 then
      var won := Truncate(spin.multiplier * amount as real);
      (SlotResponse(None, spin.multiplier, won, spin.rolls), Some(won))
    else (SlotResponse(None, spin.multiplier, 0, spin.rolls), None)
  }

  // ---------------------------------------------------------------------------
  // The service
  // ---------------------------------------------------------------------------

  datatype TickOutcome =
    | Disabled              // the percent or maximum is out of range
    | CheckpointUnreadable  // reading the checkpoint raised
    | IntervalOverflow      // `TimeSpan.FromHours(HourInterval)` raised
    | NotDue                // the interval has not elapsed since the checkpoint
    | UpdateFailed          // the update statement raised
    | Decayed

  class GamblingService {
    const cache: RedisCache
    /** The bot's own user id, which the decay never touches. */
    const botId: UserId
    /** Only shard 0 starts the decay timer. */
    const hasDecayTimer: bool
    /** The users table. */
    var users: map<RowId, DiscordUser>

    constructor (shardId: int, botId: UserId, cache: RedisCache, users: map<RowId, DiscordUser>)
      ensures hasDecayTimer <==> shardId == 0
      ensures this.botId == botId && this.cache == cache && this.users == users
    {
      this.cache := cache;
      this.botId := botId;
      this.hasDecayTimer := shardId == 0;
      this.users := users;
    }

    /**
     * One run of the decay timer at time `now`. `updateFails` says whether the
     * update statement raised. The checkpoint moves to `now` only after the
     * update has run; every other outcome changes nothing.
     */
    method DecayTick(cfg: DecayConfig, now: Time, updateFails: bool) returns (outcome: TickOutcome)
      requires hasDecayTimer
      modifies this, cache
      ensures var last := ReadCheckpoint(old(cache.store), LastCurrencyDecayKey(cache.redisKey), now);
        && (!DecayEnabled(cfg) ==> outcome == Disabled)
        && (DecayEnabled(cfg) && last.Err? ==> outcome == CheckpointUnreadable)
        && (DecayEnabled(cfg) && last.Ok? && FromHours(cfg.hourInterval).Err? ==> outcome == IntervalOverflow)
        && (DecayEnabled(cfg) && last.Ok? && FromHours(cfg.hourInterval).Ok? ==>
              if !IntervalElapsed(now, last.value, cfg.hourInterval) then outcome == NotDue
              else outcome == if updateFails then UpdateFailed else Decayed)
      ensures outcome != Decayed ==> users == old(users) && cache.store == old(cache.store)
      ensures outcome == Decayed ==>
        && users == DecayAll(old(users), cfg, botId)
        && cache.store == WriteCheckpoint(old(cache.store), LastCurrencyDecayKey(cache.redisKey), now)
    {
      if !DecayEnabled(cfg) {
        return Disabled;
      }
      var last := cache.GetLastCurrencyDecay(now);
      if last.Err? {
        return CheckpointUnreadable;
      }
      if FromHours(cfg.hourInterval).Err? {
        return IntervalOverflow;
      }
      if !IntervalElapsed(now, last.value, cfg.hourInterval) {
        return NotDue;
      }
      if updateFails {
        return UpdateFailed;
      }
      users := DecayAll(users, cfg, botId);
      cache.SetLastCurrencyDecay(now);
      outcome := Decayed;
    }

    /**
     * `GetEconomy`: the cached overview when it is there and decodes;
     * otherwise `recomputed`, the overview the database queries produce, which is
     * written back to the cache for three minutes.
     */
    method GetEconomy(now: Time, recomputed: EconomyResult) returns (e: EconomyResult)
      modifies cache
      ensures var data := Get(old(cache.store), EconomyKey(cache.redisKey), now);
        && (data.Some? && DecodeEconomy(data.value).Some? ==>
              e == DecodeEconomy(data.value).value && cache.store == old(cache.store))
        && (!(data.Some? && DecodeEconomy(data.value).Some?) ==>
              && e == recomputed
              && cache.store == Put(old(cache.store), EconomyKey(cache.redisKey), EncodeEconomy(recomputed), Some(EconomyTtl), now))
    {
      var (found, data) := cache.TryGetEconomy(now);
      if found {
        var decoded := DecodeEconomy(data.value);
        if decoded.Some? {
          return decoded.value;
        }
      }
      e := recomputed;
      cache.SetEconomy(EncodeEconomy(e), now);
    }
  }

  /** Within three minutes of a recomputation, the overview is served from the cache unchanged. */
  lemma EconomyServedFromCache(st: Store, redisKey: string, e: EconomyResult, now: Time, later: Time)
    requires now <= later < now + EconomyTtl
    ensures var st' := Put(st, EconomyKey(redisKey), EncodeEconomy(e), Some(EconomyTtl), now);
      Get(st', EconomyKey(redisKey), later) == Some(EncodeEconomy(e))
      && DecodeEconomy(EncodeEconomy(e)) == Some(e)
  {
    EconomyRoundTrip(e);
  }

  /** After a decay at `now`, no further decay is due until `hourInterval` hours have passed. */
  lemma NoSecondDecayWithinInterval(st: Store, redisKey: string, cfg: DecayConfig, now: Time, later: Time)
    requires FromHours(cfg.hourInterval).Ok?
    requires now <= later < now + cfg.hourInterval * MsPerHour
    ensures var st' := WriteCheckpoint(st, LastCurrencyDecayKey(redisKey), now);
      var last := ReadCheckpoint(st', LastCurrencyDecayKey(redisKey), later);
      last == Ok(now) && !IntervalElapsed(later, last.value, cfg.hourInterval)
  {
    CheckpointRoundTrip(st, LastCurrencyDecayKey(redisKey), now, later);
  }

  /** Without a checkpoint the first enabled tick is due at any time, for any interval of at most `now` ms. */
  lemma FirstDecayDue(st: Store, redisKey: string, cfg: DecayConfig, now: Time)
    requires !Live(st, LastCurrencyDecayKey(redisKey), now)
    requires FromHours(cfg.hourInterval).Ok?
    requires cfg.hourInterval * MsPerHour <= now
    ensures ReadCheckpoint(st, LastCurrencyDecayKey(redisKey), now) == Ok(MinValue)
    ensures IntervalElapsed(now, MinValue, cfg.hourInterval)
  {
  }
}
