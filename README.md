# NadekoBot core, modelled in Dafny

This project models the sequential core of NadekoBot, a Discord bot written in
C#, and proves properties of that model:

- **The Redis cache** (`redis_cache.dfy`, module `RedisCaching`). The shared
  Redis database is a map from key to an entry, which holds a value and an
  optional absolute expiry time. The clock is an explicit `now` parameter in
  milliseconds since `DateTime.MinValue`. An expired entry is invisible to
  reads. The class `RedisCache` holds the map and has one method per cache
  operation: timely claims, affinity and divorce cooldowns, rate limits, the
  economy cache, memoised data, the currency decay checkpoint, and the
  image, anime, novel and stream entries.
- **The gambling service** (`gambling_service.dfy`, module `Gambling`). It
  covers the currency decay that shard 0 runs on a timer: its guards, a bulk
  update of the users table with SQLite's `ROUND`, and then the checkpoint.
  It also covers `GetEconomy`, which serves the economy overview from the
  cache or recomputes it and writes it back. The last part is the entry check
  of the slot machine.
- **Shard start-up** (`bot.dfy`, module `BotStartup`). Start-up is a phase
  machine (`Step`). The class `Bot` keeps its fields in step with the phases:
  the handlers, the mention, the coordinator, the migrations and `IsReady`.
  The model covers the constructor guard, the login exit codes 3 and 4, exit
  code 9 when services fail, the choice of coordinator, and the ready
  subscriptions, each of which runs in isolation from the others.
- **Path of Exile helpers** (`path_of_exile.dfy`, module `PathOfExile`). The
  currency alias table is modelled entry by entry. Around it sit the alias
  resolution, the shortening of "Hardcore" to "HC", the league filter, and
  the 9-per-page listing of an account's characters.
- **Animal race options** (`race_options.dfy`, module `AnimalRacing`): the
  start time and how `NormalizeOptions` resets it.
- **The `DiscordUser` row** (`discord_user.dfy`, module `DiscordUserModel`):
  identity by user id, the hash code, `ToString`, and the balance that the
  decay updates.

Shared pieces: `wrappers.dfy` (`Option`, `Result`), `text.dfy` (.NET white
space, ASCII case folding), `numbers.dfy` (the range and wrap-around of a C#
`int`, minimum and maximum) and `decimal.dfy` (decimal text of numbers, with
proved round trips). Cached payloads are encoded as decimal text, which
stands in for JSON.

Notes on what the code does:

- `AddTimelyClaim` bypasses the cooldown only for a period of exactly 0. With
  a negative period and no live claim, the `StringSet` carries a negative
  expiry, which Redis refuses: `Err(InvalidExpireTime)`.
- `GetOrAddCachedDataAsync` does not treat a stored value that fails to
  deserialise as a miss. It raises (`Err(DeserializationFailed)`). Only
  `GetEconomy` catches the failure and recomputes.
- Timely claims, affinity cooldowns and divorce cooldowns read and then
  write. They are not one atomic set-if-absent; only `TryAddRatelimit` is.
- The decay deducts `ROUND(B * p - 0.5)` with SQLite's half-away-from-zero
  `ROUND`. For `B * p > 0` this is `floor(B * p)` (`DecayIsCappedFloor`). At
  `B = 0`, which a negative threshold lets through, the deduction is
  `ROUND(-0.5) = -1`, so the balance grows by one coin
  (`ZeroBalanceGainsOne`). The model keeps this behaviour.
- The checkpoint is written after the update statement, not in a
  transaction with it. An update that raises leaves the checkpoint as it
  was (`DecayTick`).

## Model

| member | source | states |
|---|---|---|
| RedisCaching.PutReadsBackUntilExpiry | src/NadekoBot/Services/Impl/RedisCache.cs:86-90 | a value set with a TTL reads back with the remaining TTL `ttl - elapsed` in (0, ttl] until it expires, and is gone afterwards |
| RedisCaching.TimelyClaimKeyInjective | src/NadekoBot/Services/Impl/RedisCache.cs:84-90 | different user ids have different `{redisKey}_timelyclaim_{id}` keys |
| RedisCaching.OtherKeysAreNoTimelyClaims | src/NadekoBot/Services/Impl/RedisCache.cs:94-100 | the affinity, divorce, rate-limit, economy, checkpoint and stream keys never match `{redisKey}_timelyclaim_*` |
| RedisCaching.TimelyPatternNeedsT | src/NadekoBot/Services/Impl/RedisCache.cs:98 | a key whose character after `{redisKey}_` is not 't' does not match the claim pattern |
| RedisCaching.ReadCheckpoint | src/NadekoBot/Services/Impl/RedisCache.cs:195-204 | a missing checkpoint reads as `DateTime.MinValue`; the only error is a failed deserialisation |
| RedisCaching.WriteCheckpoint | src/NadekoBot/Services/Impl/RedisCache.cs:206-211 | the checkpoint key holds the encoded time and every other key is kept |
| RedisCaching.CheckpointRoundTrip | src/NadekoBot/Services/Impl/RedisCache.cs:195-211 | after a write of time `t`, the checkpoint reads back as `t` at any later time |
| RedisCaching.FromHours | src/NadekoBot/Services/Impl/RedisCache.cs:82 | `TimeSpan.FromHours` succeeds iff the hours lie within ±256204778, whose ticks fit in a `long`; then the span is that many hours |
| RedisCaching.RedisCache.constructor | src/NadekoBot/Services/Impl/RedisCache.cs:20-31 | the cache starts over the given store and installation key |
| RedisCaching.RedisCache.TryGetImageData | src/NadekoBot/Services/Impl/RedisCache.cs:37-42 | success iff `image_{uri}` is live, and then the data is its value; otherwise null |
| RedisCaching.RedisCache.SetImageData | src/NadekoBot/Services/Impl/RedisCache.cs:44-48 | `image_{uri}` is overwritten without expiry |
| RedisCaching.RedisCache.TryGetAnimeData | src/NadekoBot/Services/Impl/RedisCache.cs:50-55 | success iff `anime_{key}` is live, and then the data is its value |
| RedisCaching.RedisCache.SetAnimeData | src/NadekoBot/Services/Impl/RedisCache.cs:57-61 | `anime_{key}` is overwritten with a 3-hour TTL |
| RedisCaching.RedisCache.TryGetNovelData | src/NadekoBot/Services/Impl/RedisCache.cs:63-68 | success iff `novel_{key}` is live, and then the data is its value |
| RedisCaching.RedisCache.SetNovelData | src/NadekoBot/Services/Impl/RedisCache.cs:70-74 | `novel_{key}` is overwritten with a 3-hour TTL |
| RedisCaching.RedisCache.AddTimelyClaim | src/NadekoBot/Services/Impl/RedisCache.cs:76-92 | period 0: null and no write; more hours than a `TimeSpan` holds: an overflow and no write; a live claim: its remaining TTL and no write; no live claim: a claim for `period` hours and null, or an error for a negative period |
| RedisCaching.RedisCache.RemoveAllTimelyClaims | src/NadekoBot/Services/Impl/RedisCache.cs:94-100 | exactly the keys matching `{redisKey}_timelyclaim_*` are deleted; every other key keeps its entry |
| RedisCaching.RedisCache.TryAddAffinityCooldown | src/NadekoBot/Services/Impl/RedisCache.cs:102-114 | true iff the key had no TTL, and then a 30-minute cooldown is set and reported; otherwise false, the remaining TTL, and no write |
| RedisCaching.RedisCache.TryAddDivorceCooldown | src/NadekoBot/Services/Impl/RedisCache.cs:116-128 | true iff the key had no TTL, and then a 6-hour cooldown is set and reported; otherwise false, the remaining TTL, and no write |
| RedisCaching.RedisCache.SetStreamData | src/NadekoBot/Services/Impl/RedisCache.cs:130-134 | `{redisKey}_stream_{url}` is overwritten with a 6-hour TTL |
| RedisCaching.RedisCache.TryGetStreamData | src/NadekoBot/Services/Impl/RedisCache.cs:136-142 | the data is the live value or null; success iff it is live and not blank |
| RedisCaching.RedisCache.TryAddRatelimit | src/NadekoBot/Services/Impl/RedisCache.cs:144-154 | an absent key is created with an `expireIn`-second TTL and null is returned; a live key is left untouched and its TTL returned; a non-positive expiry is an error |
| RedisCaching.RedisCache.TryGetEconomy | src/NadekoBot/Services/Impl/RedisCache.cs:156-162 | found iff `{redisKey}_economy` is live, and then the data is its value |
| RedisCaching.RedisCache.SetEconomy | src/NadekoBot/Services/Impl/RedisCache.cs:164-168 | `{redisKey}_economy` is overwritten with a 3-minute TTL |
| RedisCaching.RedisCache.GetOrAddCachedData | src/NadekoBot/Services/Impl/RedisCache.cs:170-193 | a hit makes no factory call and no write, and returns the deserialised value or raises; a miss makes exactly one factory call; a null result is returned and not stored; a non-null one is stored with `expiry` and returned |
| RedisCaching.RedisCache.GetLastCurrencyDecay | src/NadekoBot/Services/Impl/RedisCache.cs:195-204 | a missing or empty checkpoint reads as `DateTime.MinValue`; an error only for a live value that does not parse |
| RedisCaching.RedisCache.SetLastCurrencyDecay | src/NadekoBot/Services/Impl/RedisCache.cs:206-211 | the checkpoint holds `now`, and from then on `GetLastCurrencyDecay` returns `now` |
| RedisCaching.MemoisedUntilExpiry | src/NadekoBot/Services/Impl/RedisCache.cs:179-192 | after a non-null factory result is stored, a later call before the expiry is a hit that deserialises to the same value |
| RedisCaching.ClaimRemainingWithinPeriod | src/NadekoBot/Services/Impl/RedisCache.cs:82-90 | a second claim within the period sees a remaining time in (0, period]; after the period the claim is gone |
| Gambling.Round | src/NadekoBot/Modules/Gambling/Services/GamblingService.cs:62 | SQLite `ROUND`: the nearest integer, with halves rounded away from zero |
| Gambling.RoundDownOfPositive | src/NadekoBot/Modules/Gambling/Services/GamblingService.cs:62 | `ROUND(x - 0.5) = floor(x)` for `x > 0` |
| Gambling.DeductionIsFloor | src/NadekoBot/Modules/Gambling/Services/GamblingService.cs:62-64 | for `B * p > 0` the deduction is `floor(B * p)` |
| Gambling.EffectiveCap | src/NadekoBot/Modules/Gambling/Services/GamblingService.cs:55-56 | a maximum of 0 means `int.MaxValue`; any other maximum is kept |
| Gambling.CappedWithin | src/NadekoBot/Modules/Gambling/Services/GamblingService.cs:61-67 | with a deduction in [0, B] and a non-negative cap, the new balance lies in [0, B] |
| Gambling.DecayIsCappedFloor | src/NadekoBot/Modules/Gambling/Services/GamblingService.cs:61-67 | for `B * p > 0` a row loses `min(floor(B * p), cap)` |
| Gambling.FloorOfShareWithin | src/NadekoBot/Modules/Gambling/Services/GamblingService.cs:62 | for `B > 0` and `p` in (0, 1], `floor(B * p)` lies in [0, B] |
| Gambling.DecayStaysWithinBalance | src/NadekoBot/Modules/Gambling/Services/GamblingService.cs:55-67 | for `B > 0`, `p` in (0, 1] and `maxDecay >= 0`, the decayed balance lies in [0, B] |
| Gambling.ZeroBalanceGainsOne | src/NadekoBot/Modules/Gambling/Services/GamblingService.cs:58-68 | a zero balance becomes 1, whatever the percent and the cap |
| Gambling.DecayAll | src/NadekoBot/Modules/Gambling/Services/GamblingService.cs:58-68 | the same rows stay; rows at or below the threshold and the bot's row are unchanged; every other row's balance becomes `DecayedBalance` of its old balance under the effective cap, and nothing else in it changes |
| Gambling.DecayAllShrinksBalances | src/NadekoBot/Modules/Gambling/Services/GamblingService.cs:58-68 | with an enabled configuration and a non-negative threshold, no non-negative balance grows or goes negative; the bot's row is untouched; every row stays equal to its old self |
| Gambling.CommaIndex | src/NadekoBot/Modules/Gambling/Services/GamblingService.cs:155 | the position of the first comma, or the length when there is none |
| Gambling.SplitJoin | src/NadekoBot/Modules/Gambling/Services/GamblingService.cs:155 | splitting at commas undoes joining fields that hold no comma |
| Gambling.SplitField | src/NadekoBot/Modules/Gambling/Services/GamblingService.cs:155 | a leading comma-free field splits off as the first field |
| Gambling.EconomyRoundTrip | src/NadekoBot/Modules/Gambling/Services/GamblingService.cs:111-155 | the economy overview decodes back from the text it is cached as |
| Gambling.Truncate | src/NadekoBot/Modules/Gambling/Services/GamblingService.cs:94 | the `(long)` conversion: the integer toward zero, within 1 of the value |
| Gambling.Slot | src/NadekoBot/Modules/Gambling/Services/GamblingService.cs:76-108 | a bet that cannot be taken gives `NotEnough` and no payout; otherwise the spin's multiplier and rolls; a payout is credited iff the multiplier is positive, and it is `(long)(multiplier * amount)`, which lies within [0, multiplier * amount] for a non-negative bet |
| Gambling.GamblingService.constructor | src/NadekoBot/Modules/Gambling/Services/GamblingService.cs:26-38 | the decay timer exists iff the shard id is 0 |
| Gambling.GamblingService.DecayTick | src/NadekoBot/Modules/Gambling/Services/GamblingService.cs:38-72 | with a percent outside (0, 1] or a negative maximum, or an unreadable checkpoint, or an `HourInterval` too large for `TimeSpan.FromHours`, or less than `HourInterval` hours since the checkpoint, or a failing update, nothing changes; otherwise the users table is `DecayAll` of the old one and then the checkpoint moves to `now` |
| Gambling.GamblingService.GetEconomy | src/NadekoBot/Modules/Gambling/Services/GamblingService.cs:120-157 | a cached overview that decodes is returned and nothing is written; on a miss or a failed decode the recomputed overview is returned and cached for 3 minutes |
| Gambling.EconomyServedFromCache | src/NadekoBot/Modules/Gambling/Services/GamblingService.cs:122-155 | within 3 minutes of a recomputation the cache holds the overview, and it decodes to the same value |
| Gambling.NoSecondDecayWithinInterval | src/NadekoBot/Modules/Gambling/Services/GamblingService.cs:46-70 | after a decay at `now`, the checkpoint reads `now` and no decay is due until `HourInterval` hours have passed |
| Gambling.FirstDecayDue | src/NadekoBot/Modules/Gambling/Services/GamblingService.cs:46-49 | without a checkpoint it reads `DateTime.MinValue`, and the interval has elapsed |
| BotStartup.Rank | src/NadekoBot/Bot.cs:264-292 | progress along the ready path is at most its length |
| BotStartup.Step | src/NadekoBot/Bot.cs:216-292 | a step either keeps the phase, or advances it by one along the ready path on the expected event, or exits with code 3, 4 or 9; exited and ready phases stay as they are |
| BotStartup.ReadyPathReachesReady | src/NadekoBot/Bot.cs:264-292 | login, Ready, composition, command handling and module registration lead a new shard to `IsReady` |
| BotStartup.PathWitnesses | src/NadekoBot/Bot.cs:264-292 | a shard at rank `k` has seen the first `k` ready-path events at increasing positions |
| BotStartup.ReadyOnlyInOrder | src/NadekoBot/Bot.cs:268-292 | a ready shard has seen login, Ready, composition, command handling and module registration, in this order |
| BotStartup.ExitCodes | src/NadekoBot/Bot.cs:221-280 | a shard exits only with code 3, 4 or 9 |
| BotStartup.FinalPhasesStay | src/NadekoBot/Bot.cs:221-292 | after an exit, or once ready, further events change nothing |
| BotStartup.SelectCoordinator | src/NadekoBot/Bot.cs:110-115 | the remote coordinator iff `NADEKOBOT_IS_COORDINATED` is exactly "1" |
| BotStartup.ReadyExecutors | src/NadekoBot/Bot.cs:110-122 | the remote coordinator is a ready executor iff it was chosen; the images cache always is; so is every scanned service |
| BotStartup.ServiceExecutors | src/NadekoBot/Bot.cs:124-139 | the scanned services, as ready executors |
| BotStartup.Bot.constructor | src/NadekoBot/Bot.cs:33-65 | a new shard with no history, whose database is set up iff it is shard 0 |
| BotStartup.Bot.Advance | src/NadekoBot/Bot.cs:264-292 | one event appended to the history and the phase stepped, nothing else changed |
| BotStartup.Bot.Login | src/NadekoBot/Bot.cs:193-232 | an HTTP error exits with 3 and any other error with 4; success attaches the Ready handler and awaits Ready |
| BotStartup.Bot.OnFirstReady | src/NadekoBot/Bot.cs:232-270 | the first Ready detaches the Ready handler, attaches the guild handlers and sets the mention |
| BotStartup.Bot.AddServices | src/NadekoBot/Bot.cs:70-152 | failure exits with 9; success chooses the coordinator by the environment, collects the ready executors, and applies the config migrations iff shard 0 |
| BotStartup.Bot.StartHandling | src/NadekoBot/Bot.cs:284-287 | command handling starts after the services are composed |
| BotStartup.Bot.RegisterModules | src/NadekoBot/Bot.cs:289-292 | after the modules are registered the shard is ready |
| BotStartup.Bot.ExecuteReadySubscriptions | src/NadekoBot/Bot.cs:297-316 | every ready executor runs, in order; it completes iff it does not itself raise, whatever the others do |
| BotStartup.Bot.RunAsync | src/NadekoBot/Bot.cs:264-295 | exit codes 3, 4 and 9 on the failure paths, and not ready; otherwise ready after exactly the ready path, with the environment's coordinator, migrations iff shard 0, and every executor run |
| BotStartup.CreateBot | src/NadekoBot/Bot.cs:33-36 | a negative shard id is refused; otherwise a new valid shard whose database is set up iff it is shard 0 |
| BotStartup.ReadyBotFollowedThePath | src/NadekoBot/Bot.cs:268-292 | a ready `Bot`'s history holds the ready path, in order |
| PathOfExile.ValueIndex | src/NadekoBot/Modules/Searches/PathOfExileCommands.cs:293 | the first entry whose value equals the name exactly: it matches and no earlier entry does; none iff no entry matches |
| PathOfExile.KeyIndex | src/NadekoBot/Modules/Searches/PathOfExileCommands.cs:298 | the first entry whose key equals the name ignoring case, or none |
| PathOfExile.ShortCurrencyName | src/NadekoBot/Modules/Searches/PathOfExileCommands.cs:291-301 | a canonical value (exact case) is returned unchanged; otherwise a matching alias's value; an error iff the name is neither; every result is a canonical value |
| PathOfExile.ResolvesThrough | src/NadekoBot/Modules/Searches/PathOfExileCommands.cs:298 | a name that is no value resolves to the value of the first key that matches it |
| PathOfExile.ValuesAreLong | src/NadekoBot/Modules/Searches/PathOfExileCommands.cs:210-288 | every canonical value has at least 8 characters |
| PathOfExile.NoTwoLetterKeyBefore34 | src/NadekoBot/Modules/Searches/PathOfExileCommands.cs:210-243 | no key before "Ex" has two characters |
| PathOfExile.NoOneLetterKeyBefore33 | src/NadekoBot/Modules/Searches/PathOfExileCommands.cs:210-242 | no key before "X" has one character |
| PathOfExile.NoSixLetterKeyBefore36 | src/NadekoBot/Modules/Searches/PathOfExileCommands.cs:210-245 | no key before "Exalts" has six characters |
| PathOfExile.ExaltedAliasEx | src/NadekoBot/Modules/Searches/PathOfExileCommands.cs:244 | "ex" resolves to "Exalted Orb" |
| PathOfExile.ExaltedAliasX | src/NadekoBot/Modules/Searches/PathOfExileCommands.cs:243 | "X" resolves to "Exalted Orb" |
| PathOfExile.ExaltedAliasExalts | src/NadekoBot/Modules/Searches/PathOfExileCommands.cs:246 | "exalts" resolves to "Exalted Orb" |
| PathOfExile.ThirteenLetterKeys | src/NadekoBot/Modules/Searches/PathOfExileCommands.cs:210-288 | every thirteen-character key differs from "orb of chance" at position 7, ignoring case |
| PathOfExile.OrbOfChanceIsNoKey | src/NadekoBot/Modules/Searches/PathOfExileCommands.cs:271-272 | "orb of chance" matches no key, ignoring case |
| PathOfExile.OrbOfChanceLowerIsNoValue | src/NadekoBot/Modules/Searches/PathOfExileCommands.cs:293 | "orb of chance" equals no canonical value exactly |
| PathOfExile.ChanceOnlyByExactValue | src/NadekoBot/Modules/Searches/PathOfExileCommands.cs:291-301 | "Orb of Chance" comes back unchanged, while "orb of chance" fails with a missing key |
| PathOfExile.ShortLeagueName | src/NadekoBot/Modules/Searches/PathOfExileCommands.cs:303-308 | the shortened name is never longer than the input |
| PathOfExile.ShiftedNoOccurrence | src/NadekoBot/Modules/Searches/PathOfExileCommands.cs:305 | dropping the first character keeps the text free of "Hardcore" before a position |
| PathOfExile.NoHardcoreUnchanged | src/NadekoBot/Modules/Searches/PathOfExileCommands.cs:305 | a name without "Hardcore", in any case, is returned as it is |
| PathOfExile.CopiesPrefix | src/NadekoBot/Modules/Searches/PathOfExileCommands.cs:305 | the characters before the first occurrence are copied unchanged |
| PathOfExile.ShortPrefixAddsNoOccurrence | src/NadekoBot/Modules/Searches/PathOfExileCommands.cs:305 | "HC" followed by a text without "Hardcore" has no occurrence either |
| PathOfExile.NoHardcoreLeft | src/NadekoBot/Modules/Searches/PathOfExileCommands.cs:305 | the shortened name holds no "Hardcore" in any case |
| PathOfExile.FirstCharCannotStartOccurrence | src/NadekoBot/Modules/Searches/PathOfExileCommands.cs:305 | a kept first character cannot start an occurrence together with the shortened rest |
| PathOfExile.EarlyOccurrenceBreaksMatch | src/NadekoBot/Modules/Searches/PathOfExileCommands.cs:305 | an occurrence within the first seven characters of the rest puts an 'H' where "ardcore" has none |
| PathOfExile.ShortenedHasHAtFirstOccurrence | src/NadekoBot/Modules/Searches/PathOfExileCommands.cs:305 | the shortened name has the 'H' of "HC" where the first occurrence started |
| PathOfExile.FirstOccurrence | src/NadekoBot/Modules/Searches/PathOfExileCommands.cs:305 | an occurrence at `j` has a first occurrence at or before `j` |
| PathOfExile.ShortLeagueNameIdempotent | src/NadekoBot/Modules/Searches/PathOfExileCommands.cs:303-308 | shortening twice is the same as shortening once |
| PathOfExile.ShortLeagueNameExamples | src/NadekoBot/Modules/Searches/PathOfExileCommands.cs:305 | "Hardcore" becomes "HC" and "SSF hardcore" becomes "SSF HC" |
| PathOfExile.KeepLeague | src/NadekoBot/Modules/Searches/PathOfExileCommands.cs:57-60 | keeps exactly the characters whose league equals the argument, ordinally, and no more characters than before |
| PathOfExile.KeepLeagueAppend | src/NadekoBot/Modules/Searches/PathOfExileCommands.cs:59 | filtering distributes over concatenation |
| PathOfExile.RemoveOtherLeagues | src/NadekoBot/Modules/Searches/PathOfExileCommands.cs:57-60 | the list after `RemoveAll` is the filtered list |
| PathOfExile.PageSlice | src/NadekoBot/Modules/Searches/PathOfExileCommands.cs:70 | `Skip(n).Take(9)`: at most 9 characters, starting at index `n`, or at 0 when `n` is negative |
| PathOfExile.RenderPage | src/NadekoBot/Modules/Searches/PathOfExileCommands.cs:70-85 | one row per character of `Skip(curPage * 9).Take(9)`, numbered `i + 1 + curPage * 9`, both products wrapping as `int`, with the league shortened |
| PathOfExile.CharacterOnItsPage | src/NadekoBot/Modules/Searches/PathOfExileCommands.cs:70-84 | in a list whose count is an `int`, character `j` is on page `j / 9` at position `j % 9`, numbered `j + 1` |
| Numbers.Wrap32 | src/NadekoBot/Modules/Searches/PathOfExileCommands.cs:30 | unchecked `int` arithmetic: the result is an `int` congruent to the exact value modulo 2^32, and equal to it when it fits |
| PathOfExile.SkipCount | src/NadekoBot/Modules/Searches/PathOfExileCommands.cs:70 | `curPage * 9` as unchecked `int` multiplication |
| PathOfExile.OrdinaryPageNumbering | src/NadekoBot/Modules/Searches/PathOfExileCommands.cs:30-84 | for pages 1 to 238609294 nothing wraps: the page skips `9 * (page - 1)` characters and numbers on from there |
| PathOfExile.WrappedPageRestartsAtFront | src/NadekoBot/Modules/Searches/PathOfExileCommands.cs:70-84 | page 238609296 skips `-2147483641` characters, that is none, and numbers its first row -2147483640 |
| PathOfExile.NoReplyPages | src/NadekoBot/Modules/Searches/PathOfExileCommands.cs:30-31 | exactly the pages from -2147483647 to 0 give no reply; `int.MinValue` decrements to `int.MaxValue` |
| PathOfExile.ListCharacters | src/NadekoBot/Modules/Searches/PathOfExileCommands.cs:28-93 | a page whose `int` decrement is negative gives no reply; a blank account name asks for one; a failed fetch says the account was not found; an empty list after filtering says there are no characters; otherwise the requested page's rows |
| PathOfExile.CurrencyRequest | src/NadekoBot/Modules/Searches/PathOfExileCommands.cs:138-152 | a blank league or currency name is refused; otherwise the request succeeds iff both names resolve, with their canonical values; an unknown name raises, naming the currency name when it fails and the target name otherwise |
| AnimalRacing.NormalizedStartTime | src/NadekoBot/Modules/Gambling/Common/AnimalRacing/RaceOptions.cs:11-15 | the result lies in [10, 120], and a start time already in range is unchanged |
| AnimalRacing.OutOfRangeResetsToDefault | src/NadekoBot/Modules/Gambling/Common/AnimalRacing/RaceOptions.cs:13-14 | an out-of-range start time becomes exactly 20, not the nearer bound |
| AnimalRacing.NormalizeIdempotent | src/NadekoBot/Modules/Gambling/Common/AnimalRacing/RaceOptions.cs:11-15 | normalising twice is the same as normalising once |
| AnimalRacing.DefaultIsNormal | src/NadekoBot/Modules/Gambling/Common/AnimalRacing/RaceOptions.cs:8-9 | the default 20 lies within the normalised range |
| AnimalRacing.RaceOptions.constructor | src/NadekoBot/Modules/Gambling/Common/AnimalRacing/RaceOptions.cs:8-9 | a new option set starts at 20 |
| AnimalRacing.RaceOptions.NormalizeOptions | src/NadekoBot/Modules/Gambling/Common/AnimalRacing/RaceOptions.cs:11-15 | the start time afterwards lies in [10, 120]; an in-range value is kept; any other becomes 20 |
| DiscordUserModel.IdHash | src/NadekoBot/Db/Models/DiscordUser.cs:26-27 | the hash of a 64-bit id is a 32-bit signed integer |
| DiscordUserModel.ToString | src/NadekoBot/Db/Models/DiscordUser.cs:29-30 | the user name, then '#', then the discriminator |
| DiscordUserModel.EqualsIffSameId | src/NadekoBot/Db/Models/DiscordUser.cs:23-24 | two users are equal iff their user ids are equal, whatever the other fields |
| DiscordUserModel.NeverEqualsOtherType | src/NadekoBot/Db/Models/DiscordUser.cs:24 | a user never equals an object of another type, or null |
| DiscordUserModel.EqualsIsEquivalence | src/NadekoBot/Db/Models/DiscordUser.cs:23-24 | equality is reflexive, symmetric and transitive |
| DiscordUserModel.EqualUsersHashEqually | src/NadekoBot/Db/Models/DiscordUser.cs:26-27 | equal users have equal hash codes |
| DiscordUserModel.HashCollision | src/NadekoBot/Db/Models/DiscordUser.cs:26-27 | users with ids 0 and 2^32 + 1 differ but hash alike |
| DiscordUserModel.ToStringInjective | src/NadekoBot/Db/Models/DiscordUser.cs:29-30 | with discriminators of one length, equal texts mean equal names and discriminators |

## Left out

- Real I/O is not modelled: the Redis connection, the SQLite database, Discord, and HTTP to poe.ninja and pathofexile.com. The store and the users table are in-memory maps. Outcomes of out-of-view work are parameters: a login failure, a failing service composition, a failing update statement, a fetched character list, the recomputed economy, a taken bet, a spin, and the ready executors that raise.
- The clock is the `now` parameter of each operation, in milliseconds since `DateTime.MinValue`.
- An exception that escapes the decay timer's callback (`IntervalOverflow`, `UpdateFailed`) ends that tick with nothing written; what the runtime then does with it is not modelled.
- Concurrency is not modelled: `timelyLock`, the timer, `Task.Run`, fire-and-forget deletes, and the `ConcurrentDictionary` game tables. Every operation runs sequentially.
- RedisCaching.RedisCache.RemoveAllTimelyClaims: also deletes expired claim keys, which a key scan would skip; no read can tell the difference. Glob metacharacters inside the installation key are not interpreted.
- A Redis server that is unreachable is not modelled; the store always answers.
- JSON is not modelled. Times are cached as decimal milliseconds, and the economy overview as comma-separated decimal fields. Its amounts are modelled as integers because they are sums of whole coins.
- Floating point is not modelled. The decay percent and the slot multiplier are exact reals, so the IEEE rounding of `CurrencyAmount * Percent` is not captured. The currency exchange rate (PathOfExileCommands.cs lines 154-205) is float arithmetic and is left out.
- Gambling.Slot: the slot game itself and the currency service are not part of this model. Whether the bet could be taken, and the spin, are inputs.
- The wheel of fortune, duels, Connect 4, and the decay log message are not modelled.
- BotStartup: a Ready event that never comes would block start-up forever; the model covers only runs where it comes.
- BotStartup: exceptions from `StartHandling` and module registration are not caught by `RunAsync` and are not modelled.
- BotStartup: these parts of start-up are not modelled: the dependency-injection scan, `LoadTypeReaders`, `EnsureUserCreated`, guild configs, DM-channel cleanup, the guild join and leave handlers' bodies, and `RunAndBlockAsync`.
- The behaviour executor and the coordinators' internals are not part of this model.
- XkcdCommands.cs is not part of this model: HTTP, a random comic and message editing.
- IBotCredentials.cs is not part of this model: a configuration accessor.
- Case-insensitive comparison folds ASCII letters only; non-ASCII case folding is not modelled.
- Presentation is not modelled: embed texts, colours, column padding and the paginator's navigation.
- The `Club`, `LastLevelUp`, `LastXpGain` and `NotifyOnLevelUp` fields of `DiscordUser` are left out: no modelled code reads them.
