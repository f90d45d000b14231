# node-songbird, verified core

node-songbird is a Node binding (N-API) over the `songbird` Discord voice
library. The voice handshake, the mixer and event dispatch all live inside
songbird. The binding's own logic is a set of small translations, and this
project models them as pure Dafny functions:

- **Guild-to-shard routing** (`Manager`). A manager is built from a user id
  given as text and an `i32` shard count, which is cast to `u64`. A guild id
  given as text is parsed and routed to shard `(guild_id >> 22) % shard_count`,
  the gateway's sharding formula. `create_call` then builds a songbird `Call`
  bound to that shard.
- **The shard layer** (`Shards`). `NodeSharder` hands out a shard for every
  index. `NodeShard::update_voice_state` turns a guild id, an optional channel
  id and the deaf/mute flags into the `{shard_id, payload}` record. That record
  is passed to the JavaScript `submitVoiceUpdate` callback.
- **Track translations** (`TrackHandle`). These map the binding's event kinds
  onto songbird's track events, songbird's `PlayMode` onto a
  `{value, error}` object, and `ReadyState` onto its JavaScript twin. They
  also turn durations into `u32` milliseconds for `get_info` and `seek`.
- **Input descriptors** (`Input`). Three factories pair an input type with an
  optional HTTP client. `create_input` dispatches on that pairing, and
  `get_aux_metadata` maps the metadata fields.

Supporting modules:

- `Numeric` holds the fixed-width integer types and the `as` casts, with
  every wrap-around written out.
- `Decimal` models Rust's `str::parse::<u64>`, `str::parse::<NonZeroU64>` and
  `u64::to_string` exactly.
  Parsing accepts one leading `+` and leading zeros. A lone sign is
  `InvalidDigit`. The digits are read left to right. The first non-digit gives
  `InvalidDigit`, unless the digits before it already exceed the u64 range,
  which gives `PosOverflow`. The `NonZeroU64` parse refuses the value zero as
  `Zero`.
- `Time` models `Duration::from_millis` and `as_millis`.
- `Errors` models panics (`unwrap` on an error, `%` by zero, `panic!`) as an
  `Outcome.Panic` and `napi::Error` values as `Result` failures.

Calls into code that is not part of this model are parameters:

- the outcome of creating the thread-safe callback;
- the status the non-blocking callback call reports;
- songbird's answer to `get_info` and `seek`;
- the metadata fetch of an input.

## Behaviour worth knowing

- Invalid input panics rather than returning an error:
  - a user id that does not parse panics at the `unwrap` in `src/manager.rs:66`;
  - a guild id that does not parse panics at the `unwrap` in `src/manager.rs:86` and `:92`;
  - a zero shard count panics at the `%` in `src/manager.rs:87`.
- The `i32` shard count is sign-extended at `src/manager.rs:67`. A negative
  count therefore becomes a modulus of at least 2^64 - 2^31, and no reduction
  happens at all.
- `update_voice_state` discards the status of the callback call and always
  returns `Ok(())` (`src/shards.rs:54-55`).
- songbird 0.4's `UserId`, `GuildId` and `ChannelId` wrap a `NonZeroU64`. So
  `GuildId(str.parse().unwrap())` (`src/manager.rs:92`) and the `UserId` parse
  (`:66`) refuse zero, while `shard_id`'s `parse::<u64>()` (`:86`) accepts it.
  A guild id of `"0"` therefore routes to shard 0, and then `create_call`
  panics in `to_guild_id`.
- The voice handshake, track control and event fan-out belong to songbird.

## Model

| member | source | states |
|---|---|---|
| Numeric.I32AsU64 | src/manager.rs:67 | A non-negative shard count is kept as is. A negative one lands at or above 2^64 - 2^31, and stays congruent to the original modulo 2^64 |
| Numeric.U64AsI32 | src/shards.rs:50 | The shard id cast to i32 equals the u64 id exactly when the id is below 2^31. It always agrees with the id modulo 2^32 |
| Numeric.TruncateU32 | src/track_handle.rs:154 | `as u32` keeps a value exactly when it is below 2^32. Otherwise the result agrees with it modulo 2^32 |
| Numeric.Shr22 | src/manager.rs:87 | `g >> 22` is the unique r with r * 2^22 <= g < (r + 1) * 2^22. It is below 2^42 |
| Numeric.ModIsResidue | src/manager.rs:87 | `a % n` is below n, and a minus it is a multiple of n |
| Decimal.Accumulate | src/manager.rs:86 | The digit loop of the u64 parser never reports `Empty`, and a success is at least the starting prefix value |
| Decimal.ParseU64 | src/manager.rs:86 | Parsing gives `Empty` exactly for the empty string, and `InvalidDigit` for a lone `+` or `-`. Any other string is read by the digit loop (Accumulate) after at most one leading `+`, so a `-` counts as a non-digit. The kind of each failure then follows from the two lemmas below |
| Decimal.AccumulateMeansFold | src/manager.rs:86 | On digit strings, the checked loop returns the numeral's value when it fits in a u64 and `PosOverflow` otherwise |
| Decimal.AccumulateRejectsNonDigit | src/manager.rs:86 | A string with a non-digit never parses: the result is `InvalidDigit` or `PosOverflow` |
| Decimal.NonDigitBeforeOverflowIsInvalid | src/manager.rs:86 | A non-digit reached while the digits before it still fit in a u64 gives `InvalidDigit` |
| Decimal.OverflowBeforeNonDigitIsOverflow | src/manager.rs:86 | A digit prefix whose value exceeds the u64 range gives `PosOverflow`, whatever follows it |
| Decimal.ParseU64NonDigitIsInvalid | src/manager.rs:86 | `parse::<u64>()` of a string whose first non-digit after the optional `+` comes while the digits before it still fit in a u64 fails with `InvalidDigit`. A leading `-` is such a non-digit |
| Decimal.ParseU64OverflowIsPosOverflow | src/manager.rs:86 | `parse::<u64>()` of a string whose digit prefix after the optional `+` exceeds the u64 range fails with `PosOverflow`, whatever follows |
| Decimal.ParseU64Meaning | src/manager.rs:86 | Both directions: parsing succeeds exactly on well-formed numerals (optional `+`, digits) whose value fits in 64 bits, and then yields that value. No string is silently defaulted |
| Decimal.ParseNonZeroU64 | src/manager.rs:92 | The `NonZeroU64` parse succeeds exactly when the u64 parse gives a non-zero value, and then gives that value. A zero value is refused as `Zero`, and every other u64 parse error is passed on |
| Decimal.RenderU64 | src/shards.rs:43 | `to_string` gives a canonical numeral: a non-empty digit string with no leading zero, except for "0" |
| Decimal.FoldRender | src/shards.rs:43 | The numeral `to_string` writes has the value that was rendered |
| Decimal.RenderParseRoundTrip | src/shards.rs:43 | Parsing the rendered guild id as u64 returns the original id |
| Decimal.RenderParseNonZeroRoundTrip | src/shards.rs:43 | A non-zero id's text parses back through the `NonZeroU64` parse to the same id |
| Decimal.RenderInjective | src/shards.rs:43-44 | Distinct ids render to distinct strings |
| Time.FromMillis | src/track_handle.rs:183 | `from_millis` yields a whole number of milliseconds |
| Time.AsMillis | src/track_handle.rs:154 | `as_millis` is the duration's length in whole milliseconds, rounded down |
| Time.AsMillisU32 | src/track_handle.rs:160 | Milliseconds are truncated to u32: they are exact below 2^32 and taken modulo 2^32 above |
| Time.MillisRoundTrip | src/track_handle.rs:183-186 | `as_millis(from_millis(ms)) == ms` for every u64 |
| Time.TimecodeRoundTrip | src/track_handle.rs:182-187 | A u32 timecode survives the conversion to a Duration and back to u32 ms |
| Shards.GetShard | src/shards.rs:18-25 | `get_shard` returns `Some` for every index. The shard carries exactly the requested index and the sharder's callback |
| Shards.RenderChannel | src/shards.rs:44 | The payload channel is `None` exactly when the input is `None`. Otherwise its text is a canonical numeral that parses back to the channel id |
| Shards.UpdateVoiceState | src/shards.rs:34-56 | One delivery goes to the shard's callback. The guild text is a canonical numeral that parses back to the guild id, the channel follows RenderChannel, and mute and deaf land in the same-named fields. The shard id is preserved iff it is below 2^31, and it always agrees with the u64 id modulo 2^32 (its low 32 bits). The result is `Ok(())` whatever the call status |
| Shards.ShardIndexReachesCallback | src/shards.rs:18-52 | The index asked of the sharder is the index the callback receives, when it fits an i32 |
| Manager.Create | src/manager.rs:57-70 | A callback-creation error is returned before anything else. Then a user id that does not parse as a non-zero u64 panics, with `Zero` for zero. When the callback exists and the user id parses, a manager is always returned, whatever the shard count (zero included). It holds the parsed user id, the callback, and the sign-extended shard count (`I32AsU64` of the given count) |
| Manager.ToGuildId | src/manager.rs:91-93 | Returns the parsed non-zero guild id. It panics with the parse error on anything that does not parse as a u64, and with `Zero` on zero |
| Manager.ShardId | src/manager.rs:85-88 | Panics exactly on an unparsable id (parse error) or a zero count (remainder by zero). Otherwise the index is below the count and congruent to `guild_id >> 22` modulo it |
| Manager.CreateCall | src/manager.rs:72-83 | Panics exactly when `shard_id` does (with the same cause) or when the guild id is zero (with `Zero`, from `to_guild_id`). Otherwise it always returns `Some` Call for the parsed guild id, the manager's user id and the shard `shard_id` chose |
| Manager.ZeroGuildRoutesThenPanics | src/manager.rs:72-92 | Guild id "0" routes to shard 0, but `create_call` then panics with `Zero` |
| Manager.SmallGuildRoutesToShardZero | src/manager.rs:87 | Any guild id below 2^22 routes to shard 0 |
| Manager.NegativeShardCountDoesNotReduce | src/manager.rs:85-88 | With a negative i32 count (cast at line 67) the route is `guild_id >> 22` itself, unreduced |
| Manager.RoutedVoiceUpdate | src/manager.rs:72-88 | For a positive count, the Call's shard delivers through the manager's callback a shard id equal to `(guild_id >> 22) % shard_count`, and a canonical guild text that parses back to the guild |
| Manager.ExampleGuildRouting | src/manager.rs:85-88 | Guild 600000000000000000 routes to shard 0 of 4 and to shard 4 of 8 |
| TrackHandle.ToEvent | src/track_handle.rs:48-62 | Each event kind maps to the track event of the same name |
| TrackHandle.ToEventBijective | src/track_handle.rs:48-62 | The event mapping is injective, and every track event is reached |
| TrackHandle.FromPlayMode | src/track_handle.rs:112-136 | Play, Pause, Stop and End map to the same-named value. Errored maps to Errored with "[Songbird Error] " followed by the error text. Any other mode maps to Unknown. `error` is present iff the value is Errored |
| TrackHandle.ErrorTextRecoverable | src/track_handle.rs:123-126 | The error text is the fixed prefix followed by the library's own text, which can be read back |
| TrackHandle.FromReadyState | src/track_handle.rs:155-159 | Each ReadyState maps to its same-named JavaScript variant, in both directions |
| TrackHandle.ReadyStateBijection | src/track_handle.rs:155-159 | The ReadyState mapping has a two-sided inverse |
| TrackHandle.GetInfo | src/track_handle.rs:150-164 | A library error is passed on. Otherwise position and play time are u32 ms (exact below 2^32, modulo 2^32 above), the ready state is its same-named twin (FromReadyState), and `playing` is the FromPlayMode translation of the library's mode |
| TrackHandle.Create | src/track_handle.rs:140-143 | The JavaScript constructor always fails with status Unknown |
| TrackHandle.Seek | src/track_handle.rs:182-187 | A library error is passed on. Otherwise the reported position comes back as u32 ms (modulo 2^32). A library that lands on the requested duration gives back exactly `timecode` |
| TrackHandle.SeekRoundTrip | src/track_handle.rs:182-187 | If the library lands where it was asked, the timecode comes back unchanged |
| Input.FromYouTube | src/input.rs:66-69 | Type YouTube, the given identifier, and `Some` of the client. The pairing invariant holds |
| Input.FromHttp | src/input.rs:71-74 | Type HTTP, the URL as identifier, and `Some` of the client. The pairing invariant holds |
| Input.FromFile | src/input.rs:76-79 | Type File, the path as identifier, and no client. The pairing invariant holds |
| Input.CreateInput | src/input.rs:103-117 | YouTube becomes YoutubeDl and HTTP becomes HttpRequest, each with the stored identifier and client. File panics as not implemented, and a missing client panics at the `unwrap` |
| Input.CreateInputPanicsOnlyForFiles | src/input.rs:103-117 | For well-paired inputs (all factory-built ones) the `unwrap`s never fire. `create_input` panics exactly for File |
| Input.OptionalMillis | src/input.rs:93-94 | A present duration becomes u32 ms (exact below 2^32) and an absent one stays absent |
| Input.ToJsAuxMetadata | src/input.rs:86-99 | Every non-duration field is copied unchanged. `start_time` and `duration` are present iff they were, and are then in ms modulo 2^32 |
| Input.AuxMillisRoundTrip | src/input.rs:93-94 | Durations that were whole u32 millisecond counts come back unchanged |
| Input.GetAuxMetadata | src/input.rs:82-101 | Panics exactly when `create_input` does, with its cause. A fetch error becomes an error whose reason is its text. A success is the mapped metadata |

## Left out

- The voice handshake in `src/call.rs` (`join`, `update_voice_server`, `update_voice_state`, `stop`, `play`) is left out. It delegates to songbird's `Call`, whose state machine is not part of this model. The `unwrap` in `JsCall::new` is covered by `Manager.CreateCall`, which never returns `None`.
- `src/player.rs` and `src/driver/mod.rs` are left out. Neither is declared in `src/lib.rs`.
- Delivery through N-API thread-safe functions is left out: non-blocking queueing, the `println!` in the callback wrapper, and the event handler's `act`. This is cross-runtime plumbing. The callback is an opaque `Callback`, and its call status is an ignored parameter.
- Awaiting in `get_info`, `seek_async` and `get_aux_metadata` is left out, since it is asynchronous. songbird's answers are parameters, and `seek_async` has the same value mapping as `Seek`.
- `pause`, `resume`, `add_event` and `set_volume` are left out. They pass their arguments straight to songbird. `add_event`'s event conversion is `TrackHandle.ToEvent`.
- The `volume` field of `get_info` and `set_volume`'s f64-to-f32 cast are left out, because they are floating point.
- `Manager.http_client` and `ReqwestClient::new` are left out. A reqwest `Client` is an opaque identity.
- `crate::to_napi_error` (imported at `src/track_handle.rs:18`) is not defined in `src/lib.rs`. It is modelled as wrapping the library error (`NapiError.FromLibrary`).
- songbird's other sharder kinds and `Event` variants are left out, because the binding never builds them. songbird's non-exhaustive `PlayMode` is modelled with an extra `ModeUnlisted` variant for the wildcard arm.
- Logging (`init_logging`) and the TypeScript test script are left out, since they are I/O.
- `Manager.ShardId` is trivially deterministic, because it is a function of the parsed id and the count. No separate lemma states it.
- Manager.ToGuildId and Manager.Create: the id types are taken to be songbird 0.4's `GuildId`/`UserId` wrapping `NonZeroU64` (the version whose API the binding calls). songbird's `id` module is not part of this model.
