/** The `Manager` object: it holds the sharder, the bot's user id and the
    shard count, routes a guild to a shard with the gateway's sharding
    formula `(guild_id >> 22) % shard_count`, and builds a voice `Call`
    bound to that shard. */
module Manager {
  import opened Wrappers
  import opened Numeric
  import opened Decimal
  import opened Errors
  import opened Shards

  /** `ClientInfo` as JavaScript passes it: the user id as text and the
      shard count as an i32. */
  datatype ClientInfo = ClientInfo(userId: string, shardCount: I32)

  /** `ManagerOptions` without its JavaScript function, which is modelled by
      the outcome of wrapping it into a thread-safe callback. */
  datatype ManagerOptions = ManagerOptions(clientInfo: ClientInfo)

  /** The voice library's ids (`UserId`, `GuildId`) wrap a `NonZeroU64`. */
  datatype Manager = Manager(sharder: NodeSharder, userId: NonZeroU64, shardCount: U64)

  /** The voice library's `Call::new(guild_id, shard, user_id)`, recorded
      by its arguments; the call's own state machine is not modelled. */
  datatype Call = Call(guildId: NonZeroU64, shard: NodeShard, userId: NonZeroU64)

  /** `Manager::create`. `threadsafe` is the outcome of wrapping the
      JavaScript `submitVoiceUpdate` function; its error is returned
      before anything else is looked at. Then the user id is parsed with
      `unwrap` as a non-zero `UserId`, and the i32 shard count is cast to u64 (sign extension,
      so a negative count becomes a huge modulus, not an error). */
  function Create(options: ManagerOptions, threadsafe: Result<Callback, NapiError>)
    : (r: Outcome<Result<Manager, NapiError>>)
    ensures threadsafe.Failure? ==> r == Return(Failure(threadsafe.error))
    ensures threadsafe.Success? ==>
      (r.Panic? <==> ParseNonZeroU64(options.clientInfo.userId).Failure?)
    ensures r.Panic? ==> r.cause == UnwrapParseError(ParseNonZeroU64(options.clientInfo.userId).error)
    ensures threadsafe.Success? && ParseNonZeroU64(options.clientInfo.userId).Success? ==>
      r.Return? && r.value.Success?
    ensures r.Return? && r.value.Success? ==>
      && threadsafe == Success(r.value.value.sharder.submitVoiceUpdate)
      && ParseU64(options.clientInfo.userId) == Success(r.value.value.userId)
      && r.value.value.userId != 0
      && r.value.value.shardCount == I32AsU64(options.clientInfo.shardCount)
      && (options.clientInfo.shardCount >= 0 ==> r.value.value.shardCount == options.clientInfo.shardCount)
      && (options.clientInfo.shardCount < 0 ==> r.value.value.shardCount >= U64_LIMIT - I32_LIMIT)
  {
    match threadsafe
    case Failure(e) => Return(Failure(e))
    case Success(callback) =>
      match ParseNonZeroU64(options.clientInfo.userId)
      case Failure(e) => Panic(UnwrapParseError(e))
      case Success(userId) =>
        Return(Success(Manager(NodeSharder(callback), userId, I32AsU64(options.clientInfo.shardCount))))
  }

  /** The crate's `to_guild_id`: parse a non-zero `GuildId` with `unwrap`,
      never a default. Zero is refused here, unlike in `shard_id`. */
  function ToGuildId(guildId: string): (r: Outcome<NonZeroU64>)
    ensures r.Return? <==> ParseU64(guildId).Success? && ParseU64(guildId).value != 0
    ensures r.Return? ==> ParseU64(guildId).value == r.value
    ensures ParseU64(guildId).Failure? ==> r == Panic(UnwrapParseError(ParseU64(guildId).error))
    ensures ParseU64(guildId) == Success(0) ==> r == Panic(UnwrapParseError(Zero))
  {
    match ParseNonZeroU64(guildId)
    case Failure(e) => Panic(UnwrapParseError(e))
    case Success(g) => Return(g)
  }

  /** `Manager::shard_id`: the shard a guild is routed to. It panics on
      an id that does not parse and on a zero shard count; otherwise it is
      the unique index below the shard count congruent to `guild_id >> 22`. */
  function ShardId(m: Manager, guildId: string): (r: Outcome<U64>)
    ensures r.Return? <==> ParseU64(guildId).Success? && m.shardCount != 0
    ensures ParseU64(guildId).Failure? ==> r == Panic(UnwrapParseError(ParseU64(guildId).error))
    ensures ParseU64(guildId).Success? && m.shardCount == 0 ==> r == Panic(RemainderByZero)
    ensures r.Return? ==> r.value < m.shardCount
    ensures r.Return? ==> (Shr22(ParseU64(guildId).value) - r.value) % m.shardCount == 0
  {
    match ParseU64(guildId)
    case Failure(e) => Panic(UnwrapParseError(e))
    case Success(g) =>
      if m.shardCount == 0 then Panic(RemainderByZero)
      else ModIsResidue(Shr22(g), m.shardCount); Return(Shr22(g) % m.shardCount)
  }

  /** `Manager::create_call`: route the guild, ask the sharder for that
      shard, and build a `Call` for the same guild and the manager's user.
      Because the sharder is a `NodeSharder`, the `None` branch is never
      taken: the failures are the panics of `shard_id`, and then the panic
      of `to_guild_id` on guild id zero, which `shard_id` routes happily. */
  function CreateCall(m: Manager, guildId: string): (r: Outcome<Option<Call>>)
    ensures r.Panic? <==> ParseU64(guildId).Failure? || m.shardCount == 0 || ParseU64(guildId) == Success(0)
    ensures ShardId(m, guildId).Panic? ==> r == Panic(ShardId(m, guildId).cause)
    ensures ShardId(m, guildId).Return? && ParseU64(guildId) == Success(0) ==>
      r == Panic(UnwrapParseError(Zero))
    ensures r.Return? ==> r.value.Some?
    ensures r.Return? ==>
      && ParseU64(guildId) == Success(r.value.value.guildId)
      && r.value.value.userId == m.userId
      && r.value.value.shard.submitVoiceUpdate == m.sharder.submitVoiceUpdate
      && Return(r.value.value.shard.shardId) == ShardId(m, guildId)
  {
    match ShardId(m, guildId)
    case Panic(cause) => Panic(cause)
    case Return(index) =>
      match GetShard(m.sharder, index)
      case None => Return(None)
      case Some(shard) =>
        match ToGuildId(guildId)
        case Panic(cause) => Panic(cause)
        case Return(g) => Return(Some(Call(g, shard, m.userId)))
  }

  /** Any guild id below 2^22 routes to shard 0, whatever the count. */
  lemma SmallGuildRoutesToShardZero(m: Manager, guildId: string)
    requires ParseU64(guildId).Success? && ParseU64(guildId).value < SNOWFLAKE_SHIFT_UNIT
    requires m.shardCount != 0
    ensures ShardId(m, guildId) == Return(0)
  {
    assert Shr22(ParseU64(guildId).value) == 0;
  }

  /** With a negative i32 shard count the modulus exceeds every possible
      `guild_id >> 22`, so no reduction happens at all: the guild is sent to
      shard `guild_id >> 22`, and that index no longer fits in the i32 the
      callback receives once the guild id reaches 2^53. */
  lemma NegativeShardCountDoesNotReduce(options: ManagerOptions, callback: Callback, guildId: string)
    requires options.clientInfo.shardCount < 0
    requires ParseNonZeroU64(options.clientInfo.userId).Success?
    requires ParseU64(guildId).Success?
    ensures Create(options, Success(callback)).Return?
    ensures
      var m := Create(options, Success(callback)).value.value;
      ShardId(m, guildId) == Return(Shr22(ParseU64(guildId).value))
  {
    var m := Create(options, Success(callback)).value.value;
    var q := Shr22(ParseU64(guildId).value);
    assert q < U64_LIMIT / SNOWFLAKE_SHIFT_UNIT < m.shardCount;
    ModBelowModulus(q, m.shardCount);
  }

  /** Guild id zero passes `shard_id` (it routes to shard 0) but is then
      refused by `to_guild_id`, so `create_call` panics with `Zero`. */
  lemma ZeroGuildRoutesThenPanics(m: Manager)
    requires m.shardCount != 0
    ensures ShardId(m, "0") == Return(0)
    ensures CreateCall(m, "0") == Panic(UnwrapParseError(Zero))
  {
    assert RenderU64(0) == "0";
    RenderParseRoundTrip(0);
    assert Shr22(0) == 0;
    ModIsResidue(0, m.shardCount);
  }

  /** The whole outbound path for a well-configured manager: the shard the
      `Call` holds delivers, through the manager's own callback, a record
      whose shard id is `(guild_id >> 22) % shard_count` for the count that
      JavaScript passed, and whose guild id text parses back to the guild. */
  lemma RoutedVoiceUpdate(
    options: ManagerOptions, callback: Callback, guildId: string,
    channelId: Option<NonZeroU64>, selfDeaf: bool, selfMute: bool, callStatus: Status)
    requires options.clientInfo.shardCount > 0
    requires ParseNonZeroU64(options.clientInfo.userId).Success?
    requires ParseNonZeroU64(guildId).Success?
    ensures Create(options, Success(callback)).Return?
    ensures
      var m := Create(options, Success(callback)).value.value;
      && CreateCall(m, guildId).Return?
      && var call := CreateCall(m, guildId).value.value;
         var out := UpdateVoiceState(call.shard, call.guildId, channelId, selfDeaf, selfMute, callStatus);
         && out.delivered.callback == callback
         && out.delivered.data.shardId == Shr22(ParseU64(guildId).value) % options.clientInfo.shardCount
         && ParseU64(out.delivered.data.payload.guildId) == ParseU64(guildId)
         && Canonical(out.delivered.data.payload.guildId)
  {
    var m := Create(options, Success(callback)).value.value;
    var call := CreateCall(m, guildId).value.value;
    assert call.shard.shardId < m.shardCount <= I32_LIMIT;
  }

  /** A worked example: guild 600000000000000000 has `guild_id >> 22` equal
      to 143051147460, so it is routed to shard 0 of 4 and to shard 4 of 8;
      the two counts route it independently and deterministically. */
  lemma ExampleGuildRouting(m4: Manager, m8: Manager)
    requires m4.shardCount == 4 && m8.shardCount == 8
    ensures ShardId(m4, "600000000000000000") == Return(0)
    ensures ShardId(m8, "600000000000000000") == Return(4)
  {
    assert RenderU64(6) == "6";
    assert RenderU64(60) == "60";
    assert RenderU64(600) == "600";
    assert RenderU64(6000) == "6000";
    assert RenderU64(60000) == "60000";
    assert RenderU64(600000) == "600000";
    assert RenderU64(6000000) == "6000000";
    assert RenderU64(60000000) == "60000000";
    assert RenderU64(600000000) == "600000000";
    assert RenderU64(6000000000) == "6000000000";
    assert RenderU64(60000000000) == "60000000000";
    assert RenderU64(600000000000) == "600000000000";
    assert RenderU64(6000000000000) == "6000000000000";
    assert RenderU64(60000000000000) == "60000000000000";
    assert RenderU64(600000000000000) == "600000000000000";
    assert RenderU64(6000000000000000) == "6000000000000000";
    assert RenderU64(60000000000000000) == "60000000000000000";
    assert RenderU64(600000000000000000) == "600000000000000000";
    RenderParseRoundTrip(600000000000000000);
    assert Shr22(600000000000000000) == 143051147460;
  }
}
