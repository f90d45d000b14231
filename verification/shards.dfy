/** The shard layer the binding hands to the voice library: a sharder that
    builds one shard object per requested index, and a shard that turns a
    voice-state change into the record passed to the JavaScript
    `submitVoiceUpdate` callback. */
module Shards {
  import opened Wrappers
  import opened Numeric
  import opened Decimal
  import opened Errors

  /** The thread-safe handle on the JavaScript `submitVoiceUpdate`
      function; only its identity matters here. */
  datatype Callback = Callback(id: nat)

  /** `NodeSharder`: every shard it hands out shares its one callback. */
  datatype NodeSharder = NodeSharder(submitVoiceUpdate: Callback)

  /** `NodeShard`: the callback plus the index it was asked for. */
  datatype NodeShard = NodeShard(submitVoiceUpdate: Callback, shardId: U64)

  /** The voice-state payload (the crate's `Fuck2`): ids as decimal text. */
  datatype VoiceStatePayload = VoiceStatePayload(
    guildId: string,
    channelId: Option<string>,
    selfMute: bool,
    selfDeaf: bool)

  /** The record handed to the callback (the crate's `Fuck`). */
  datatype VoiceUpdate = VoiceUpdate(shardId: I32, payload: VoiceStatePayload)

  /** One non-blocking call of a callback with a value. */
  datatype Delivery = Delivery(callback: Callback, data: VoiceUpdate)

  /** The voice library's `JoinError`, opaque here. */
  datatype JoinError = JoinError(description: string)

  /** What `update_voice_state` does: one delivery, and its return value. */
  datatype UpdateOutcome = UpdateOutcome(delivered: Delivery, result: Result<(), JoinError>)

  /** `NodeSharder::get_shard`: a shard for every index, never `None`. */
  function GetShard(sharder: NodeSharder, shardId: U64): (r: Option<NodeShard>)
    ensures r.Some?
    ensures r.value.shardId == shardId
    ensures r.value.submitVoiceUpdate == sharder.submitVoiceUpdate
  {
    Some(NodeShard(sharder.submitVoiceUpdate, shardId))
  }

  /** `channel_id.map(|c| c.0.to_string())`. */
  function RenderChannel(channelId: Option<NonZeroU64>): (r: Option<string>)
    ensures r.None? <==> channelId.None?
    ensures channelId.Some? ==> Canonical(r.value) && ParseU64(r.value) == Success(channelId.value)
  {
    match channelId
    case None => None
    case Some(c) => RenderParseRoundTrip(c); Some(RenderU64(c))
  }

  /** `NodeShard::update_voice_state`. The ids are the voice library's
      non-zero `GuildId` and `ChannelId`, written with `to_string`. The parameters arrive as deaf, then
      mute, and land in the same-named payload fields. `callStatus` is the
      status the non-blocking callback call reports; it is ignored, and
      the result is always `Ok(())`. */
  function UpdateVoiceState(
    shard: NodeShard,
    guildId: NonZeroU64,
    channelId: Option<NonZeroU64>,
    selfDeaf: bool,
    selfMute: bool,
    callStatus: Status): (r: UpdateOutcome)
    ensures r.result == Success(())
    ensures r.delivered.callback == shard.submitVoiceUpdate
    ensures Canonical(r.delivered.data.payload.guildId)
    ensures ParseU64(r.delivered.data.payload.guildId) == Success(guildId)
    ensures r.delivered.data.payload.channelId.None? <==> channelId.None?
    ensures channelId.Some? ==>
      && Canonical(r.delivered.data.payload.channelId.value)
      && ParseU64(r.delivered.data.payload.channelId.value) == Success(channelId.value)
    ensures r.delivered.data.payload.selfMute == selfMute
    ensures r.delivered.data.payload.selfDeaf == selfDeaf
    ensures r.delivered.data.shardId == shard.shardId <==> shard.shardId < I32_LIMIT
    ensures (shard.shardId - r.delivered.data.shardId) % U32_LIMIT == 0
  {
    RenderParseRoundTrip(guildId);
    var payload := VoiceStatePayload(RenderU64(guildId), RenderChannel(channelId), selfMute, selfDeaf);
    var data := VoiceUpdate(U64AsI32(shard.shardId), payload);
    UpdateOutcome(Delivery(shard.submitVoiceUpdate, data), Success(()))
  }

  /** What a shard obtained from the sharder delivers: the index asked of
      the sharder is the index the callback sees, as long as it fits an
      i32, and the callback is the sharder's own. */
  lemma ShardIndexReachesCallback(
    sharder: NodeSharder, shardId: U64, guildId: NonZeroU64, channelId: Option<NonZeroU64>,
    selfDeaf: bool, selfMute: bool, callStatus: Status)
    requires shardId < I32_LIMIT
    ensures
      var out := UpdateVoiceState(GetShard(sharder, shardId).value, guildId, channelId,
                                  selfDeaf, selfMute, callStatus);
      out.delivered.data.shardId == shardId && out.delivered.callback == sharder.submitVoiceUpdate
  {
  }
}
