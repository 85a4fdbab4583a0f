/**
 * The process-wide registry of chat bots, keyed by channel. Adding a bot for
 * a channel that already has one replaces it; removing an absent channel
 * does nothing. The registry is one global map; its thread-safety is not
 * modelled.
 */
module BotStore {
  import opened Wrappers
  import opened TwitchChat

  /** The entry for `channel`, if any. */
  function Lookup(bots: map<string, TwitchBot>, channel: string): (r: Option<TwitchBot>)
    ensures r.Some? <==> channel in bots
    ensures r.Some? ==> r.value == bots[channel]
  {
    if channel in bots then Some(bots[channel]) else None
  }

  /** After an insert the channel holds the new bot, whatever it held before, and every other channel is as it was. */
  lemma LookupAfterAdd(bots: map<string, TwitchBot>, channel: string, bot: TwitchBot, other: string)
    ensures Lookup(bots[channel := bot], channel) == Some(bot)
    ensures other != channel ==> Lookup(bots[channel := bot], other) == Lookup(bots, other)
  {
  }

  /** After a removal the channel has no bot, and every other channel is as it was. */
  lemma LookupAfterRemove(bots: map<string, TwitchBot>, channel: string, other: string)
    ensures Lookup(bots - {channel}, channel) == None
    ensures other != channel ==> Lookup(bots - {channel}, other) == Lookup(bots, other)
    ensures channel !in bots ==> bots - {channel} == bots
  {
  }

  class BotStorage {
    var bots: map<string, TwitchBot>

    constructor ()
      ensures bots == map[]
    {
      bots := map[];
    }

    /** `add_bot`: insert, replacing any earlier bot of the channel. */
    method AddBot(channel: string, bot: TwitchBot)
      modifies this
      ensures bots == old(bots)[channel := bot]
      ensures GetBot(channel) == Some(bot)
      ensures forall other :: other != channel ==> GetBot(other) == old(GetBot(other))
    {
      bots := bots[channel := bot];
    }

    /** `get_bot`: the stored bot of the channel; it changes nothing. */
    function GetBot(channel: string): (r: Option<TwitchBot>)
      reads this
      ensures r.Some? <==> channel in bots
      ensures r.Some? ==> r.value == bots[channel]
    {
      Lookup(bots, channel)
    }

    /** `remove_bot`: drop the channel's entry, if there is one. */
    method RemoveBot(channel: string)
      modifies this
      ensures bots == old(bots) - {channel}
      ensures GetBot(channel) == None
      ensures forall other :: other != channel ==> GetBot(other) == old(GetBot(other))
    {
      bots := bots - {channel};
    }
  }
}
