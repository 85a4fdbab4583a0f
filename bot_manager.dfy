/**
 * The manager of running bots: at most one task per channel. Connecting a
 * channel that already has a task keeps the existing task; tasks are never
 * removed, even after they end.
 */
module Manager {

  /**
   * The handle of the task spawned for a channel, identified by what it was
   * started with. The task itself creates a bot and runs it; its errors are
   * only logged.
   */
  datatype BotTask = BotTask(token: string, channel: string)

  /** The registry after `connect_bot(token, channel)`. */
  function AfterConnect(bots: map<string, BotTask>, token: string, channel: string): (r: map<string, BotTask>)
    ensures r.Keys == bots.Keys + {channel}
    ensures forall c :: c in bots ==> r[c] == bots[c]
    ensures channel !in bots ==> r[channel] == BotTask(token, channel)
  {
    if channel in bots then bots else bots[channel := BotTask(token, channel)]
  }

  /** Connecting the same channel again, with any token, changes nothing. */
  lemma ConnectAgainKeepsTask(bots: map<string, BotTask>, token: string, token2: string, channel: string)
    ensures AfterConnect(AfterConnect(bots, token, channel), token2, channel) == AfterConnect(bots, token, channel)
  {
  }

  /** A sequence of `connect_bot` calls; the manager has no other operation that changes its map. */
  function ConnectAll(bots: map<string, BotTask>, connects: seq<(string, string)>): map<string, BotTask>
    decreases |connects|
  {
    if connects == [] then bots
    else ConnectAll(AfterConnect(bots, connects[0].0, connects[0].1), connects[1..])
  }

  /** Connections only ever add entries: whatever was registered stays registered with the same task. */
  lemma {:induction false} ConnectNeverRemoves(bots: map<string, BotTask>, connects: seq<(string, string)>)
    ensures var r := ConnectAll(bots, connects);
            bots.Keys <= r.Keys && forall c :: c in bots ==> r[c] == bots[c]
    decreases |connects|
  {
    if connects != [] {
      var bots1 := AfterConnect(bots, connects[0].0, connects[0].1);
      ConnectNeverRemoves(bots1, connects[1..]);
    }
  }

  class BotManager {
    var bots: map<string, BotTask>

    /** `new`: no tasks. */
    constructor ()
      ensures bots == map[]
    {
      bots := map[];
    }

    /** `connect_bot`: spawn and record a task only when the channel has none. */
    method ConnectBot(token: string, channel: string)
      modifies this
      ensures bots == AfterConnect(old(bots), token, channel)
    {
      if channel !in bots {
        var task := BotTask(token, channel);
        bots := bots[channel := task];
      }
    }
  }
}
