/**
 * Interleavings of the bot's handlers, written as sequences of steps on one
 * bot. Each shows a behaviour the handlers have as written: a timer keeps
 * the configuration it captured, a repost in flight outlives the removal of
 * its configuration, two reposts of one channel can overlap, and a timer can
 * stay armed after its channel's entry is gone.
 */
module Scenarios {
  import opened Wrappers
  import opened Sticky
  import opened Bot

  /**
   * A message arrives, then `setSticky` replaces the channel's template and
   * its repost completes; when the timer armed by the message fires, its
   * repost writes the configuration it captured back under the channel. The
   * saved store ends with the old template, not the new one, and with the
   * id of the timer's post. The two reposts send under two platform states
   * that give their posts different ids.
   */
  method StaleTimerReinstalls(botId: UserId, d: ConfigData, channel: Channel, first: Platform, second: Platform,
                              content: string)
    returns (installed: map<ChannelId, ConfigData>, saved: map<ChannelId, ConfigData>)
    requires d.channelId == channel.id
    requires channel.id !in first.fetchFails && channel.id in first.sendIds
    requires channel.id !in second.fetchFails && channel.id in second.sendIds
    requires first.sendIds[channel.id] != second.sendIds[channel.id]
    ensures channel.id in installed && installed[channel.id].content == content
    ensures installed[channel.id].messageId == Some(first.sendIds[channel.id])
    ensures channel.id in saved && saved[channel.id] == d.(messageId := Some(second.sendIds[channel.id]))
  {
    var bot := new StickyBot(botId, map[channel.id := d]);
    assert bot.stickyMessages == map[channel.id := Loaded(channel.id)];
    var t, after := ReplaceWhileArmed(bot, d, channel, first, content);
    installed := bot.saved;
    var fired, stored := bot.FireTimer(t);
    assert fired;
    after := bot.FinishFiredTimer(t, stored, after, second);
    saved := bot.saved;
    assert bot.stickyMessages[channel.id] == Loaded(channel.id);
  }

  /**
   * The first half of `StaleTimerReinstalls`, on a bot loaded with
   * configuration `d` only: a message arms `t`, then `setSticky` installs a
   * new configuration and its repost sends.
   */
  method ReplaceWhileArmed(bot: StickyBot, d: ConfigData, channel: Channel, first: Platform, content: string)
    returns (t: Timer, after: Channel)
    requires bot.Valid() && d.channelId == channel.id
    requires bot.stickyMessages == map[channel.id := Loaded(channel.id)] && bot.configs == map[Loaded(channel.id) := d]
    requires bot.processingChannels == {} && bot.stickyTimeouts == map[] && bot.armed == {}
    requires channel.id !in first.fetchFails && channel.id in first.sendIds
    modifies bot
    ensures bot.Valid() && t in bot.armed && t.channel == channel.id && t.config == Loaded(channel.id)
    ensures Loaded(channel.id) in bot.configs && bot.configs[Loaded(channel.id)] == d
    ensures channel.id !in bot.processingChannels && after.id == channel.id
    ensures channel.id in bot.saved && bot.saved[channel.id].content == content
    ensures bot.saved[channel.id].messageId == Some(first.sendIds[channel.id])
  {
    var timer := bot.OnMessage(false, channel.id);
    t := timer.value;
    var r, started := bot.SetSticky(channel.id, content, "admin", "now", None, None, None);
    after := bot.FinishHandle(r, None, channel, first);
  }

  /**
   * A repost begins (say a timer fired); while it waits on the platform the
   * configuration is removed, which also takes the channel out of the
   * in-flight set while the repost still runs. Once the repost's post is
   * sent, the repost puts the configuration back and saves it.
   */
  method RemovedConfigResurrects(botId: UserId, d: ConfigData, channel: Channel, platform: Platform)
    returns (removed: map<ChannelId, ConfigData>, saved: map<ChannelId, ConfigData>)
    requires d.channelId == channel.id
    requires channel.id !in platform.fetchFails && channel.id in platform.sendIds
    ensures removed == map[]
    ensures channel.id in saved && saved[channel.id] == d.(messageId := Some(platform.sendIds[channel.id]))
  {
    var bot := new StickyBot(botId, map[channel.id := d]);
    assert bot.stickyMessages == map[channel.id := Loaded(channel.id)];
    var started, stored := bot.BeginHandle(Loaded(channel.id), channel.id);
    var busy := bot.OnMessage(false, channel.id);
    assert busy.None?;
    var found, after := bot.RemoveSticky(channel, platform.deleteFails);
    removed := bot.saved;
    after := bot.FinishHandle(Loaded(channel.id), stored, channel, platform);
    saved := bot.saved;
  }

  /**
   * A timer fires and its repost begins; while it waits, `removeSticky` and
   * then `setSticky` run. `removeSticky` took the channel out of the in-flight
   * set, so `setSticky` begins a second repost of the same channel beside the
   * first. The second finishes, and a new message arms timer `t2`. Then the
   * first repost finishes: it writes its old configuration back and deletes
   * the channel's timer entry, which now holds `t2`, without clearing `t2`.
   * The next message arms `t3`, and the runtime holds two timers for one
   * channel.
   */
  method TwoTimersArmed(botId: UserId, d: ConfigData, channel: Channel, first: Platform, second: Platform,
                        content: string)
    returns (firstStarted: bool, secondStarted: bool, t2: Timer, t3: Timer, armed: set<Timer>,
             saved: map<ChannelId, ConfigData>)
    requires d.channelId == channel.id
    requires channel.id !in first.fetchFails && channel.id in first.sendIds
    requires channel.id !in second.fetchFails && channel.id in second.sendIds
    requires first.sendIds[channel.id] != second.sendIds[channel.id]
    ensures firstStarted && secondStarted
    ensures t2 != t3 && t2.channel == channel.id && t3.channel == channel.id
    ensures t2 in armed && t3 in armed
    ensures channel.id in saved && saved[channel.id] == d.(messageId := Some(second.sendIds[channel.id]))
  {
    var bot := new StickyBot(botId, map[channel.id := d]);
    assert bot.stickyMessages == map[channel.id := Loaded(channel.id)];
    var t1, stored1, after;
    t1, stored1, firstStarted, secondStarted, after := OverlappingReposts(bot, d, channel, first, content);
    var timer2 := bot.OnMessage(false, channel.id);
    t2 := timer2.value;
    after := bot.FinishFiredTimer(t1, stored1, after, second);
    var timer3 := bot.OnMessage(false, channel.id);
    t3 := timer3.value;
    armed := bot.armed;
    saved := bot.saved;
    assert bot.stickyMessages[channel.id] == Loaded(channel.id);
  }

  /**
   * The first half of `TwoTimersArmed`, on a bot loaded with configuration
   * `d` only: a message arms `t1`, `t1` fires and its repost begins, the
   * configuration is removed and set anew, and the second repost runs to its
   * end while the first is still in flight.
   */
  method OverlappingReposts(bot: StickyBot, d: ConfigData, channel: Channel, first: Platform, content: string)
    returns (t1: Timer, stored1: Option<MessageId>, firstStarted: bool, secondStarted: bool, after: Channel)
    requires bot.Valid() && d.channelId == channel.id
    requires bot.stickyMessages == map[channel.id := Loaded(channel.id)] && bot.configs == map[Loaded(channel.id) := d]
    requires bot.processingChannels == {} && bot.stickyTimeouts == map[]
    modifies bot
    ensures bot.Valid() && firstStarted && secondStarted
    ensures t1.channel == channel.id && t1.config == Loaded(channel.id)
    ensures Loaded(channel.id) in bot.configs && bot.configs[Loaded(channel.id)] == d
    ensures channel.id in bot.stickyMessages && channel.id !in bot.processingChannels && channel.id !in bot.stickyTimeouts
    ensures after.id == channel.id
  {
    var timer1 := bot.OnMessage(false, channel.id);
    t1 := timer1.value;
    firstStarted, stored1 := bot.FireTimer(t1);
    var found;
    found, after := bot.RemoveSticky(channel, first.deleteFails);
    var r;
    r, secondStarted := bot.SetSticky(channel.id, content, "admin", "now", None, None, None);
    after := bot.FinishHandle(r, None, after, first);
  }
}
