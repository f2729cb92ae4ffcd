/**
 * The bot's bookkeeping: `stickyMessages` (channel to configuration),
 * `stickyTimeouts` (channel to pending repost timer) and `processingChannels`
 * (channels with a repost in flight), and the events that change them.
 *
 * The platform is an oracle fixed in advance: which deletes fail, which
 * channels fail to fetch their recent messages, and the id each channel's
 * next post receives (a channel without one fails to send). The clock is part
 * of the same oracle. Awaited calls split a handler into steps: a repost is
 * `BeginHandle` (the synchronous guard, and the read of the stored message id
 * that the first await then fetches) and `FinishHandle` (everything after the
 * first await), and a timer is armed by `OnMessage` and run by `FireTimer` and
 * `FinishFiredTimer`. Any interleaving of these steps is a
 * sequence of method calls.
 */
module Bot {
  import opened Wrappers
  import opened Template
  import opened Sticky
  import opened Reconcile
  import Color

  /** The three locale strings of the current time. */
  datatype Clock = Clock(time: string, date: string, dateTime: string)

  /** A channel as the client cache holds it, with its history, newest first. */
  datatype Channel = Channel(id: ChannelId, name: string, guildName: string, memberCount: nat, history: seq<Message>)

  /** The outcome of every platform call, fixed in advance. */
  datatype Platform = Platform(
    deleteFails: set<MessageId>,
    fetchFails: set<ChannelId>,
    sendIds: map<ChannelId, MessageId>,
    clock: Clock)

  function Context(channel: Channel, clock: Clock): RenderContext {
    RenderContext(channel.guildName, channel.name, channel.memberCount, clock.time, clock.date, clock.dateTime)
  }

  /** A configuration as a value: one entry of the saved store. */
  datatype ConfigData = ConfigData(
    content: string,
    channelId: ChannelId,
    authorId: UserId,
    createdAt: string,
    messageId: Option<MessageId>,
    useEmbed: bool,
    customFooter: Option<string>,
    embedColor: Option<string>)

  function PayloadFor(d: ConfigData, ctx: RenderContext): Payload {
    BuildPayload(d.content, d.useEmbed, d.customFooter, d.embedColor, ctx)
  }

  /** What a repost leaves in the channel, and the id of the new post if one was sent. */
  datatype Outcome = Outcome(history: seq<Message>, sentId: Option<MessageId>)

  /**
   * A repost from configuration `d`: delete the stored message, sweep the
   * newest 50 messages, and send the payload. A failed fetch of the sweep
   * window, or a failed send, ends it early.
   */
  function HandleOutcome(d: ConfigData, channel: Channel, botId: UserId, platform: Platform): Outcome {
    var h1 := DeleteStored(channel.history, d.messageId, platform.deleteFails);
    if channel.id in platform.fetchFails then Outcome(h1, None)
    else
      var h2 := Reconciled(h1, RefreshWindow, botId, d.content, platform.deleteFails);
      if channel.id in platform.sendIds then
        var id := platform.sendIds[channel.id];
        Outcome([Posted(id, botId, PayloadFor(d, Context(channel, platform.clock)))] + h2, Some(id))
      else Outcome(h2, None)
  }

  /**
   * The platform calls of a repost, in the order the source makes them:
   * delete the stored message, fetch and sweep the newest 50 messages, send.
   */
  method Repost(d: ConfigData, channel: Channel, botId: UserId, platform: Platform)
    returns (history: seq<Message>, sentId: Option<MessageId>)
    ensures Outcome(history, sentId) == HandleOutcome(d, channel, botId, platform)
  {
    history := DeleteStored(channel.history, d.messageId, platform.deleteFails);
    sentId := None;
    if channel.id !in platform.fetchFails {
      var deletedCount;
      history, deletedCount := Scan(history, RefreshWindow, botId, d.content, platform.deleteFails);
      if channel.id in platform.sendIds {
        var id := platform.sendIds[channel.id];
        history := [Posted(id, botId, PayloadFor(d, Context(channel, platform.clock)))] + history;
        sentId := Some(id);
      }
    }
  }

  /** The startup sweep of one channel: as a repost, with a window of 100 and no send. */
  function CleanupHistory(d: ConfigData, channel: Channel, botId: UserId, platform: Platform): seq<Message> {
    var h1 := DeleteStored(channel.history, d.messageId, platform.deleteFails);
    if channel.id in platform.fetchFails then h1
    else Reconciled(h1, StartupWindow, botId, d.content, platform.deleteFails)
  }

  /**
   * A repost sends a message exactly when the sweep window could be fetched
   * and the send succeeded; the new post is then the newest message.
   */
  lemma HandleOutcomeSent(d: ConfigData, channel: Channel, botId: UserId, platform: Platform)
    ensures var o := HandleOutcome(d, channel, botId, platform);
            o.sentId.Some? <==> channel.id !in platform.fetchFails && channel.id in platform.sendIds
    ensures var o := HandleOutcome(d, channel, botId, platform);
            o.sentId.Some? ==> o.history != [] && o.history[0].id == o.sentId.value && o.history[0].authorId == botId
  {
  }

  /**
   * The round trip: a post with the default footer is the newest message, so
   * it is inside the next sweep window, and the next sweep removes it unless
   * its delete fails, whatever the configured template is by then.
   */
  lemma NextSweepRemovesPost(d: ConfigData, channel: Channel, botId: UserId, platform: Platform,
                             limit: nat, template: string)
    requires d.customFooter.None? || d.customFooter == Some("")
    requires limit >= 1
    ensures var o := HandleOutcome(d, channel, botId, platform);
            o.sentId.Some? && o.sentId.value !in platform.deleteFails ==>
              Window(o.history, limit)[0] == o.history[0] &&
              Removed(o.history[0], botId, template, platform.deleteFails) &&
              o.history[0] !in Survivors(Window(o.history, limit), botId, template, platform.deleteFails)
  {
    var o := HandleOutcome(d, channel, botId, platform);
    if o.sentId.Some? && o.sentId.value !in platform.deleteFails {
      var ctx := Context(channel, platform.clock);
      DefaultFooterPostRecognised(o.sentId.value, botId, d.content, d.useEmbed, d.customFooter, d.embedColor, ctx, template);
      SplitWindow(Window(o.history, limit), botId, template, platform.deleteFails);
    }
  }

  /**
   * A failed sweep fetch or a failed send posts nothing and leaves the channel
   * with only the stored message deleted, or swept: no message is added.
   */
  lemma HandleOutcomeFailures(d: ConfigData, channel: Channel, botId: UserId, platform: Platform)
    ensures channel.id in platform.fetchFails ==>
            HandleOutcome(d, channel, botId, platform) == Outcome(DeleteStored(channel.history, d.messageId, platform.deleteFails), None)
    ensures channel.id !in platform.fetchFails && channel.id !in platform.sendIds ==>
            HandleOutcome(d, channel, botId, platform).sentId.None? &&
            |HandleOutcome(d, channel, botId, platform).history| <= |channel.history|
    ensures channel.id in platform.fetchFails || channel.id !in platform.sendIds ==>
            forall m :: m in HandleOutcome(d, channel, botId, platform).history ==> m in channel.history
  {
    var h1 := DeleteStored(channel.history, d.messageId, platform.deleteFails);
    var n := Min(RefreshWindow, |h1|);
    SplitWindow(h1[..n], botId, d.content, platform.deleteFails);
    assert |multiset(Survivors(h1[..n], botId, d.content, platform.deleteFails))| <= |multiset(h1[..n])|;
    assert |h1| == |h1[..n]| + |h1[n..]|;
    assert forall m :: m in h1[..n] || m in h1[n..] ==> m in h1;
  }

  /**
   * The saved store after the startup cleanup: channels missing from the
   * cache are dropped; every other configuration loses its message id unless
   * fetching the channel's recent messages failed.
   */
  function CleanedStore(store: map<ChannelId, ConfigData>, cache: map<ChannelId, Channel>, platform: Platform)
    : map<ChannelId, ConfigData>
  {
    map ch | ch in store && ch in cache ::
      if ch in platform.fetchFails then store[ch] else store[ch].(messageId := None)
  }

  /** The id a startup refresh posts in channel `ch`, if it posts one. */
  function RefreshSent(ch: ChannelId, d: ConfigData, cache: map<ChannelId, Channel>, processing: set<ChannelId>,
                       botId: UserId, platform: Platform): Option<MessageId>
  {
    if ch in cache && ch !in processing then HandleOutcome(d, cache[ch], botId, platform).sentId else None
  }

  /** The saved store after the startup refresh: each channel that posted records its new id. */
  function RefreshedStore(store: map<ChannelId, ConfigData>, cache: map<ChannelId, Channel>, processing: set<ChannelId>,
                          botId: UserId, platform: Platform): map<ChannelId, ConfigData>
  {
    map ch | ch in store ::
      var sent := RefreshSent(ch, store[ch], cache, processing, botId, platform);
      if sent.Some? then store[ch].(messageId := sent) else store[ch]
  }

  /**
   * After the startup cleanup no configuration survives for a channel the
   * cache lacks, and every channel whose pass completed has no message id;
   * a failed pass keeps the id it had and does not affect other channels.
   */
  lemma CleanedStoreEffect(store: map<ChannelId, ConfigData>, cache: map<ChannelId, Channel>, platform: Platform)
    ensures forall ch :: ch in CleanedStore(store, cache, platform) <==> ch in store && ch in cache
    ensures forall ch :: ch in CleanedStore(store, cache, platform) && ch !in platform.fetchFails ==>
              CleanedStore(store, cache, platform)[ch].messageId.None?
    ensures forall ch :: ch in CleanedStore(store, cache, platform) && ch in platform.fetchFails ==>
              CleanedStore(store, cache, platform)[ch] == store[ch]
    ensures forall ch :: ch in CleanedStore(store, cache, platform) ==>
              CleanedStore(store, cache, platform)[ch].content == store[ch].content
  {
  }

  /**
   * The startup refresh keeps every channel's configuration; only the message
   * id changes, and only to the id of a post just sent in that channel.
   */
  lemma RefreshedStoreEffect(store: map<ChannelId, ConfigData>, cache: map<ChannelId, Channel>,
                             processing: set<ChannelId>, botId: UserId, platform: Platform)
    requires forall ch :: ch in cache ==> cache[ch].id == ch
    ensures RefreshedStore(store, cache, processing, botId, platform).Keys == store.Keys
    ensures forall ch :: ch in store ==>
              RefreshedStore(store, cache, processing, botId, platform)[ch].(messageId := store[ch].messageId) == store[ch]
    ensures forall ch :: ch in store && RefreshedStore(store, cache, processing, botId, platform)[ch].messageId != store[ch].messageId ==>
              ch in cache && ch !in processing && ch !in platform.fetchFails && ch in platform.sendIds
              && RefreshedStore(store, cache, processing, botId, platform)[ch].messageId == Some(platform.sendIds[ch])
  {
    forall ch | ch in store && ch in cache && ch !in processing
      ensures var o := HandleOutcome(store[ch], cache[ch], botId, platform);
              o.sentId.Some? <==> ch !in platform.fetchFails && ch in platform.sendIds
      ensures var o := HandleOutcome(store[ch], cache[ch], botId, platform);
              o.sentId.Some? ==> o.sentId == Some(platform.sendIds[ch])
    {
    }
  }

  /** The entries of `m` for the channels of `keep`, and for those not yet visited. */
  function KeptPrefix<V>(m: map<ChannelId, V>, done: set<ChannelId>, keep: set<ChannelId>): map<ChannelId, V> {
    map ch | ch in m && (ch in keep || ch !in done) :: m[ch]
  }

  /** The entries of `m` for the channels of `keep`. */
  function Kept<V>(m: map<ChannelId, V>, keep: set<ChannelId>): map<ChannelId, V> {
    map ch | ch in m && ch in keep :: m[ch]
  }

  lemma KeptPrefixAll<V>(m: map<ChannelId, V>, done: set<ChannelId>, keep: set<ChannelId>)
    requires m.Keys <= done
    ensures KeptPrefix(m, done, keep) == Kept(m, keep)
  {
  }

  lemma KeptPrefixStep<V>(m: map<ChannelId, V>, done: set<ChannelId>, keep: set<ChannelId>, ch: ChannelId)
    requires ch in m && ch !in done
    ensures KeptPrefix(m, done + {ch}, keep)
         == if ch in keep then KeptPrefix(m, done, keep) else KeptPrefix(m, done, keep) - {ch}
  {
  }

  /** `CleanedStore` for the channels of `done` only; the others are untouched. */
  function CleanedPrefix(store: map<ChannelId, ConfigData>, done: set<ChannelId>, cache: map<ChannelId, Channel>,
                         platform: Platform): map<ChannelId, ConfigData>
  {
    map ch | ch in store && (ch in cache || ch !in done) ::
      if ch in done && ch in cache && ch !in platform.fetchFails then store[ch].(messageId := None) else store[ch]
  }

  lemma CleanedPrefixStep(store: map<ChannelId, ConfigData>, done: set<ChannelId>, ch: ChannelId,
                          cache: map<ChannelId, Channel>, platform: Platform)
    requires ch in store && ch !in done
    ensures CleanedPrefix(store, done + {ch}, cache, platform)
         == if ch !in cache then CleanedPrefix(store, done, cache, platform) - {ch}
            else CleanedPrefix(store, done, cache, platform)[ch :=
                   if ch in platform.fetchFails then store[ch] else store[ch].(messageId := None)]
  {
  }

  lemma CleanedPrefixAll(store: map<ChannelId, ConfigData>, done: set<ChannelId>, cache: map<ChannelId, Channel>,
                         platform: Platform)
    requires store.Keys <= done
    ensures CleanedPrefix(store, done, cache, platform) == CleanedStore(store, cache, platform)
  {
  }

  /** The channels after the startup cleanup has visited those of `done`. */
  function SweptPrefix(cache: map<ChannelId, Channel>, store: map<ChannelId, ConfigData>, done: set<ChannelId>,
                       botId: UserId, platform: Platform): map<ChannelId, Channel>
  {
    map ch | ch in cache ::
      if ch in store && ch in done then cache[ch].(history := CleanupHistory(store[ch], cache[ch], botId, platform))
      else cache[ch]
  }

  lemma SweptPrefixStep(cache: map<ChannelId, Channel>, store: map<ChannelId, ConfigData>, done: set<ChannelId>,
                        ch: ChannelId, botId: UserId, platform: Platform)
    requires ch in store && ch !in done
    ensures SweptPrefix(cache, store, done + {ch}, botId, platform)
         == if ch in cache
            then SweptPrefix(cache, store, done, botId, platform)[ch :=
                   cache[ch].(history := CleanupHistory(store[ch], cache[ch], botId, platform))]
            else SweptPrefix(cache, store, done, botId, platform)
  {
  }

  /** The channels after the startup cleanup has visited every configured channel. */
  function Swept(cache: map<ChannelId, Channel>, store: map<ChannelId, ConfigData>, botId: UserId, platform: Platform)
    : map<ChannelId, Channel>
  {
    SweptPrefix(cache, store, store.Keys, botId, platform)
  }

  /**
   * Once every configured channel is visited, each cached channel with a
   * configuration has been swept with its own configuration, and no other
   * channel was touched.
   */
  lemma SweptAll(cache: map<ChannelId, Channel>, store: map<ChannelId, ConfigData>, botId: UserId, platform: Platform)
    ensures Swept(cache, store, botId, platform).Keys == cache.Keys
    ensures forall ch :: ch in cache && ch in store ==>
              Swept(cache, store, botId, platform)[ch]
              == cache[ch].(history := CleanupHistory(store[ch], cache[ch], botId, platform))
    ensures forall ch :: ch in cache && ch !in store ==> Swept(cache, store, botId, platform)[ch] == cache[ch]
  {
  }

  /** The channels after the startup refresh has visited those of `done`. */
  function RefreshedChannels(cache: map<ChannelId, Channel>, store: map<ChannelId, ConfigData>, done: set<ChannelId>,
                             processing: set<ChannelId>, botId: UserId, platform: Platform): map<ChannelId, Channel>
  {
    map ch | ch in cache ::
      if ch in store && ch in done && ch !in processing
      then cache[ch].(history := HandleOutcome(store[ch], cache[ch], botId, platform).history)
      else cache[ch]
  }

  lemma RefreshedChannelsStep(cache: map<ChannelId, Channel>, store: map<ChannelId, ConfigData>, done: set<ChannelId>,
                              processing: set<ChannelId>, ch: ChannelId, botId: UserId, platform: Platform)
    requires ch in store && ch !in done
    ensures RefreshedChannels(cache, store, done + {ch}, processing, botId, platform)
         == if ch in cache && ch !in processing
            then RefreshedChannels(cache, store, done, processing, botId, platform)[ch :=
                   cache[ch].(history := HandleOutcome(store[ch], cache[ch], botId, platform).history)]
            else RefreshedChannels(cache, store, done, processing, botId, platform)
  {
  }

  /** The channels after the startup refresh has visited every configured channel. */
  function Refreshed(cache: map<ChannelId, Channel>, store: map<ChannelId, ConfigData>, processing: set<ChannelId>,
                     botId: UserId, platform: Platform): map<ChannelId, Channel>
  {
    RefreshedChannels(cache, store, store.Keys, processing, botId, platform)
  }

  /**
   * Once every configured channel is visited, each cached channel with a
   * configuration and no repost in flight has been reposted from its own
   * configuration, and no other channel was touched.
   */
  lemma RefreshedAll(cache: map<ChannelId, Channel>, store: map<ChannelId, ConfigData>, processing: set<ChannelId>,
                     botId: UserId, platform: Platform)
    ensures Refreshed(cache, store, processing, botId, platform).Keys == cache.Keys
    ensures forall ch :: ch in cache && ch in store && ch !in processing ==>
              Refreshed(cache, store, processing, botId, platform)[ch]
              == cache[ch].(history := HandleOutcome(store[ch], cache[ch], botId, platform).history)
    ensures forall ch :: ch in cache && (ch !in store || ch in processing) ==>
              Refreshed(cache, store, processing, botId, platform)[ch] == cache[ch]
  {
  }

  /** `RefreshedStore` for the channels of `done` only; the others are untouched. */
  function RefreshedPrefix(store: map<ChannelId, ConfigData>, done: set<ChannelId>, cache: map<ChannelId, Channel>,
                           processing: set<ChannelId>, botId: UserId, platform: Platform): map<ChannelId, ConfigData>
  {
    map ch | ch in store ::
      var sent := RefreshSent(ch, store[ch], cache, processing, botId, platform);
      if ch in done && sent.Some? then store[ch].(messageId := sent) else store[ch]
  }

  lemma RefreshedPrefixStep(store: map<ChannelId, ConfigData>, done: set<ChannelId>, ch: ChannelId,
                            cache: map<ChannelId, Channel>, processing: set<ChannelId>, botId: UserId, platform: Platform)
    requires ch in store && ch !in done
    ensures RefreshedPrefix(store, done + {ch}, cache, processing, botId, platform)
         == var sent := RefreshSent(ch, store[ch], cache, processing, botId, platform);
            if sent.Some? then RefreshedPrefix(store, done, cache, processing, botId, platform)[ch := store[ch].(messageId := sent)]
            else RefreshedPrefix(store, done, cache, processing, botId, platform)
  {
  }

  lemma RefreshedPrefixAll(store: map<ChannelId, ConfigData>, done: set<ChannelId>, cache: map<ChannelId, Channel>,
                           processing: set<ChannelId>, botId: UserId, platform: Platform)
    requires store.Keys <= done
    ensures RefreshedPrefix(store, done, cache, processing, botId, platform) == RefreshedStore(store, cache, processing, botId, platform)
  {
  }

  /**
   * The identity of a configuration object: one read from the saved store at
   * start-up (named by its channel), or the `n`-th one `setSticky` created.
   */
  datatype ConfigRef = Loaded(channel: ChannelId) | Created(n: nat)

  /** The saved form of the map from channels to configuration objects. */
  function StoreOf(stickyMessages: map<ChannelId, ConfigRef>, configs: map<ConfigRef, ConfigData>)
    : map<ChannelId, ConfigData>
  {
    map ch | ch in stickyMessages && stickyMessages[ch] in configs :: configs[stickyMessages[ch]]
  }

  /** Every channel's object exists and belongs to that channel. */
  predicate OwnObjects(stickyMessages: map<ChannelId, ConfigRef>, configs: map<ConfigRef, ConfigData>) {
    forall ch :: ch in stickyMessages ==> stickyMessages[ch] in configs && configs[stickyMessages[ch]].channelId == ch
  }

  /**
   * Writing object `r` of channel `ch` and putting it under `ch` changes the
   * saved form of `ch` only: no other channel can hold `r`.
   */
  lemma StoreOfPut(stickyMessages: map<ChannelId, ConfigRef>, configs: map<ConfigRef, ConfigData>,
                   ch: ChannelId, r: ConfigRef, d: ConfigData)
    requires OwnObjects(stickyMessages, configs)
    requires r in configs ==> configs[r].channelId == ch
    ensures StoreOf(stickyMessages[ch := r], configs[r := d]) == StoreOf(stickyMessages, configs)[ch := d]
  {
    var now := StoreOf(stickyMessages[ch := r], configs[r := d]);
    var want := StoreOf(stickyMessages, configs)[ch := d];
    assert now.Keys == want.Keys;
    forall c | c in now
      ensures now[c] == want[c]
    {
      if c != ch {
        assert stickyMessages[c] != r;
      }
    }
  }

  /** Removing a channel's entry removes exactly its saved form. */
  lemma StoreOfRemove(stickyMessages: map<ChannelId, ConfigRef>, configs: map<ConfigRef, ConfigData>, ch: ChannelId)
    ensures StoreOf(stickyMessages - {ch}, configs) == StoreOf(stickyMessages, configs) - {ch}
  {
  }

  /** The objects `loadStickyMessages` creates from the saved store: one per channel. */
  function LoadedRefs(loaded: map<ChannelId, ConfigData>): map<ChannelId, ConfigRef> {
    map ch | ch in loaded :: Loaded(ch)
  }

  function LoadedObjects(loaded: map<ChannelId, ConfigData>): map<ConfigRef, ConfigData> {
    map r | r in LoadedRefs(loaded).Values :: loaded[r.channel]
  }

  /** Loading a store whose entries sit under their own channels gives back that store. */
  lemma LoadRoundTrip(loaded: map<ChannelId, ConfigData>)
    requires forall ch :: ch in loaded ==> loaded[ch].channelId == ch
    ensures OwnObjects(LoadedRefs(loaded), LoadedObjects(loaded))
    ensures StoreOf(LoadedRefs(loaded), LoadedObjects(loaded)) == loaded
    ensures forall r :: r in LoadedObjects(loaded) ==> r.Loaded?
  {
    var refs, objects := LoadedRefs(loaded), LoadedObjects(loaded);
    forall ch | ch in loaded
      ensures refs[ch] in objects && objects[refs[ch]] == loaded[ch]
    {
      assert refs[ch] in refs.Values;
    }
    forall r | r in objects
      ensures r.Loaded?
    {
      var ch :| ch in refs && refs[ch] == r;
    }
  }

  /** A scheduled repost: the closure holds the channel and the configuration object seen at arming time. */
  datatype Timer = Timer(id: nat, channel: ChannelId, config: ConfigRef)

  class StickyBot {
    const botId: UserId
    /**
     * Every configuration object created so far, by identity. Only the
     * message id of an object changes after its creation.
     */
    var configs: map<ConfigRef, ConfigData>
    var nextConfig: nat
    var stickyMessages: map<ChannelId, ConfigRef>
    var stickyTimeouts: map<ChannelId, Timer>
    var processingChannels: set<ChannelId>
    /** The timers the runtime still holds: armed and neither fired nor cleared. */
    var armed: set<Timer>
    var nextTimer: nat
    /** What `saveStickyMessages` last wrote. */
    var saved: map<ChannelId, ConfigData>

    /**
     * Every configuration sits under its own channel, and the saved store is
     * the saved form of the live map: every change to the map is saved. Every
     * timer, in the map or held by the runtime, was armed for its
     * configuration's channel and has an id below `nextTimer`; created
     * objects are numbered below `nextConfig`.
     */
    ghost predicate Valid()
      reads `configs, `nextConfig, `stickyMessages, `stickyTimeouts, `armed, `nextTimer, `saved
    {
      OwnObjects(stickyMessages, configs)
      && saved == StoreOf(stickyMessages, configs)
      && (forall ch :: ch in stickyTimeouts ==>
            stickyTimeouts[ch].channel == ch && stickyTimeouts[ch].config in configs
            && configs[stickyTimeouts[ch].config].channelId == ch && stickyTimeouts[ch].id < nextTimer)
      && (forall t :: t in armed ==> t.config in configs && configs[t.config].channelId == t.channel && t.id < nextTimer)
      && (forall r :: r in configs && r.Created? ==> r.n < nextConfig)
    }

    /** `loadStickyMessages`: start-up with the saved store, each configuration under its own channel. */
    constructor (botId: UserId, loaded: map<ChannelId, ConfigData>)
      requires forall ch :: ch in loaded ==> loaded[ch].channelId == ch
      ensures Valid()
      ensures this.botId == botId && StoreOf(stickyMessages, configs) == loaded
      ensures stickyMessages == LoadedRefs(loaded) && configs == LoadedObjects(loaded) && nextConfig == 0
      ensures stickyTimeouts == map[] && processingChannels == {} && armed == {} && nextTimer == 0
    {
      LoadRoundTrip(loaded);
      this.botId := botId;
      configs := LoadedObjects(loaded);
      nextConfig := 0;
      stickyMessages := LoadedRefs(loaded);
      stickyTimeouts := map[];
      processingChannels := {};
      armed := {};
      nextTimer := 0;
      saved := loaded;
    }

    /**
     * `messageCreate`: a human message in a channel with a configuration and
     * no repost in flight replaces the channel's pending timer with a new one
     * holding the current configuration object. Anything else changes nothing.
     */
    method OnMessage(authorIsBot: bool, channelId: ChannelId) returns (timer: Option<Timer>)
      requires Valid()
      modifies this
      ensures Valid()
      ensures authorIsBot || channelId !in old(stickyMessages) || channelId in old(processingChannels) ==>
              timer.None? && stickyTimeouts == old(stickyTimeouts) && armed == old(armed) && nextTimer == old(nextTimer)
      ensures !(authorIsBot || channelId !in old(stickyMessages) || channelId in old(processingChannels)) ==>
              timer == Some(Timer(old(nextTimer), channelId, old(stickyMessages)[channelId]))
              && stickyTimeouts == old(stickyTimeouts)[channelId := timer.value]
              && armed == (if channelId in old(stickyTimeouts) then old(armed) - {old(stickyTimeouts)[channelId]} else old(armed))
                          + {timer.value}
              && nextTimer == old(nextTimer) + 1
      ensures configs == old(configs) && nextConfig == old(nextConfig) && stickyMessages == old(stickyMessages)
      ensures processingChannels == old(processingChannels)
    {
      timer := None;
      if !authorIsBot && channelId in stickyMessages && channelId !in processingChannels {
        if channelId in stickyTimeouts {
          armed := armed - {stickyTimeouts[channelId]};
        }
        var t := Timer(nextTimer, channelId, stickyMessages[channelId]);
        nextTimer := nextTimer + 1;
        armed := armed + {t};
        stickyTimeouts := stickyTimeouts[channelId := t];
        timer := Some(t);
      }
    }

    /**
     * The timer callback up to its first await: the runtime drops the timer;
     * if the channel is free, the repost begins; otherwise the callback
     * removes the channel's timer entry and ends.
     */
    method FireTimer(t: Timer) returns (started: bool, stored: Option<MessageId>)
      requires Valid() && t in armed
      modifies this
      ensures Valid()
      ensures stored == old(configs[t.config]).messageId
      ensures armed == old(armed) - {t}
      ensures started <==> t.channel !in old(processingChannels)
      ensures started ==> processingChannels == old(processingChannels) + {t.channel} && stickyTimeouts == old(stickyTimeouts)
      ensures !started ==> processingChannels == old(processingChannels) && stickyTimeouts == old(stickyTimeouts) - {t.channel}
      ensures configs == old(configs) && nextConfig == old(nextConfig) && stickyMessages == old(stickyMessages)
      ensures nextTimer == old(nextTimer)
    {
      armed := armed - {t};
      started, stored := BeginHandle(t.config, t.channel);
      if !started {
        stickyTimeouts := stickyTimeouts - {t.channel};
      }
    }

    /**
     * The rest of a timer callback that began a repost: the repost runs with
     * the configuration object the timer captured and the message id read
     * when it began, then the channel's timer entry is removed, whichever
     * timer it holds by then.
     */
    method FinishFiredTimer(t: Timer, stored: Option<MessageId>, channel: Channel, platform: Platform)
      returns (after: Channel)
      requires Valid() && t.config in configs && configs[t.config].channelId == t.channel && channel.id == t.channel
      modifies this
      ensures Valid()
      ensures var o := HandleOutcome(old(configs[t.config]).(messageId := stored), channel, botId, platform);
              after == channel.(history := o.history)
              && (o.sentId.Some? ==>
                    configs == old(configs)[t.config := old(configs[t.config]).(messageId := o.sentId)]
                    && stickyMessages == old(stickyMessages)[t.channel := t.config])
              && (o.sentId.None? ==> configs == old(configs) && stickyMessages == old(stickyMessages))
      ensures processingChannels == old(processingChannels) - {t.channel}
      ensures stickyTimeouts == old(stickyTimeouts) - {t.channel}
      ensures nextConfig == old(nextConfig) && armed == old(armed) && nextTimer == old(nextTimer)
    {
      after := FinishHandle(t.config, stored, channel, platform);
      stickyTimeouts := stickyTimeouts - {t.channel};
    }

    /**
     * `handleStickyMessage` with configuration object `r`, up to its first
     * await: a channel already in flight is skipped; otherwise the repost
     * reads the object's stored message id (`stored`), which it deletes after
     * the await whatever the object holds by then.
     */
    method BeginHandle(r: ConfigRef, channelId: ChannelId) returns (started: bool, stored: Option<MessageId>)
      requires Valid() && r in configs
      modifies this
      ensures Valid()
      ensures stored == old(configs[r]).messageId
      ensures started <==> channelId !in old(processingChannels)
      ensures processingChannels == old(processingChannels) + {channelId}
      ensures configs == old(configs) && nextConfig == old(nextConfig)
      ensures stickyMessages == old(stickyMessages) && stickyTimeouts == old(stickyTimeouts)
      ensures armed == old(armed) && nextTimer == old(nextTimer)
    {
      started := channelId !in processingChannels;
      stored := configs[r].messageId;
      if started {
        processingChannels := processingChannels + {channelId};
      }
    }

    /**
     * The rest of `handleStickyMessage` with configuration object `r` and the
     * message id `stored` read when it began: delete that message, sweep,
     * post. Only a successful send changes the configuration: the object
     * records the new message id, is put back under the channel (even if it
     * was removed or replaced meanwhile) and the map is saved. On every path
     * the channel leaves `processingChannels`.
     */
    method FinishHandle(r: ConfigRef, stored: Option<MessageId>, channel: Channel, platform: Platform)
      returns (after: Channel)
      requires Valid() && r in configs && configs[r].channelId == channel.id
      modifies this
      ensures Valid()
      ensures var o := HandleOutcome(old(configs[r]).(messageId := stored), channel, botId, platform);
              after == channel.(history := o.history)
              && (o.sentId.Some? ==>
                    configs == old(configs)[r := old(configs[r]).(messageId := o.sentId)]
                    && stickyMessages == old(stickyMessages)[channel.id := r]
                    && StoreOf(stickyMessages, configs) == old(StoreOf(stickyMessages, configs))[channel.id := configs[r]])
              && (o.sentId.None? ==> configs == old(configs) && stickyMessages == old(stickyMessages))
      ensures processingChannels == old(processingChannels) - {channel.id}
      ensures nextConfig == old(nextConfig) && stickyTimeouts == old(stickyTimeouts)
      ensures armed == old(armed) && nextTimer == old(nextTimer)
    {
      var h, sent := Repost(configs[r].(messageId := stored), channel, botId, platform);
      if sent.Some? {
        Install(channel.id, r, configs[r].(messageId := sent));
      }
      after := channel.(history := h);
      processingChannels := processingChannels - {channel.id};
    }

    /**
     * Puts configuration object `r`, now holding `d`, under channel `ch` and
     * saves the map.
     */
    method Install(ch: ChannelId, r: ConfigRef, d: ConfigData)
      requires Valid() && d.channelId == ch
      requires r in configs ==> configs[r].channelId == ch
      requires r.Created? ==> r.n < nextConfig
      modifies `configs, `stickyMessages, `saved
      ensures Valid()
      ensures configs == old(configs)[r := d] && stickyMessages == old(stickyMessages)[ch := r]
      ensures StoreOf(stickyMessages, configs) == old(StoreOf(stickyMessages, configs))[ch := d]
    {
      StoreOfPut(stickyMessages, configs, ch, r, d);
      configs := configs[r := d];
      stickyMessages := stickyMessages[ch := r];
      saved := StoreOf(stickyMessages, configs);
    }

    /**
     * `setSticky`: a new configuration object with no message id, embed on
     * unless switched off, an empty footer taken as none, and the colour
     * resolved; it replaces the channel's configuration, is saved, and a
     * repost begins. Pending timers keep the object they captured.
     */
    method SetSticky(channelId: ChannelId, content: string, authorId: UserId, createdAt: string,
                     embed: Option<bool>, footer: Option<string>, color: Option<string>)
      returns (r: ConfigRef, started: bool)
      requires Valid()
      modifies this
      ensures Valid() && r !in old(configs)
      ensures configs == old(configs)[r := ConfigData(content, channelId, authorId, createdAt, None, embed.GetOr(true),
                                                      if footer.Some? && footer.value != [] then footer else None,
                                                      Some(Color.ProcessColor(color)))]
      ensures stickyMessages == old(stickyMessages)[channelId := r]
      ensures StoreOf(stickyMessages, configs) == old(StoreOf(stickyMessages, configs))[channelId := configs[r]]
      ensures started <==> channelId !in old(processingChannels)
      ensures processingChannels == old(processingChannels) + {channelId}
      ensures stickyTimeouts == old(stickyTimeouts) && armed == old(armed) && nextTimer == old(nextTimer)
    {
      var customFooter := if footer.Some? && footer.value != [] then footer else None;
      var d := ConfigData(content, channelId, authorId, createdAt, None, embed.GetOr(true),
                          customFooter, Some(Color.ProcessColor(color)));
      r := Created(nextConfig);
      nextConfig := nextConfig + 1;
      Install(channelId, r, d);
      var stored;
      started, stored := BeginHandle(r, channelId);
    }

    /**
     * `removeSticky`: with no configuration nothing changes. Otherwise the
     * tracked message is deleted if possible, the pending timer cleared, the
     * channel dropped from the in-flight set and the configuration removed
     * and saved. A repost already in flight is not stopped.
     */
    method RemoveSticky(channel: Channel, deleteFails: set<MessageId>) returns (found: bool, after: Channel)
      requires Valid()
      modifies this
      ensures Valid()
      ensures found <==> channel.id in old(stickyMessages)
      ensures !found ==> after == channel && stickyMessages == old(stickyMessages) && stickyTimeouts == old(stickyTimeouts)
                         && processingChannels == old(processingChannels) && armed == old(armed)
      ensures found ==> after == channel.(history := DeleteStored(channel.history,
                                                                  old(StoreOf(stickyMessages, configs))[channel.id].messageId,
                                                                  deleteFails))
                        && stickyMessages == old(stickyMessages) - {channel.id}
                        && StoreOf(stickyMessages, configs) == old(StoreOf(stickyMessages, configs)) - {channel.id}
                        && stickyTimeouts == old(stickyTimeouts) - {channel.id}
                        && processingChannels == old(processingChannels) - {channel.id}
                        && armed == (if channel.id in old(stickyTimeouts) then old(armed) - {old(stickyTimeouts)[channel.id]} else old(armed))
      ensures configs == old(configs) && nextConfig == old(nextConfig) && nextTimer == old(nextTimer)
    {
      after := channel;
      found := channel.id in stickyMessages;
      if found {
        var d := configs[stickyMessages[channel.id]];
        assert StoreOf(stickyMessages, configs)[channel.id] == d;
        after := channel.(history := DeleteStored(channel.history, d.messageId, deleteFails));
        if channel.id in stickyTimeouts {
          armed := armed - {stickyTimeouts[channel.id]};
          stickyTimeouts := stickyTimeouts - {channel.id};
        }
        processingChannels := processingChannels - {channel.id};
        StoreOfRemove(stickyMessages, configs, channel.id);
        stickyMessages := stickyMessages - {channel.id};
        saved := StoreOf(stickyMessages, configs);
      }
    }

    /**
     * `cleanupDuplicateStickies`: every configured channel, in the map's
     * order `order`, is swept or dropped (`CleanupAll`); then the map is saved
     * once.
     */
    method CleanupDuplicateStickies(order: seq<ChannelId>, cache: map<ChannelId, Channel>, platform: Platform)
      returns (swept: map<ChannelId, Channel>)
      requires Valid()
      requires forall ch :: ch in order <==> ch in stickyMessages
      requires Distinct(order)
      requires forall ch :: ch in cache ==> cache[ch].id == ch
      modifies this
      ensures Valid()
      ensures stickyMessages == Kept(old(stickyMessages), cache.Keys)
      ensures StoreOf(stickyMessages, configs) == CleanedStore(old(StoreOf(stickyMessages, configs)), cache, platform)
      ensures swept == Swept(cache, old(StoreOf(stickyMessages, configs)), botId, platform)
      ensures configs.Keys == old(configs).Keys && UnheldKept(stickyMessages, old(configs), configs)
      ensures nextConfig == old(nextConfig) && stickyTimeouts == old(stickyTimeouts)
      ensures processingChannels == old(processingChannels) && armed == old(armed) && nextTimer == old(nextTimer)
    {
      var sm, cfgs;
      VisitedAll(order, stickyMessages.Keys);
      sm, cfgs, swept := CleanupAll(order, cache, botId, platform, stickyMessages, configs);
      stickyMessages, configs := sm, cfgs;
      saved := StoreOf(stickyMessages, configs);
    }

    /**
     * `refreshAllStickyMessages`: every configured channel, in the map's
     * order `order`, is reposted (`RefreshAll`), and the map is saved after
     * each post sent.
     */
    method RefreshAllStickyMessages(order: seq<ChannelId>, cache: map<ChannelId, Channel>, platform: Platform)
      returns (refreshed: map<ChannelId, Channel>)
      requires Valid()
      requires forall ch :: ch in order <==> ch in stickyMessages
      requires Distinct(order)
      requires forall ch :: ch in cache ==> cache[ch].id == ch
      modifies this
      ensures Valid()
      ensures StoreOf(stickyMessages, configs)
           == RefreshedStore(old(StoreOf(stickyMessages, configs)), cache, processingChannels, botId, platform)
      ensures refreshed == Refreshed(cache, old(StoreOf(stickyMessages, configs)), processingChannels, botId, platform)
      ensures stickyMessages == old(stickyMessages) && processingChannels == old(processingChannels)
      ensures configs.Keys == old(configs).Keys && UnheldKept(old(stickyMessages), old(configs), configs)
      ensures nextConfig == old(nextConfig) && stickyTimeouts == old(stickyTimeouts)
      ensures armed == old(armed) && nextTimer == old(nextTimer)
    {
      var cfgs, sentAny;
      VisitedAll(order, stickyMessages.Keys);
      cfgs, refreshed, sentAny := RefreshAll(order, cache, processingChannels, botId, platform, stickyMessages, configs);
      configs := cfgs;
      if sentAny {
        saved := StoreOf(stickyMessages, configs);
      }
    }
  }

  /** No channel occurs twice: the keys of a map, listed in its iteration order. */
  predicate Distinct(s: seq<ChannelId>)
    decreases |s|
  {
    s == [] || (s[0] !in s[1..] && Distinct(s[1..]))
  }

  /** In a list without repetitions, an entry does not occur again later. */
  lemma {:induction false} DistinctAt(s: seq<ChannelId>, i: nat)
    requires Distinct(s) && i < |s|
    ensures forall j :: i < j < |s| ==> s[j] != s[i]
    decreases i
  {
    if i == 0 {
      forall j | 0 < j < |s| ensures s[j] != s[0] {
        assert s[j] == s[1..][j - 1];
      }
    } else {
      DistinctAt(s[1..], i - 1);
    }
  }

  /** The entries before position `i`: the channels a loop over `order` has visited. */
  ghost function Visited(order: seq<ChannelId>, i: nat): set<ChannelId>
    requires i <= |order|
  {
    set j | 0 <= j < i :: order[j]
  }

  /** In a list without repetitions, visiting entry `i` adds a channel not visited before. */
  lemma VisitedStep(order: seq<ChannelId>, i: nat)
    requires Distinct(order) && i < |order|
    ensures order[i] !in Visited(order, i) && order[i] in Visited(order, |order|)
    ensures Visited(order, i + 1) == Visited(order, i) + {order[i]}
  {
    forall j | 0 <= j < i ensures order[j] != order[i] {
      DistinctAt(order, j);
    }
    assert Visited(order, i + 1) == Visited(order, i) + {order[i]} by {
      forall c | c in Visited(order, i + 1) ensures c in Visited(order, i) + {order[i]} {
        var j :| 0 <= j < i + 1 && order[j] == c;
        if j < i {
          assert c in Visited(order, i);
        }
      }
    }
  }

  /** A loop over a list naming exactly the channels of `keys` visits all of them. */
  lemma VisitedAll(order: seq<ChannelId>, keys: set<ChannelId>)
    requires forall ch :: ch in order <==> ch in keys
    ensures Visited(order, |order|) == keys
  {
    forall ch | ch in keys ensures ch in Visited(order, |order|) {
      var j :| 0 <= j < |order| && order[j] == ch;
    }
  }

  /** Two object tables hold the same objects, for the same channels; message ids may differ. */
  predicate SameObjects(a: map<ConfigRef, ConfigData>, b: map<ConfigRef, ConfigData>) {
    a.Keys == b.Keys && forall r :: r in a ==> b[r].channelId == a[r].channelId
  }

  /**
   * The objects no channel of `sm` holds (those a pending timer or a repost
   * in flight still has after `setSticky` or `removeSticky`) keep their
   * values from `a` to `b`.
   */
  predicate UnheldKept(sm: map<ChannelId, ConfigRef>, a: map<ConfigRef, ConfigData>, b: map<ConfigRef, ConfigData>) {
    forall r :: r in a && r !in sm.Values ==> r in b && b[r] == a[r]
  }

  /**
   * Dropping channel `ch` from the map, when its object still has its
   * starting value, leaves every object the smaller map does not hold as it
   * started.
   */
  lemma DropUnwritten(sm: map<ChannelId, ConfigRef>, a: map<ConfigRef, ConfigData>, b: map<ConfigRef, ConfigData>,
                      ch: ChannelId)
    requires UnheldKept(sm, a, b) && ch in sm
    requires sm[ch] in a ==> sm[ch] in b && b[sm[ch]] == a[sm[ch]]
    ensures UnheldKept(sm - {ch}, a, b)
  {
    forall r | r in sm.Values - {sm[ch]}
      ensures r in (sm - {ch}).Values
    {
      var c :| c in sm && sm[c] == r;
      assert (sm - {ch})[c] == r;
    }
  }

  lemma UnheldKeptTrans(sm: map<ChannelId, ConfigRef>, a: map<ConfigRef, ConfigData>, b: map<ConfigRef, ConfigData>,
                        c: map<ConfigRef, ConfigData>)
    requires UnheldKept(sm, a, b) && UnheldKept(sm, b, c)
    ensures UnheldKept(sm, a, c)
  {
  }

  /**
   * Writing the object a channel of `sm` holds, without changing its
   * channel, keeps every channel on its own object and every other object as
   * it was.
   */
  lemma WriteHeld(sm: map<ChannelId, ConfigRef>, cfgs: map<ConfigRef, ConfigData>, ch: ChannelId, d: ConfigData)
    requires OwnObjects(sm, cfgs) && ch in sm && d.channelId == ch
    ensures OwnObjects(sm, cfgs[sm[ch] := d]) && SameObjects(cfgs, cfgs[sm[ch] := d])
    ensures UnheldKept(sm, cfgs, cfgs[sm[ch] := d])
  {
    assert sm[ch] in sm.Values;
  }

  /**
   * One channel of the startup cleanup, on the configuration `d` of that
   * channel: delete the stored message, sweep the newest 100 messages and,
   * when that fetch succeeded, clear the message id.
   */
  method CleanupChannel(d: ConfigData, channel: Channel, botId: UserId, platform: Platform)
    returns (after: Channel, d': ConfigData)
    ensures after == channel.(history := CleanupHistory(d, channel, botId, platform))
    ensures d' == if channel.id in platform.fetchFails then d else d.(messageId := None)
  {
    var h := DeleteStored(channel.history, d.messageId, platform.deleteFails);
    d' := d;
    if channel.id !in platform.fetchFails {
      var deletedCount;
      h, deletedCount := Scan(h, StartupWindow, botId, d.content, platform.deleteFails);
      d' := d.(messageId := None);
    }
    after := channel.(history := h);
  }

  /** Before the cleanup loop visits any channel, every prefix view is the starting state. */
  lemma CleanupStart(sm: map<ChannelId, ConfigRef>, cfgs: map<ConfigRef, ConfigData>, cache: map<ChannelId, Channel>,
                     botId: UserId, platform: Platform)
    ensures sm == KeptPrefix(sm, {}, cache.Keys)
    ensures StoreOf(sm, cfgs) == CleanedPrefix(StoreOf(sm, cfgs), {}, cache, platform)
    ensures cache == SweptPrefix(cache, StoreOf(sm, cfgs), {}, botId, platform)
  {
  }

  /**
   * Once the cleanup loop has visited every channel, the prefix views are
   * the whole cleanup.
   */
  lemma CleanupDone(sm: map<ChannelId, ConfigRef>, cfgs: map<ConfigRef, ConfigData>, cache: map<ChannelId, Channel>,
                    platform: Platform, store: map<ChannelId, ConfigData>, done: set<ChannelId>,
                    sm': map<ChannelId, ConfigRef>, cfgs': map<ConfigRef, ConfigData>)
    requires store.Keys == sm.Keys && done == sm.Keys
    requires sm' == KeptPrefix(sm, done, cache.Keys)
    requires StoreOf(sm', cfgs') == CleanedPrefix(store, done, cache, platform)
    ensures sm' == Kept(sm, cache.Keys)
    ensures StoreOf(sm', cfgs') == CleanedStore(store, cache, platform)
  {
    KeptPrefixAll(sm, done, cache.Keys);
    CleanedPrefixAll(store, done, cache, platform);
  }

  /**
   * One entry of the startup cleanup loop: a channel missing from the cache
   * loses its configuration; otherwise the channel goes through
   * `CleanupChannel` and its object takes the new message id. `done` holds
   * the channels already visited, `sm0` the map before the loop, `cfgs0` the
   * objects before the loop and `store` their saved form.
   */
  method CleanupEntry(ch: ChannelId, cache: map<ChannelId, Channel>, botId: UserId, platform: Platform,
                      sm: map<ChannelId, ConfigRef>, cfgs: map<ConfigRef, ConfigData>, swept: map<ChannelId, Channel>,
                      ghost sm0: map<ChannelId, ConfigRef>, ghost cfgs0: map<ConfigRef, ConfigData>,
                      ghost store: map<ChannelId, ConfigData>, ghost done: set<ChannelId>)
    returns (sm': map<ChannelId, ConfigRef>, cfgs': map<ConfigRef, ConfigData>, swept': map<ChannelId, Channel>)
    requires OwnObjects(sm, cfgs) && ch in sm0 && ch in store && ch !in done
    requires store == StoreOf(sm0, cfgs0) && SameObjects(cfgs0, cfgs) && UnheldKept(sm, cfgs0, cfgs)
    requires forall c :: c in cache ==> cache[c].id == c
    requires sm == KeptPrefix(sm0, done, cache.Keys)
    requires StoreOf(sm, cfgs) == CleanedPrefix(store, done, cache, platform)
    requires swept == SweptPrefix(cache, store, done, botId, platform)
    ensures OwnObjects(sm', cfgs') && SameObjects(cfgs, cfgs') && UnheldKept(sm', cfgs, cfgs')
    ensures SameObjects(cfgs0, cfgs') && UnheldKept(sm', cfgs0, cfgs')
    ensures sm' == KeptPrefix(sm0, done + {ch}, cache.Keys)
    ensures StoreOf(sm', cfgs') == CleanedPrefix(store, done + {ch}, cache, platform)
    ensures swept' == SweptPrefix(cache, store, done + {ch}, botId, platform)
  {
    if ch !in cache {
      sm', cfgs', swept' := sm - {ch}, cfgs, swept;
      DropEntry(ch, cache, botId, platform, sm, cfgs, swept, sm0, cfgs0, store, done);
    } else {
      sm' := sm;
      cfgs', swept' := SweepEntry(ch, cache, botId, platform, sm, cfgs, swept, sm0, cfgs0, store, done);
    }
  }

  /** The cleanup entry of a channel the cache lacks: only the map loses that channel. */
  lemma DropEntry(ch: ChannelId, cache: map<ChannelId, Channel>, botId: UserId, platform: Platform,
                      sm: map<ChannelId, ConfigRef>, cfgs: map<ConfigRef, ConfigData>, swept: map<ChannelId, Channel>,
                      sm0: map<ChannelId, ConfigRef>, cfgs0: map<ConfigRef, ConfigData>,
                      store: map<ChannelId, ConfigData>, done: set<ChannelId>)
    requires OwnObjects(sm, cfgs) && ch in sm0 && ch in store && ch !in done
    requires store == StoreOf(sm0, cfgs0) && SameObjects(cfgs0, cfgs) && UnheldKept(sm, cfgs0, cfgs)
    requires forall c :: c in cache ==> cache[c].id == c
    requires sm == KeptPrefix(sm0, done, cache.Keys)
    requires StoreOf(sm, cfgs) == CleanedPrefix(store, done, cache, platform)
    requires swept == SweptPrefix(cache, store, done, botId, platform)
    requires ch !in cache
    ensures OwnObjects((sm - {ch}), cfgs) && SameObjects(cfgs, cfgs) && UnheldKept((sm - {ch}), cfgs, cfgs)
    ensures SameObjects(cfgs0, cfgs) && UnheldKept((sm - {ch}), cfgs0, cfgs)
    ensures (sm - {ch}) == KeptPrefix(sm0, done + {ch}, cache.Keys)
    ensures StoreOf((sm - {ch}), cfgs) == CleanedPrefix(store, done + {ch}, cache, platform)
    ensures swept == SweptPrefix(cache, store, done + {ch}, botId, platform)
  {
    KeptPrefixStep(sm0, done, cache.Keys, ch);
    CleanedPrefixStep(store, done, ch, cache, platform);
    SweptPrefixStep(cache, store, done, ch, botId, platform);
    assert ch in StoreOf(sm, cfgs);
    assert CleanedPrefix(store, done, cache, platform)[ch] == store[ch];
    StoreOfRemove(sm, cfgs, ch);
    assert sm[ch] == sm0[ch] && cfgs[sm[ch]] == store[ch] == cfgs0[sm0[ch]];
    DropUnwritten(sm, cfgs0, cfgs, ch);
  }

  /** The cleanup entry of a cached channel: its sweep, and the new message id of its object. */
  method SweepEntry(ch: ChannelId, cache: map<ChannelId, Channel>, botId: UserId, platform: Platform,
                      sm: map<ChannelId, ConfigRef>, cfgs: map<ConfigRef, ConfigData>, swept: map<ChannelId, Channel>,
                      ghost sm0: map<ChannelId, ConfigRef>, ghost cfgs0: map<ConfigRef, ConfigData>,
                      ghost store: map<ChannelId, ConfigData>, ghost done: set<ChannelId>)
    returns (cfgs': map<ConfigRef, ConfigData>, swept': map<ChannelId, Channel>)
    requires OwnObjects(sm, cfgs) && ch in sm0 && ch in store && ch !in done
    requires store == StoreOf(sm0, cfgs0) && SameObjects(cfgs0, cfgs) && UnheldKept(sm, cfgs0, cfgs)
    requires forall c :: c in cache ==> cache[c].id == c
    requires sm == KeptPrefix(sm0, done, cache.Keys)
    requires StoreOf(sm, cfgs) == CleanedPrefix(store, done, cache, platform)
    requires swept == SweptPrefix(cache, store, done, botId, platform)
    requires ch in cache
    ensures OwnObjects(sm, cfgs') && SameObjects(cfgs, cfgs') && UnheldKept(sm, cfgs, cfgs')
    ensures SameObjects(cfgs0, cfgs') && UnheldKept(sm, cfgs0, cfgs')
    ensures sm == KeptPrefix(sm0, done + {ch}, cache.Keys)
    ensures StoreOf(sm, cfgs') == CleanedPrefix(store, done + {ch}, cache, platform)
    ensures swept' == SweptPrefix(cache, store, done + {ch}, botId, platform)
  {
    KeptPrefixStep(sm0, done, cache.Keys, ch);
    CleanedPrefixStep(store, done, ch, cache, platform);
    SweptPrefixStep(cache, store, done, ch, botId, platform);
    assert ch in StoreOf(sm, cfgs);
    assert CleanedPrefix(store, done, cache, platform)[ch] == store[ch];
    var r := sm[ch];
    var after, d := CleanupChannel(cfgs[r], cache[ch], botId, platform);
    WriteHeld(sm, cfgs, ch, d);
    StoreOfPut(sm, cfgs, ch, r, d);
    assert sm[ch := r] == sm;
    cfgs' := cfgs[r := d];
    swept' := swept[ch := after];
  }

  /**
   * The loop of `cleanupDuplicateStickies` over the map `sm` and the objects
   * `cfgs`, in the order `order`: channels the cache lacks are dropped, the
   * others are swept and their objects cleared; the objects themselves are
   * neither created nor destroyed.
   */
  method CleanupAll(order: seq<ChannelId>, cache: map<ChannelId, Channel>, botId: UserId, platform: Platform,
                    sm: map<ChannelId, ConfigRef>, cfgs: map<ConfigRef, ConfigData>)
    returns (sm': map<ChannelId, ConfigRef>, cfgs': map<ConfigRef, ConfigData>, swept: map<ChannelId, Channel>)
    requires OwnObjects(sm, cfgs)
    requires sm.Keys == Visited(order, |order|)
    requires Distinct(order)
    requires forall ch :: ch in cache ==> cache[ch].id == ch
    ensures OwnObjects(sm', cfgs') && SameObjects(cfgs, cfgs') && UnheldKept(sm', cfgs, cfgs')
    ensures sm' == Kept(sm, cache.Keys)
    ensures StoreOf(sm', cfgs') == CleanedStore(StoreOf(sm, cfgs), cache, platform)
    ensures swept == Swept(cache, StoreOf(sm, cfgs), botId, platform)
  {
    ghost var store := StoreOf(sm, cfgs);
    assert store.Keys == sm.Keys;
    ghost var done: set<ChannelId> := {};
    sm', cfgs', swept := sm, cfgs, cache;
    CleanupStart(sm, cfgs, cache, botId, platform);
    var i := 0;
    while i < |order|
      invariant 0 <= i <= |order|
      invariant done == Visited(order, i)
      invariant OwnObjects(sm', cfgs') && SameObjects(cfgs, cfgs')
      invariant UnheldKept(sm', cfgs, cfgs')
      invariant sm' == KeptPrefix(sm, done, cache.Keys)
      invariant StoreOf(sm', cfgs') == CleanedPrefix(store, done, cache, platform)
      invariant swept == SweptPrefix(cache, store, done, botId, platform)
    {
      var ch := order[i];
      VisitedStep(order, i);
      sm', cfgs', swept := CleanupEntry(ch, cache, botId, platform, sm', cfgs', swept, sm, cfgs, store, done);
      done := done + {ch};
      i := i + 1;
    }
    CleanupDone(sm, cfgs, cache, platform, store, done, sm', cfgs');
  }

  /**
   * One entry of the startup refresh loop: a channel the cache holds is
   * reposted from its own configuration, unless it is already in flight; a
   * post that was sent gives the object its new message id (`sent`).
   */
  method RefreshEntry(ch: ChannelId, cache: map<ChannelId, Channel>, processing: set<ChannelId>, botId: UserId,
                      platform: Platform, sm: map<ChannelId, ConfigRef>, cfgs: map<ConfigRef, ConfigData>,
                      refreshed: map<ChannelId, Channel>, ghost store: map<ChannelId, ConfigData>, ghost done: set<ChannelId>)
    returns (cfgs': map<ConfigRef, ConfigData>, refreshed': map<ChannelId, Channel>, sent: bool)
    requires OwnObjects(sm, cfgs) && ch in sm && ch in store && ch !in done
    requires forall c :: c in cache ==> cache[c].id == c
    requires StoreOf(sm, cfgs) == RefreshedPrefix(store, done, cache, processing, botId, platform)
    requires refreshed == RefreshedChannels(cache, store, done, processing, botId, platform)
    ensures OwnObjects(sm, cfgs') && SameObjects(cfgs, cfgs') && UnheldKept(sm, cfgs, cfgs')
    ensures StoreOf(sm, cfgs') == RefreshedPrefix(store, done + {ch}, cache, processing, botId, platform)
    ensures refreshed' == RefreshedChannels(cache, store, done + {ch}, processing, botId, platform)
    ensures sent <==> RefreshSent(ch, store[ch], cache, processing, botId, platform).Some?
    ensures !sent ==> cfgs' == cfgs
  {
    RefreshedPrefixStep(store, done, ch, cache, processing, botId, platform);
    RefreshedChannelsStep(cache, store, done, processing, ch, botId, platform);
    assert ch in StoreOf(sm, cfgs);
    assert RefreshedPrefix(store, done, cache, processing, botId, platform)[ch] == store[ch];
    cfgs', refreshed', sent := cfgs, refreshed, false;
    if ch in cache && ch !in processing {
      var r := sm[ch];
      assert r in sm.Values;
      var h, id := Repost(cfgs[r], cache[ch], botId, platform);
      if id.Some? {
        var d := cfgs[r].(messageId := id);
        StoreOfPut(sm, cfgs, ch, r, d);
        assert sm[ch := r] == sm;
        cfgs' := cfgs[r := d];
        sent := true;
      }
      refreshed' := refreshed[ch := cache[ch].(history := h)];
    }
  }

  /**
   * The loop of `refreshAllStickyMessages` over the map `sm` and the objects
   * `cfgs`, in the order `order`. `sentAny` tells whether some post was sent,
   * which is when the map was saved; the saved form changes only then.
   */
  method RefreshAll(order: seq<ChannelId>, cache: map<ChannelId, Channel>, processing: set<ChannelId>, botId: UserId,
                    platform: Platform, sm: map<ChannelId, ConfigRef>, cfgs: map<ConfigRef, ConfigData>)
    returns (cfgs': map<ConfigRef, ConfigData>, refreshed: map<ChannelId, Channel>, sentAny: bool)
    requires OwnObjects(sm, cfgs)
    requires sm.Keys == Visited(order, |order|)
    requires Distinct(order)
    requires forall ch :: ch in cache ==> cache[ch].id == ch
    ensures OwnObjects(sm, cfgs') && SameObjects(cfgs, cfgs') && UnheldKept(sm, cfgs, cfgs')
    ensures StoreOf(sm, cfgs') == RefreshedStore(StoreOf(sm, cfgs), cache, processing, botId, platform)
    ensures refreshed == Refreshed(cache, StoreOf(sm, cfgs), processing, botId, platform)
    ensures !sentAny ==> cfgs' == cfgs
  {
    ghost var store := StoreOf(sm, cfgs);
    assert store.Keys == sm.Keys;
    ghost var done: set<ChannelId> := {};
    cfgs', refreshed, sentAny := cfgs, cache, false;
    var i := 0;
    while i < |order|
      invariant 0 <= i <= |order|
      invariant done == Visited(order, i)
      invariant OwnObjects(sm, cfgs') && SameObjects(cfgs, cfgs') && UnheldKept(sm, cfgs, cfgs')
      invariant StoreOf(sm, cfgs') == RefreshedPrefix(store, done, cache, processing, botId, platform)
      invariant refreshed == RefreshedChannels(cache, store, done, processing, botId, platform)
      invariant !sentAny ==> cfgs' == cfgs
    {
      var ch := order[i];
      VisitedStep(order, i);
      var sent;
      ghost var prev := cfgs';
      cfgs', refreshed, sent := RefreshEntry(ch, cache, processing, botId, platform, sm, cfgs', refreshed, store, done);
      UnheldKeptTrans(sm, cfgs, prev, cfgs');
      sentAny := sentAny || sent;
      done := done + {ch};
      i := i + 1;
    }
    RefreshedPrefixAll(store, done, cache, processing, botId, platform);
  }
}
