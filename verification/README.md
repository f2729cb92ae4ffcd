# Sticky Discord bot: a Dafny model of its bookkeeping

The bot keeps one "sticky" message at the bottom of each configured Discord
channel. When someone posts, the bot deletes its previous sticky post and posts
it again. It tracks this in three collections: `stickyMessages` (channel to
configuration), `stickyTimeouts` (channel to pending repost timer) and
`processingChannels` (channels with a repost in flight). This project models
that bookkeeping and the pure functions under it, and proves properties of
them. All of it comes from the single class `StickyBot` in `index.js`.

The modules follow the source's parts:

- `Wrappers`: `Option`.
- `Text`: the JavaScript string operations the bot relies on, restricted to ASCII
  case mapping: `toLowerCase`/`toUpperCase`, `trim`, `includes`, and
  `Number.prototype.toString` for member counts.
- `Color`: `processColor`, the colour-name table and the two hex regular
  expressions.
- `Template`: `processMessageContent`, twelve global `replace` passes in source
  order. Each pass does not rescan what it inserted, but later passes do see it.
  A reference expansion (token by token, case-insensitive) is proved equal to
  the passes for well-formed templates, in which every `{` opens a `{name}`
  token with no brace inside, whenever no inserted value contains `{`.
  Templates such as `{{server_name}}` or `50% {off` are outside that result.
  Examples show the re-expansion that happens when an inserted value
  contains a placeholder.
- `Sticky`: messages, the payload built for a configuration (footer, plain text
  or embed), and the sticky-like test. The test appears twice in the source,
  once in each sweep, and is defined once here. The round trip between the two
  is proved, and so is the case where it fails.
- `Reconcile`: the sweep. It deletes the stored message, takes the newest 50
  (repost) or 100 (startup) messages of any author, keeps the bot's own, and
  deletes those the test accepts. It is a loop method proved against
  specification functions.
- `Bot`: the `StickyBot` class. Its fields are the three collections, the table
  of configuration objects, the runtime's armed timers and the saved store. Its
  methods are the event handlers. `handleStickyMessage` is split at its first
  await into `BeginHandle` and `FinishHandle`. `BeginHandle` also reads the
  stored message id, which the first await then fetches; `FinishHandle`
  deletes by that id even if the object was rewritten in between. A timer is armed by `OnMessage`
  and run by `FireTimer` and `FinishFiredTimer`. The two startup loops are
  value-level loop methods that the class methods call.
- `Scenarios`: three interleavings of handler steps on one bot. They show
  behaviours the code has as written.

The platform is an oracle fixed in advance (`Bot.Platform`):

- which deletes fail;
- which channels fail to fetch their recent messages;
- the id the next post in each channel receives (a channel without one fails
  to send);
- the clock strings.

Configuration objects have identity in the source: a timer closure and an
in-flight repost hold the object, and a repost writes the object back into the
map. The model keeps a table `configs` from `ConfigRef` to the object's
current value. `stickyMessages` maps channels to references into it. The
value-level view of the map is `Bot.StoreOf`. The class invariant states that
`saved` always equals that view: every change the source makes to the map is
followed by a save.

The model keeps these behaviours as the code has them:

- A message that arrives while a repost is in flight arms no timer at all.
- A timer repost uses the configuration object it captured when it was armed,
  and writes it back. A timer armed before `setSticky` therefore re-installs
  the old configuration (`Scenarios.StaleTimerReinstalls`).
- `removeSticky` does not stop a repost in flight. A repost that then sends
  puts the removed configuration back (`Scenarios.RemovedConfigResurrects`).
- The sweep window is the newest N messages of any author, filtered to the bot
  afterwards. A second sweep is guaranteed to find nothing new when the
  channel's history fits in the window (`Reconcile.ScanIdempotentWithinWindow`). Beyond the
  window it can find an older sticky post
  (`Reconcile.ScanNotIdempotentBeyondWindow`).
- `removeSticky` also takes the channel out of the in-flight set while its
  repost still runs, so a following `setSticky` begins a second repost of the
  same channel beside the first. When the first finishes, it deletes the
  channel's timer entry whichever timer that entry holds by then, without
  clearing that timer. The runtime then holds a timer the map no longer
  names, and the next message arms another: two timers for one channel
  (`Scenarios.TwoTimersArmed`). "One pending timer per channel" holds for the
  map `stickyTimeouts`, not for the runtime's timers.
- An embed post whose custom footer mentions neither the pin nor "sticky" is
  not recognised by the bot's own test (`Sticky.CustomFooterEmbedNotRecognised`).
  Only the stored message id can remove it.

## Model

| member | source | states |
|---|---|---|
| Text.ContainsIff | index.js:153-163 | `includes`, searched left to right, holds exactly when the needle occurs at some index of the string |
| Text.NatToString | index.js:334-336 | a member count renders as a non-empty string of decimal digits with no leading zero |
| Text.NatToStringRoundTrip | index.js:334-336 | reading back the digits of a rendered member count gives the count |
| Color.ProcessColor | index.js:339-384 | every resolved colour is `#` followed by three or six upper-case hex digits |
| Color.TableCanonical | index.js:342-367 | every value of the colour-name table is canonical |
| Color.TableNamesNotHex | index.js:342-367 | every table name contains a letter beyond `f`, so no name is a hex string |
| Color.HexIsNoName | index.js:369-373 | three or six hex digits, with or without `#`, never hit the name table after lower-casing and trimming |
| Color.ProcessColorHex | index.js:375-381 | three or six hex digits with `#` come back upper-cased; without `#` they come back upper-cased after a `#` |
| Color.ProcessColorCanonical | index.js:339-384 | a canonical colour resolves to itself |
| Color.ProcessColorIdempotent | index.js:339-384 | resolving an already resolved colour changes nothing |
| Color.ProcessColorNameExample | index.js:369-373 | `Blue` is looked up case-insensitively and gives `#0000FF` |
| Color.ProcessColorTrimmedNameExample | index.js:369-373 | `  GREY ` is trimmed before the lookup and gives `#808080` |
| Color.ProcessColorBareHexExample | index.js:379-381 | `ff0000` gives `#FF0000` |
| Color.ProcessColorHashHexExample | index.js:375-377 | `#abc` gives `#ABC` |
| Color.ProcessColorSpacedHexExample | index.js:375-383 | ` ff0000` gives the default: the hex patterns test the untrimmed input |
| Color.ProcessColorUnknownExample | index.js:383 | an input that is neither a name nor hex gives `#FFFF00` |
| Color.ProcessColorAbsentExample | index.js:340 | an absent or empty input gives `#FFFF00` |
| Template.ReplaceAll | index.js:325-336 | one global `replace` of a pass's pattern, case-insensitive under the `i` flag, scanning left to right without rescanning inserted text; its properties are `ReplaceAllAbsent`, `ReplaceAllSkipsText`, `ReplaceAllToken` and `ReplaceAllSegments` |
| Template.ProcessMessageContent | index.js:318-337 | an absent or empty template renders empty, any other runs the twelve passes in source order; its properties are `ExpandEmpty`, `ExpandPlaceholderFree` and `ExpandTokens` |
| Template.ExpandEmpty | index.js:319 | an absent or empty template renders as the empty string |
| Template.ReplaceAllAbsent | index.js:325-336 | a pass whose pattern does not occur in any letter case leaves the text unchanged |
| Template.PassPatterns | index.js:325-336 | every pass's pattern folds to `{name}` for one of the six placeholder names |
| Template.ApplyPassesAbsent | index.js:324-336 | passes none of whose patterns occur leave the text unchanged |
| Template.ExpandPlaceholderFree | index.js:318-337 | a template without any of the six placeholders, in any case, renders as written |
| Template.ReplaceAllSkipsText | index.js:325-336 | a pass copies text without `{` unchanged and continues after it |
| Template.StartsWithToken | index.js:325-336 | a pass's pattern starts at a token `{n}` exactly when it matches the name, case-insensitively only under the `i` flag |
| Template.ReplaceAllToken | index.js:325-336 | a pass replaces a token by its value when the pattern matches it, and copies it otherwise |
| Template.ReplaceAllSegments | index.js:325-336 | one pass over a well-formed template rewrites it token by token |
| Template.ApplyPassesSegments | index.js:324-336 | passes that insert no `{` rewrite a well-formed template token by token |
| Template.FoldFirstHit | index.js:324-336 | a token is replaced by the first case-insensitive pass for its name; nothing later changes the inserted text |
| Template.FoldToken | index.js:324-336 | after all twelve passes a token is its name's value, whatever its letter case, and an unknown token is unchanged |
| Template.ExpandTokens | index.js:318-337 | for a well-formed template, in which every `{` opens a brace-free `{name}` token, and when no inserted value contains `{`, the passes equal the reference token-by-token expansion |
| Template.ApplyPassesSplit | index.js:324-336 | running the passes is running a prefix of them and then the rest |
| Template.ExpandExample | index.js:318-337 | `{channel_name} has {member_count} members` in channel `general` with 42 members renders `general has 42 members` |
| Template.ExpandCaseExample | index.js:318-337 | `{Server_Name}{foo}` renders the guild name followed by `{foo}` unchanged |
| Template.ExpandReexpansion | index.js:324-333 | a guild named `{channel_name}` makes `{server_name}` render as the channel's name, because later passes see earlier insertions |
| Sticky.Footer | index.js:283-285 | a set, non-empty custom footer is rendered like the template, otherwise the default footer; its properties are `FooterChoice` |
| Sticky.BuildPayload | index.js:287-303 | the payload is an embed exactly when embeds are on; the embed layout is stated by `EmbedPayloadShape` and `EmbedColorChoice`, the plain layout by `PlainPayloadShape` |
| Sticky.FooterLooksSticky | index.js:148-156 | the first embed's footer, empty when absent, contains the pin, `sticky` in any case, or the default footer's words |
| Sticky.ContentLooksSticky | index.js:158-166 | non-empty content contains `*` and the pin, the default footer, `*sticky message*` in any case, or the first 30 characters of a non-empty template |
| Sticky.IsStickyLike | index.js:148-166 | the bot's test for its own sticky posts, as used by both sweeps (also index.js:246-264); its properties are `DefaultFooterPostRecognised`, `PlainTemplatePostRecognised` and `CustomFooterEmbedNotRecognised` |
| Sticky.PlainFooterLineUniform | index.js:298-300 | both branches of the plain-text footer line give the footer in italics after a blank line |
| Sticky.PlainPayloadShape | index.js:296-302 | a plain post is the rendered template, a blank line and the footer in italics |
| Sticky.EmbedPayloadShape | index.js:287-294 | an embed's description is the rendered template and its footer text is the footer; a placeholder-free template is posted as written |
| Sticky.FooterChoice | index.js:283-285 | with no custom footer the footer is the default; with a placeholder-free one it is that footer |
| Sticky.EmbedColorChoice | index.js:288-294 | an embed's colour is the configured colour or `#FFFF00`, and is canonical when it came from colour resolution |
| Sticky.DefaultFooterPostRecognised | index.js:246-303 | every post with the default footer, embed or plain, passes the bot's own sticky test for any template |
| Sticky.PlainTemplatePostRecognised | index.js:246-303 | every plain post of a non-empty placeholder-free template passes the test through its template prefix |
| Sticky.CustomFooterEmbedNotRecognised | index.js:246-303 | an embed post whose custom footer is `Rules` does not pass the test |
| Reconcile.Window | index.js:239-240 | the newest `limit` messages of any author, or all of them when there are fewer |
| Reconcile.DeleteStored | index.js:227-237 | deleting the stored message only removes messages and never lengthens the history; `DeleteStoredEffect` states which message goes |
| Reconcile.Reconciled | index.js:239-276 | the history after a sweep: the window's survivors, then everything beyond the window; its properties are `ScanDeletesOnly` and the two idempotence lemmas |
| Reconcile.RemoveId | index.js:227-236 | deleting a message by id removes exactly the messages with that id |
| Reconcile.Scan | index.js:239-276 | the sweep loop leaves the specified history and counts exactly the deletes that succeed |
| Reconcile.SplitWindow | index.js:241-276 | every window message is either deleted or survives; deleted ones are the bot's sticky-like messages whose delete succeeds; deletes ≤ matches |
| Reconcile.ScanDeletesOnly | index.js:239-276 | a sweep deletes only the bot's sticky-like messages inside the window whose delete succeeds; all history beyond the window stays |
| Reconcile.SurvivorsNone | index.js:241-276 | a window without removable messages comes through unchanged |
| Reconcile.ScanIdempotentWithinWindow | index.js:239-276 | when the history fits in the window, a second sweep changes nothing |
| Reconcile.ScanNotIdempotentBeyondWindow | index.js:239-240 | a history longer than the window where a second sweep deletes an older sticky post |
| Reconcile.DeleteStoredEffect | index.js:227-236 | an absent, empty or undeletable stored id changes nothing; otherwise that message goes |
| Bot.HandleOutcome | index.js:226-309 | a repost as a value: delete the stored message, sweep the newest 50, send; its properties are `HandleOutcomeSent`, `HandleOutcomeFailures` and `NextSweepRemovesPost` |
| Bot.CleanupHistory | index.js:127-177 | one channel's startup sweep: delete the stored message and, unless the fetch fails, sweep the newest 100 |
| Bot.CleanedStore | index.js:116-190 | the saved store after startup cleanup; its properties are `CleanedStoreEffect` |
| Bot.RefreshedStore | index.js:197-211 | the saved store after the startup refresh; its properties are `RefreshedStoreEffect` |
| Bot.Repost | index.js:226-305 | the platform calls of a repost leave the history and sent id of the reference outcome |
| Bot.HandleOutcomeSent | index.js:239-305 | a repost sends exactly when the window fetch and the send succeed, and the new post is the newest message |
| Bot.NextSweepRemovesPost | index.js:239-305 | a post with the default footer is inside the next sweep window, and the next sweep deletes it unless its delete fails |
| Bot.HandleOutcomeFailures | index.js:226-312 | a failed window fetch only deletes the stored message; a failed send sends nothing and leaves no more messages than before; in both cases every remaining message was already in the channel |
| Bot.CleanedStoreEffect | index.js:116-190 | after startup cleanup no channel missing from the cache keeps a configuration; completed channels have no message id; a failed channel keeps its configuration |
| Bot.RefreshedStoreEffect | index.js:197-211 | startup refresh keeps every configuration and changes a message id only to the id of a post just sent there |
| Bot.SweptAll | index.js:116-188 | after the cleanup loop each cached configured channel was swept with its own configuration and no other channel was touched |
| Bot.RefreshedAll | index.js:197-211 | after the refresh loop each cached configured channel not in flight was reposted and no other channel was touched |
| Bot.LoadRoundTrip | index.js:47-58 | loading a saved store builds one object per channel, and its value view is the saved store |
| Bot.StickyBot.constructor | index.js:40-58 | the bot starts from the saved store with no timers and nothing in flight |
| Bot.StickyBot.OnMessage | index.js:85-104 | bot authors, unconfigured channels and channels in flight change nothing; otherwise the timer in the channel's entry is cleared and the entry holds exactly one new timer, which captures the current object |
| Bot.StickyBot.FireTimer | index.js:96-101 | a fired timer leaves the runtime; the repost begins exactly when the channel is not in flight, and otherwise the timer entry is deleted; it returns the captured object's stored message id as read then |
| Bot.StickyBot.FinishFiredTimer | index.js:96-101 | the repost runs with the captured object, deleting by the message id read when the repost began, writes the object back on a send, and the channel's timer entry is deleted whichever timer it holds |
| Bot.StickyBot.BeginHandle | index.js:216-228 | a repost starts exactly when the channel is not in flight, and the channel is in flight afterwards; it returns the object's stored message id as read before the first await |
| Bot.StickyBot.FinishHandle | index.js:226-315 | the stored message deleted is the one whose id was read when the repost began; only a successful send changes state: the object records the new id and is stored and saved under the channel; the channel always leaves the in-flight set |
| Bot.StickyBot.Install | index.js:307-309 | putting an object under its channel and saving keeps every other channel and the invariant |
| Bot.StickyBot.SetSticky | index.js:442-462 | a new object with no message id, embed defaulting to on, an empty footer taken as none and a resolved colour replaces the channel's configuration, is saved, and a repost begins |
| Bot.StickyBot.RemoveSticky | index.js:479-510 | without a configuration nothing changes; otherwise the stored message is deleted if possible, and the timer, the in-flight mark and the configuration are gone and saved |
| Bot.StickyBot.CleanupDuplicateStickies | index.js:113-190 | the saved store becomes the cleaned store and the channels are swept; no object is created or destroyed, and every object the remaining map does not hold, including those of dropped channels, keeps its value |
| Bot.StickyBot.RefreshAllStickyMessages | index.js:194-214 | the saved store becomes the refreshed store and the channels are reposted; no object is created or destroyed, and objects no channel holds keep their values |
| Bot.CleanupChannel | index.js:129-183 | one channel's sweep leaves the specified history, and the id is cleared unless the window fetch failed |
| Bot.CleanupEntry | index.js:116-187 | one loop step drops an uncached channel or sweeps a cached one, and extends the visited prefix by that channel; only the object under that channel may change, and every object the remaining map does not hold keeps its value, both in this step and since the loop began |
| Bot.DropEntry | index.js:118-123 | an uncached channel leaves the map, its object untouched, and every object the smaller map does not hold still has its value from before the loop |
| Bot.SweepEntry | index.js:125-187 | a cached channel is swept with its own configuration and only its own object takes the cleared or kept id |
| Bot.CleanupAll | index.js:116-188 | the cleanup loop, in any key order, drops exactly the uncached channels, clears the other ids unless the fetch failed, creates or destroys no object, and leaves every object the remaining map does not hold, including those of dropped channels, as it was |
| Bot.RefreshEntry | index.js:197-211 | one loop step reposts a cached channel not in flight from its own object and extends the visited prefix; only that channel's object may change |
| Bot.RefreshAll | index.js:197-211 | the refresh loop, in any key order, gives the refreshed store and channels; objects no channel holds keep their values, and when nothing was sent no object changed |
| Bot.DistinctAt | index.js:116 | a channel listed once in the map's key order does not occur again later |
| Bot.VisitedStep | index.js:116 | a loop over the map's keys visits each channel once: the next one was not visited before |
| Scenarios.StaleTimerReinstalls | index.js:96-98 | after a timer armed before `setSticky` fires, the saved store holds the old template again, with the id of the timer's post rather than that of `setSticky`'s post |
| Scenarios.TwoTimersArmed | index.js:96-101 | a repost begun by a timer, then `removeSticky` and `setSticky`: both reposts begin, the first one's end deletes the entry of a newer timer, and two armed timers remain for one channel while the old configuration is saved |
| Scenarios.RemovedConfigResurrects | index.js:504-510 | a configuration removed while its repost is in flight is back in the saved store once that repost sends |

## Left out

- The discord.js client is not modelled: construction, login, the ready handler's delays and signal handlers are external I/O.
- Slash-command registration, permission checks, deferred replies and interaction replies, and the help and list embeds (with the list's preview truncation) are not modelled: they are user-interface glue around the state changes modelled here.
- `sticky-force-cleanup` is dispatched to a method the class does not define; the call throws into the command's error reply, so there is no behaviour to model.
- JSON file reading and writing are not modelled: the saved file is the map value `saved`, and file or parse errors are not modelled.
- Bot.StickyBot.constructor: requires every saved entry to sit under its own channel id. The bot itself always writes the file that way; a hand-edited file that breaks this is not modelled.
- The clock and the locale are not modelled: the three time strings are fields of the platform oracle, and `createdAt` is a parameter.
- The `setTimeout` delays are not modelled. A timer fires when `FireTimer` is called.
- Interleaving inside a handler is modelled only where `handleStickyMessage` first awaits. Every other handler, including each whole startup loop and each repost after its first await, is one atomic step. Await points such as `removeSticky`'s deferred reply are not modelled.
- Bot.RefreshAll: a repost inside the refresh loop adds its channel to the in-flight set and removes it again within the same atomic step, so the loop reads the in-flight set as fixed.
- Map iteration order is the `order` parameter of the two startup loops, a duplicate-free listing of the map's keys. Every proved result is the same for every order.
- Logging is not modelled.
- Bot.StickyBot.RefreshAllStickyMessages: saves once after the loop when some post was sent, where the source saves after each send; the saved store ends the same.
- A message's embed is reduced to description, footer text and colour; the embed timestamp is not modelled.
- `String.prototype.replace` replacement patterns such as `$&` in inserted values are not modelled; values are inserted literally.
- `substring` counts UTF-16 code units in the source; the template prefix here counts characters.
- Case mapping is ASCII only; Unicode case folding is not modelled.
- The colour table is looked up by its own keys only; the source's object lookup would also hit inherited keys such as `constructor`.
- A stored message that is no longer in the channel fails its fetch; the model deletes nothing in that case, which is the same effect.
