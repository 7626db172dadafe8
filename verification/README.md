# Chat dispatcher and freeze command of PGM, modelled in Dafny

This project models two pieces of PGM's match plugin:

- the **chat dispatcher** (`ChatDispatcher.java`). It routes a player's chat message to the
  global or the team channel, builds the legacy format string and the rich component,
  decides what `send` does (switch the player's channel, emit and deliver, or format for
  the console), and keeps a dedup cache of the chat events it emits itself. It also covers
  the admin-chat broadcast and its sound decisions;
- the **moderation command** (`ModerationCommand.java`): the silent-flag rule for vanished
  moderators, the freeze toggle, and the branching of the frozen-player list.

Everything is a pure function over immutable records, except the admin broadcast, which is
a method with a loop. Parties, players and matches are datatypes (`domain.dfy`). Rendered
text is a sequence of opaque pieces (`ShoutTag`, `ChatPrefix`, `SenderName`, `Separator`,
`Body`, ...). The dedup cache is a set of event ids, and the freeze module's state is a set
of player ids. Both are passed in and returned explicitly. A Java `NullPointerException` is
the outcome `Crash(line)` or `Eval.NullPointer(line)`, carrying the source line that throws.

Files:

- `nullable.dfy`: Option and the value-or-exception type.
- `domain.dfy`: party, player, match, settings, sounds, message pieces.
- `java_string.dfy`: `String.trim` (strips every character at or below U+0020) and `startsWith`.
- `chat_dispatcher.dfy`: filters, `getChatFormat`, `send`, `sendGlobal`, `sendTeam`,
  `sendDefault`, `onChat`, and the asynchronous emit-and-deliver task.
- `admin_broadcast.dfy`: `broadcastAdminChatMessage` (both overloads), `canPlaySound`, `playSound`.
- `chat_routing.dfy`: end-to-end properties of routing and of the dedup cache.
- `moderation.dfy`: `checkSilent`, `setFreeze`, `freeze`, `sendFrozenList`.

## Behaviour of the code that the model keeps

- The default non-team path shouts: `sendDefault` passes `shoutPrefix = true`.
- The channel-switch test is emptiness, not blankness. A whitespace-only message is not a
  switch: the emitted event carries the empty trimmed text, and the recipients receive the
  rich message, whose body is the raw whitespace.
- The legacy global format holds the party's chat prefix, after the shout marker when
  there is one.
- The rich global message always carries the shout tag, whatever `shoutPrefix` says.
- The rich message body is the untrimmed text. Only the emitted event's message is trimmed.
  Players receive the rich message, so the trimmed text reaches them only on the console
  branch of `send`, where the legacy format is filled with it.
- A team-chat player who sends an empty message in a Tribute party, or after the match has
  finished, is switched to global chat. The team route falls back to `sendGlobal`, which
  names the global channel.
- A missing sender throws in `getChatFormat` (line 287 or 293). That call runs before
  `send`, so no missing-sender path through `sendGlobal`, `sendTeam` or `sendDefault`
  reaches the console branch of `send`. That branch is reachable only by calling `send`
  directly.
- `onChat` is registered with `ignoreCancelled`. A self-emitted event that another listener
  cancels never reaches it, so its mark stays in the cache until the cache's expiry removes it.

## Model

| member | source | states |
|---|---|---|
| JavaString.Trim | core/src/main/java/tc/oc/pgm/listeners/ChatDispatcher.java:203 | the trimmed text is non-blank at both ends and empty exactly when the text is all whitespace |
| JavaString.TrimCharacterization | core/src/main/java/tc/oc/pgm/listeners/ChatDispatcher.java:203 | trim keeps exactly the window whose end characters are not whitespace, and removes only whitespace |
| JavaString.TrimIdempotent | core/src/main/java/tc/oc/pgm/listeners/ChatDispatcher.java:203 | trimming the delivered text again changes nothing |
| ChatDispatcher.Recipients | core/src/main/java/tc/oc/pgm/listeners/ChatDispatcher.java:215-218 | recipients are drawn from the match roster; the global filter admits every player |
| ChatDispatcher.HasAdminChat | core/src/main/java/tc/oc/pgm/listeners/ChatDispatcher.java:69-70 | the player holds the admin-chat permission |
| ChatDispatcher.ChatFormat | core/src/main/java/tc/oc/pgm/listeners/ChatDispatcher.java:282-297 | shout tag iff no prefix; the prefix iff one is given; then name, ": ", and the literal text or ""; a missing sender throws at 287/293 |
| ChatDispatcher.Send | core/src/main/java/tc/oc/pgm/listeners/ChatDispatcher.java:180-245 | a missing or empty text from a player only schedules a switch to the given channel; otherwise a player's event carries the trimmed text and the filtered roster receives the caller's rich message, while for the console the filtered roster receives the format filled with the trimmed text; a missing text from the console throws at 203 |
| ChatDispatcher.SendGlobal | core/src/main/java/tc/oc/pgm/listeners/ChatDispatcher.java:86-108 | every player receives the shout-tagged message; the legacy format is the shout marker (when asked), the party prefix, and "%s: %s"; an empty text switches to global |
| ChatDispatcher.SendTeam | core/src/main/java/tc/oc/pgm/listeners/ChatDispatcher.java:118-138 | in a running match of a non-Tribute party, the party and admin-chat observers receive the prefixed message; otherwise global with shout equal to isTribute |
| ChatDispatcher.SendDefault | core/src/main/java/tc/oc/pgm/listeners/ChatDispatcher.java:161-168 | a missing sender throws; for a player, only an empty text switches channel and any other text is delivered |
| ChatDispatcher.Route | core/src/main/java/tc/oc/pgm/listeners/ChatDispatcher.java:149-158 | a player's message switches channel exactly when it is empty or a bare "!"; a "!" message is shouted to all players; any other message goes to the team (prefix, team recipients) exactly when the player's setting is team chat in a running match of a non-Tribute party, and is shouted to all players otherwise |
| ChatDispatcher.OnChat | core/src/main/java/tc/oc/pgm/listeners/ChatDispatcher.java:140-159 | a cancelled event is skipped; a marked event loses its mark and is left alone; an unmarked one is cancelled and re-routed iff its sender is a match player |
| ChatDispatcher.Emit | core/src/main/java/tc/oc/pgm/listeners/ChatDispatcher.java:205-231 | the event is marked before it is emitted; if others cancel it nobody receives anything and the mark stays, otherwise the recipients receive it and the mark is consumed |
| ChatRouting.BangShoutsGlobally | core/src/main/java/tc/oc/pgm/listeners/ChatDispatcher.java:153-154 | a "!" message loses exactly its first character and is shouted to all players; a bare "!" switches to global |
| ChatRouting.BangIgnoresChatSetting | core/src/main/java/tc/oc/pgm/listeners/ChatDispatcher.java:153-156 | the routing of a "!" message does not depend on the sender's chat setting |
| ChatRouting.DefaultRouting | core/src/main/java/tc/oc/pgm/listeners/ChatDispatcher.java:121-167 | team delivery iff the setting is team chat and the party is not Tribute and the match runs; otherwise global, shouting unless team chat was chosen in a finished non-Tribute match |
| ChatRouting.OnChatDefaultRouting | core/src/main/java/tc/oc/pgm/listeners/ChatDispatcher.java:149-167 | onChat cancels a player's non-"!" message and hands it to sendDefault: team delivery iff team setting, non-Tribute party and running match, otherwise global |
| ChatRouting.EmptyMessageSwitchesChannel | core/src/main/java/tc/oc/pgm/listeners/ChatDispatcher.java:188-200 | an empty message switches to exactly the channel it would have used; a bare "!" switches to global |
| ChatRouting.BlankMessageIsDelivered | core/src/main/java/tc/oc/pgm/listeners/ChatDispatcher.java:189-203 | a whitespace-only message is not a channel switch: it is delivered as "" with the raw text as rich body |
| ChatRouting.MissingSenderThrows | core/src/main/java/tc/oc/pgm/listeners/ChatDispatcher.java:282-297 | sendGlobal, sendTeam and sendDefault throw when there is no sender |
| ChatRouting.TeamRecipients | core/src/main/java/tc/oc/pgm/listeners/ChatDispatcher.java:133-136 | the team filter admits exactly members of the party and observers holding admin chat |
| ChatRouting.SenderHearsOwnTeamMessage | core/src/main/java/tc/oc/pgm/listeners/ChatDispatcher.java:133-136 | a sender on the roster receives their own team message |
| ChatRouting.MarkConsumedOnce | core/src/main/java/tc/oc/pgm/listeners/ChatDispatcher.java:142-147 | a marked event is let through once and its mark removed; the next sighting cancels it |
| ChatRouting.ExternalChatRoundTrip | core/src/main/java/tc/oc/pgm/listeners/ChatDispatcher.java:142-229 | a player's event is cancelled, the re-emitted event is not routed again, it reaches its recipients, and the cache ends as it started |
| ChatRouting.CancelledEmitReachesNobody | core/src/main/java/tc/oc/pgm/listeners/ChatDispatcher.java:223-225 | a re-emitted event cancelled by another listener reaches nobody and leaves its mark |
| AdminBroadcast.CanPlaySound | core/src/main/java/tc/oc/pgm/listeners/ChatDispatcher.java:278-280 | the player's sound setting is all sounds |
| AdminBroadcast.PlaySound | core/src/main/java/tc/oc/pgm/listeners/ChatDispatcher.java:170-175 | a sound plays only if it is the admin-chat sound and the player allows all sounds; BroadcastAdminChat relates it to the broadcast's own sound test |
| AdminBroadcast.BroadcastAdminChat | core/src/main/java/tc/oc/pgm/listeners/ChatDispatcher.java:259-276 | exactly the admin-chat players receive the "[A]"-prefixed message and exactly those allowing all sounds hear the given sound, and the console receives it last, always; for the admin-chat sound the listeners are exactly those `playSound` would play to, while any other sound still plays where `playSound` would refuse it |
| AdminBroadcast.BroadcastAdminChatSilently | core/src/main/java/tc/oc/pgm/listeners/ChatDispatcher.java:255-257 | the overload without a sound reaches the same players and the console, and plays nothing |
| Moderation.CheckSilent | core/src/main/java/tc/oc/pgm/community/command/ModerationCommand.java:85-91 | the result is silent or the sender is a vanished player; true is never turned into false |
| Moderation.SetFrozen | core/src/main/java/tc/oc/pgm/community/command/ModerationCommand.java:81 | the freeze module sets the target's membership and leaves every other player's |
| Moderation.SetFreeze | core/src/main/java/tc/oc/pgm/community/command/ModerationCommand.java:77-83 | a target in the match has its frozen state negated with the silent flag passed on; outside the match nothing changes; no other player changes |
| Moderation.Freeze | core/src/main/java/tc/oc/pgm/community/command/ModerationCommand.java:72-75 | a vanished sender's freeze call is always silent; otherwise the requested flag is passed on |
| Moderation.FreezeTwiceRestores | core/src/main/java/tc/oc/pgm/community/command/ModerationCommand.java:81 | toggling the same target twice restores the freeze state |
| Moderation.JoinNames | core/src/main/java/tc/oc/pgm/community/command/ModerationCommand.java:42-47 | the online names are the players' fancy names in order, separated by commas |
| Moderation.SendFrozenList | core/src/main/java/tc/oc/pgm/community/command/ModerationCommand.java:32-60 | only the "none" warning iff nobody online is frozen and the offline count is below 1; otherwise the online section first and the offline section last |
| Moderation.FrozenListSections | core/src/main/java/tc/oc/pgm/community/command/ModerationCommand.java:41-59 | the online section appears iff someone online is frozen, counting them; the offline section iff the offline count is positive |

## Left out

- The Bukkit event bus, listener registration and the static singleton: the bus appears only as the other listeners' verdict (cancel or not), passed as a boolean.
- Other listeners editing the recipient set or the format of an emitted event: `Emit` delivers to the recipients chosen by `send`.
- The asynchronous executor and the 50 ms scheduled task: `send` returns the action that would be scheduled or run.
- The cache's weak keys and its 15-second expiry: the cache is an untimed set, and an emitted event gets an id not already in it.
- Adventure rendering, the legacy serializer, translations, the console name's locale lookup and `String.format`: prefixes, names and tags are opaque pieces, and the legacy prefix is the party's prefix token.
- Sound playback, and the source, volume and pitch of `AC_SOUND`: a sound is identified by its key alone, so sound equality compares keys only.
- The permission system and vanished metadata: both are booleans on the player.
- `getApproximatePlayer`: an unused wrapper over a fuzzy matcher that is not part of this model.
- The `g`/`all` and `t` command handlers: they forward unchanged to `sendGlobal` (with shout) and `sendTeam`.
- A null channel type passed directly to `send`: every caller in the file passes a channel.
- The internals of the freeze module, which is not part of this model: its state is the set of frozen ids; the list of online frozen players and the offline count and names are inputs.
- A match without a freeze module, where the lookup returns null: the module is taken to be present.
- Concurrency between chat messages: each operation is a single sequential step.
