/**
  Properties of the chat dispatcher that relate several of its operations: how a
  player's message is routed end to end, what an empty message does, who receives
  each channel, and how the dedup cache keeps the dispatcher from re-routing its own
  events.
 */
module ChatRouting {
  import opened Nullable
  import opened Domain
  import opened ChatDispatcher
  import JavaString

  /**
    A message that starts with `!` loses exactly that character and is shouted to every
    player; a bare `!` asks to switch to global chat.
   */
  lemma BangShoutsGlobally(cache: set<EventId>, event: ChatEvent, p: Player, m: Match)
    requires !event.cancelled && event.id !in cache
    requires JavaString.StartsWith(event.message, GlobalSymbol)
    ensures var h := OnChat(cache, event, Some(p), m);
            var rest := event.message[1..];
            && event.message == [GlobalSymbol] + rest
            && h.routed.Some?
            && if rest == [] then
                 h.routed.value == SwitchChannel(p.id, ChatGlobal)
               else
                 h.routed.value == Deliver(p.id, GlobalLegacyFormat(p.party, true), JavaString.Trim(rest),
                                           [ShoutTag, SenderName(p.id), Separator, Body(rest)], AllPlayers(m))
  {
  }

  /** The chat setting of the sender plays no part in routing a `!` message. */
  lemma BangIgnoresChatSetting(cache: set<EventId>, event: ChatEvent, p: Player, m: Match, c: ChatSetting)
    requires JavaString.StartsWith(event.message, GlobalSymbol)
    ensures OnChat(cache, event, Some(p), m) == OnChat(cache, event, Some(p.(chat := c)), m)
  {
  }

  /**
    A non-empty default message goes to the team exactly when the sender chose team chat
    and the party is no Tribute and the match is running; otherwise it is a global message
    whose legacy format carries the shout marker unless the sender chose team chat in a
    finished match of a non-Tribute party.
   */
  lemma DefaultRouting(m: Match, p: Player, text: string)
    requires text != ""
    ensures var d := SendDefault(m, Some(p), text);
            && d.Deliver?
            && d.message == JavaString.Trim(text)
            && d.rich[1..] == [SenderName(p.id), Separator, Body(text)]
            && (d.rich[0] == ChatPrefix(p.party.chatPrefix) <==> RoutesToTeam(m, p))
            && (d.rich[0] == ShoutTag <==> !RoutesToTeam(m, p))
            && (RoutesToTeam(m, p) ==> d.recipients == Recipients(m, TeamOf(p.party))
                                       && d.format == TeamLegacyFormat(p.party))
            && (!RoutesToTeam(m, p) ==>
                  d.recipients == AllPlayers(m)
                  && d.format == GlobalLegacyFormat(p.party, p.chat != ChatTeam || p.party.isTribute))
  {
  }

  /**
    `onChat` hands a player's non-empty message that does not start with `!` to
    `sendDefault`, so it reaches the team exactly when the player chose team chat in a
    running match of a non-Tribute party, and is a global message otherwise.
   */
  lemma OnChatDefaultRouting(cache: set<EventId>, event: ChatEvent, p: Player, m: Match)
    requires !event.cancelled && event.id !in cache
    requires event.message != "" && !JavaString.StartsWith(event.message, GlobalSymbol)
    ensures var h := OnChat(cache, event, Some(p), m);
            && h.event.cancelled
            && h.routed == Some(SendDefault(m, Some(p), event.message))
            && var d := h.routed.value;
               && d.Deliver?
               && d.message == JavaString.Trim(event.message)
               && d.rich[1..] == [SenderName(p.id), Separator, Body(event.message)]
               && (d.rich[0] == ChatPrefix(p.party.chatPrefix) <==> RoutesToTeam(m, p))
               && (d.rich[0] == ShoutTag <==> !RoutesToTeam(m, p))
               && (RoutesToTeam(m, p) ==> d.recipients == Recipients(m, TeamOf(p.party))
                                          && d.format == TeamLegacyFormat(p.party))
               && (!RoutesToTeam(m, p) ==>
                     d.recipients == AllPlayers(m)
                     && d.format == GlobalLegacyFormat(p.party, p.chat != ChatTeam || p.party.isTribute))
  {
  }

  /**
    An empty message sends nothing: it switches the sender's setting to the channel the
    message would have used. A team-chat player in a Tribute party or a finished match is
    switched to global chat.
   */
  lemma EmptyMessageSwitchesChannel(m: Match, p: Player)
    ensures Route(m, p, "") == SwitchChannel(p.id, if RoutesToTeam(m, p) then ChatTeam else ChatGlobal)
    ensures Route(m, p, [GlobalSymbol]) == SwitchChannel(p.id, ChatGlobal)
  {
  }

  /** The channel-switch test is emptiness: a whitespace-only message is delivered, trimmed to nothing. */
  lemma BlankMessageIsDelivered(m: Match, p: Player, text: string)
    requires text != []
    requires forall k :: 0 <= k < |text| ==> JavaString.IsTrimmable(text[k])
    ensures var d := Route(m, p, text);
            d.Deliver? && d.message == "" && d.rich[|d.rich| - 1] == Body(text)
  {
  }

  /** A missing sender makes every routing entry point throw while building the rich message. */
  lemma MissingSenderThrows(m: Match, text: Option<string>, shout: bool)
    ensures SendGlobal(m, None, text, shout).Crash?
    ensures SendTeam(m, None, text).Crash?
    ensures text.Some? ==> SendDefault(m, None, text.value).Crash?
  {
  }

  /** The team channel admits exactly the party's members and the observers holding admin chat. */
  lemma TeamRecipients(m: Match, party: Party, q: Player)
    ensures q in Recipients(m, TeamOf(party)) <==>
            q in m.players && (q.party == party || (q.observing && q.adminChat))
  {
  }

  /** A player on the roster receives their own team message. */
  lemma SenderHearsOwnTeamMessage(m: Match, p: Player, text: string)
    requires p in m.players && text != "" && RoutesToTeam(m, p)
    ensures p in SendDefault(m, Some(p), text).recipients
  {
  }

  /**
    A mark is consumed at most once: the first sighting of a marked event removes the
    mark and leaves the event alone; the second sighting treats it as foreign and
    cancels it.
   */
  lemma MarkConsumedOnce(cache: set<EventId>, event: ChatEvent, player: Option<Player>, m: Match)
    requires !event.cancelled
    ensures var first := OnChat(cache + {event.id}, event, player, m);
            var second := OnChat(first.cache, first.event, player, m);
            && !first.event.cancelled && first.routed.None?
            && event.id !in first.cache
            && second.event.cancelled
  {
  }

  /**
    A player's chat event is cancelled and re-routed; the re-routed message is emitted
    under a fresh id, which the dispatcher's own listener lets through without routing it
    again. When no other listener cancels it, the recipients receive it and the cache
    ends as it started.
   */
  lemma ExternalChatRoundTrip(cache: set<EventId>, event: ChatEvent, p: Player, m: Match, freshId: EventId)
    requires !event.cancelled && event.id !in cache && freshId !in cache
    requires OnChat(cache, event, Some(p), m).routed.value.Deliver?
    ensures var h := OnChat(cache, event, Some(p), m);
            var r := Emit(h.cache, freshId, h.routed.value, p, m, false);
            && h.event.cancelled
            && !r.event.cancelled
            && r.received == h.routed.value.recipients
            && r.cache == cache
  {
  }

  /** A cancelled re-emitted event reaches nobody, and its mark stays in the cache. */
  lemma CancelledEmitReachesNobody(cache: set<EventId>, id: EventId, d: Dispatch, p: Player, m: Match)
    requires d.Deliver? && d.sender == p.id && id !in cache
    ensures var r := Emit(cache, id, d, p, m, true);
            r.received == {} && id in r.cache && r.event.cancelled
  {
  }
}
