/**
  The chat dispatcher: channel routing (onChat, sendDefault, sendGlobal, sendTeam),
  format construction (the legacy format string and the rich component), the
  delivery decision of `send`, and the dedup cache of self-emitted chat events.

  Every operation is a pure function. The dedup cache is a set of event ids passed in
  and returned; the asynchronous task and the 50 ms scheduled task are represented by
  the `Dispatch` outcome they would carry out.
 */
module ChatDispatcher {
  import opened Nullable
  import opened Domain
  import JavaString

  const GlobalSymbol: char := '!'
  const GlobalFormat: string := "%s: %s"
  const PrefixFormat: string := "%s: %s"
  /** The legacy serialisation of the gold "[SHOUT] " text. */
  const ShoutLegacy: string := "\U{A7}6[SHOUT] "

  type EventId = nat

  /** The recipient filters handed to `send`. */
  datatype Audience = Everyone | TeamOf(party: Party)

  /** What one call of `send` decides to do. */
  datatype Dispatch =
      /** Schedule `set chat <setting>` for the player instead of sending. */
    | SwitchChannel(player: PlayerId, setting: ChatSetting)
      /** Emit a chat event for `message` and send `rich` to `recipients` unless it is cancelled. */
    | Deliver(sender: PlayerId, format: string, message: string, rich: Message, recipients: set<Player>)
      /** Console sender: send `format` filled with the console name and `message` to `recipients`. */
    | ConsoleDeliver(format: string, message: string, recipients: set<Player>)
      /** The call throws a NullPointerException at `line`. */
    | Crash(line: nat)

  /** A chat event: identity, message, format, and the cancelled flag. */
  datatype ChatEvent = ChatEvent(id: EventId, message: string, format: string, cancelled: bool)

  /** The state after the `onChat` listener ran: cache, event, and the re-routing it started. */
  datatype Handled = Handled(cache: set<EventId>, event: ChatEvent, routed: Option<Dispatch>)

  /** The state after the asynchronous delivery task ran. */
  datatype Delivered = Delivered(cache: set<EventId>, event: ChatEvent, received: set<Player>)

  /** The filter of each channel. */
  predicate Admits(filter: Audience, viewer: Player) {
    match filter
    case Everyone => true
    case TeamOf(party) => party == viewer.party || (viewer.observing && HasAdminChat(viewer))
  }

  /** `AC_FILTER`: holders of the admin-chat permission. */
  predicate HasAdminChat(viewer: Player) {
    viewer.adminChat
  }

  /** The players of the roster the filter admits (collected into a set). */
  function Recipients(m: Match, filter: Audience): (r: set<Player>)
    ensures r <= AllPlayers(m)
    ensures filter.Everyone? ==> r == AllPlayers(m)
  {
    set p | p in m.players && Admits(filter, p)
  }

  /** The sender's party, or the match's default party when there is no sender. */
  function PartyOf(m: Match, sender: Option<Player>): Party {
    if sender.None? then m.defaultParty else sender.value.party
  }

  /** The legacy format of a global message. */
  function GlobalLegacyFormat(party: Party, shout: bool): string {
    (if shout then ShoutLegacy else "") + party.chatPrefix + GlobalFormat
  }

  /** The legacy format of a team message. */
  function TeamLegacyFormat(party: Party): string {
    party.chatPrefix + PrefixFormat
  }

  /**
    `getChatFormat`: the rich message. The shout tag stands where no prefix is given and
    the prefix where one is; the sender's name, the separator and the literal text follow.
    The sender's name is read from the sender, so a missing sender throws.
   */
  function ChatFormat(prefix: Option<string>, sender: Option<Player>, text: Option<string>): (r: Eval<Message>)
    ensures r.NullPointer? <==> sender.None?
    ensures r.NullPointer? ==> r.line == (if prefix.None? then 287 else 293)
    ensures r.Value? ==> |r.value| == 4
    ensures r.Value? ==> (ShoutTag in r.value <==> prefix.None?)
    ensures r.Value? ==> forall x :: ChatPrefix(x) in r.value <==> prefix == Some(x)
    ensures r.Value? ==> r.value[1..] == [SenderName(sender.value.id), Separator, Body(text.GetOr(""))]
  {
    match sender
    case None => NullPointer(if prefix.None? then 287 else 293)
    case Some(player) =>
      var head := if prefix.None? then ShoutTag else ChatPrefix(prefix.value);
      Value([head, SenderName(player.id), Separator, Body(text.GetOr(""))])
  }

  /**
    `send`, the decision part. A missing or empty text from a player asks to switch that
    player's channel to `setting`; otherwise the trimmed text is emitted (player) or
    formatted for each recipient (console). A missing text from the console throws.
   */
  function Send(m: Match, sender: Option<Player>, text: Option<string>, format: string,
                rich: Message, filter: Audience, setting: ChatSetting): (d: Dispatch)
    ensures d.SwitchChannel? <==> sender.Some? && (text.None? || text.value == "")
    ensures d.SwitchChannel? ==> d.player == sender.value.id && d.setting == setting
    ensures d.Crash? <==> sender.None? && text.None?
    ensures d.Crash? ==> d.line == 203
    ensures d.Deliver? <==> sender.Some? && text.Some? && text.value != ""
    ensures d.Deliver? ==> d.sender == sender.value.id && d.format == format && d.rich == rich
    ensures d.Deliver? || d.ConsoleDeliver? ==>
              text.Some? && d.message == JavaString.Trim(text.value) && d.recipients == Recipients(m, filter)
    ensures d.ConsoleDeliver? ==> d.format == format
  {
    if (text.None? || text.value == "") && sender.Some? then
      SwitchChannel(sender.value.id, setting)
    else if text.None? then
      Crash(203)
    else
      var message := JavaString.Trim(text.value);
      if sender.Some? then
        Deliver(sender.value.id, format, message, rich, Recipients(m, filter))
      else
        ConsoleDeliver(format, message, Recipients(m, filter))
  }

  /** `sendGlobal`: every player receives the message, marked with the shout tag. */
  function SendGlobal(m: Match, sender: Option<Player>, text: Option<string>, shout: bool): (d: Dispatch)
    ensures sender.None? ==> d == Crash(287)
    ensures sender.Some? ==> (d.SwitchChannel? <==> text.None? || text.value == "")
    ensures sender.Some? && !d.SwitchChannel? ==> d.Deliver?
    ensures d.SwitchChannel? ==> d == SwitchChannel(sender.value.id, ChatGlobal)
    ensures d.Deliver? ==>
              && d.recipients == AllPlayers(m)
              && d.rich == [ShoutTag, SenderName(sender.value.id), Separator, Body(text.value)]
              && d.format == GlobalLegacyFormat(sender.value.party, shout)
              && d.message == JavaString.Trim(text.value)
  {
    var format := GlobalLegacyFormat(PartyOf(m, sender), shout);
    match ChatFormat(None, sender, text)
    case NullPointer(line) => Crash(line)
    case Value(rich) => Send(m, sender, text, format, rich, Everyone, ChatGlobal)
  }

  /** Whether `sendTeam` keeps a party's message inside the team. */
  predicate TeamChatAvailable(m: Match, party: Party) {
    !party.isTribute && !m.finished
  }

  /**
    `sendTeam`: the sender's party and admin-chat observers receive the message, marked
    with the party's prefix; a Tribute party or a finished match falls back to global.
   */
  function SendTeam(m: Match, sender: Option<Player>, text: Option<string>): (d: Dispatch)
    ensures sender.None? ==> d == Crash(if TeamChatAvailable(m, m.defaultParty) then 293 else 287)
    ensures sender.Some? ==> (d.SwitchChannel? <==> text.None? || text.value == "")
    ensures sender.Some? && !d.SwitchChannel? ==> d.Deliver?
    ensures d.SwitchChannel? ==>
              d == SwitchChannel(sender.value.id,
                                 if TeamChatAvailable(m, sender.value.party) then ChatTeam else ChatGlobal)
    ensures d.Deliver? ==> |d.rich| == 4
    ensures d.Deliver? && TeamChatAvailable(m, sender.value.party) ==>
              && d.recipients == Recipients(m, TeamOf(sender.value.party))
              && d.rich[0] == ChatPrefix(sender.value.party.chatPrefix)
              && ShoutTag !in d.rich
              && d.format == TeamLegacyFormat(sender.value.party)
    ensures d.Deliver? && !TeamChatAvailable(m, sender.value.party) ==>
              && d.recipients == AllPlayers(m)
              && d.rich[0] == ShoutTag
              && d.format == GlobalLegacyFormat(sender.value.party, sender.value.party.isTribute)
    ensures d.Deliver? ==> d.message == JavaString.Trim(text.value) && d.rich[|d.rich| - 1] == Body(text.value)
  {
    var party := PartyOf(m, sender);
    if !TeamChatAvailable(m, party) then
      SendGlobal(m, sender, text, party.isTribute)
    else
      var format := TeamLegacyFormat(party);
      match ChatFormat(Some(party.chatPrefix), sender, text)
      case NullPointer(line) => Crash(line)
      case Value(rich) => Send(m, sender, text, format, rich, TeamOf(party), ChatTeam)
  }

  /** `sendDefault`: a player whose chat setting is team chat uses `sendTeam`, everyone else shouts globally. */
  function SendDefault(m: Match, sender: Option<Player>, text: string): (d: Dispatch)
    ensures sender.None? ==> d == Crash(287)
    ensures sender.Some? ==> (d.SwitchChannel? <==> text == "")
    ensures sender.Some? && text != "" ==> d.Deliver?
  {
    if sender.Some? && sender.value.chat == ChatTeam then
      SendTeam(m, sender, Some(text))
    else
      SendGlobal(m, sender, Some(text), true)
  }

  /** Whether a player's default (non-"!") chat lands in the team channel. */
  predicate RoutesToTeam(m: Match, p: Player) {
    p.chat == ChatTeam && TeamChatAvailable(m, p.party)
  }

  /**
    The routing `onChat` applies to a player's own chat message: a "!" message is shouted
    globally; any other message follows the player's chat setting through `sendDefault`.
   */
  function Route(m: Match, player: Player, message: string): (d: Dispatch)
    ensures (d.SwitchChannel? <==> message == "" || message == [GlobalSymbol])
    ensures !d.SwitchChannel? ==> d.Deliver? && d.sender == player.id && |d.rich| == 4
    ensures d.Deliver? && JavaString.StartsWith(message, GlobalSymbol) ==>
              d.rich[0] == ShoutTag && d.recipients == AllPlayers(m)
    ensures d.Deliver? && !JavaString.StartsWith(message, GlobalSymbol) ==>
              && (d.rich[0] == ShoutTag <==> !RoutesToTeam(m, player))
              && (d.rich[0] == ChatPrefix(player.party.chatPrefix) <==> RoutesToTeam(m, player))
              && (RoutesToTeam(m, player) ==> d.recipients == Recipients(m, TeamOf(player.party)))
              && (!RoutesToTeam(m, player) ==> d.recipients == AllPlayers(m))
  {
    if JavaString.StartsWith(message, GlobalSymbol) then
      SendGlobal(m, Some(player), Some(message[1..]), true)
    else
      SendDefault(m, Some(player), message)
  }

  /**
    The `onChat` listener. It is registered with `ignoreCancelled`, so the bus skips it
    for a cancelled event. A marked event is the dispatcher's own: its mark is removed
    and nothing else happens. Any other event is cancelled and, when its sender is a
    match player (`player`, in match `m`), re-routed.
   */
  function OnChat(cache: set<EventId>, event: ChatEvent, player: Option<Player>, m: Match): (h: Handled)
    ensures event.cancelled ==> h == Handled(cache, event, None)
    ensures !event.cancelled && event.id in cache ==> h == Handled(cache - {event.id}, event, None)
    ensures !event.cancelled && event.id !in cache ==>
              && h.cache == cache
              && h.event == event.(cancelled := true)
              && (h.routed.Some? <==> player.Some?)
    ensures h.event.id == event.id && h.event.message == event.message
  {
    if event.cancelled then
      Handled(cache, event, None)
    else if event.id in cache then
      Handled(cache - {event.id}, event, None)
    else
      var cancelled := event.(cancelled := true);
      match player
      case None => Handled(cache, cancelled, None)
      case Some(p) => Handled(cache, cancelled, Some(Route(m, p, event.message)))
  }

  /**
    The asynchronous task of `send` for a player sender: a fresh event `id` is marked in
    the cache, then emitted. The other listeners either cancel it (`cancelledByOthers`)
    or not; the dispatcher's own listener then sees its mark. Recipients receive the rich
    message only when the event ends uncancelled.
   */
  function Emit(cache: set<EventId>, id: EventId, d: Dispatch, sender: Player, m: Match,
                cancelledByOthers: bool): (r: Delivered)
    requires d.Deliver? && d.sender == sender.id
    requires id !in cache
    ensures r.event == ChatEvent(id, d.message, d.format, cancelledByOthers)
    ensures r.received == (if cancelledByOthers then {} else d.recipients)
    ensures r.cache == (if cancelledByOthers then cache + {id} else cache)
  {
    var marked := cache + {id};
    var event := ChatEvent(id, d.message, d.format, cancelledByOthers);
    var h := OnChat(marked, event, Some(sender), m);
    assert h.routed.None?;
    if h.event.cancelled then
      Delivered(h.cache, h.event, {})
    else
      Delivered(h.cache, h.event, d.recipients)
  }
}
