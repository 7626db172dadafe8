/**
  The moderation command: the freeze toggle (`freeze`, `setFreeze`, `checkSilent`) and
  the frozen-player listing (`sendFrozenList`). The freeze module's state is the set of
  ids of frozen players; its `setFrozen` sets one player's membership.
 */
module Moderation {
  import opened Nullable
  import opened Domain

  /** The command's sender: a player (with its vanished metadata) or anything else, such as the console. */
  datatype CommandSender = PlayerSender(vanished: bool) | OtherSender

  /** The freeze module's state. */
  datatype FreezeModule = FreezeModule(frozen: set<PlayerId>)

  /** One `setFrozen(sender, player, frozen, silent)` call on the freeze module. */
  datatype FreezeCall = FreezeCall(target: PlayerId, frozen: bool, silent: bool)

  /** The module after `setFreeze`, and the call it made, if any. */
  datatype FreezeResult = FreezeResult(state: FreezeModule, call: Option<FreezeCall>)

  /** A message of the frozen list. */
  datatype ListMessage =
    | NoneWarning
    | Section(key: string, count: int, names: Message)

  const OnlineKey: string := "moderation.freeze.frozenList.online"
  const OfflineKey: string := "moderation.freeze.frozenList.offline"

  /** `checkSilent`: a vanished player is always silent; otherwise the requested flag stands. */
  function CheckSilent(silent: bool, sender: CommandSender): (r: bool)
    ensures silent ==> r
    ensures r <==> silent || (sender.PlayerSender? && sender.vanished)
  {
    if !silent && sender.PlayerSender? && sender.vanished then true else silent
  }

  /** The freeze module's `setFrozen`: the player's membership becomes `frozen`. */
  function SetFrozen(fmm: FreezeModule, target: PlayerId, frozen: bool): (r: FreezeModule)
    ensures target in r.frozen <==> frozen
    ensures forall other :: other != target ==> (other in r.frozen <==> other in fmm.frozen)
  {
    if frozen then FreezeModule(fmm.frozen + {target}) else FreezeModule(fmm.frozen - {target})
  }

  /**
    `setFreeze`: a target on the match roster has its frozen state negated, passing
    `silent` along; a target outside the match is left alone. No other player changes.
   */
  function SetFreeze(fmm: FreezeModule, m: Match, target: PlayerId, silent: bool): (r: FreezeResult)
    ensures !InMatch(m, target) ==> r == FreezeResult(fmm, None)
    ensures InMatch(m, target) ==> r.call == Some(FreezeCall(target, target !in fmm.frozen, silent))
    ensures InMatch(m, target) ==> (target in r.state.frozen <==> target !in fmm.frozen)
    ensures forall other :: other != target ==> (other in r.state.frozen <==> other in fmm.frozen)
  {
    if InMatch(m, target) then
      var frozen := !(target in fmm.frozen);
      FreezeResult(SetFrozen(fmm, target, frozen), Some(FreezeCall(target, frozen, silent)))
    else
      FreezeResult(fmm, None)
  }

  /** The `freeze` command: `setFreeze` with the silent flag forced for a vanished sender. */
  function Freeze(sender: CommandSender, fmm: FreezeModule, m: Match, target: PlayerId, silent: bool): (r: FreezeResult)
    ensures InMatch(m, target) <==> r.call.Some?
    ensures r.call.Some? ==> (r.call.value.silent <==> silent || sender == PlayerSender(true))
  {
    SetFreeze(fmm, m, target, CheckSilent(silent, sender))
  }

  /** Toggling the same player twice restores the freeze module. */
  lemma FreezeTwiceRestores(fmm: FreezeModule, m: Match, target: PlayerId, s1: bool, s2: bool)
    ensures SetFreeze(SetFreeze(fmm, m, target, s1).state, m, target, s2).state == fmm
  {
  }

  /** `join(", ", names)`: the fancy names of the players separated by commas. */
  function JoinNames(players: seq<Player>): (r: Message)
    ensures |players| == 0 ==> r == []
    ensures |players| > 0 ==> |r| == 2 * |players| - 1
    ensures forall k :: 0 <= k < |players| ==> r[2 * k] == FancyName(players[k].id)
    ensures forall k :: 0 <= k < |r| && k % 2 == 1 ==> r[k] == Comma
  {
    if |players| == 0 then []
    else if |players| == 1 then [FancyName(players[0].id)]
    else
      [FancyName(players[0].id), Comma] + JoinNames(players[1..])
  }

  /**
    `sendFrozenList`: only the "none" warning when nobody online is frozen and the
    offline count is below one; otherwise an online section when someone online is
    frozen, then an offline section when the offline count is positive.
   */
  function SendFrozenList(online: seq<Player>, offlineCount: int, offlineNames: Message): (r: seq<ListMessage>)
    ensures r == [NoneWarning] <==> |online| == 0 && offlineCount < 1
    ensures NoneWarning in r ==> r == [NoneWarning]
    ensures r != [NoneWarning] ==> |r| == (if |online| > 0 then 1 else 0) + (if offlineCount > 0 then 1 else 0)
    ensures r != [NoneWarning] && |online| > 0 ==> r[0] == Section(OnlineKey, |online|, JoinNames(online))
    ensures r != [NoneWarning] && offlineCount > 0 ==> r[|r| - 1] == Section(OfflineKey, offlineCount, offlineNames)
  {
    if |online| == 0 && offlineCount < 1 then
      [NoneWarning]
    else
      var onlineSection := if |online| > 0 then [Section(OnlineKey, |online|, JoinNames(online))] else [];
      var offlineSection := if offlineCount > 0 then [Section(OfflineKey, offlineCount, offlineNames)] else [];
      assert NoneWarning !in onlineSection + offlineSection;
      onlineSection + offlineSection
  }

  /** A section is sent for a list exactly when that list has someone in it, with its own count. */
  lemma FrozenListSections(online: seq<Player>, offlineCount: int, offlineNames: Message)
    ensures var r := SendFrozenList(online, offlineCount, offlineNames);
            && (Section(OnlineKey, |online|, JoinNames(online)) in r <==> |online| > 0)
            && (Section(OfflineKey, offlineCount, offlineNames) in r <==> offlineCount > 0)
            && (forall c, n :: Section(OnlineKey, c, n) in r ==> c == |online| && c > 0)
            && (forall c, n :: Section(OfflineKey, c, n) in r ==> c == offlineCount && c > 0)
  {
  }
}
