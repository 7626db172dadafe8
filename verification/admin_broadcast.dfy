/**
  `broadcastAdminChatMessage` and the sound decisions of the chat dispatcher:
  admin-chat holders receive the "[A] "-prefixed message (and the optional sound when
  their sound setting allows all sounds), then the console receives it too.
 */
module AdminBroadcast {
  import opened Nullable
  import opened Domain
  import ChatDispatcher

  /** `AC_SOUND`, identified by its key alone; its source, volume and pitch are not modelled. */
  const AdminChatSound: Sound := Sound("random.orb")

  /** One observable effect of a broadcast, in order. */
  datatype Effect =
    | PlayTo(player: Player, sound: Sound)
    | SendTo(player: Player, msg: Message)
    | ToConsole(msg: Message)

  /** `canPlaySound`: the player's sound setting allows all sounds. */
  predicate CanPlaySound(viewer: Player) {
    viewer.sounds == SoundsAll
  }

  /** `playSound`: the sound plays only when it is the admin-chat sound and the setting allows all sounds. */
  function PlaySound(player: Player, sound: Sound): (r: Option<Effect>)
    ensures r.Some? ==> r.value == PlayTo(player, AdminChatSound)
    ensures r.Some? <==> sound == AdminChatSound && CanPlaySound(player)
  {
    if sound == AdminChatSound && CanPlaySound(player) then Some(PlayTo(player, sound)) else None
  }

  /**
    `broadcastAdminChatMessage(message, match, sound)`: exactly the admin-chat holders
    of the roster get the message, exactly those of them that allow all sounds hear the
    sound, and the console gets the message last, whoever else qualified. The broadcast
    checks only the sound setting, so unlike `playSound` it also plays sounds other than
    the admin-chat sound.
   */
  method BroadcastAdminChat(message: Message, m: Match, sound: Option<Sound>) returns (effects: seq<Effect>)
    ensures |effects| > 0 && effects[|effects| - 1] == ToConsole([AdminTag] + message)
    ensures forall i :: 0 <= i < |effects| - 1 ==> !effects[i].ToConsole?
    ensures forall i :: 0 <= i < |effects| && effects[i].SendTo? ==> effects[i].msg == [AdminTag] + message
    ensures forall p :: SendTo(p, [AdminTag] + message) in effects <==>
                        p in m.players && ChatDispatcher.HasAdminChat(p)
    ensures forall p, s :: PlayTo(p, s) in effects <==>
                           sound == Some(s) && p in m.players && ChatDispatcher.HasAdminChat(p) && CanPlaySound(p)
    ensures sound == Some(AdminChatSound) ==>
              forall p :: PlayTo(p, AdminChatSound) in effects <==>
                          p in m.players && ChatDispatcher.HasAdminChat(p) && PlaySound(p, AdminChatSound).Some?
    ensures forall p, s :: sound == Some(s) && s != AdminChatSound &&
                           p in m.players && ChatDispatcher.HasAdminChat(p) && CanPlaySound(p) ==>
                             PlayTo(p, s) in effects && PlaySound(p, s).None?
  {
    var formatted := [AdminTag] + message;  // ADMIN_CHAT_PREFIX.append(message)
    effects := [];
    var i := 0;
    while i < |m.players|
      invariant 0 <= i <= |m.players|
      invariant forall k :: 0 <= k < |effects| ==> !effects[k].ToConsole?
      invariant forall k :: 0 <= k < |effects| && effects[k].SendTo? ==> effects[k].msg == formatted
      invariant forall p :: SendTo(p, formatted) in effects <==>
                            p in m.players[..i] && ChatDispatcher.HasAdminChat(p)
      invariant forall p, s :: PlayTo(p, s) in effects <==>
                               sound == Some(s) && p in m.players[..i] && ChatDispatcher.HasAdminChat(p) && CanPlaySound(p)
    {
      var mp := m.players[i];
      assert m.players[..i + 1] == m.players[..i] + [mp];
      if ChatDispatcher.HasAdminChat(mp) {
        if sound.Some? && CanPlaySound(mp) {
          effects := effects + [PlayTo(mp, sound.value)];
        }
        effects := effects + [SendTo(mp, formatted)];
      }
      i := i + 1;
    }
    assert m.players[..i] == m.players;
    effects := effects + [ToConsole(formatted)];
  }

  /** The overload without a sound: the same recipients, and no sound at all. */
  method BroadcastAdminChatSilently(message: Message, m: Match) returns (effects: seq<Effect>)
    ensures |effects| > 0 && effects[|effects| - 1] == ToConsole([AdminTag] + message)
    ensures forall p :: SendTo(p, [AdminTag] + message) in effects <==>
                        p in m.players && ChatDispatcher.HasAdminChat(p)
    ensures forall i :: 0 <= i < |effects| ==> !effects[i].PlayTo?
  {
    effects := BroadcastAdminChat(message, m, None);
  }
}
