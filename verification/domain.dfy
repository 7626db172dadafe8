/**
  The host's player, party and match records, reduced to the fields the chat
  dispatcher and the moderation command read. Permissions and metadata are booleans,
  rendered text is a sequence of opaque pieces.
 */
module Domain {

  type PlayerId = nat

  /** Values of the `CHAT` setting; `ChatAdmin` stands for every value other than team and global. */
  datatype ChatSetting = ChatGlobal | ChatTeam | ChatAdmin

  /** Values of the `SOUNDS` setting. */
  datatype SoundSetting = SoundsAll | SoundsChat | SoundsNone

  /** A party; `chatPrefix` is its chat-prefix token, `isTribute` marks the free-for-all party. */
  datatype Party = Party(id: nat, chatPrefix: string, isTribute: bool)

  /** A match player: `adminChat` is the admin-chat permission, `vanished` the vanished metadata. */
  datatype Player = Player(
    id: PlayerId,
    party: Party,
    observing: bool,
    adminChat: bool,
    chat: ChatSetting,
    sounds: SoundSetting,
    vanished: bool)

  /** A match: its roster, whether it has finished, and the party used for a missing sender. */
  datatype Match = Match(players: seq<Player>, finished: bool, defaultParty: Party)

  /** A sound, identified by its key alone; its source, volume and pitch are not modelled. */
  datatype Sound = Sound(key: string)

  /** One decoration of a rich chat component. */
  datatype Piece =
    | AdminTag                  // the "[A] " admin-chat prefix
    | ShoutTag                  // the gold "[SHOUT] " tag
    | ChatPrefix(prefix: string) // a party's chat prefix
    | SenderName(id: PlayerId)  // a player's verbose name
    | FancyName(id: PlayerId)   // a player's fancy name
    | Separator                 // the white ": " after a name
    | Comma                     // the gray ", " between names
    | Body(text: string)        // literal message text, never parsed as markup
    | Opaque(token: string)     // a component supplied by a caller

  type Message = seq<Piece>

  /** Every player on the match roster. */
  function AllPlayers(m: Match): set<Player> {
    set p | p in m.players
  }

  /** Whether the player with id `target` is on the match roster. */
  predicate InMatch(m: Match, target: PlayerId) {
    exists i :: 0 <= i < |m.players| && m.players[i].id == target
  }
}
