/** Model of the `v1` domain crate's value types
    (`backend/crates/v1/domain/src/theme.rs`, `player.rs` and `vote.rs`).
    `ThemeKind`, `Word`, `PlayerKind` and `PlayerName` there check and store
    exactly what the ones in `backend/mwwolf/src/domain` do, so they are the
    same definitions; only the records built from them are declared again. */
module DomainV1 {
  import opened Ids
  import Themes
  import Players

  type ThemeKind = Themes.ThemeKind
  type Word = Themes.Word

  /** `Theme` of the v1 crate: the derived `new` and getters only, without
      `choice_word`. */
  datatype Theme = Theme(id: Id<Theme>, kind: ThemeKind, first: Word, second: Word)

  type PlayerKind = Players.PlayerKind
  type PlayerName = Players.PlayerName

  datatype Player = Player(id: Id<Player>, kind: PlayerKind, name: PlayerName)

  /** The talk a vote belongs to is only named by its id. */
  datatype Talk = Talk

  /** `Vote`: a ballot cast in a talk by `from` for `to`. */
  datatype Vote = Vote(id: Id<Vote>, talkId: Id<Talk>, to: Id<Player>, from: Id<Player>)
}
