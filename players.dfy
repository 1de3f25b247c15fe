/** Model of `backend/mwwolf/src/domain/player.rs`. The derived
    `Player::new` and getters are the datatype's constructor and fields. */
module Players {
  import opened Prelude
  import opened Errors
  import opened Ids

  datatype PlayerKind = Host | Guest {

    /** The `IntoStaticStr` derive: the `strum` serialization of the kind. */
    function ToStr(): (s: string)
      ensures Host? <==> s == "host"
      ensures Guest? <==> s == "guest"
    {
      match this
      case Host => "host"
      case Guest => "guest"
    }

    /** The `EnumString` derive (`FromStr`): exactly the two serializations
        parse, each back to its own kind; a parse error is `None`. */
    static function FromStr(s: string): (r: Option<PlayerKind>)
      ensures r.Some? ==> r.value.ToStr() == s
      ensures forall k: PlayerKind :: k.ToStr() == s ==> r == Some(k)
    {
      if s == "host" then Some(Host) else if s == "guest" then Some(Guest) else None
    }
  }

  datatype PlayerName = PlayerName(raw: NonBlank) {

    /** `PlayerName::try_new`: every non-empty string is a name, stored as it is. */
    static function TryNew(name: string): (r: DomainResult<PlayerName>)
      ensures r.Err? <==> name == []
      ensures r.Err? ==> r.error == NewError(InvalidInput, "name should not be blank")
      ensures r.Ok? ==> r.value.raw == name
    {
      if name == [] then Err(NewError(InvalidInput, "name should not be blank")) else Ok(PlayerName(name))
    }

    /** The `NamedTupleFrom` derive: `From<PlayerName> for String`. */
    function IntoString(): (s: string)
      ensures TryNew(s) == Ok(this)
    {
      raw
    }
  }

  /** A non-empty string becomes a name and converts back to itself; the
      tests `player_name_try_new_test` and `player_name_into_string`. */
  lemma PlayerNameRoundTrip(name: string)
    requires name != []
    ensures PlayerName.TryNew(name).Ok? && PlayerName.TryNew(name).value.IntoString() == name
  {
  }

  lemma PlayerNameExamples()
    ensures PlayerName.TryNew("name") == Ok(PlayerName("name"))
    ensures PlayerName.TryNew("") == Err(NewError(InvalidInput, "name should not be blank"))
    ensures PlayerName("name").IntoString() == "name"
  {
  }

  datatype Player = Player(id: Id<Player>, kind: PlayerKind, name: PlayerName)
}
