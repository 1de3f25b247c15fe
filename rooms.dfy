/** Model of `backend/mwwolf/src/domain/room.rs`: the room a game is
    configured in, and `RoomService::start_talk`, which turns a room into a
    talk by picking a theme, splitting the players into wolves and citizens
    and handing each side one of the theme's words.

    The collaborators of `RoomService` become parameters of `StartTalk`: the
    theme repository and the talk factory are functions, the clock is the
    timestamp `now` (whole seconds), and the three uses of the random source
    are the inputs `themeIndex` (the theme `choose` picks), `shuffled` (the
    order `shuffle` leaves the players in) and `draw` (the boolean
    `choice_word` draws). */
module Rooms {
  import opened Prelude
  import opened Errors
  import opened Ids
  import opened Themes
  import opened Players
  import opened Talks

  /** The values a `usize` count that `try_new` accepted can take. */
  type Positive = n: nat | n > 0 witness 1

  datatype WolfCount = WolfCount(rawCount: Positive) {

    /** `WolfCount::try_new`: rejects zero, stores anything else. */
    static function TryNew(rawCount: nat): (r: DomainResult<WolfCount>)
      ensures r.Err? <==> rawCount == 0
      ensures r.Err? ==> r.error == NewError(InvalidInput, "raw_count should not be zero")
      ensures r.Ok? ==> r.value.rawCount == rawCount
    {
      if rawCount == 0 then Err(NewError(InvalidInput, "raw_count should not be zero"))
      else Ok(WolfCount(rawCount))
    }
  }

  datatype PlayerCount = PlayerCount(rawPlayerCount: Positive) {

    /** `PlayerCount::try_new`: rejects zero, stores anything else. */
    static function TryNew(rawPlayerCount: nat): (r: DomainResult<PlayerCount>)
      ensures r.Err? <==> rawPlayerCount == 0
      ensures r.Err? ==> r.error == NewError(InvalidInput, "raw_player_count should not be zero")
      ensures r.Ok? ==> r.value.rawPlayerCount == rawPlayerCount
    {
      if rawPlayerCount == 0 then Err(NewError(InvalidInput, "raw_player_count should not be zero"))
      else Ok(PlayerCount(rawPlayerCount))
    }

    /** `PartialOrd<WolfCount>::partial_cmp`: compares the raw numbers. */
    function PartialCmp(other: WolfCount): (o: Option<Ordering>)
      ensures o.Some?
      ensures o.value == Less <==> rawPlayerCount < other.rawCount
      ensures o.value == Equal <==> rawPlayerCount == other.rawCount
    {
      Some(CompareInt(rawPlayerCount, other.rawCount))
    }

    /** `PartialEq<WolfCount>::eq`. */
    function Eq(other: WolfCount): (b: bool)
      ensures b <==> PartialCmp(other) == Some(Equal)
      ensures b <==> rawPlayerCount == other.rawCount
    {
      rawPlayerCount == other.rawCount
    }

    /** The `<=` operator, which Rust derives from `partial_cmp`. */
    function Le(other: WolfCount): (b: bool)
      ensures b <==> rawPlayerCount <= other.rawCount
    {
      PartialCmp(other) == Some(Less) || PartialCmp(other) == Some(Equal)
    }
  }

  /** `Room`. Its `id` is an `Id<Room>`, written `Id<RoomTag>` because the
      talk, which names its room, is declared in a module this one imports. */
  datatype Room = Room(
    id: Id<RoomTag>,
    playerCount: PlayerCount,
    wolfCount: WolfCount,
    hostPlayerId: Id<Player>,
    allPlayers: seq<Id<Player>>,
    talkTime: TalkMinutes,
    themeKind: ThemeKind)
  {
    /** `Room::validate`: the only rule is that there are fewer wolves than
        players; the list of players is not looked at. */
    function Validate(): (r: DomainResult<()>)
      ensures r.Ok? <==> wolfCount.rawCount < playerCount.rawPlayerCount
      ensures r.Err? ==> r.error == NewError(InvalidInput, "player_count must be bigger than wold count")
    {
      if playerCount.Le(wolfCount) then
        Err(NewError(InvalidInput, "player_count must be bigger than wold count"))
      else
        Ok(())
    }

    /** `Room::try_new`: builds the room, then validates it. */
    static function TryNew(
      id: Id<RoomTag>, playerCount: PlayerCount, wolfCount: WolfCount, hostPlayerId: Id<Player>,
      allPlayers: seq<Id<Player>>, talkTime: TalkMinutes, themeKind: ThemeKind): (r: DomainResult<Room>)
      ensures r.Ok? <==> wolfCount.rawCount < playerCount.rawPlayerCount
      ensures r.Err? ==> r.error == NewError(InvalidInput, "player_count must be bigger than wold count")
      ensures r.Ok? ==> r.value.id == id && r.value.playerCount == playerCount && r.value.wolfCount == wolfCount
      ensures r.Ok? ==> r.value.hostPlayerId == hostPlayerId && r.value.allPlayers == allPlayers
      ensures r.Ok? ==> r.value.talkTime == talkTime && r.value.themeKind == themeKind
    {
      var room := Room(id, playerCount, wolfCount, hostPlayerId, allPlayers, talkTime, themeKind);
      var _ :- room.Validate();
      Ok(room)
    }
  }

  /** The test `room_try_new_works`: five players and four wolves make a
      room even with nobody in it yet; five and five do not. */
  lemma RoomTryNewExamples()
    ensures Room.TryNew(Id("romm1"), PlayerCount(5), WolfCount(4), Id("player1"), [], TalkMinutes(3), ThemeKind("theme1")).Ok?
    ensures Room.TryNew(Id("romm2"), PlayerCount(5), WolfCount(5), Id("player2"), [], TalkMinutes(4), ThemeKind("theme2")).Err?
  {
  }

  /** The message when the repository finds no theme of the room's kind. */
  function NoThemesMessage(kind: ThemeKind): (m: string)
    ensures (forall i :: 0 <= i < |kind.raw| ==> Format.Plain(kind.raw[i])) ==>
      m == "themes of related of " + ("ThemeKind(\"" + kind.raw + "\")") + " does not exists"
  {
    "themes of related of " + kind.Debug() + " does not exists"
  }

  /** The message when the repository fails. */
  function ThemeLookupFailedMessage(kind: ThemeKind): (m: string)
    ensures (forall i :: 0 <= i < |kind.raw| ==> Format.Plain(kind.raw[i])) ==>
      m == "not found themes by search theme_kind:" + ("ThemeKind(\"" + kind.raw + "\")")
  {
    "not found themes by search theme_kind:" + kind.Debug()
  }

  /** The split `start_talk` makes of the shuffled players: the first
      `wolfCount` become wolves, the rest citizens, and the two sides get the
      two words of a single `choice_word` draw. */
  function Partition(shuffled: seq<Id<Player>>, wolfCount: nat, theme: Theme, draw: bool): (groups: (WolfGroup, CitizenGroup))
    requires wolfCount <= |shuffled|
    ensures groups.0.group.players + groups.1.group.players == shuffled
    ensures |groups.0.group.players| == wolfCount
    ensures multiset{groups.0.group.word, groups.1.group.word} == multiset{theme.first, theme.second}
    ensures (groups.0.group.word, groups.1.group.word) == theme.ChoiceWord(draw)
  {
    var words := theme.ChoiceWord(draw);
    (WolfGroup.New(shuffled[..wolfCount], words.0), CitizenGroup.New(shuffled[wolfCount..], words.1))
  }

  /** Every player of the room ends up on exactly one side, and the wolves
      are as many as the room asks for. */
  lemma PartitionSplitsRoomPlayers(room: Room, shuffled: seq<Id<Player>>, theme: Theme, draw: bool)
    requires multiset(shuffled) == multiset(room.allPlayers)
    requires room.wolfCount.rawCount <= |room.allPlayers|
    ensures |shuffled| == |room.allPlayers|
    ensures var groups := Partition(shuffled, room.wolfCount.rawCount, theme, draw);
      && multiset(groups.0.group.players + groups.1.group.players) == multiset(room.allPlayers)
      && |groups.0.group.players| == room.wolfCount.rawCount
      && |groups.1.group.players| == |room.allPlayers| - room.wolfCount.rawCount
  {
    assert |shuffled| == |room.allPlayers| by {
      assert |multiset(shuffled)| == |multiset(room.allPlayers)|;
    }
  }

  /** The `choose` of a theme succeeds and reaches the split of the players. */
  predicate FindsThemes(room: Room, findByKind: ThemeKind -> RepositoryResult<seq<Theme>>) {
    findByKind(room.themeKind).Ok? && |findByKind(room.themeKind).value| > 0
  }

  /** `RoomService::start_talk`. The room is only read. */
  method StartTalk(
    room: Room,
    findByKind: ThemeKind -> RepositoryResult<seq<Theme>>,
    themeIndex: nat,
    shuffled: seq<Id<Player>>,
    draw: bool,
    now: int,
    create: (Id<RoomTag>, Id<Theme>, int, WolfGroup, CitizenGroup) -> DomainResult<Talk>)
    returns (r: DomainResult<Talk>)
    requires FindsThemes(room, findByKind) ==> themeIndex < |findByKind(room.themeKind).value|
    requires multiset(shuffled) == multiset(room.allPlayers)
    // `drain(0..wolf_count)` panics on a shorter list of players.
    requires FindsThemes(room, findByKind) ==> room.wolfCount.rawCount <= |room.allPlayers|
    ensures findByKind(room.themeKind).Err? ==>
      r == Err(NewErrorWithSource(Fail, ThemeLookupFailedMessage(room.themeKind), findByKind(room.themeKind).error))
    ensures findByKind(room.themeKind).Ok? && findByKind(room.themeKind).value == [] ==>
      r == Err(NewError(Fail, NoThemesMessage(room.themeKind)))
    ensures FindsThemes(room, findByKind) ==>
      |shuffled| == |room.allPlayers| &&
      var theme := findByKind(room.themeKind).value[themeIndex];
      var groups := Partition(shuffled, room.wolfCount.rawCount, theme, draw);
      r == create(room.id, theme.id, room.talkTime.CalcEndedAt(now), groups.0, groups.1)
  {
    var found := findByKind(room.themeKind);
    if found.Err? {
      return Err(NewErrorWithSource(Fail, ThemeLookupFailedMessage(room.themeKind), found.error));
    }
    var themes := found.value;
    if |themes| == 0 {
      return Err(NewError(Fail, NoThemesMessage(room.themeKind)));
    }
    var theme := themes[themeIndex];
    assert |shuffled| == |room.allPlayers| by {
      assert |multiset(shuffled)| == |multiset(room.allPlayers)|;
    }
    var allPlayers := shuffled;
    var wolfs := allPlayers[..room.wolfCount.rawCount];
    allPlayers := allPlayers[room.wolfCount.rawCount..];
    var citizen := allPlayers;
    var (wolfWord, citizenWord) := theme.ChoiceWord(draw);
    var wolfGroup := WolfGroup.New(wolfs, wolfWord);
    var citizenGroup := CitizenGroup.New(citizen, citizenWord);
    var endedAt := room.talkTime.CalcEndedAt(now);
    r := create(room.id, theme.id, endedAt, wolfGroup, citizenGroup);
  }

  /** The first case of `room_start_talk_works`, with the shuffle the test's
      `StepRng` produces given as the input order: of five players the first
      two of the shuffled order are the wolves and get the theme's second
      word ("foo"); a talk started at 12:30:15 ends at 12:35:15. */
  lemma StartTalkExample()
    ensures var p1, p2, p3, p4, p5 := Id("player1"), Id("player2"), Id("player3"), Id("player4"), Id("player5");
      Partition([p2, p3, p4, p5, p1], 2, Theme(Id("theme1"), ThemeKind("theme_kind1"), Word("hoge"), Word("foo")), false)
      == (WolfGroup.New([p2, p3], Word("foo")), CitizenGroup.New([p4, p5, p1], Word("hoge")))
    ensures TalkMinutes(5).CalcEndedAt(12 * 3600 + 30 * 60 + 15) == 12 * 3600 + 35 * 60 + 15
  {
    var p1, p2, p3, p4, p5 := Id("player1"), Id("player2"), Id("player3"), Id("player4"), Id("player5");
    var shuffled: seq<Id<Player>> := [p2, p3, p4, p5, p1];
    assert shuffled[..2] == [p2, p3];
    assert shuffled[2..] == [p4, p5, p1];
  }

  /** The message of the kind "theme_kind1", which has no theme. */
  lemma NoThemesMessageExample()
    ensures NoThemesMessage(ThemeKind("theme_kind1"))
      == "themes of related of " + ("ThemeKind(\"" + "theme_kind1" + "\")") + " does not exists"
  {
    assert forall i :: 0 <= i < |"theme_kind1"| ==> Format.Plain("theme_kind1"[i]);
  }

  /** The case of `room_start_talk_works` whose repository finds no theme of
      the kind "theme_kind1": the talk is not created and the error names
      the kind. */
  method StartTalkNoThemeExample() returns (r: DomainResult<Talk>)
    ensures r == Err(NewError(Fail, "themes of related of " + ("ThemeKind(\"" + "theme_kind1" + "\")") + " does not exists"))
  {
    var players: seq<Id<Player>> := [Id("player1"), Id("player2"), Id("player3"), Id("player4"), Id("player5")];
    var kind := ThemeKind("theme_kind1");
    var room := Room(Id("room1"), PlayerCount(5), WolfCount(2), Id("player1"), players, TalkMinutes(5), kind);
    var findByKind: ThemeKind -> RepositoryResult<seq<Theme>> := k => Ok([]);
    var create: (Id<RoomTag>, Id<Theme>, int, WolfGroup, CitizenGroup) -> DomainResult<Talk> :=
      (roomId, themeId, endedAt, w, c) => Err(NewError(Fail, "not created"));
    r := StartTalk(room, findByKind, 0, players, false, 12 * 3600 + 30 * 60 + 15, create);
    NoThemesMessageExample();
  }
}
