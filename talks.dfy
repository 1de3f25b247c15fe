/** Model of `backend/mwwolf/src/domain/talk.rs`: the talk phase a room
    starts, with its end time and its two groups. Timestamps are whole
    seconds. */
module Talks {
  import opened Prelude
  import opened Errors
  import opened Ids
  import opened Themes
  import opened Players
  import Format

  const SecondsPerMinute := 60

  const TalkMinLimit := 1
  const TalkMaxLimit := 60

  type TalkMinuteRange = m: nat | TalkMinLimit <= m <= TalkMaxLimit witness TalkMinLimit

  datatype TalkMinutes = TalkMinutes(minutes: TalkMinuteRange) {

    /** `TalkMinutes::try_new`: accepts 1 to 60 minutes; the error names the
        value and both limits. */
    static function TryNew(talkTimeMinutes: nat): (r: DomainResult<TalkMinutes>)
      ensures r.Ok? <==> TalkMinLimit <= talkTimeMinutes <= TalkMaxLimit
      ensures r.Ok? ==> r.value.minutes == talkTimeMinutes
      ensures r.Err? ==> r.error == NewError(InvalidInput, Format.OutsideLimitsMessage(talkTimeMinutes, TalkMinLimit, TalkMaxLimit))
    {
      if !(TalkMinLimit <= talkTimeMinutes <= TalkMaxLimit) then
        Err(NewError(InvalidInput, Format.OutsideLimitsMessage(talkTimeMinutes, TalkMinLimit, TalkMaxLimit)))
      else
        Ok(TalkMinutes(talkTimeMinutes))
    }

    /** `TalkMinutes::calc_ended_at`: the start plus the talk time. */
    function CalcEndedAt(startedAt: int): (endedAt: int)
      ensures endedAt - startedAt == minutes * SecondsPerMinute
      ensures startedAt < endedAt <= startedAt + TalkMaxLimit * SecondsPerMinute
    {
      startedAt + minutes * SecondsPerMinute
    }
  }

  /** The tests of `talk_time_calc_ended_at_works`: 02:30:00 plus 3 minutes
      is 02:33:00 (times of day in seconds). */
  lemma TalkCalcEndedAtExample()
    ensures TalkMinutes(3).CalcEndedAt(2 * 3600 + 30 * 60) == 2 * 3600 + 33 * 60
  {
  }

  datatype TalkStatus = Started | Ended

  /** `Group`: the players of one side and the word they were given. */
  datatype Group = Group(players: seq<Id<Player>>, word: Word) {

    /** `Group::new_with_added`: a copy with `id` appended; never fails. */
    function NewWithAdded(id: Id<Player>): (r: DomainResult<Group>)
      ensures r.Ok?
      ensures r.value.players == players + [id] && r.value.word == word
    {
      var newGroup := Group(players + [id], word);
      Ok(newGroup)
    }
  }

  datatype WolfGroup = WolfGroup(group: Group) {

    /** `WolfGroup::new`. */
    static function New(players: seq<Id<Player>>, word: Word): (g: WolfGroup)
      ensures g.group.players == players && g.group.word == word
    {
      WolfGroup(Group(players, word))
    }

    /** `WolfGroup::new_with_added`: delegates to the group; never fails. */
    function NewWithAdded(id: Id<Player>): (r: DomainResult<WolfGroup>)
      ensures r.Ok?
      ensures r.value.group.players == group.players + [id] && r.value.group.word == group.word
    {
      match group.NewWithAdded(id)
      case Ok(added) => Ok(WolfGroup(added))
      case Err(e) => Err(e)
    }
  }

  datatype CitizenGroup = CitizenGroup(group: Group) {

    /** `CitizenGroup::new`. */
    static function New(players: seq<Id<Player>>, word: Word): (g: CitizenGroup)
      ensures g.group.players == players && g.group.word == word
    {
      CitizenGroup(Group(players, word))
    }

    /** `CitizenGroup::new_with_added`: delegates to the group; never fails. */
    function NewWithAdded(id: Id<Player>): (r: DomainResult<CitizenGroup>)
      ensures r.Ok?
      ensures r.value.group.players == group.players + [id] && r.value.group.word == group.word
    {
      match group.NewWithAdded(id)
      case Ok(added) => Ok(CitizenGroup(added))
      case Err(e) => Err(e)
    }
  }

  datatype Vote = Vote(target: Id<Player>, voter: Id<Player>)

  datatype VoteBox = VoteBox(votes: seq<Vote>)

  /** The room a talk belongs to is only named by its id here; `Rooms.Room`
      itself depends on this module. */
  datatype RoomTag = RoomTag

  datatype Talk = Talk(
    id: Id<Talk>,
    roomId: Id<RoomTag>,
    themeId: Id<Theme>,
    endedAt: int,
    wolves: WolfGroup,
    citizen: CitizenGroup,
    voteBox: VoteBox,
    status: TalkStatus)
  {
    /** `Talk::validate` checks nothing. */
    function Validate(): (r: DomainResult<()>)
      ensures r.Ok?
    {
      Ok(())
    }

    /** `Talk::try_new`: always succeeds, storing every field as given. */
    static function TryNew(
      id: Id<Talk>, roomId: Id<RoomTag>, themeId: Id<Theme>, endedAt: int,
      wolves: WolfGroup, citizen: CitizenGroup, voteBox: VoteBox, status: TalkStatus): (r: DomainResult<Talk>)
      ensures r.Ok?
      ensures r.value.id == id && r.value.roomId == roomId && r.value.themeId == themeId
      ensures r.value.endedAt == endedAt && r.value.wolves == wolves && r.value.citizen == citizen
      ensures r.value.voteBox == voteBox && r.value.status == status
    {
      var talk := Talk(id, roomId, themeId, endedAt, wolves, citizen, voteBox, status);
      match talk.Validate()
      case Ok(_) => Ok(talk)
      case Err(e) => Err(e)
    }
  }
}
