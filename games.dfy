/** Model of `backend/mwwolf/src/domain/game.rs`: a game in progress, with
    its two groups and the ballot box its players vote into. The game is an
    object whose `vote` replaces its ballot box in place, so it is a class;
    everything else is a value. Timestamps are whole seconds. */
module Games {
  import opened Prelude
  import opened Errors
  import opened Ids
  import opened Themes
  import opened Players
  import Format
  import Rooms

  const SecondsPerMinute := 60

  const GameMinLimit := 1
  const GameMaxLimit := 60

  type GameMinuteRange = m: nat | GameMinLimit <= m <= GameMaxLimit witness GameMinLimit

  datatype GameMinutes = GameMinutes(minutes: GameMinuteRange) {

    /** `GameMinutes::try_new`: accepts 1 to 60 minutes; the error names the
        value and both limits. */
    static function TryNew(gameTimeMinutes: nat): (r: DomainResult<GameMinutes>)
      ensures r.Ok? <==> GameMinLimit <= gameTimeMinutes <= GameMaxLimit
      ensures r.Ok? ==> r.value.minutes == gameTimeMinutes
      ensures r.Err? ==> r.error == NewError(InvalidInput, Format.OutsideLimitsMessage(gameTimeMinutes, GameMinLimit, GameMaxLimit))
    {
      if !(GameMinLimit <= gameTimeMinutes <= GameMaxLimit) then
        Err(NewError(InvalidInput, Format.OutsideLimitsMessage(gameTimeMinutes, GameMinLimit, GameMaxLimit)))
      else
        Ok(GameMinutes(gameTimeMinutes))
    }

    /** `GameMinutes::calc_ended_at`: the start plus the game time. */
    function CalcEndedAt(startedAt: int): (endedAt: int)
      ensures endedAt - startedAt == minutes * SecondsPerMinute
      ensures startedAt < endedAt <= startedAt + GameMaxLimit * SecondsPerMinute
    {
      startedAt + minutes * SecondsPerMinute
    }
  }

  /** The tests of `game_time_try_minutes_works` and
      `game_time_calc_ended_at_works`. */
  lemma GameMinutesExamples()
    ensures GameMinutes.TryNew(1) == Ok(GameMinutes(1)) && GameMinutes.TryNew(60) == Ok(GameMinutes(60))
    ensures GameMinutes.TryNew(0).Err? && GameMinutes.TryNew(61).Err?
    ensures GameMinutes(3).CalcEndedAt(2 * 3600 + 30 * 60) == 2 * 3600 + 33 * 60
    ensures GameMinutes(5).CalcEndedAt(2 * 3600) == 2 * 3600 + 5 * 60
  {
  }

  datatype GameStatus = Talking | Voting | Ended {

    /** The `ToString` derive: the variant's own name. */
    function ToStr(): (s: string)
      ensures Talking? <==> s == "Talking"
      ensures Voting? <==> s == "Voting"
      ensures Ended? <==> s == "Ended"
    {
      match this
      case Talking => "Talking"
      case Voting => "Voting"
      case Ended => "Ended"
    }

    /** The `EnumString` derive: exactly the three names parse, each back to
        its own status. */
    static function FromStr(s: string): (r: Option<GameStatus>)
      ensures r.Some? ==> r.value.ToStr() == s
      ensures forall st: GameStatus :: st.ToStr() == s ==> r == Some(st)
    {
      if s == "Talking" then Some(Talking)
      else if s == "Voting" then Some(Voting)
      else if s == "Ended" then Some(Ended)
      else None
    }
  }

  datatype WolfGroup = WolfGroup(players: seq<Id<Player>>, word: Word) {

    /** `WolfGroup::new_with_added`: a copy with `id` appended; never fails. */
    function NewWithAdded(id: Id<Player>): (r: DomainResult<WolfGroup>)
      ensures r.Ok?
      ensures r.value.players == players + [id] && r.value.word == word
    {
      Ok(WolfGroup(players + [id], word))
    }
  }

  datatype CitizenGroup = CitizenGroup(players: seq<Id<Player>>, word: Word) {

    /** `CitizenGroup::new_with_added`: a copy with `id` appended; never fails. */
    function NewWithAdded(id: Id<Player>): (r: DomainResult<CitizenGroup>)
      ensures r.Ok?
      ensures r.value.players == players + [id] && r.value.word == word
    {
      Ok(CitizenGroup(players + [id], word))
    }
  }

  datatype VoteResult = VoteResult(isEnd: bool)

  datatype Vote = Vote(target: Id<Player>, voter: Id<Player>) {

    /** The derived `Debug`, as in `Vote { target: player1, voter: player2 }`
        (an id prints as its raw string). */
    function Debug(): string {
      "Vote { target: " + target.Display() + ", voter: " + voter.Display() + " }"
    }
  }

  /** The voters of `votes`, in voting order. */
  function Voters(votes: seq<Vote>): (voters: seq<Id<Player>>)
    ensures |voters| == |votes|
    ensures forall i :: 0 <= i < |votes| ==> voters[i] == votes[i].voter
    ensures forall p :: p in voters <==> HasVoted(votes, p)
  {
    seq(|votes|, i requires 0 <= i < |votes| => votes[i].voter)
  }

  /** Somebody in `votes` voted as `voter`. */
  predicate HasVoted(votes: seq<Vote>, voter: Id<Player>) {
    exists i :: 0 <= i < |votes| && votes[i].voter == voter
  }

  /** Nobody voted twice. */
  predicate DistinctVoters(votes: seq<Vote>) {
    NoDuplicates(Voters(votes))
  }

  /** The vote of the `already voted` case of `game_vote_works`, as its
      message writes it: the ids appear as their raw strings. */
  lemma AlreadyVotedMessageExample()
    ensures AlreadyVotedMessage(Vote(Id("player1"), Id("player2")))
      == "already voted in voter. vote:" + "Vote { target: " + "player1" + ", voter: " + "player2" + " }"
  {
  }

  /** The message of a rejected second vote. */
  function AlreadyVotedMessage(vote: Vote): string {
    "already voted in voter. vote:" + vote.Debug()
  }

  datatype VoteBox = VoteBox(votes: seq<Vote>) {

    /** `VoteBox::new_with_added`: a voter who is already in the box is
        refused; otherwise the vote is appended. So a box without a double
        vote never gets one. */
    function NewWithAdded(vote: Vote): (r: DomainResult<VoteBox>)
      ensures r.Err? <==> HasVoted(votes, vote.voter)
      ensures r.Err? ==> r.error == NewError(InvalidInput, AlreadyVotedMessage(vote))
      ensures r.Ok? ==> r.value.votes == votes + [vote]
      ensures r.Ok? && DistinctVoters(votes) ==> DistinctVoters(r.value.votes)
    {
      if exists i :: 0 <= i < |votes| && votes[i].voter == vote.voter then
        Err(NewError(InvalidInput, AlreadyVotedMessage(vote)))
      else
        var added := VoteBox(votes + [vote]);
        assert Voters(added.votes) == Voters(votes) + [vote.voter];
        Ok(added)
    }
  }

  /** The box after offering it the votes `ballots` one by one, as a
      sequence of `vote` calls in the voting phase does: refused votes
      leave it as it was. */
  function Replay(box: VoteBox, ballots: seq<Vote>): VoteBox
    decreases |ballots|
  {
    if ballots == [] then box
    else
      var next := match box.NewWithAdded(ballots[0]) case Ok(added) => added case Err(_) => box;
      Replay(next, ballots[1..])
  }

  /** However many votes are cast, nobody ends up in the box twice, and
      every vote in the box was either there before or cast. */
  lemma {:induction false} ReplayKeepsDistinctVoters(box: VoteBox, ballots: seq<Vote>)
    requires DistinctVoters(box.votes)
    ensures DistinctVoters(Replay(box, ballots).votes)
    ensures forall v :: v in Replay(box, ballots).votes ==> v in box.votes || v in ballots
    decreases |ballots|
  {
    if ballots != [] {
      var next := match box.NewWithAdded(ballots[0]) case Ok(added) => added case Err(_) => box;
      assert forall v :: v in next.votes ==> v in box.votes || v == ballots[0];
      ReplayKeepsDistinctVoters(next, ballots[1..]);
      assert forall v :: v in ballots[1..] ==> v in ballots;
    }
  }

  /** What `is_end` means. When the players of a game are distinct, nobody
      voted twice and only players vote, there are never more votes than
      players, and the count `vote` compares reaches the number of players
      exactly when every player has voted. */
  lemma VoteEndsWhenEveryPlayerVoted(players: seq<Id<Player>>, votes: seq<Vote>)
    requires NoDuplicates(players)
    requires DistinctVoters(votes)
    requires forall i :: 0 <= i < |votes| ==> votes[i].voter in players
    ensures |votes| <= |players|
    ensures |votes| == |players| <==> forall p :: p in players ==> HasVoted(votes, p)
  {
    var voters := Voters(votes);
    var voterSet := set x | x in voters;
    var playerSet := set x | x in players;
    DistinctElementCount(voters);
    DistinctElementCount(players);
    assert voterSet <= playerSet by {
      forall x | x in voterSet ensures x in playerSet {
        var i :| 0 <= i < |voters| && voters[i] == x;
        assert votes[i].voter in players;
      }
    }
    SubsetCount(voterSet, playerSet);
    if |votes| == |players| {
      forall p | p in players ensures HasVoted(votes, p) {
        assert p in voterSet;
        var i :| 0 <= i < |voters| && voters[i] == p;
        assert votes[i].voter == p;
      }
    }
    if forall p :: p in players ==> HasVoted(votes, p) {
      assert playerSet <= voterSet by {
        forall p | p in playerSet ensures p in voterSet {
          var i :| 0 <= i < |votes| && votes[i].voter == p;
          assert voters[i] == p;
        }
      }
      SubsetCount(playerSet, voterSet);
    }
  }

  class Game {
    const id: Id<Game>
    const roomId: Id<Rooms.Room>
    const themeId: Id<Theme>
    const endedAt: int
    const wolves: WolfGroup
    const citizen: CitizenGroup
    var voteBox: VoteBox
    const status: GameStatus

    /** The derived `Game::new`. */
    constructor (
      id: Id<Game>, roomId: Id<Rooms.Room>, themeId: Id<Theme>, endedAt: int,
      wolves: WolfGroup, citizen: CitizenGroup, voteBox: VoteBox, status: GameStatus)
      ensures this.id == id && this.roomId == roomId && this.themeId == themeId && this.endedAt == endedAt
      ensures this.wolves == wolves && this.citizen == citizen && this.voteBox == voteBox && this.status == status
    {
      this.id := id;
      this.roomId := roomId;
      this.themeId := themeId;
      this.endedAt := endedAt;
      this.wolves := wolves;
      this.citizen := citizen;
      this.voteBox := voteBox;
      this.status := status;
    }

    /** `Game::try_new`: `validate` accepts every game, so this always
        yields a new game holding the given fields. */
    static method TryNew(
      id: Id<Game>, roomId: Id<Rooms.Room>, themeId: Id<Theme>, endedAt: int,
      wolves: WolfGroup, citizen: CitizenGroup, voteBox: VoteBox, status: GameStatus)
      returns (r: DomainResult<Game>)
      ensures r.Ok? && fresh(r.value)
      ensures r.value.id == id && r.value.roomId == roomId && r.value.themeId == themeId && r.value.endedAt == endedAt
      ensures r.value.wolves == wolves && r.value.citizen == citizen && r.value.voteBox == voteBox && r.value.status == status
    {
      var game := new Game(id, roomId, themeId, endedAt, wolves, citizen, voteBox, status);
      var valid := game.Validate();
      match valid
      case Ok(_) => r := Ok(game);
      case Err(e) => r := Err(e);
    }

    /** `Game::validate` checks nothing. */
    function Validate(): (r: DomainResult<()>)
      ensures r.Ok?
    {
      Ok(())
    }

    /** Every player of the game, wolves first. */
    function AllPlayers(): (players: seq<Id<Player>>)
      reads this
      ensures |players| == |wolves.players| + |citizen.players|
      ensures forall p :: p in players <==> p in wolves.players || p in citizen.players
      ensures players[..|wolves.players|] == wolves.players && players[|wolves.players|..] == citizen.players
    {
      wolves.players + citizen.players
    }

    /** `Game::all_player_count`. */
    function AllPlayerCount(): (n: nat)
      reads this
      ensures n == |AllPlayers()|
    {
      |wolves.players| + |citizen.players|
    }

    /** The invariant `vote` keeps: nobody is in the box twice. */
    predicate Valid()
      reads this
    {
      DistinctVoters(voteBox.votes)
    }

    /** `Game::vote`. Outside the voting phase, and for a voter already in
        the box, the vote is refused and the box is left as it was;
        otherwise it is appended and the result says whether the box now
        holds as many votes as the game has players. */
    method CastVote(vote: Vote) returns (r: DomainResult<VoteResult>)
      modifies this
      ensures status != Voting ==> r == Err(NewError(Fail, "game status is not voting")) && voteBox == old(voteBox)
      ensures status == Voting && HasVoted(old(voteBox.votes), vote.voter) ==>
        r == Err(NewError(InvalidInput, AlreadyVotedMessage(vote))) && voteBox == old(voteBox)
      ensures status == Voting && !HasVoted(old(voteBox.votes), vote.voter) ==>
        voteBox.votes == old(voteBox.votes) + [vote] && r == Ok(VoteResult(AllPlayerCount() == |voteBox.votes|))
      ensures old(Valid()) ==> Valid()
    {
      if status != Voting {
        return Err(NewError(Fail, "game status is not voting"));
      }
      var added := voteBox.NewWithAdded(vote);
      if added.Err? {
        return Err(added.error);
      }
      voteBox := added.value;
      r := Ok(VoteResult(AllPlayerCount() == |voteBox.votes|));
    }
  }

  /** The four cases of `game_vote_works`: one game of two players, voting
      from different boxes and statuses. Each case gives the result of the
      vote and the box the game holds afterwards. */
  method GameVoteExamples() returns (results: seq<DomainResult<VoteResult>>, boxes: seq<VoteBox>)
    ensures results == [
      Ok(VoteResult(false)),
      Ok(VoteResult(true)),
      Err(NewError(Fail, "game status is not voting")),
      Err(NewError(InvalidInput, AlreadyVotedMessage(Vote(Id("player1"), Id("player2")))))]
    ensures boxes == [
      VoteBox([Vote(Id("player1"), Id("player2"))]),
      VoteBox([Vote(Id("player2"), Id("player1")), Vote(Id("player1"), Id("player2"))]),
      VoteBox([]),
      VoteBox([Vote(Id("player1"), Id("player2"))])]
  {
    var p1: Id<Player>, p2: Id<Player> := Id("player1"), Id("player2");
    var wolves, citizen := WolfGroup([p1], Word("word1")), CitizenGroup([p2], Word("word2"));

    var first := new Game(Id("game1"), Id("room_id"), Id("theme"), 0, wolves, citizen, VoteBox([]), Voting);
    var r1 := first.CastVote(Vote(p1, p2));
    assert first.voteBox == VoteBox([Vote(p1, p2)]);

    var last := new Game(Id("game1"), Id("room_id"), Id("theme"), 0, wolves, citizen, VoteBox([Vote(p2, p1)]), Voting);
    var r2 := last.CastVote(Vote(p1, p2));
    assert last.voteBox == VoteBox([Vote(p2, p1), Vote(p1, p2)]);

    var ended := new Game(Id("game1"), Id("room_id"), Id("theme"), 0, wolves, citizen, VoteBox([]), Ended);
    var r3 := ended.CastVote(Vote(p1, p2));

    var again := new Game(Id("game1"), Id("room_id"), Id("theme"), 0, wolves, citizen, VoteBox([Vote(p1, p2)]), Voting);
    assert HasVoted(again.voteBox.votes, p2) by {
      assert again.voteBox.votes[0].voter == p2;
    }
    var r4 := again.CastVote(Vote(p1, p2));

    results := [r1, r2, r3, r4];
    boxes := [first.voteBox, last.voteBox, ended.voteBox, again.voteBox];
  }
}
