# Word-wolf domain and datastore codec, modelled in Dafny

This project models the core of the mwwolf "word-wolf" party game backend.
Players join a room. A talk starts with a few players secretly made wolves.
The wolves get one word of a theme and the citizens the other. Players then
vote for whom they suspect, and the most voted players are selected.

The model covers:

- **Value objects** (`ids.dfy`, `themes.dfy`, `players.dfy`): `Id<T>`,
  `ThemeKind`, `Word`, `Theme` with `choice_word`, `PlayerKind` and
  `PlayerName`. Each fallible constructor is a `Result`-returning function
  whose contract is its accept/reject rule.
- **Rooms** (`rooms.dfy`):
  - `Room` validation, which only checks `wolf_count < player_count`.
  - `RoomService::start_talk`, an imperative method. The theme repository
    and the talk factory are function parameters, and the clock is a
    timestamp. The three random draws are inputs: the theme index, the
    shuffled player order and the word-order bool.
- **Talks and games** (`talks.dfy`, `games.dfy`):
  - the minutes value objects and the groups.
  - `Game`, a class whose `vote_box` field `vote` updates in place. It is
    guarded by the game's status and by the one-vote-per-voter rule.
- **Selection** (`selection.dfy`): the v1 `SelectionService::selection`.
  - Its first fold counts votes into a map.
  - Its second fold walks that map in an order the program leaves to the
    hash map, so here the order is a parameter (any enumeration of the keys).
  - `Walk` is the specification of what the second fold keeps, and
    `WalkProperties` proves what holds for every order.
- **Datastore codec** (`values.dfy`, `entities.dfy`, `entity_util.dfy`,
  `theme_store.dfy`):
  - the tagged `Value` union with its `IntoValue`/`FromValue` conversions;
  - `Entity::new`;
  - `remove_value`;
  - the theme's `into_value`/`from_entity`.
  The datastore `Key`, timestamps and `f64` are opaque carried types.

Shared pieces:

- `prelude.dfy` holds `Option`, `Result` (used with `:-` as Rust's `?`),
  `Ordering` and two counting lemmas.
- `errors.dfy` holds the domain and repository errors, and the `Display` /
  `Debug` formatting the error messages use.

The v1 crate's `ThemeKind`, `Word`, `PlayerKind` and `PlayerName` check and
store exactly what the mwwolf ones do
(`backend/crates/v1/domain/src/theme.rs:6-34`, `backend/crates/v1/domain/src/player.rs:5-34`). `domain_v1.dfy` therefore reuses
those definitions and only declares the v1 records again.

Timestamps are whole seconds, and a minute adds 60. `usize` and `u32`
counts are `nat`. `i8` to `i64` are subset types of `int`.

## Model

| member | source | states |
|---|---|---|
| Errors.NewError | backend/mwwolf/src/domain/room.rs:122-128 | `DomainError::new`: the given kind and message, with no source |
| Errors.NewErrorWithSource | backend/mwwolf/src/domain/room.rs:151-158 | `DomainError::new_with_source`: the given kind and message, keeping the repository error as its source |
| Format.Digits | backend/mwwolf/src/domain/talk.rs:15-21 | the digits of a number in a base up to 16, none of them out of the base, with no leading zero |
| Format.DigitsRoundTrip | backend/mwwolf/src/domain/talk.rs:15-21 | the digits read back as the number they were written from |
| Format.Decimal | backend/mwwolf/src/domain/talk.rs:15-21 | `{}` of a `u32`: decimal digits with no leading zero that read back as the number |
| Format.DecimalExamples | backend/mwwolf/src/domain/talk.rs:11-21 | 0, 1, 60 and 61 are written "0", "1", "60" and "61" |
| Format.OutsideLimitsMessage | backend/mwwolf/src/domain/talk.rs:13-22 | the out-of-limits message begins with the rejected value and ends with the upper limit, each readable back from it |
| Format.OutsideLimitsMessageExample | backend/mwwolf/src/domain/game.rs:13-22 | the message for 61 minutes between the limits 1 and 60 |
| Format.LowerHex | backend/mwwolf/src/domain/room.rs:124-127 | the lower-case hexadecimal digits the `\u{…}` escape of `{:?}` writes, reading back as the code point |
| Format.EscapeDebug | backend/mwwolf/src/domain/room.rs:124-127 | `{:?}` writes a character as itself exactly when it is printable and not a quote or backslash; otherwise an escape starting with a backslash, which holds no unprintable character |
| Format.Escaped | backend/mwwolf/src/domain/room.rs:124-127 | the escaped characters of a string: at least as long, and with no unprintable character |
| Format.EscapedOfPlain | backend/mwwolf/src/domain/room.rs:124-127 | a string of plain characters is written unchanged |
| Format.DebugStr | backend/mwwolf/src/domain/room.rs:124-127 | `{:?}` of a string is between double quotes, and a string of plain characters is just quoted |
| Format.DebugStrPlainExample | backend/mwwolf/src/domain/room.rs:305-313 | `{:?}` of "theme_kind1" is that string between quotes |
| Format.DebugStrQuoteExample | backend/mwwolf/src/domain/room.rs:124-127 | a quote inside the string is written `\"` |
| Format.DebugStrControlExample | backend/mwwolf/src/domain/room.rs:124-127 | the control character U+0001 is written `\u{1}` |
| Ids.Id.New | backend/mwwolf/src/libmww/id.rs:15-17 | the new id's raw value is the given string |
| Ids.NewOfRawId | backend/mwwolf/src/libmww/id.rs:15-20 | `raw_id(Id::new(r)) == r`, and an id is rebuilt from its raw value |
| Ids.Id.Equals | backend/mwwolf/src/libmww/id.rs:35-41 | two ids are equal exactly when their raw strings are |
| Ids.IdEqualsExamples | backend/mwwolf/src/libmww/id.rs:87-99 | the `works_eq` cases: "hoge"="hoge", "hfoo"≠"hoge" |
| Ids.Id.Cmp | backend/mwwolf/src/libmww/id.rs:58-64 | `cmp` is `CompareStrings`, the lexicographic order of the raw strings; Equal exactly on equal ids |
| Ids.Id.PartialCmp | backend/mwwolf/src/libmww/id.rs:51-57 | `partial_cmp` is always `Some` of `cmp` |
| Ids.IdCmpIsTotalOrder | backend/mwwolf/src/libmww/id.rs:51-64 | the order of ids is antisymmetric and transitive, and gives the reverse when swapped |
| Ids.CompareStringsEqualIff | backend/mwwolf/src/libmww/id.rs:61-63 | string comparison gives Equal exactly on equal strings |
| Ids.CompareStringsAntisymmetric | backend/mwwolf/src/libmww/id.rs:61-63 | swapping the strings reverses the comparison |
| Ids.CompareStringsTransitive | backend/mwwolf/src/libmww/id.rs:61-63 | string comparison is transitive |
| Ids.Id.Clone | backend/mwwolf/src/libmww/id.rs:43-49 | the clone has the same raw value and equals the original |
| Ids.Id.Display | backend/mwwolf/src/libmww/id.rs:66-79 | `Display` and `Debug` write exactly the raw value |
| Ids.Id.IntoString | backend/mwwolf/src/libmww/id.rs:141-145 | `String::from(id)` is the raw id the id was made from |
| Themes.ThemeKind.TryNew | backend/mwwolf/src/domain/theme.rs:13-25 | fails with InvalidInput "kind should not be blank" iff the string is empty; otherwise stores it |
| Themes.ThemeKind.RawKind | backend/mwwolf/src/domain/theme.rs:7-11 | `raw_kind` returns a string that `try_new` accepts and turns back into this kind |
| Themes.Word.TryNew | backend/mwwolf/src/domain/theme.rs:27-41 | fails with InvalidInput "word should not be blank" iff the string is empty; otherwise stores it |
| Themes.Word.Raw | backend/mwwolf/src/infrastructure/datastore/theme.rs:83-87 | the `raw()` the datastore calls on a word (no definition of it is part of this model): a string `try_new` accepts and turns back into this word |
| Themes.ThemeKind.Debug | backend/mwwolf/src/domain/theme.rs:4-5 | the derived `Debug` writes `ThemeKind(…)` around the kind's `{:?}`, which is the kind between quotes when its characters are plain |
| Themes.Theme.ChoiceWord | backend/mwwolf/src/domain/theme.rs:51-58 | `(first, second)` when the draw is true and `(second, first)` otherwise; always the theme's two words, one from each slot |
| Themes.ChoiceWordStepRngExample | backend/mwwolf/src/domain/theme.rs:90-113 | the draw the tests' `StepRng` gives hands out `(second, first)` |
| Players.PlayerKind.ToStr | backend/mwwolf/src/domain/player.rs:3-9 | `Host` serializes to "host" and `Guest` to "guest", and nothing else does |
| Players.PlayerKind.FromStr | backend/mwwolf/src/domain/player.rs:3-9 | exactly "host" and "guest" parse, each back to its kind |
| Players.PlayerName.TryNew | backend/mwwolf/src/domain/player.rs:14-26 | fails with InvalidInput "name should not be blank" iff the name is empty; otherwise stores it unchanged |
| Players.PlayerName.IntoString | backend/crates/v1/domain/src/player.rs:16-20 | `String::from(name)` is a string that `try_new` turns back into the same name |
| Players.PlayerNameRoundTrip | backend/crates/v1/domain/src/player.rs:16-34 | for a non-empty string, `String::from(try_new(s).unwrap()) == s` |
| Players.PlayerNameExamples | backend/crates/v1/domain/src/player.rs:49-58 | the cases of `player_name_try_new_test` and `player_name_into_string` |
| Rooms.WolfCount.TryNew | backend/mwwolf/src/domain/room.rs:41-51 | fails with InvalidInput "raw_count should not be zero" iff the count is zero; otherwise stores it |
| Rooms.PlayerCount.TryNew | backend/mwwolf/src/domain/room.rs:11-21 | fails with InvalidInput "raw_player_count should not be zero" iff the count is zero; otherwise stores it |
| Rooms.PlayerCount.PartialCmp | backend/mwwolf/src/domain/room.rs:24-28 | comparing a player count with a wolf count compares the raw numbers, always `Some` |
| Rooms.PlayerCount.Eq | backend/mwwolf/src/domain/room.rs:30-34 | `eq` agrees with `partial_cmp` giving `Equal`, which is when the raw numbers are equal |
| Rooms.PlayerCount.Le | backend/mwwolf/src/domain/room.rs:89 | the derived `<=` holds exactly when the raw player count is at most the wolf count |
| Rooms.Room.Validate | backend/mwwolf/src/domain/room.rs:88-97 | accepts exactly when there are fewer wolves than players, with the "player_count must be bigger than wold count" error otherwise |
| Rooms.Room.TryNew | backend/mwwolf/src/domain/room.rs:65-86 | succeeds exactly when wolves < players, whatever the list of players, and stores every field |
| Rooms.RoomTryNewExamples | backend/mwwolf/src/domain/room.rs:373-421 | five players and four wolves make a room with nobody in it; five and five do not |
| Rooms.NoThemesMessage | backend/mwwolf/src/domain/room.rs:122-128 | the message for a kind with no theme, which for a plain kind names it as `ThemeKind("…")` |
| Rooms.ThemeLookupFailedMessage | backend/mwwolf/src/domain/room.rs:151-158 | the message for a failed lookup, which for a plain kind names it as `ThemeKind("…")` |
| Rooms.Partition | backend/mwwolf/src/domain/room.rs:132-138 | the wolves are the first `wolf_count` shuffled players and the citizens the rest, in order; the two words are one `choice_word` draw |
| Rooms.PartitionSplitsRoomPlayers | backend/mwwolf/src/domain/room.rs:130-135 | for a shuffle of the room's players, wolves followed by citizens is a permutation of the players, with `wolf_count` wolves |
| Rooms.StartTalk | backend/mwwolf/src/domain/room.rs:116-160 | a repository error becomes Fail "not found themes by search theme_kind:…" keeping the cause; no theme gives Fail "themes of related of … does not exists"; otherwise the factory gets the room id, the chosen theme's id, `now` plus the talk time and the partition |
| Rooms.NoThemesMessageExample | backend/mwwolf/src/domain/room.rs:313 | the message for the kind "theme_kind1" names it as `ThemeKind("theme_kind1")` |
| Rooms.StartTalkNoThemeExample | backend/mwwolf/src/domain/room.rs:297-315 | the `room_start_talk_works` case with no theme: Fail with "themes of related of ThemeKind(\"theme_kind1\") does not exists" |
| Rooms.StartTalkExample | backend/mwwolf/src/domain/room.rs:186-219 | the first `room_start_talk_works` case: wolves [player2, player3] with "foo", citizens the rest with "hoge", ending at 12:35:15 |
| Talks.TalkMinutes.TryNew | backend/mwwolf/src/domain/talk.rs:11-25 | succeeds iff 1 ≤ m ≤ 60; the error message names the value and both limits |
| Talks.TalkMinutes.CalcEndedAt | backend/mwwolf/src/domain/talk.rs:27-29 | the end is the start plus the minutes, so it lies within an hour after the start |
| Talks.TalkCalcEndedAtExample | backend/mwwolf/src/domain/talk.rs:211-226 | 02:30:00 plus three minutes is 02:33:00 |
| Talks.Group.NewWithAdded | backend/mwwolf/src/domain/talk.rs:129-135 | never fails; the players with the id appended and the same word |
| Talks.WolfGroup.New | backend/mwwolf/src/domain/talk.rs:100-103 | the group holds the given players and word |
| Talks.WolfGroup.NewWithAdded | backend/mwwolf/src/domain/talk.rs:105-107 | delegates to the group: never fails, the id appended, same word |
| Talks.CitizenGroup.New | backend/mwwolf/src/domain/talk.rs:113-116 | the group holds the given players and word |
| Talks.CitizenGroup.NewWithAdded | backend/mwwolf/src/domain/talk.rs:118-120 | delegates to the group: never fails, the id appended, same word |
| Talks.Talk.Validate | backend/mwwolf/src/domain/talk.rs:79-81 | accepts every talk |
| Talks.Talk.TryNew | backend/mwwolf/src/domain/talk.rs:51-73 | always succeeds and stores every field unchanged |
| Games.GameMinutes.TryNew | backend/mwwolf/src/domain/game.rs:11-25 | succeeds iff 1 ≤ m ≤ 60; the error message names the value and both limits |
| Games.GameMinutes.CalcEndedAt | backend/mwwolf/src/domain/game.rs:27-29 | the end is the start plus the minutes |
| Games.GameMinutesExamples | backend/mwwolf/src/domain/game.rs:219-248 | 1 and 60 accepted, 0 and 61 refused; 02:30 plus 3 minutes is 02:33 |
| Games.GameStatus.ToStr | backend/mwwolf/src/domain/game.rs:35-40 | the `ToString` of each status is its variant name, and no two share one |
| Games.GameStatus.FromStr | backend/mwwolf/src/domain/game.rs:35-40 | exactly the three names parse, each back to its status |
| Games.WolfGroup.NewWithAdded | backend/mwwolf/src/domain/game.rs:121-127 | never fails; the players with the id appended and the same word |
| Games.CitizenGroup.NewWithAdded | backend/mwwolf/src/domain/game.rs:135-141 | never fails; the players with the id appended and the same word |
| Games.Voters | backend/mwwolf/src/domain/game.rs:161 | a player is among the voters exactly when `any(|v| v.voter == p)` holds of the box; one voter per vote, in voting order |
| Games.Vote.Debug | backend/mwwolf/src/domain/game.rs:153-157 | the derived `Debug`, `Vote { target: …, voter: … }` with each id written as its raw string |
| Games.AlreadyVotedMessage | backend/mwwolf/src/domain/game.rs:162-165 | the message of a refused second vote: the fixed text followed by the vote's `Debug` |
| Games.AlreadyVotedMessageExample | backend/mwwolf/src/domain/game.rs:306-311 | the message for the vote of player2 for player1 writes both ids as their raw strings |
| Games.VoteBox.NewWithAdded | backend/mwwolf/src/domain/game.rs:159-171 | fails with InvalidInput "already voted in voter. vote:…" iff the voter is already in the box; otherwise the vote is appended, and a box without double votes keeps none |
| Games.ReplayKeepsDistinctVoters | backend/mwwolf/src/domain/game.rs:160-170 | after any number of votes, nobody is in the box twice, and every vote in it was there before or cast |
| Games.VoteEndsWhenEveryPlayerVoted | backend/mwwolf/src/domain/game.rs:86-95 | with distinct players, distinct voters and only players voting, the vote count never exceeds the player count and reaches it exactly when every player has voted |
| Games.Game.constructor | backend/mwwolf/src/domain/game.rs:42-52 | the derived `new` stores every field |
| Games.Game.TryNew | backend/mwwolf/src/domain/game.rs:55-77 | always succeeds with a new game holding the given fields |
| Games.Game.Validate | backend/mwwolf/src/domain/game.rs:97-99 | accepts every game |
| Games.Game.AllPlayers | backend/mwwolf/src/domain/game.rs:93-95 | the players of both groups, each one of a group, the wolves first and then the citizens |
| Games.Game.AllPlayerCount | backend/mwwolf/src/domain/game.rs:93-95 | the number of wolves plus the number of citizens |
| Games.Game.CastVote | backend/mwwolf/src/domain/game.rs:79-91 | outside Voting, Fail "game status is not voting"; a voter already in the box is refused, the box unchanged either way; otherwise the vote is appended and `is_end` says whether the box holds as many votes as there are players; distinct voters stay distinct |
| Games.GameVoteExamples | backend/mwwolf/src/domain/game.rs:250-322 | the four `game_vote_works` cases: the results `Ok(false)`, `Ok(true)`, the status error and the already-voted error, each with the box the test expects |
| Selection.Count | backend/crates/v1/domain/src/selection.rs:10-19 | the number of votes for a player, at most the number of votes |
| Selection.CountPositive | backend/crates/v1/domain/src/selection.rs:10-19 | a count is positive exactly when some vote names the player |
| Selection.CountSnoc | backend/crates/v1/domain/src/selection.rs:11-18 | one more vote adds one to its target's count and nothing to the others |
| Selection.TargetsAreCounted | backend/crates/v1/domain/src/selection.rs:10-19 | a player is a voted target exactly when its count is positive |
| Selection.CountVotes | backend/crates/v1/domain/src/selection.rs:10-19 | the first fold's map has exactly the voted players as keys, each mapped to its number of votes |
| Selection.WalkShape | backend/crates/v1/domain/src/selection.rs:23-29 | the second fold keeps something iff it visits something, and only keys it visited |
| Selection.WalkNoDuplicates | backend/crates/v1/domain/src/selection.rs:23-29 | it keeps no key twice |
| Selection.WalkNonDecreasing | backend/crates/v1/domain/src/selection.rs:24-26 | along what it keeps the counts never decrease |
| Selection.WalkLastIsMax | backend/crates/v1/domain/src/selection.rs:24-26 | the last key kept has the highest count of all visited keys |
| Selection.RunningMaxOfPrefix | backend/crates/v1/domain/src/selection.rs:21-26 | visiting another key leaves the running-maximum test of earlier keys as it was |
| Selection.WalkKeepsLastIff | backend/crates/v1/domain/src/selection.rs:24-26 | the key visited last is kept exactly when its count reaches the running maximum |
| Selection.WalkKeepsRunningMaxes | backend/crates/v1/domain/src/selection.rs:21-29 | a key is kept exactly when its count is at least that of every key visited before it |
| Selection.LeadersReachRunningMax | backend/crates/v1/domain/src/selection.rs:21-29 | a most voted player reaches every running maximum, and the walk visits it |
| Selection.OneVoteOneTarget | backend/crates/v1/domain/src/selection.rs:38-50 | with one vote, the map holds one key |
| Selection.SingletonEnumeration | backend/crates/v1/domain/src/selection.rs:23 | a repeat-free walk of a one-key map visits that key once |
| Selection.WalkProperties | backend/crates/v1/domain/src/selection.rs:9-30 | for every walk order: kept iff it reaches the running maximum; every most voted player kept; only voted players, each once; counts non-decreasing and ending on the maximum; empty iff no votes; one vote gives its target |
| Selection.Selection | backend/crates/v1/domain/src/selection.rs:9-30 | the service returns what `Walk` keeps, whose properties `WalkProperties` proves |
| Selection.LeaderWalkKeepsMaxima | backend/crates/v1/domain/src/selection.rs:21-29 | the corrected fold keeps exactly the visited keys of highest count |
| Selection.LeaderWalkNoDuplicates | backend/crates/v1/domain/src/selection.rs:21-29 | the corrected fold keeps no key twice |
| Selection.LeaderWalkIsLeaders | backend/crates/v1/domain/src/selection.rs:76-117 | for any walk order the corrected fold returns exactly the most voted players, each once, and something when there are votes |
| Selection.Leaders | backend/crates/v1/domain/src/selection.rs:9-30 | the corrected service: a player is in the result iff it is most voted; no repeats; non-empty for votes |
| Selection.MultiVoteCaseTally | backend/crates/v1/domain/src/selection.rs:76-113 | in `multi_vote_multi_result`, player1 and player2 have two votes and player3 one |
| Selection.SelectionKeepsEarlyNonLeader | backend/crates/v1/domain/src/selection.rs:24 | walked from player3, the fold keeps player3, who is not most voted; the corrected fold keeps [player1, player2] |
| Values.Value.TypeName | backend/crates/v1/infrastructure/src/datastore/proto_api/value.rs:35-50 | each variant has its own fixed tag: "bool", "integer", …, "array" |
| Values.TypeNameIdentifiesVariant | backend/crates/v1/infrastructure/src/datastore/proto_api/value.rs:36-49 | two values share a tag exactly when they are of the same variant |
| Values.ValueFromValue | backend/crates/v1/infrastructure/src/datastore/proto_api/value.rs:168-172 | decoding to `Value` is the identity |
| Values.ValueIntoValue | backend/crates/v1/infrastructure/src/datastore/proto_api/value.rs:60-64 | encoding a `Value` is the identity |
| Values.StringFromValue | backend/crates/v1/infrastructure/src/datastore/proto_api/value.rs:174-184 | succeeds iff the value is a string, giving back its payload; otherwise `UnexpectedPropertyType{"string", tag}` |
| Values.StringIntoValue | backend/crates/v1/infrastructure/src/datastore/proto_api/value.rs:66-76 | `String` and `&str` encode so that decoding gives the string back |
| Values.I64FromValue | backend/crates/v1/infrastructure/src/datastore/proto_api/value.rs:186-196 | succeeds iff the value is an integer; otherwise `UnexpectedPropertyType{"integer", tag}` |
| Values.I64IntoValue | backend/crates/v1/infrastructure/src/datastore/proto_api/value.rs:96-100 | decoding gives the integer back |
| Values.I32IntoValue | backend/crates/v1/infrastructure/src/datastore/proto_api/value.rs:90-94 | an `i32` becomes the integer of the same value |
| Values.I16IntoValue | backend/crates/v1/infrastructure/src/datastore/proto_api/value.rs:84-88 | an `i16` becomes the integer of the same value |
| Values.I8IntoValue | backend/crates/v1/infrastructure/src/datastore/proto_api/value.rs:78-82 | an `i8` becomes the integer of the same value |
| Values.F64FromValue | backend/crates/v1/infrastructure/src/datastore/proto_api/value.rs:198-208 | succeeds iff the value is a double; otherwise `UnexpectedPropertyType{"double", tag}` |
| Values.F64IntoValue | backend/crates/v1/infrastructure/src/datastore/proto_api/value.rs:108-112 | decoding gives the float back |
| Values.BoolFromValue | backend/crates/v1/infrastructure/src/datastore/proto_api/value.rs:210-220 | succeeds iff the value is a boolean; otherwise `UnexpectedPropertyType{"bool", tag}` |
| Values.BoolIntoValue | backend/crates/v1/infrastructure/src/datastore/proto_api/value.rs:114-118 | decoding gives the boolean back |
| Values.KeyFromValue | backend/crates/v1/infrastructure/src/datastore/proto_api/value.rs:222-232 | succeeds iff the value is a key; otherwise `UnexpectedPropertyType{"key", tag}` |
| Values.KeyIntoValue | backend/crates/v1/infrastructure/src/datastore/proto_api/value.rs:120-124 | decoding gives the key back |
| Values.TimestampFromValue | backend/crates/v1/infrastructure/src/datastore/proto_api/value.rs:234-244 | succeeds iff the value is a timestamp; otherwise `UnexpectedPropertyType{"timestamp", tag}` |
| Values.TimestampIntoValue | backend/crates/v1/infrastructure/src/datastore/proto_api/value.rs:126-130 | decoding gives the timestamp back |
| Values.BytesFromValue | backend/crates/v1/infrastructure/src/datastore/proto_api/value.rs:246-256 | succeeds iff the value is a blob; otherwise `UnexpectedPropertyType{"blob", tag}` |
| Values.BytesIntoValue | backend/crates/v1/infrastructure/src/datastore/proto_api/value.rs:132-136 | decoding gives the bytes back |
| Values.DecodeAll | backend/crates/v1/infrastructure/src/datastore/proto_api/value.rs:265-268 | collecting into `Result<Vec<T>>`: succeeds iff every element decodes, then element-wise in order; otherwise the error of the first element that fails |
| Values.VecFromValue | backend/crates/v1/infrastructure/src/datastore/proto_api/value.rs:258-277 | an array decodes as its elements do; any other variant gives `UnexpectedPropertyType{"array", tag}` |
| Values.VecIntoValue | backend/crates/v1/infrastructure/src/datastore/proto_api/value.rs:138-145 | an array of the encoded elements, same length and order |
| Values.VecRoundTrip | backend/crates/v1/infrastructure/src/datastore/proto_api/value.rs:138-145 | a vector encoded element-wise decodes back to itself when its elements do |
| Values.VecDecodeFailsOnFirstBadElement | backend/crates/v1/infrastructure/src/datastore/proto_api/value.rs:265-268 | an array with an element that fails decodes to the error of the first such element |
| Values.DecodedEntries | backend/crates/v1/infrastructure/src/datastore/proto_api/value.rs:286-292 | the decoded map has the same keys, each value decoded |
| Values.DecodeEntries | backend/crates/v1/infrastructure/src/datastore/proto_api/value.rs:286-292 | walking the entries: succeeds iff every entry decodes, otherwise the error of the first that fails |
| Values.MapFromValue | backend/crates/v1/infrastructure/src/datastore/proto_api/value.rs:279-301 | an entity decodes iff all its values do, to a map with the same keys; otherwise a decoding error of one of its values; any other variant gives `UnexpectedPropertyType{"entity", tag}` |
| Values.MapIntoValue | backend/crates/v1/infrastructure/src/datastore/proto_api/value.rs:147-154 | an entity with the same keys, each value encoded |
| Values.MapRoundTrip | backend/crates/v1/infrastructure/src/datastore/proto_api/value.rs:147-154 | a map encoded value-wise decodes back to itself for any walk order, when its values do |
| Values.ScalarConversionExamples | backend/crates/v1/infrastructure/src/datastore/proto_api/value.rs:174-220 | concrete round trips, and wrong-variant errors naming both tags |
| Entities.New | backend/mwwolf/src/infrastructure/datastore/proto_api/entity.rs:11-21 | succeeds iff the properties are an `Entity` map, storing key and properties; otherwise `UnexpectedPropertyType{"entity", tag}` |
| Entities.NewOfParts | backend/mwwolf/src/infrastructure/datastore/proto_api/entity.rs:23-37 | `key()` and `properties()` of an entity give back what `new` rebuilds it from |
| Entities.NewFromStringMap | backend/mwwolf/src/infrastructure/datastore/proto_api/entity.rs:12-15 | a map of strings always makes an entity of string properties with the same keys |
| Entities.Entity.IntoKey | backend/mwwolf/src/infrastructure/datastore/proto_api/entity.rs:23-29 | `into_key` and `key` give the entity's own key: with its properties it is the entity again |
| Entities.Entity.IntoProperties | backend/mwwolf/src/infrastructure/datastore/proto_api/entity.rs:31-37 | `into_properties` and `properties` give the entity's own properties, an `Entity` map for every entity `new` built |
| Entities.Entity.IntoEntity | backend/mwwolf/src/infrastructure/datastore/proto_api/entity.rs:51-55 | `into_entity` of an entity is the identity |
| Entities.PairIntoEntity | backend/mwwolf/src/infrastructure/datastore/proto_api/entity.rs:57-65 | `(k, v).into_entity()` is `Entity::new(k, v)` |
| EntityUtil.TakeProperty | backend/mwwolf/src/infrastructure/datastore/entity.rs:3-11 | a missing key gives `MissingProperty(key)`; a decoding error propagates; on success the map loses exactly that key (one entry fewer, others unchanged) and the value is the decoded entry |
| EntityUtil.RemoveValue | backend/mwwolf/src/infrastructure/datastore/entity.rs:3-11 | removing in place and decoding computes `TakeProperty` |
| EntityUtil.TakePropertyExample | backend/mwwolf/src/infrastructure/datastore/entity.rs:7-10 | a string taken out comes back; taking it out again finds it missing |
| ThemeStore.ThemeProperties | backend/mwwolf/src/infrastructure/datastore/theme.rs:74-91 | the stored properties are exactly kind, first and second, holding the theme's strings |
| ThemeStore.IntoValue | backend/mwwolf/src/infrastructure/datastore/theme.rs:74-91 | the three inserts build the `Entity` of those properties |
| ThemeStore.IntoEntity | backend/mwwolf/src/infrastructure/datastore/theme.rs:67-72 | always succeeds, with the key of the theme's id and the theme's properties |
| ThemeStore.FromEntity | backend/mwwolf/src/infrastructure/datastore/theme.rs:44-65 | non-entity properties give `UnexpectedPropertyType{"entity", tag}`; kind, first and second are read in that order, the first one missing or non-string giving its error; otherwise the theme of those strings under the key's id |
| ThemeStore.FromEntityOfIntoEntity | backend/mwwolf/src/infrastructure/datastore/theme.rs:44-91 | decoding what `into_entity` stores gives back the theme's kind and words, and the theme itself when the key conversion inverts the id's |
| ThemeStore.FromEntityExample | backend/mwwolf/src/infrastructure/datastore/theme.rs:130-144 | the entity of "kind_test", "first_word", "second_word" decodes to that theme |
| ThemeStore.FromEntityWrongTypeExample | backend/mwwolf/src/infrastructure/datastore/theme.rs:49 | a non-string kind is reported as `UnexpectedPropertyType{"string", "integer"}` |

## Left out

- I/O: `ThemeRepository::find_by_kind`, transactions and connection factories. The repository a caller needs is a function parameter of `StartTalk`.
- The `Key` ↔ `Id` conversions of `backend/mwwolf/src/infrastructure/datastore/id.rs`. They depend on the `Key` API, so `IntoEntity` and `FromEntity` take them as parameters.
- The random generators (`StepRng`, `thread_rng`, the rng factories). Their draws are inputs: the theme index, the shuffled order and the word-order bool. What `StepRng` actually outputs is not modelled.
- The clock and time zones. Timestamps are whole seconds, which `CalcEndedAt` adds the minutes to.
- `f32` and `f64` arithmetic. Floats are opaque, so `impl IntoValue for f32` (a widening cast) is not modelled.
- `From<ValueType> for Value` and `From<api::Entity> for Entity`. They use protobuf types that are not part of this model.
- `Entity::properties_mut`. It hands out a mutable reference and changes nothing itself.
- `Talk::vote`. It is `todo!()`.
- `backend/crates/v1/domain/src/room.rs`. It calls items the shown v1 definitions lack.
- The data-only vote, talk and use-case declarations. The v1 `Vote` shape appears only in the selection model.
- `error.rs`/`result.rs` of both crates are not part of this model. Errors are a kind, a message and an optional repository cause. `ConvertError` has the two cases this code produces.
- Integer widths of counts (`usize`, `u32`). They are unbounded `nat`.
- Selection.Selection: its contract is `Walk`, which says what the fold keeps for the given map order. Every property proved of it holds for every order (`WalkProperties`). The source's test expects exactly the most voted players, which this fold does not always give (see Findings).
- StartTalk: `drain(0..wolf_count)` panics when there are fewer players than wolves, so that case is a precondition.
- ThemeStore.FromEntity: the `unwrap` of `try_new` panics on an empty string, so non-empty strings are required once all three fields are read.
- Values.MapFromValue: which failing entry's error is returned depends on the hash map's order. The contract says it is the error of some entry, and `DecodeEntries` says it is the first in the given order.
- Format.EscapeDebug: follows Rust's printable-character table only up to U+00FF. Characters above it that Rust writes as `\u{…}`, such as unassigned code points and combining marks, are written as they are, because those Unicode tables are not modelled.
- The example lemmas state expected messages as concatenations of literals (`"themes of related of " + ("ThemeKind(\"" + "theme_kind1" + "\")") + …`) rather than as one literal, because the verifier does not join string literals by itself.

## Findings

| source | as written | input that shows it | evidently intended | confidence | as-written member | corrected member |
|---|---|---|---|---|---|---|
| backend/crates/v1/domain/src/selection.rs:24 | the second fold keeps each key whose count reaches the running maximum, so a key visited before a higher count stays in the result | the votes of `multi_vote_multi_result` (player1 ×2, player2 ×2, player3 ×1) with the map walked as player3, player1, player2 give [player3, player1, player2] | the most voted players only, [player1, player2], as that test expects | not executed; the outcome depends on the hash map's iteration order | Selection.SelectionKeepsEarlyNonLeader | Selection.Leaders |
