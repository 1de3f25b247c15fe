/** Model of `SelectionService::selection`
    (`backend/crates/v1/domain/src/selection.rs`): the tally of a talk's
    votes and the pick of the most voted players.

    The service works in two folds. The first counts the votes per target in
    a hash map; the second walks that map and keeps every target whose count
    reaches the highest count seen so far. The order in which the map is
    walked is not fixed by the program, so it is the input `order`, any
    enumeration of the map's keys. */
module Selection {
  import opened Prelude
  import opened Ids
  import opened DomainV1

  /** The number of votes for `target`. */
  function Count(votes: seq<Vote>, target: Id<Player>): (n: nat)
    ensures n <= |votes|
  {
    if votes == [] then 0
    else
      Count(votes[..|votes| - 1], target) + (if votes[|votes| - 1].to == target then 1 else 0)
  }

  /** A player's count is positive exactly when some vote is for them. */
  lemma {:induction false} CountPositive(votes: seq<Vote>, target: Id<Player>)
    ensures Count(votes, target) > 0 <==> exists i :: 0 <= i < |votes| && votes[i].to == target
    decreases |votes|
  {
    if votes != [] {
      var init := votes[..|votes| - 1];
      CountPositive(init, target);
      assert forall i :: 0 <= i < |init| ==> init[i] == votes[i];
    }
  }

  /** The players somebody voted for. */
  function Targets(votes: seq<Vote>): set<Id<Player>> {
    set i | 0 <= i < |votes| :: votes[i].to
  }

  /** One more vote adds one to its target's count and nothing to the others. */
  lemma CountSnoc(votes: seq<Vote>, vote: Vote, target: Id<Player>)
    ensures Count(votes + [vote], target) == Count(votes, target) + (if vote.to == target then 1 else 0)
  {
    assert (votes + [vote])[..|votes|] == votes;
  }

  /** A player got at least one vote exactly when counting finds one. */
  lemma TargetsAreCounted(votes: seq<Vote>, target: Id<Player>)
    ensures target in Targets(votes) <==> Count(votes, target) > 0
  {
    CountPositive(votes, target);
    if Count(votes, target) > 0 {
      var i :| 0 <= i < |votes| && votes[i].to == target;
      assert votes[i].to in Targets(votes);
    }
  }

  /** `target` got a vote and nobody got more. */
  predicate IsLeader(votes: seq<Vote>, target: Id<Player>) {
    target in Targets(votes) && forall other :: other in Targets(votes) ==> Count(votes, other) <= Count(votes, target)
  }

  /** The key at position `i` of `order` has at least the count of every key
      before it: the test the second fold applies, since its `max_count` is
      always the highest count seen so far. */
  predicate ReachesRunningMax(votes: seq<Vote>, order: seq<Id<Player>>, i: nat)
    requires i < |order|
  {
    forall k :: 0 <= k < i ==> Count(votes, order[k]) <= Count(votes, order[i])
  }

  /** The first fold: the hash map from each voted player to its count. */
  method CountVotes(votes: seq<Vote>) returns (counts: map<Id<Player>, nat>)
    ensures counts.Keys == Targets(votes)
    ensures forall t :: t in counts ==> counts[t] == Count(votes, t)
  {
    counts := map[];
    var i := 0;
    while i < |votes|
      invariant 0 <= i <= |votes|
      invariant counts.Keys == Targets(votes[..i])
      invariant forall t :: t in counts ==> counts[t] == Count(votes[..i], t)
    {
      var target := votes[i].to;
      ghost var prefix := votes[..i + 1];
      assert prefix[..i] == votes[..i];
      assert Targets(prefix) == Targets(votes[..i]) + {target} by {
        assert prefix[i].to == target;
      }
      if target in counts {
        counts := counts[target := counts[target] + 1];
      } else {
        TargetsAreCounted(votes[..i], target);
        counts := counts[target := 1];
      }
      i := i + 1;
    }
    assert votes[..i] == votes;
  }

  /** The keys the service's second fold keeps when it visits `order`: the
      first key always, and after it each key whose count is at least that
      of the last key kept, which is the fold's `max_count`. */
  function Walk(votes: seq<Vote>, order: seq<Id<Player>>): seq<Id<Player>>
    decreases |order|
  {
    if order == [] then []
    else
      var kept := Walk(votes, order[..|order| - 1]);
      var key := order[|order| - 1];
      if kept == [] || (|kept| > 0 && Count(votes, key) >= Count(votes, kept[|kept| - 1])) then kept + [key] else kept
  }

  /** The walk keeps something exactly when it visits something, and keeps
      only keys it visited. */
  lemma {:induction false} WalkShape(votes: seq<Vote>, order: seq<Id<Player>>)
    ensures Walk(votes, order) == [] <==> order == []
    ensures forall a :: 0 <= a < |Walk(votes, order)| ==> Walk(votes, order)[a] in order
    decreases |order|
  {
    if order != [] {
      var init := order[..|order| - 1];
      WalkShape(votes, init);
      assert forall x :: x in init ==> x in order;
    }
  }

  /** The walk keeps no key twice, since it visits none twice. */
  lemma {:induction false} WalkNoDuplicates(votes: seq<Vote>, order: seq<Id<Player>>)
    requires NoDuplicates(order)
    ensures NoDuplicates(Walk(votes, order))
    decreases |order|
  {
    if order != [] {
      var init := order[..|order| - 1];
      var key := order[|order| - 1];
      assert NoDuplicates(init) by {
        forall a, b | 0 <= a < b < |init| ensures init[a] != init[b] {
          assert init[a] == order[a] && init[b] == order[b];
        }
      }
      WalkNoDuplicates(votes, init);
      WalkShape(votes, init);
      assert key !in init by {
        forall a | 0 <= a < |init| ensures init[a] != key {
          assert init[a] == order[a];
        }
      }
    }
  }

  /** Along what the walk keeps, the counts never decrease. */
  lemma {:induction false} WalkNonDecreasing(votes: seq<Vote>, order: seq<Id<Player>>)
    ensures forall a, b :: 0 <= a < b < |Walk(votes, order)| ==> Count(votes, Walk(votes, order)[a]) <= Count(votes, Walk(votes, order)[b])
    decreases |order|
  {
    if order != [] {
      var prev := Walk(votes, order[..|order| - 1]);
      var key := order[|order| - 1];
      WalkNonDecreasing(votes, order[..|order| - 1]);
      if prev != [] && Count(votes, key) >= Count(votes, prev[|prev| - 1]) {
        assert forall a :: 0 <= a < |prev| ==> Count(votes, prev[a]) <= Count(votes, key) by {
          forall a | 0 <= a < |prev| ensures Count(votes, prev[a]) <= Count(votes, key) {
            if a < |prev| - 1 {
              assert Count(votes, prev[a]) <= Count(votes, prev[|prev| - 1]);
            }
          }
        }
        assert Walk(votes, order) == prev + [key];
      }
    }
  }

  /** The last key kept has the highest count of all keys visited. */
  lemma {:induction false} WalkLastIsMax(votes: seq<Vote>, order: seq<Id<Player>>)
    requires order != []
    ensures Walk(votes, order) != []
    ensures var kept := Walk(votes, order);
      forall k :: 0 <= k < |order| ==> Count(votes, order[k]) <= Count(votes, kept[|kept| - 1])
    decreases |order|
  {
    var init := order[..|order| - 1];
    var key := order[|order| - 1];
    var kept := Walk(votes, order);
    if init == [] {
      assert Walk(votes, init) == [];
      assert kept == [key];
    } else {
      WalkLastIsMax(votes, init);
      var prev := Walk(votes, init);
      var top := Count(votes, prev[|prev| - 1]);
      assert forall k :: 0 <= k < |init| ==> order[k] == init[k];
      assert forall k :: 0 <= k < |init| ==> Count(votes, order[k]) <= top;
      if Count(votes, key) >= top {
        assert kept == prev + [key];
      } else {
        assert kept == prev;
      }
    }
  }

  /** Visiting one more key does not change the running-maximum test of the
      keys before it. */
  lemma RunningMaxOfPrefix(votes: seq<Vote>, order: seq<Id<Player>>, i: nat)
    requires i < |order| - 1
    ensures ReachesRunningMax(votes, order, i) == ReachesRunningMax(votes, order[..|order| - 1], i)
  {
    assert forall k :: 0 <= k <= i ==> order[k] == order[..|order| - 1][k];
  }

  /** The key visited last is kept exactly when it reaches the running
      maximum. */
  lemma WalkKeepsLastIff(votes: seq<Vote>, order: seq<Id<Player>>)
    requires order != []
    ensures var key := order[|order| - 1];
      Walk(votes, order) == Walk(votes, order[..|order| - 1]) + [key] <==> ReachesRunningMax(votes, order, |order| - 1)
  {
    var init := order[..|order| - 1];
    var prev := Walk(votes, init);
    var key := order[|order| - 1];
    if init != [] {
      WalkShape(votes, init);
      WalkLastIsMax(votes, init);
      var last := prev[|prev| - 1];
      var m :| 0 <= m < |init| && init[m] == last;
      assert order[m] == last;
      assert forall k :: 0 <= k < |init| ==> order[k] == init[k];
      if Count(votes, key) < Count(votes, last) {
        assert |Walk(votes, order)| == |prev|;
      }
    }
  }

  /** A key is kept exactly when its count is at least that of every key
      visited before it. */
  lemma {:induction false} WalkKeepsRunningMaxes(votes: seq<Vote>, order: seq<Id<Player>>)
    requires NoDuplicates(order)
    ensures forall i :: 0 <= i < |order| ==> (order[i] in Walk(votes, order) <==> ReachesRunningMax(votes, order, i))
    decreases |order|
  {
    if order != [] {
      var init := order[..|order| - 1];
      var key := order[|order| - 1];
      var prev := Walk(votes, init);
      assert NoDuplicates(init) by {
        forall a, b | 0 <= a < b < |init| ensures init[a] != init[b] {
          assert init[a] == order[a] && init[b] == order[b];
        }
      }
      WalkKeepsRunningMaxes(votes, init);
      WalkShape(votes, init);
      WalkKeepsLastIff(votes, order);
      var kept := Walk(votes, order);
      assert kept == prev || kept == prev + [key];
      assert key !in prev by {
        forall a | 0 <= a < |prev| ensures prev[a] != key {
          var k :| 0 <= k < |init| && init[k] == prev[a];
          assert init[k] == order[k];
        }
      }
      forall i | 0 <= i < |order|
        ensures order[i] in kept <==> ReachesRunningMax(votes, order, i)
      {
        if i < |init| {
          assert order[i] == init[i] != key;
          RunningMaxOfPrefix(votes, order, i);
          assert order[i] in kept <==> order[i] in prev;
        } else {
          assert order[i] == key;
          assert key in kept <==> kept == prev + [key];
        }
      }
    }
  }

  /** A leader's count is the highest of all, so it reaches every running
      maximum; and the walk visits it, since the walk visits every key. */
  lemma LeadersReachRunningMax(votes: seq<Vote>, order: seq<Id<Player>>)
    requires IsEnumeration(order, Targets(votes))
    ensures forall i :: 0 <= i < |order| && IsLeader(votes, order[i]) ==> ReachesRunningMax(votes, order, i)
    ensures forall t :: IsLeader(votes, t) ==> exists i :: 0 <= i < |order| && order[i] == t
  {
    forall t | IsLeader(votes, t) ensures exists i :: 0 <= i < |order| && order[i] == t {
      assert t in order;
    }
  }

  /** With one vote there is one target, and the walk visits only it. */
  lemma OneVoteOneTarget(votes: seq<Vote>, order: seq<Id<Player>>)
    requires |votes| == 1
    requires IsEnumeration(order, Targets(votes))
    ensures order == [votes[0].to]
  {
    assert Targets(votes) == {votes[0].to};
    assert votes[0].to in order;
    SingletonEnumeration(order, votes[0].to);
  }

  /** A sequence without repeats whose every element is `x` is `[x]`, if it
      holds `x` at all. */
  lemma SingletonEnumeration<T>(s: seq<T>, x: T)
    requires NoDuplicates(s)
    requires x in s
    requires forall i :: 0 <= i < |s| ==> s[i] == x
    ensures s == [x]
  {
    DistinctElementCount(s);
    assert (set y | y in s) == {x};
  }

  /** What the service's walk keeps, for any order the map may be walked in:
      exactly the keys that reach the running maximum, so every leader;
      voted players only, each once, in non-decreasing count, ending on the
      highest count; nothing for no votes, something otherwise, and the one
      target of a single vote. */
  lemma WalkProperties(votes: seq<Vote>, order: seq<Id<Player>>)
    requires IsEnumeration(order, Targets(votes))
    ensures var r := Walk(votes, order);
      && (forall i :: 0 <= i < |order| ==> (order[i] in r <==> ReachesRunningMax(votes, order, i)))
      && (forall t :: IsLeader(votes, t) ==> t in r)
      && (forall a :: 0 <= a < |r| ==> r[a] in Targets(votes))
      && NoDuplicates(r)
      && (forall a, b :: 0 <= a < b < |r| ==> Count(votes, r[a]) <= Count(votes, r[b]))
      && (r != [] ==> forall t :: t in Targets(votes) ==> Count(votes, t) <= Count(votes, r[|r| - 1]))
      && (votes == [] <==> r == [])
      && (|votes| == 1 ==> r == [votes[0].to])
  {
    var r := Walk(votes, order);
    WalkShape(votes, order);
    WalkNoDuplicates(votes, order);
    WalkNonDecreasing(votes, order);
    WalkKeepsRunningMaxes(votes, order);
    LeadersReachRunningMax(votes, order);
    if order != [] {
      WalkLastIsMax(votes, order);
      forall t | t in Targets(votes) ensures Count(votes, t) <= Count(votes, r[|r| - 1]) {
        assert t in order;
      }
    }
    if votes != [] {
      assert votes[0].to in Targets(votes);
      assert votes[0].to in order;
    } else {
      assert Targets(votes) == {};
    }
    if |votes| == 1 {
      OneVoteOneTarget(votes, order);
      assert r[0] in order;
      assert |r| == 1;
    }
  }

  /** `SelectionService::selection`: the first fold counts, the second keeps
      what `Walk` keeps, whose properties `WalkProperties` states. */
  method Selection(votes: seq<Vote>, order: seq<Id<Player>>) returns (r: seq<Id<Player>>)
    requires IsEnumeration(order, Targets(votes))
    ensures r == Walk(votes, order)
  {
    var counts := CountVotes(votes);
    var maxCount := 0;
    r := [];
    var j := 0;
    while j < |order|
      invariant 0 <= j <= |order|
      invariant r == Walk(votes, order[..j])
      invariant r != [] ==> maxCount == Count(votes, r[|r| - 1])
    {
      var key := order[j];
      var count := counts[key];
      assert order[..j + 1][..j] == order[..j];
      if r == [] || (|r| > 0 && count >= maxCount) {
        r := r + [key];
        maxCount := count;
      }
      j := j + 1;
    }
    assert order[..j] == order;
  }

  /** The corrected second fold: a higher count than the current leaders'
      starts the result afresh and an equal count joins it. */
  function LeaderWalk(votes: seq<Vote>, order: seq<Id<Player>>): seq<Id<Player>>
    decreases |order|
  {
    if order == [] then []
    else
      var kept := LeaderWalk(votes, order[..|order| - 1]);
      var key := order[|order| - 1];
      if kept == [] || Count(votes, key) > Count(votes, kept[0]) then [key]
      else if Count(votes, key) == Count(votes, kept[0]) then kept + [key]
      else kept
  }

  /** The corrected walk keeps exactly the visited keys of highest count. */
  lemma {:induction false} LeaderWalkKeepsMaxima(votes: seq<Vote>, order: seq<Id<Player>>)
    ensures var kept := LeaderWalk(votes, order);
      && (kept == [] <==> order == [])
      && (forall a :: 0 <= a < |kept| ==> kept[a] in order && Count(votes, kept[a]) == Count(votes, kept[0]))
      && (kept != [] ==> forall k :: 0 <= k < |order| ==> Count(votes, order[k]) <= Count(votes, kept[0]))
      && (kept != [] ==> forall k :: 0 <= k < |order| && Count(votes, order[k]) == Count(votes, kept[0]) ==> order[k] in kept)
    decreases |order|
  {
    if order != [] {
      var init := order[..|order| - 1];
      LeaderWalkKeepsMaxima(votes, init);
      assert forall k :: 0 <= k < |init| ==> order[k] == init[k];
      assert forall x :: x in init ==> x in order;
    }
  }

  /** ... and keeps none of them twice. */
  lemma {:induction false} LeaderWalkNoDuplicates(votes: seq<Vote>, order: seq<Id<Player>>)
    requires NoDuplicates(order)
    ensures NoDuplicates(LeaderWalk(votes, order))
    decreases |order|
  {
    if order != [] {
      var init := order[..|order| - 1];
      var key := order[|order| - 1];
      assert NoDuplicates(init) by {
        forall a, b | 0 <= a < b < |init| ensures init[a] != init[b] {
          assert init[a] == order[a] && init[b] == order[b];
        }
      }
      LeaderWalkNoDuplicates(votes, init);
      LeaderWalkKeepsMaxima(votes, init);
      assert key !in init by {
        forall a | 0 <= a < |init| ensures init[a] != key {
          assert init[a] == order[a];
        }
      }
    }
  }

  /** Walking any enumeration of the voted players, the corrected walk
      returns each leader once and nobody else. */
  lemma LeaderWalkIsLeaders(votes: seq<Vote>, order: seq<Id<Player>>)
    requires IsEnumeration(order, Targets(votes))
    ensures forall t :: t in LeaderWalk(votes, order) <==> IsLeader(votes, t)
    ensures NoDuplicates(LeaderWalk(votes, order))
    ensures votes != [] ==> LeaderWalk(votes, order) != []
  {
    var r := LeaderWalk(votes, order);
    LeaderWalkKeepsMaxima(votes, order);
    LeaderWalkNoDuplicates(votes, order);
    forall t ensures t in r <==> IsLeader(votes, t) {
      if t in r {
        forall other | other in Targets(votes) ensures Count(votes, other) <= Count(votes, t) {
          assert other in order;
        }
      }
      if IsLeader(votes, t) {
        assert t in order;
        var k :| 0 <= k < |order| && order[k] == t;
        assert r[0] in Targets(votes);
      }
    }
    if votes != [] {
      assert votes[0].to in Targets(votes);
      assert votes[0].to in order;
    }
  }

  /** The corrected selection: the players with the most votes, each once,
      whatever order the map is walked in. */
  method Leaders(votes: seq<Vote>, order: seq<Id<Player>>) returns (r: seq<Id<Player>>)
    requires IsEnumeration(order, Targets(votes))
    ensures forall t :: t in r <==> IsLeader(votes, t)
    ensures NoDuplicates(r)
    ensures votes != [] ==> r != []
  {
    var counts := CountVotes(votes);
    var maxCount := 0;
    r := [];
    var j := 0;
    while j < |order|
      invariant 0 <= j <= |order|
      invariant r == LeaderWalk(votes, order[..j])
      invariant r != [] ==> maxCount == Count(votes, r[0])
    {
      var key := order[j];
      var count := counts[key];
      assert order[..j + 1][..j] == order[..j];
      if r == [] || count > maxCount {
        r := [key];
        maxCount := count;
      } else if count == maxCount {
        r := r + [key];
      }
      j := j + 1;
    }
    assert order[..j] == order;
    LeaderWalkIsLeaders(votes, order);
  }

  /** The votes of the case `multi_vote_multi_result`: player1 and player2
      get two votes each and player3 one. */
  function MultiVoteCase(): seq<Vote> {
    var talk := Id("talk1");
    [Vote(Id("vote1"), talk, Id("player1"), Id("player2")),
     Vote(Id("vote2"), talk, Id("player1"), Id("player3")),
     Vote(Id("vote3"), talk, Id("player2"), Id("player4")),
     Vote(Id("vote4"), talk, Id("player2"), Id("player5")),
     Vote(Id("vote5"), talk, Id("player3"), Id("player6"))]
  }

  /** The tally of `multi_vote_multi_result`. */
  lemma MultiVoteCaseTally()
    ensures Targets(MultiVoteCase()) == {Id("player1"), Id("player2"), Id("player3")}
    ensures Count(MultiVoteCase(), Id("player1")) == 2
    ensures Count(MultiVoteCase(), Id("player2")) == 2
    ensures Count(MultiVoteCase(), Id("player3")) == 1
  {
    var votes := MultiVoteCase();
    assert votes[0].to == Id("player1") && votes[2].to == Id("player2") && votes[4].to == Id("player3");
    assert votes[..1] == [] + [votes[0]];
    assert votes[..1] + [votes[1]] == votes[..2];
    assert votes[..2] + [votes[2]] == votes[..3];
    assert votes[..3] + [votes[3]] == votes[..4];
    assert votes[..4] + [votes[4]] == votes;
    forall p: Id<Player> ensures Count(votes, p) ==
      (if votes[0].to == p then 1 else 0) + (if votes[1].to == p then 1 else 0) + (if votes[2].to == p then 1 else 0)
      + (if votes[3].to == p then 1 else 0) + (if votes[4].to == p then 1 else 0)
    {
      CountSnoc([], votes[0], p);
      CountSnoc(votes[..1], votes[1], p);
      CountSnoc(votes[..2], votes[2], p);
      CountSnoc(votes[..3], votes[3], p);
      CountSnoc(votes[..4], votes[4], p);
    }
  }

  /** In `multi_vote_multi_result`, when the map is walked from player3 the
      service keeps player3, who is not a leader, which the expected
      `[player1, player2]` does not allow; the corrected walk keeps the
      two leaders only. */
  lemma SelectionKeepsEarlyNonLeader()
    ensures var order: seq<Id<Player>> := [Id("player3"), Id("player1"), Id("player2")];
      && IsEnumeration(order, Targets(MultiVoteCase()))
      && Walk(MultiVoteCase(), order) == order
      && !IsLeader(MultiVoteCase(), Id("player3"))
      && LeaderWalk(MultiVoteCase(), order) == [Id("player1"), Id("player2")]
  {
    var votes := MultiVoteCase();
    MultiVoteCaseTally();
    var p1, p2, p3: Id<Player> := Id("player1"), Id("player2"), Id("player3");
    var order: seq<Id<Player>> := [p3, p1, p2];
    assert [p3, p1][..1] == [p3];
    assert order[..2] == [p3, p1];
    assert Walk(votes, [p3]) == [p3] by {
      assert [p3][..0] == [];
    }
    assert Walk(votes, [p3, p1]) == [p3, p1];
    assert Walk(votes, order) == order;
    assert LeaderWalk(votes, [p3]) == [p3] by {
      assert [p3][..0] == [];
    }
    assert LeaderWalk(votes, [p3, p1]) == [p1];
    assert LeaderWalk(votes, order) == [p1, p2];
    assert !IsLeader(votes, p3) by {
      assert p1 in Targets(votes);
    }
  }
}
