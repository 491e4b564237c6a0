/** The engine's plain structs, and what a history of matches says about a player. */
module SwissTypes {
  import opened Wrappers

  /** A UUID: only equality and an arbitrary fixed order are ever used. */
  type Id = int

  datatype Player = Player(id: Id, displayName: string, dropped: bool)

  datatype Score = Score(p1Games: int, p2Games: int, draws: int)

  /** `player2 == None` is a bye; `result == None` is an unreported match. */
  datatype Match = Match(player1: Id, player2: Option<Id>, result: Option<Score>)

  datatype Pairing = Pairing(tableNumber: nat, player1: Id, player2: Option<Id>)

  /** No element occurs twice. */
  ghost predicate NoDuplicates<T(!new)>(s: seq<T>) {
    forall x :: multiset(s)[x] <= 1
  }

  function Ids(players: seq<Player>): seq<Id> {
    seq(|players|, i requires 0 <= i < |players| => players[i].id)
  }

  ghost predicate DistinctIds(players: seq<Player>) {
    NoDuplicates(Ids(players))
  }

  /** Who is still in the tournament, in roster order. */
  function ActiveIds(players: seq<Player>): seq<Id> {
    if players == [] then []
    else
      var front := players[..|players| - 1];
      var last := players[|players| - 1];
      ActiveIds(front) + if last.dropped then [] else [last.id]
  }

  /** 3 points for a bye or a win, 1 each for a draw, nothing when unreported. */
  function PointsFromMatch(m: Match, id: Id): nat {
    if m.result.None? then 0
    else if m.player2.None? || m.result.value.p1Games > m.result.value.p2Games then
      if m.player1 == id then 3 else 0
    else if m.result.value.p2Games > m.result.value.p1Games then
      if m.player2.value == id then 3 else 0
    else
      (if m.player1 == id then 1 else 0) + (if m.player2.value == id then 1 else 0)
  }

  function MatchPoints(history: seq<Match>, id: Id): nat {
    if history == [] then 0
    else MatchPoints(history[..|history| - 1], id) + PointsFromMatch(history[|history| - 1], id)
  }

  /** Ordered pairs of players who have met, both ways round. */
  ghost function Met(history: seq<Match>): set<(Id, Id)> {
    (set m | m in history && m.player2.Some? :: (m.player1, m.player2.value))
    + (set m | m in history && m.player2.Some? :: (m.player2.value, m.player1))
  }

  ghost predicate HadBye(history: seq<Match>, id: Id) {
    exists m :: m in history && m.player2.None? && m.player1 == id
  }

  lemma {:induction false} ActiveIdsAreRosterIds(players: seq<Player>)
    ensures forall id :: id in ActiveIds(players) <==> exists p :: p in players && !p.dropped && p.id == id
  {
    if players != [] {
      var front := players[..|players| - 1];
      ActiveIdsAreRosterIds(front);
      assert players == front + [players[|players| - 1]];
    }
  }

  /** Dropping players only takes ids away. */
  lemma {:induction false} ActiveIdsDistinct(players: seq<Player>)
    requires DistinctIds(players)
    ensures NoDuplicates(ActiveIds(players))
  {
    ActiveIdsWithinRoster(players);
    assert forall x :: multiset(Ids(players))[x] <= 1;
  }

  lemma {:induction false} ActiveIdsWithinRoster(players: seq<Player>)
    ensures multiset(ActiveIds(players)) <= multiset(Ids(players))
  {
    if players != [] {
      var front := players[..|players| - 1];
      ActiveIdsWithinRoster(front);
      assert Ids(players) == Ids(front) + [players[|players| - 1].id];
    }
  }
}
