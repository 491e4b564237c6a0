/** Standings: tallies, floored tiebreaks, sorting and competition ranks. Floats are reals here. */
module SwissStandings {
  import opened Wrappers
  import opened SwissTypes
  import Sorting

  const TIEBREAK_FLOOR: real := 1.0 / 3.0
  const EPS: real := 0.000000001

  datatype Tally = Tally(matchPoints: nat, matches: nat, gamePoints: int, games: int, opponents: seq<Id>)

  datatype Standing = Standing(rank: nat, playerId: Id, displayName: string, dropped: bool,
                               matchPoints: nat, omwPercent: real, gwPercent: real, ogwPercent: real)

  const EMPTY := Tally(0, 0, 0, 0, [])

  // ---------------------------------------------------------------------
  // What one player's tally is, seen from that player
  // ---------------------------------------------------------------------

  /** A reported bye of a listed player, or a reported match between two listed players. */
  ghost predicate Counts(m: Match, roster: set<Id>) {
    m.result.Some? && m.player1 in roster && (m.player2.Some? ==> m.player2.value in roster)
  }

  /** One side of a played match: `own` games won against `theirs`. */
  function PlaySide(t: Tally, opponent: Id, own: int, theirs: int, draws: int): Tally {
    Tally(t.matchPoints + (if own > theirs then 3 else if own == theirs then 1 else 0),
          t.matches + 1,
          t.gamePoints + 3 * own + draws,
          t.games + own + theirs + draws,
          t.opponents + [opponent])
  }

  ghost function AddMatch(t: Tally, m: Match, id: Id): Tally
    requires m.result.Some?
  {
    var r := m.result.value;
    if m.player2.None? then
      if m.player1 == id then t.(matchPoints := t.matchPoints + 3, matches := t.matches + 1) else t
    else
      var asFirst := if m.player1 == id then PlaySide(t, m.player2.value, r.p1Games, r.p2Games, r.draws) else t;
      if m.player2.value == id then PlaySide(asFirst, m.player1, r.p2Games, r.p1Games, r.draws) else asFirst
  }

  ghost function TallyOf(roster: set<Id>, matches: seq<Match>, id: Id): Tally {
    if matches == [] then EMPTY
    else
      var t := TallyOf(roster, matches[..|matches| - 1], id);
      var m := matches[|matches| - 1];
      if Counts(m, roster) then AddMatch(t, m, id) else t
  }

  // ---------------------------------------------------------------------
  // Percentages
  // ---------------------------------------------------------------------

  function Max(x: real, y: real): real {
    if x > y then x else y
  }

  function MwFloored(t: Tally): real {
    if t.matches == 0 then TIEBREAK_FLOOR
    else Max(t.matchPoints as real / (3 * t.matches) as real, TIEBREAK_FLOOR)
  }

  function GwRaw(t: Tally): real {
    if t.games == 0 then 0.0 else t.gamePoints as real / (3 * t.games) as real
  }

  function GwFloored(t: Tally): real {
    Max(GwRaw(t), TIEBREAK_FLOOR)
  }

  ghost function Sum(ids: seq<Id>, f: Id -> real): real {
    if ids == [] then 0.0 else Sum(ids[..|ids| - 1], f) + f(ids[|ids| - 1])
  }

  /** 0 when there is nobody to average over. */
  ghost function Average(ids: seq<Id>, f: Id -> real): real {
    if ids == [] then 0.0 else Sum(ids, f) / |ids| as real
  }

  ghost function OpponentMw(roster: set<Id>, matches: seq<Match>): Id -> real {
    id => MwFloored(TallyOf(roster, matches, id))
  }

  ghost function OpponentGw(roster: set<Id>, matches: seq<Match>): Id -> real {
    id => GwFloored(TallyOf(roster, matches, id))
  }

  /** A player's row before it is ranked. */
  ghost function Row(roster: set<Id>, matches: seq<Match>, p: Player): Standing {
    var t := TallyOf(roster, matches, p.id);
    Standing(0, p.id, p.displayName, p.dropped, t.matchPoints,
             Average(t.opponents, OpponentMw(roster, matches)) * 100.0,
             GwRaw(t) * 100.0,
             Average(t.opponents, OpponentGw(roster, matches)) * 100.0)
  }

  ghost function Roster(players: seq<Player>): set<Id> {
    set p | p in players :: p.id
  }

  // ---------------------------------------------------------------------
  // Order and ranks
  // ---------------------------------------------------------------------

  /** Go's string order: lexicographic. */
  predicate StringLe(a: string, b: string) {
    a == [] || (b != [] && (a[0] < b[0] || (a[0] == b[0] && StringLe(a[1..], b[1..]))))
  }

  lemma {:induction false} StringLeTotal(a: string, b: string)
    ensures StringLe(a, b) || StringLe(b, a)
  {
    if a != [] && b != [] && a[0] == b[0] {
      StringLeTotal(a[1..], b[1..]);
    }
  }

  lemma {:induction false} StringLeTransitive(a: string, b: string, c: string)
    requires StringLe(a, b) && StringLe(b, c)
    ensures StringLe(a, c)
  {
    if a != [] && a[0] == b[0] && b[0] == c[0] {
      StringLeTransitive(a[1..], b[1..], c[1..]);
    }
  }

  /** `a` may stand above `b`: match points, OMW%, GW%, OGW%, all descending, then the name. */
  predicate Above(a: Standing, b: Standing) {
    if a.matchPoints != b.matchPoints then a.matchPoints > b.matchPoints
    else if a.omwPercent != b.omwPercent then a.omwPercent > b.omwPercent
    else if a.gwPercent != b.gwPercent then a.gwPercent > b.gwPercent
    else if a.ogwPercent != b.ogwPercent then a.ogwPercent > b.ogwPercent
    else StringLe(a.displayName, b.displayName)
  }

  lemma AboveIsTotal()
    ensures Sorting.TotalPreorder(Above)
  {
    forall a, b ensures Above(a, b) || Above(b, a) {
      StringLeTotal(a.displayName, b.displayName);
    }
    forall a, b, c | Above(a, b) && Above(b, c) ensures Above(a, c) {
      if StringLe(a.displayName, b.displayName) && StringLe(b.displayName, c.displayName) {
        StringLeTransitive(a.displayName, b.displayName, c.displayName);
      }
    }
  }

  function AbsDiff(a: real, b: real): real {
    if a > b then a - b else b - a
  }

  predicate Tied(a: Standing, b: Standing) {
    && a.matchPoints == b.matchPoints
    && AbsDiff(a.omwPercent, b.omwPercent) < EPS
    && AbsDiff(a.gwPercent, b.gwPercent) < EPS
    && AbsDiff(a.ogwPercent, b.ogwPercent) < EPS
  }

  /** Rows `k..i` are one unbroken run of ties that starts at `k`. */
  ghost predicate TieRun(rows: seq<Standing>, k: nat, i: nat)
    requires k <= i < |rows|
  {
    && (k > 0 ==> !Tied(rows[k], rows[k - 1]))
    && forall j :: k < j <= i ==> Tied(rows[j], rows[j - 1])
  }

  /** A row's rank is the 1-based position of the first row of its run of ties. */
  ghost predicate Ranked(rows: seq<Standing>, n: nat)
    requires n <= |rows|
  {
    forall i :: 0 <= i < n ==> 1 <= rows[i].rank <= i + 1 && TieRun(rows, rows[i].rank - 1, i)
  }

  function Unranked(rows: seq<Standing>): seq<Standing> {
    seq(|rows|, i requires 0 <= i < |rows| => rows[i].(rank := 0))
  }

  ghost function Rows(players: seq<Player>, matches: seq<Match>): seq<Standing> {
    seq(|players|, i requires 0 <= i < |players| => Row(Roster(players), matches, players[i]))
  }

  // ---------------------------------------------------------------------
  // The computation
  // ---------------------------------------------------------------------

  method TallyResults(players: seq<Player>, matches: seq<Match>) returns (tallies: map<Id, Tally>)
    ensures tallies.Keys == Roster(players)
    ensures forall id :: id in tallies ==> tallies[id] == TallyOf(Roster(players), matches, id)
  {
    ghost var roster := Roster(players);
    tallies := map[];
    for i := 0 to |players|
      invariant tallies.Keys == Roster(players[..i])
      invariant forall id :: id in tallies ==> tallies[id] == EMPTY
    {
      assert players[..i + 1] == players[..i] + [players[i]];
      tallies := tallies[players[i].id := EMPTY];
    }
    TakeAll(players);
    TakeAll(matches);
    for i := 0 to |matches|
      invariant tallies.Keys == roster
      invariant forall id :: id in tallies ==> tallies[id] == TallyOf(roster, matches[..i], id)
    {
      TakeNext(matches, i);
      var m := matches[i];
      if m.result.None? {
        continue;
      }
      var r := m.result.value;
      if m.player2.None? {
        if m.player1 in tallies {
          var t := tallies[m.player1];
          tallies := tallies[m.player1 := t.(matchPoints := t.matchPoints + 3, matches := t.matches + 1)];
        }
        continue;
      }
      var p2 := m.player2.value;
      if m.player1 !in tallies || p2 !in tallies {
        continue;
      }
      tallies := tallies[m.player1 := PlaySide(tallies[m.player1], p2, r.p1Games, r.p2Games, r.draws)];
      tallies := tallies[p2 := PlaySide(tallies[p2], m.player1, r.p2Games, r.p1Games, r.draws)];
    }
  }

  method AssignRanks(sorted: seq<Standing>) returns (rows: seq<Standing>)
    ensures Unranked(rows) == Unranked(sorted)
    ensures Ranked(rows, |rows|)
  {
    rows := sorted;
    for i := 0 to |rows|
      invariant |rows| == |sorted| && Unranked(rows) == Unranked(sorted)
      invariant Ranked(rows, i)
    {
      ghost var before := rows;
      if i > 0 && Tied(rows[i], rows[i - 1]) {
        rows := rows[i := rows[i].(rank := rows[i - 1].rank)];
      } else {
        rows := rows[i := rows[i].(rank := i + 1)];
      }
      RankingOneMore(before, rows, i);
      assert Unranked(rows) == Unranked(before);
    }
  }

  lemma TieRunIgnoresRanks(before: seq<Standing>, after: seq<Standing>, k: nat, i: nat)
    requires k <= i < |before| == |after| && Unranked(before) == Unranked(after)
    ensures TieRun(before, k, i) <==> TieRun(after, k, i)
  {
    forall j, l | 0 <= j < |before| && 0 <= l < |before|
      ensures Tied(before[j], before[l]) <==> Tied(after[j], after[l])
    {
      assert Unranked(before)[j] == Unranked(after)[j] && Unranked(before)[l] == Unranked(after)[l];
    }
  }

  lemma TieRunExtends(rows: seq<Standing>, k: nat, i: nat)
    requires 0 < i < |rows| && k < i && TieRun(rows, k, i - 1) && Tied(rows[i], rows[i - 1])
    ensures TieRun(rows, k, i)
  {
    hide Tied;
  }

  lemma RankingOneMore(before: seq<Standing>, after: seq<Standing>, i: nat)
    requires i < |before| && Ranked(before, i)
    requires after == before[i := before[i].(rank :=
               if i > 0 && Tied(before[i], before[i - 1]) then before[i - 1].rank else i + 1)]
    ensures Ranked(after, i + 1)
  {
    hide Tied, TieRun;
    assert Unranked(before) == Unranked(after);
    forall j | 0 <= j < i ensures 1 <= after[j].rank <= j + 1 && TieRun(after, after[j].rank - 1, j) {
      TieRunIgnoresRanks(before, after, before[j].rank - 1, j);
    }
    if i > 0 && Tied(before[i], before[i - 1]) {
      TieRunExtends(before, before[i - 1].rank - 1, i);
    } else {
      assert TieRun(before, i, i) by { SingleRun(before, i); }
    }
    TieRunIgnoresRanks(before, after, after[i].rank - 1, i);
  }

  lemma SingleRun(rows: seq<Standing>, i: nat)
    requires i < |rows| && (i > 0 ==> !Tied(rows[i], rows[i - 1]))
    ensures TieRun(rows, i, i)
  {
  }

  lemma OpponentsOnRoster(roster: set<Id>, matches: seq<Match>, id: Id)
    ensures forall o :: o in TallyOf(roster, matches, id).opponents ==> o in roster
  {
    if matches != [] {
      OpponentsOnRoster(roster, matches[..|matches| - 1], id);
    }
  }

  /** The sums over a player's opponents. */
  method OpponentSums(opponents: seq<Id>, tallies: map<Id, Tally>, ghost roster: set<Id>, ghost matches: seq<Match>)
    returns (omw: real, ogw: real)
    requires forall o :: o in opponents ==> o in tallies && tallies[o] == TallyOf(roster, matches, o)
    ensures omw == Sum(opponents, OpponentMw(roster, matches))
    ensures ogw == Sum(opponents, OpponentGw(roster, matches))
  {
    omw, ogw := 0.0, 0.0;
    TakeAll(opponents);
    for i := 0 to |opponents|
      invariant omw == Sum(opponents[..i], OpponentMw(roster, matches))
      invariant ogw == Sum(opponents[..i], OpponentGw(roster, matches))
    {
      TakeNext(opponents, i);
      var opp := opponents[i];
      assert opp in opponents;
      omw := omw + MwFloored(tallies[opp]);
      ogw := ogw + GwFloored(tallies[opp]);
    }
  }

  method BuildRows(players: seq<Player>, tallies: map<Id, Tally>, ghost matches: seq<Match>)
    returns (rows: seq<Standing>)
    requires tallies.Keys == Roster(players)
    requires forall id :: id in tallies ==> tallies[id] == TallyOf(Roster(players), matches, id)
    ensures rows == Rows(players, matches)
  {
    ghost var roster := Roster(players);
    rows := [];
    for i := 0 to |players|
      invariant rows == Rows(players, matches)[..i]
    {
      var p := players[i];
      assert p in players;
      var t := tallies[p.id];
      OpponentsOnRoster(roster, matches, p.id);
      var omw, ogw := OpponentSums(t.opponents, tallies, roster, matches);
      var n := |t.opponents|;
      if n > 0 {
        omw := omw / n as real;
        ogw := ogw / n as real;
      }
      rows := rows + [Standing(0, p.id, p.displayName, p.dropped, t.matchPoints, omw * 100.0, GwRaw(t) * 100.0,
                               ogw * 100.0)];
      assert rows[i] == Row(roster, matches, p);
    }
  }

  /**
   One row per roster entry, carrying that player's tallies and tiebreaks, no
   row below a better one, and every rank the position of the first row of its
   run of ties.
   */
  method ComputeStandings(players: seq<Player>, matches: seq<Match>) returns (rows: seq<Standing>)
    ensures multiset(Unranked(rows)) == multiset(Rows(players, matches))
    ensures Sorting.SortedBy(Above, rows)
    ensures Ranked(rows, |rows|)
  {
    var tallies := TallyResults(players, matches);
    var unsorted := BuildRows(players, tallies, matches);
    AboveIsTotal();
    var sorted := Sorting.Sort(unsorted, Above);
    forall r | r in sorted ensures r.rank == 0 {
      assert r in Rows(players, matches);
    }
    rows := AssignRanks(sorted);
    assert Unranked(sorted) == sorted;
    forall i, j | 0 <= i < j < |rows| ensures Above(rows[i], rows[j]) {
      assert Unranked(rows)[i] == sorted[i] && Unranked(rows)[j] == sorted[j];
      assert Above(sorted[i], sorted[j]);
    }
  }

  // ---------------------------------------------------------------------
  // Laws
  // ---------------------------------------------------------------------

  /** Every counted match is between listed players. */
  ghost predicate OverRoster(roster: set<Id>, matches: seq<Match>) {
    forall m :: m in matches ==> m.player1 in roster && (m.player2.Some? ==> m.player2.value in roster)
  }

  /** The pairing engine and the standings agree on match points. */
  lemma {:induction false} PointsAgree(roster: set<Id>, history: seq<Match>, id: Id)
    requires OverRoster(roster, history)
    ensures TallyOf(roster, history, id).matchPoints == MatchPoints(history, id)
  {
    if history != [] {
      var m := history[|history| - 1];
      assert m in history;
      PointsAgree(roster, history[..|history| - 1], id);
    }
  }

  ghost predicate NonNegative(matches: seq<Match>) {
    forall m :: m in matches && m.result.Some? ==>
      m.result.value.p1Games >= 0 && m.result.value.p2Games >= 0 && m.result.value.draws >= 0
  }

  /** A match is worth at most 3 points a player, and so is a game. */
  lemma {:induction false} TallyBounds(roster: set<Id>, matches: seq<Match>, id: Id)
    requires NonNegative(matches)
    ensures var t := TallyOf(roster, matches, id);
            t.matchPoints <= 3 * t.matches && 0 <= t.gamePoints <= 3 * t.games
  {
    if matches != [] {
      assert matches[|matches| - 1] in matches;
      TallyBounds(roster, matches[..|matches| - 1], id);
    }
  }

  lemma RatioAtMostOne(p: int, n: int)
    requires 0 <= p <= n && n > 0
    ensures 0.0 <= p as real / n as real <= 1.0
  {
  }

  lemma FlooredBounds(roster: set<Id>, matches: seq<Match>, id: Id)
    requires NonNegative(matches)
    ensures TIEBREAK_FLOOR <= OpponentMw(roster, matches)(id) <= 1.0
    ensures TIEBREAK_FLOOR <= OpponentGw(roster, matches)(id) <= 1.0
    ensures 0.0 <= GwRaw(TallyOf(roster, matches, id)) <= 1.0
  {
    TallyBounds(roster, matches, id);
    var t := TallyOf(roster, matches, id);
    if t.matches > 0 {
      RatioAtMostOne(t.matchPoints, 3 * t.matches);
    }
    if t.games > 0 {
      RatioAtMostOne(t.gamePoints, 3 * t.games);
    }
  }

  lemma {:induction false} SumBounds(ids: seq<Id>, f: Id -> real)
    requires forall id :: TIEBREAK_FLOOR <= f(id) <= 1.0
    ensures TIEBREAK_FLOOR * |ids| as real <= Sum(ids, f) <= |ids| as real
  {
    if ids != [] {
      SumBounds(ids[..|ids| - 1], f);
    }
  }

  lemma AverageBounds(ids: seq<Id>, f: Id -> real)
    requires forall id :: TIEBREAK_FLOOR <= f(id) <= 1.0
    ensures ids == [] ==> Average(ids, f) == 0.0
    ensures ids != [] ==> TIEBREAK_FLOOR <= Average(ids, f) <= 1.0
  {
    if ids != [] {
      SumBounds(ids, f);
      DivideBounds(Sum(ids, f), |ids| as real);
    }
  }

  lemma DivideBounds(s: real, n: real)
    requires n > 0.0 && TIEBREAK_FLOOR * n <= s <= n
    ensures TIEBREAK_FLOOR <= s / n <= 1.0
  {
    assert s == (s / n) * n;
  }

  /** OMW% and OGW% lie between a third and the whole, or are 0 without opponents; GW% is a percentage. */
  lemma PercentageBounds(players: seq<Player>, matches: seq<Match>, p: Player)
    requires NonNegative(matches)
    ensures var r := Row(Roster(players), matches, p);
            var alone := TallyOf(Roster(players), matches, p.id).opponents == [];
            && (if alone then r.omwPercent == 0.0 && r.ogwPercent == 0.0
                else 100.0 / 3.0 <= r.omwPercent <= 100.0 && 100.0 / 3.0 <= r.ogwPercent <= 100.0)
            && 0.0 <= r.gwPercent <= 100.0
  {
    var roster := Roster(players);
    forall id ensures TIEBREAK_FLOOR <= OpponentMw(roster, matches)(id) <= 1.0
      && TIEBREAK_FLOOR <= OpponentGw(roster, matches)(id) <= 1.0
    {
      FlooredBounds(roster, matches, id);
    }
    FlooredBounds(roster, matches, p.id);
    AverageBounds(TallyOf(roster, matches, p.id).opponents, OpponentMw(roster, matches));
    AverageBounds(TallyOf(roster, matches, p.id).opponents, OpponentGw(roster, matches));
  }

  /** Points a counted match puts into circulation: 3 when someone wins or has a bye, 2 when drawn. */
  ghost function PointsAwarded(roster: set<Id>, matches: seq<Match>): nat {
    if matches == [] then 0
    else
      var m := matches[|matches| - 1];
      PointsAwarded(roster, matches[..|matches| - 1])
      + if !Counts(m, roster) then 0
        else if m.player2.Some? && m.result.value.p1Games == m.result.value.p2Games then 2 else 3
  }

  ghost function TotalPoints(ids: seq<Id>, roster: set<Id>, matches: seq<Match>): nat {
    if ids == [] then 0 else TallyOf(roster, matches, ids[0]).matchPoints + TotalPoints(ids[1..], roster, matches)
  }

  lemma {:induction false} NoMatchesNoPoints(ids: seq<Id>, roster: set<Id>)
    ensures TotalPoints(ids, roster, []) == 0
  {
    if ids != [] {
      NoMatchesNoPoints(ids[1..], roster);
    }
  }

  /** How many of `ids` are `x`. */
  ghost function Occurrences(ids: seq<Id>, x: Id): nat {
    multiset(ids)[x]
  }

  lemma {:induction false} OneMatchMore(ids: seq<Id>, roster: set<Id>, matches: seq<Match>, m: Match)
    requires Counts(m, roster)
    ensures var r := m.result.value;
            TotalPoints(ids, roster, matches + [m]) == TotalPoints(ids, roster, matches)
              + (if m.player2.None? || r.p1Games > r.p2Games then 3 * Occurrences(ids, m.player1)
                 else if r.p2Games > r.p1Games then 3 * Occurrences(ids, m.player2.value)
                 else Occurrences(ids, m.player1) + Occurrences(ids, m.player2.value))
  {
    if ids != [] {
      OneMatchMore(ids[1..], roster, matches, m);
      assert ids == [ids[0]] + ids[1..];
      assert (matches + [m])[..|matches|] == matches;
    }
  }

  /** Match points are conserved: the roster holds exactly what its counted matches awarded. */
  lemma {:induction false} PointsConserved(players: seq<Player>, matches: seq<Match>)
    requires DistinctIds(players)
    ensures TotalPoints(Ids(players), Roster(players), matches) == PointsAwarded(Roster(players), matches)
  {
    var roster := Roster(players);
    if matches == [] {
      NoMatchesNoPoints(Ids(players), roster);
    } else {
      var front := matches[..|matches| - 1];
      var m := matches[|matches| - 1];
      PointsConserved(players, front);
      assert matches == front + [m];
      if Counts(m, roster) {
        OneMatchMore(Ids(players), roster, front, m);
        OnceEach(players, m.player1);
        if m.player2.Some? {
          OnceEach(players, m.player2.value);
        }
      } else {
        UncountedMatch(Ids(players), roster, front, m);
      }
    }
  }

  lemma OnceEach(players: seq<Player>, id: Id)
    requires DistinctIds(players) && id in Roster(players)
    ensures Occurrences(Ids(players), id) == 1
  {
    var p :| p in players && p.id == id;
    var k :| 0 <= k < |players| && players[k] == p;
    assert Ids(players)[k] == id;
    assert id in multiset(Ids(players));
  }

  lemma {:induction false} UncountedMatch(ids: seq<Id>, roster: set<Id>, matches: seq<Match>, m: Match)
    requires !Counts(m, roster)
    ensures TotalPoints(ids, roster, matches + [m]) == TotalPoints(ids, roster, matches)
  {
    if ids != [] {
      UncountedMatch(ids[1..], roster, matches, m);
      assert (matches + [m])[..|matches|] == matches;
    }
  }

  // ---------------------------------------------------------------------
  // What the columns mean, read off the score sheet
  // ---------------------------------------------------------------------

  /** A number read off each counted match, added up. */
  ghost function OverCounted(roster: set<Id>, matches: seq<Match>, f: Match -> int): int {
    if matches == [] then 0
    else
      var m := matches[|matches| - 1];
      OverCounted(roster, matches[..|matches| - 1], f) + if Counts(m, roster) then f(m) else 0
  }

  /** What `id` sees of a played match by seat: one number as player 1, the other as player 2. */
  ghost function BySeat(m: Match, id: Id, asFirst: int, asSecond: int): int {
    (if m.player2.Some? && m.player1 == id then asFirst else 0)
    + (if m.player2.Some? && m.player2.value == id then asSecond else 0)
  }

  ghost function GamesWon(roster: set<Id>, matches: seq<Match>, id: Id): int {
    OverCounted(roster, matches, (m: Match) =>
        if m.result.None? then 0 else BySeat(m, id, m.result.value.p1Games, m.result.value.p2Games))
  }

  ghost function GamesLost(roster: set<Id>, matches: seq<Match>, id: Id): int {
    OverCounted(roster, matches, (m: Match) =>
        if m.result.None? then 0 else BySeat(m, id, m.result.value.p2Games, m.result.value.p1Games))
  }

  ghost function GamesDrawn(roster: set<Id>, matches: seq<Match>, id: Id): int {
    OverCounted(roster, matches, (m: Match) =>
        if m.result.None? then 0 else BySeat(m, id, m.result.value.draws, m.result.value.draws))
  }

  /** A bye counts as a match, and nobody is met in it. */
  ghost function MatchesPlayed(roster: set<Id>, matches: seq<Match>, id: Id): int {
    OverCounted(roster, matches, (m: Match) =>
        if m.player2.None? then (if m.player1 == id then 1 else 0) else BySeat(m, id, 1, 1))
  }

  ghost function Meetings(roster: set<Id>, matches: seq<Match>, id: Id, other: Id): int {
    OverCounted(roster, matches, (m: Match) =>
        BySeat(m, id, if m.player2 == Some(other) then 1 else 0, if m.player1 == other then 1 else 0))
  }

  /** The tally holds 3 points a game won and 1 a game drawn, all games, all matches, and everyone met. */
  lemma {:induction false} TallyMeans(roster: set<Id>, matches: seq<Match>, id: Id)
    ensures var t := TallyOf(roster, matches, id);
            && t.gamePoints == 3 * GamesWon(roster, matches, id) + GamesDrawn(roster, matches, id)
            && t.games == GamesWon(roster, matches, id) + GamesLost(roster, matches, id)
                        + GamesDrawn(roster, matches, id)
            && t.matches == MatchesPlayed(roster, matches, id)
            && forall o :: multiset(t.opponents)[o] == Meetings(roster, matches, id, o)
  {
    if matches != [] {
      TallyMeans(roster, matches[..|matches| - 1], id);
    }
  }

  /** Won at least one game and every game of every counted match. */
  ghost predicate WonEveryGame(roster: set<Id>, matches: seq<Match>, id: Id) {
    && GamesWon(roster, matches, id) > 0
    && GamesLost(roster, matches, id) == 0 && GamesDrawn(roster, matches, id) == 0
  }

  ghost predicate WonNoGame(roster: set<Id>, matches: seq<Match>, id: Id) {
    GamesWon(roster, matches, id) == 0 && GamesDrawn(roster, matches, id) == 0
  }

  /** Three points from each match played, and there was one. */
  ghost predicate WonEveryMatch(roster: set<Id>, matches: seq<Match>, id: Id) {
    && MatchesPlayed(roster, matches, id) > 0
    && TallyOf(roster, matches, id).matchPoints == 3 * MatchesPlayed(roster, matches, id)
  }

  ghost predicate WonNoMatch(roster: set<Id>, matches: seq<Match>, id: Id) {
    TallyOf(roster, matches, id).matchPoints == 0
  }

  lemma WholeShare(points: int, all: int)
    requires all > 0
    ensures points == 3 * all ==> points as real / (3 * all) as real == 1.0
    ensures points == 0 ==> points as real / (3 * all) as real == 0.0
  {
  }

  lemma GameShare(roster: set<Id>, matches: seq<Match>, id: Id)
    ensures var w, l, d := GamesWon(roster, matches, id), GamesLost(roster, matches, id),
                           GamesDrawn(roster, matches, id);
            GwRaw(TallyOf(roster, matches, id))
            == if w + l + d == 0 then 0.0 else (3 * w + d) as real / (3 * (w + l + d)) as real
    ensures WonEveryGame(roster, matches, id) ==> GwRaw(TallyOf(roster, matches, id)) == 1.0
    ensures WonNoGame(roster, matches, id) ==> GwRaw(TallyOf(roster, matches, id)) == 0.0
  {
    TallyMeans(roster, matches, id);
    var t := TallyOf(roster, matches, id);
    hide TallyOf, GamesWon, GamesLost, GamesDrawn;
    if t.games > 0 {
      WholeShare(t.gamePoints, t.games);
    }
    assert 3 * t.games == 3 * (GamesWon(roster, matches, id) + GamesLost(roster, matches, id)
                               + GamesDrawn(roster, matches, id));
  }

  lemma MatchShare(roster: set<Id>, matches: seq<Match>, id: Id)
    ensures WonEveryMatch(roster, matches, id) ==> MwFloored(TallyOf(roster, matches, id)) == 1.0
    ensures WonNoMatch(roster, matches, id) ==> MwFloored(TallyOf(roster, matches, id)) == TIEBREAK_FLOOR
  {
    TallyMeans(roster, matches, id);
    var t := TallyOf(roster, matches, id);
    hide TallyOf, MatchesPlayed;
    if t.matches > 0 {
      WholeShare(t.matchPoints, t.matches);
    }
  }

  lemma OneTimesMore(c: real, n: nat)
    ensures c * (n + 1) as real == c * n as real + c
  {
    assert (n + 1) as real == n as real + 1.0;
  }

  lemma {:induction false} SumOfSame(ids: seq<Id>, f: Id -> real, c: real, n: nat)
    requires |ids| == n && forall id :: id in ids ==> f(id) == c
    ensures Sum(ids, f) == c * n as real
  {
    if n > 0 {
      var last := ids[n - 1];
      SumOfSame(ids[..n - 1], f, c, n - 1);
      assert last in ids;
      OneTimesMore(c, n - 1);
    }
  }

  lemma AverageOfSame(ids: seq<Id>, f: Id -> real, c: real)
    requires ids != [] && forall id :: id in ids ==> f(id) == c
    ensures Average(ids, f) == c
  {
    SumOfSame(ids, f, c, |ids|);
    hide Sum;
    assert c * |ids| as real / |ids| as real == c;
  }

  /** Whom a player met, all of a kind. */
  ghost predicate MetOnly(roster: set<Id>, matches: seq<Match>, id: Id, kind: Id -> bool) {
    && (exists o :: Meetings(roster, matches, id, o) > 0)
    && forall o :: Meetings(roster, matches, id, o) > 0 ==> kind(o)
  }

  lemma MetMeans(roster: set<Id>, matches: seq<Match>, id: Id, kind: Id -> bool)
    requires MetOnly(roster, matches, id, kind)
    ensures var opponents := TallyOf(roster, matches, id).opponents;
            opponents != [] && forall o :: o in opponents ==> kind(o)
  {
    TallyMeans(roster, matches, id);
    hide TallyOf, Meetings;
    var opponents := TallyOf(roster, matches, id).opponents;
    forall o | o in opponents ensures kind(o) {
      assert o in multiset(opponents);
    }
    var o :| Meetings(roster, matches, id, o) > 0;
    assert o in multiset(opponents);
  }

  /** GW% is the player's own share of game points: 100 for every game won, 0 for none. */
  lemma OwnGames(players: seq<Player>, matches: seq<Match>, p: Player)
    ensures var roster := Roster(players);
            var w, l, d := GamesWon(roster, matches, p.id), GamesLost(roster, matches, p.id),
                           GamesDrawn(roster, matches, p.id);
            var gw := Row(roster, matches, p).gwPercent;
            && gw == (if w + l + d == 0 then 0.0 else 100.0 * ((3 * w + d) as real / (3 * (w + l + d)) as real))
            && (WonEveryGame(roster, matches, p.id) ==> gw == 100.0)
            && (WonNoGame(roster, matches, p.id) ==> gw == 0.0)
  {
    GameShare(Roster(players), matches, p.id);
    hide TallyOf, GamesWon, GamesLost, GamesDrawn, Average, WonEveryGame, WonNoGame, GwRaw;
  }

  /** OMW% is about the opponents' matches: 100 if they won them all, and the floor if they won none. */
  lemma OpponentsMatches(players: seq<Player>, matches: seq<Match>, p: Player)
    ensures var roster := Roster(players);
            var omw := Row(roster, matches, p).omwPercent;
            && (MetOnly(roster, matches, p.id, o => WonEveryMatch(roster, matches, o)) ==> omw == 100.0)
            && (MetOnly(roster, matches, p.id, o => WonNoMatch(roster, matches, o)) ==> omw == 100.0 / 3.0)
  {
    var roster := Roster(players);
    var opponents := TallyOf(roster, matches, p.id).opponents;
    forall o ensures WonEveryMatch(roster, matches, o) ==> OpponentMw(roster, matches)(o) == 1.0
      ensures WonNoMatch(roster, matches, o) ==> OpponentMw(roster, matches)(o) == TIEBREAK_FLOOR
    {
      MatchShare(roster, matches, o);
    }
    hide TallyOf, WonEveryMatch, WonNoMatch, MwFloored, GwRaw, MetOnly, Average;
    if MetOnly(roster, matches, p.id, o => WonEveryMatch(roster, matches, o)) {
      MetMeans(roster, matches, p.id, o => WonEveryMatch(roster, matches, o));
      AverageOfSame(opponents, OpponentMw(roster, matches), 1.0);
    }
    if MetOnly(roster, matches, p.id, o => WonNoMatch(roster, matches, o)) {
      MetMeans(roster, matches, p.id, o => WonNoMatch(roster, matches, o));
      AverageOfSame(opponents, OpponentMw(roster, matches), TIEBREAK_FLOOR);
    }
  }

  /** OGW% is about the opponents' games. */
  lemma OpponentsGames(players: seq<Player>, matches: seq<Match>, p: Player)
    ensures var roster := Roster(players);
            var ogw := Row(roster, matches, p).ogwPercent;
            && (MetOnly(roster, matches, p.id, o => WonEveryGame(roster, matches, o)) ==> ogw == 100.0)
            && (MetOnly(roster, matches, p.id, o => WonNoGame(roster, matches, o)) ==> ogw == 100.0 / 3.0)
  {
    var roster := Roster(players);
    var opponents := TallyOf(roster, matches, p.id).opponents;
    forall o ensures WonEveryGame(roster, matches, o) ==> OpponentGw(roster, matches)(o) == 1.0
      ensures WonNoGame(roster, matches, o) ==> OpponentGw(roster, matches)(o) == TIEBREAK_FLOOR
    {
      GameShare(roster, matches, o);
      hide GwRaw, WonEveryGame, WonNoGame;
    }
    hide TallyOf, WonEveryGame, WonNoGame, MwFloored, GwRaw, MetOnly, Average;
    if MetOnly(roster, matches, p.id, o => WonEveryGame(roster, matches, o)) {
      MetMeans(roster, matches, p.id, o => WonEveryGame(roster, matches, o));
      AverageOfSame(opponents, OpponentGw(roster, matches), 1.0);
    }
    if MetOnly(roster, matches, p.id, o => WonNoGame(roster, matches, o)) {
      MetMeans(roster, matches, p.id, o => WonNoGame(roster, matches, o));
      AverageOfSame(opponents, OpponentGw(roster, matches), TIEBREAK_FLOOR);
    }
  }

  // ---------------------------------------------------------------------
  // Reading the table
  // ---------------------------------------------------------------------

  /** A tie run has one number of match points. */
  lemma {:induction false} TieRunPoints(rows: seq<Standing>, k: nat, i: nat)
    requires k <= i < |rows| && TieRun(rows, k, i)
    ensures rows[i].matchPoints == rows[k].matchPoints
  {
    if k < i {
      assert Tied(rows[i], rows[i - 1]);
      ShorterRun(rows, k, i - 1, i);
      hide TieRun;
      TieRunPoints(rows, k, i - 1);
    }
  }

  /**
   Down the table match points never rise, then OMW%, then GW%, then OGW%, and
   equals are in name order; whoever has more match points has the better rank.
   */
  lemma TableReads(rows: seq<Standing>, i: nat, j: nat)
    requires Sorting.SortedBy(Above, rows) && Ranked(rows, |rows|) && i < j < |rows|
    ensures var a, b := rows[i], rows[j];
            && a.matchPoints >= b.matchPoints
            && (a.matchPoints == b.matchPoints ==>
                  && a.omwPercent >= b.omwPercent
                  && (a.omwPercent == b.omwPercent ==>
                        && a.gwPercent >= b.gwPercent
                        && (a.gwPercent == b.gwPercent ==>
                              && a.ogwPercent >= b.ogwPercent
                              && (a.ogwPercent == b.ogwPercent ==> StringLe(a.displayName, b.displayName)))))
            && (a.matchPoints > b.matchPoints ==> a.rank < b.rank)
  {
    hide Ranked, StringLe;
    assert Above(rows[i], rows[j]);
    SameRankSamePoints(rows, i, j);
  }

  lemma SameRankSamePoints(rows: seq<Standing>, i: nat, j: nat)
    requires Ranked(rows, |rows|) && i < j < |rows|
    ensures rows[i].rank >= rows[j].rank ==> rows[i].matchPoints == rows[j].matchPoints
  {
    var first := rows[j].rank - 1;
    assert 1 <= rows[j].rank <= j + 1 && TieRun(rows, first, j);
    assert rows[i].rank <= i + 1;
    hide Ranked;
    if first <= i {
      TieRunPoints(rows, first, j);
      ShorterRun(rows, first, i, j);
      hide TieRun;
      TieRunPoints(rows, first, i);
    }
  }

  lemma ShorterRun(rows: seq<Standing>, k: nat, i: nat, j: nat)
    requires k <= i <= j < |rows| && TieRun(rows, k, j)
    ensures TieRun(rows, k, i)
  {
    hide Tied;
  }

  /** A run of ties starts in one place only. */
  lemma OneStart(rows: seq<Standing>, k: nat, l: nat, i: nat)
    requires k <= i < |rows| && l <= i && TieRun(rows, k, i) && TieRun(rows, l, i)
    ensures k == l
  {
    hide TieRun, Tied;
    RunStart(rows, k, i);
    RunStart(rows, l, i);
    if k < l {
      InsideRun(rows, k, l, i);
    } else if l < k {
      InsideRun(rows, l, k, i);
    }
  }

  lemma RunStart(rows: seq<Standing>, k: nat, i: nat)
    requires k <= i < |rows| && TieRun(rows, k, i)
    ensures k > 0 ==> !Tied(rows[k], rows[k - 1])
  {
  }

  lemma InsideRun(rows: seq<Standing>, k: nat, l: nat, i: nat)
    requires k < l <= i < |rows| && TieRun(rows, k, i)
    ensures Tied(rows[l], rows[l - 1])
  {
  }

  /** Neighbours share a rank exactly when they agree in match points and, up to rounding, in all three percentages. */
  lemma SharedRank(rows: seq<Standing>, i: nat)
    requires Ranked(rows, |rows|) && 0 < i < |rows|
    ensures var a, b := rows[i - 1], rows[i];
            a.rank == b.rank
            <==> && a.matchPoints == b.matchPoints
                 && -0.000000001 < a.omwPercent - b.omwPercent < 0.000000001
                 && -0.000000001 < a.gwPercent - b.gwPercent < 0.000000001
                 && -0.000000001 < a.ogwPercent - b.ogwPercent < 0.000000001
  {
    var first := rows[i].rank - 1;
    assert rows[i].rank <= i + 1 && TieRun(rows, first, i);
    assert rows[i - 1].rank <= i && TieRun(rows, rows[i - 1].rank - 1, i - 1);
    hide Ranked;
    RunOfTwo(rows, first, i);
    if first < i {
      ShorterRun(rows, first, i - 1, i);
      hide TieRun, Tied;
      OneStart(rows, first, rows[i - 1].rank - 1, i - 1);
    }
  }

  lemma RunOfTwo(rows: seq<Standing>, k: nat, i: nat)
    requires k <= i < |rows| && 0 < i && TieRun(rows, k, i)
    ensures k < i <==> Tied(rows[i], rows[i - 1])
  {
    hide Tied;
  }
}
