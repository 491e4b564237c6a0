/** What the tournament's runs mean for the engine, the standings and the organizer. */
module TournamentTheorems {
  import opened Wrappers
  import opened SwissTypes
  import opened SwissStandings
  import R = RegistrationRows
  import opened T = TournamentRounds
  import opened TournamentInvariant
  import opened TournamentRuns

  // ---------------------------------------------------------------------
  // How many rounds
  // ---------------------------------------------------------------------

  function Pow2(n: nat): nat {
    if n == 0 then 1 else 2 * Pow2(n - 1)
  }

  lemma {:induction false} BitLenBounds(n: nat)
    requires n > 0
    ensures BitLen(n) > 0 && Pow2(BitLen(n) - 1) <= n < Pow2(BitLen(n))
  {
    if n > 1 {
      BitLenBounds(n / 2);
    } else {
      assert BitLen(1) == 1 + BitLen(0) && Pow2(1) == 2 * Pow2(0);
    }
  }

  /** The recommended rounds are the least (but at least one) that leave one undefeated player: ceil(log2 n). */
  lemma DefaultRoundsIsLog(n: nat)
    ensures var r := DefaultRounds(n);
            r >= 1 && n <= Pow2(r) && (r > 1 ==> Pow2(r - 1) < n)
  {
    if n > 2 {
      BitLenBounds(n - 1);
    } else {
      assert Pow2(1) == 2 * Pow2(0);
    }
  }

  // ---------------------------------------------------------------------
  // The engine's inputs
  // ---------------------------------------------------------------------

  lemma RosterIds(players: seq<Entrant>, x: Id)
    ensures OnRoster(players, x) <==> x in Roster(SwissPlayers(players))
  {
    if OnRoster(players, x) {
      var i :| 0 <= i < |players| && players[i].id == x;
      assert SwissPlayers(players)[i] in SwissPlayers(players);
    }
    if x in Roster(SwissPlayers(players)) {
      var p :| p in SwissPlayers(players) && p.id == x;
      var i :| 0 <= i < |players| && SwissPlayers(players)[i] == p;
      assert players[i].id == x;
    }
  }

  ghost predicate GoodMatch(roster: set<Id>, m: Match) {
    && m.player1 in roster && (m.player2.Some? ==> m.player2.value in roster)
    && (m.result.Some? ==> Valid(m.result.value))
  }

  ghost predicate GoodMatches(roster: set<Id>, ms: seq<Match>) {
    forall i :: 0 <= i < |ms| ==> GoodMatch(roster, ms[i])
  }

  lemma RoundMatchesGood(players: seq<Entrant>, r: Round)
    requires RoundOk(players, r)
    ensures GoodMatches(Roster(SwissPlayers(players)), SwissMatches(r.matches))
  {
    var roster := Roster(SwissPlayers(players));
    hide Roster;
    forall i | 0 <= i < |r.matches| ensures GoodMatch(roster, SwissMatches(r.matches)[i]) {
      var m := r.matches[i];
      assert RowOk(r.status, m);
      SeatsHold(r.matches, i);
      assert m.player1 in SeatBag(m) && m.player1 in Seats(r.matches);
      RosterIds(players, m.player1);
      if m.player2.Some? {
        assert m.player2.value in SeatBag(m) && m.player2.value in Seats(r.matches);
        RosterIds(players, m.player2.value);
      }
    }
  }

  ghost predicate RoundsOk(players: seq<Entrant>, rounds: seq<Round>) {
    forall k :: 0 <= k < |rounds| ==> RoundOk(players, rounds[k])
  }

  lemma {:induction false} HistoryGood(players: seq<Entrant>, rounds: seq<Round>)
    requires RoundsOk(players, rounds)
    ensures GoodMatches(Roster(SwissPlayers(players)), History(rounds))
  {
    if rounds != [] {
      var front := rounds[..|rounds| - 1];
      hide RoundOk, GoodMatch;
      HistoryGood(players, front);
      RoundMatchesGood(players, rounds[|rounds| - 1]);
    }
  }

  /**
   In every reachable state the engine's and the standings' inputs are fit: the
   pairing tally and the standings agree on everybody's match points, nobody has
   more than three a round, and the points on the table are exactly those the
   reported matches awarded.
   */
  lemma StandingsMatchPairing(s: State, actions: seq<Action>, id: Id)
    requires StateOk(s) && Run(s, actions).tournament.Some?
    ensures var t := Run(s, actions).tournament.value;
            var players, history := SwissPlayers(t.players), History(t.rounds);
            && DistinctIds(players) && NonNegative(history)
            && TallyOf(Roster(players), history, id).matchPoints == MatchPoints(history, id) <= 3 * |t.rounds|
            && TotalPoints(Ids(players), Roster(players), history) == PointsAwarded(Roster(players), history)
  {
    RunKeepsInvariant(s, actions);
    var t := Run(s, actions).tournament.value;
    var players, history := SwissPlayers(t.players), History(t.rounds);
    hide Run, RoundOk, Roster, History;
    assert RoundsOk(t.players, t.rounds);
    HistoryGood(t.players, t.rounds);
    forall m | m in history ensures GoodMatch(Roster(players), m) {
    }
    PointsAgree(Roster(players), history, id);
    ThreePointsPerRound(t.players, t.rounds, id);
    PointsConserved(players, history);
  }

  // ---------------------------------------------------------------------
  // Three points a round
  // ---------------------------------------------------------------------

  lemma MatchPointsBound(m: TableMatch, id: Id)
    ensures PointsFromMatch(Match(m.player1, m.player2, m.result), id) <= 3 * SeatBag(m)[id]
  {
  }

  lemma {:induction false} RoundPointsBound(ms: seq<TableMatch>, id: Id)
    ensures MatchPoints(SwissMatches(ms), id) <= 3 * Seats(ms)[id]
  {
    if ms != [] {
      var front, last := ms[..|ms| - 1], ms[|ms| - 1];
      RoundPointsBound(front, id);
      MatchPointsBound(last, id);
      hide PointsFromMatch, SeatBag;
      assert SwissMatches(ms)[..|ms| - 1] == SwissMatches(front);
    }
  }

  lemma {:induction false} PointsAcross(a: seq<Match>, b: seq<Match>, id: Id)
    ensures MatchPoints(a + b, id) == MatchPoints(a, id) + MatchPoints(b, id)
  {
    if b == [] {
      assert a + b == a;
    } else {
      assert (a + b)[..|a + b| - 1] == a + b[..|b| - 1];
      PointsAcross(a, b[..|b| - 1], id);
    }
  }

  /** Nobody has more than three match points a round, byes included: no one is seated twice in any round. */
  lemma {:induction false} ThreePointsPerRound(players: seq<Entrant>, rounds: seq<Round>, id: Id)
    requires RoundsOk(players, rounds)
    ensures MatchPoints(History(rounds), id) <= 3 * |rounds|
  {
    if rounds != [] {
      var front, last := rounds[..|rounds| - 1], rounds[|rounds| - 1];
      assert RoundOk(players, last) && RoundsOk(players, front);
      hide RoundsOk, RowsOk;
      ThreePointsPerRound(players, front, id);
      RoundPointsBound(last.matches, id);
      hide MatchPoints, SwissMatches, Seats;
      PointsAcross(History(front), if last.status == Draft then [] else SwissMatches(last.matches), id);
      NoMatchNoPoints(id);
    }
  }

  lemma NoMatchNoPoints(id: Id)
    ensures MatchPoints([], id) == 0
  {
  }

  // ---------------------------------------------------------------------
  // Who may report
  // ---------------------------------------------------------------------

  /** `user` sits at the match. */
  ghost predicate SitsAt(t: Tournament, m: TableMatch, user: Id) {
    exists p :: 0 <= p < |t.players| && t.players[p].user == user && t.players[p].id in SeatBag(m)
  }

  lemma SeatedEntrant(t: Tournament, id: Id)
    requires DistinctIds(SwissPlayers(t.players)) && OnRoster(t.players, id)
    ensures FindEntrant(t.players, id).Some?
    ensures forall p :: 0 <= p < |t.players| && t.players[p].id == id ==> FindEntrant(t.players, id) == Some(p)
  {
    forall p | 0 <= p < |t.players| && t.players[p].id == id ensures FindEntrant(t.players, id) == Some(p) {
      FindsPlayer(t, p);
    }
  }

  lemma PlayingIsSitting(t: Tournament, m: TableMatch, user: Id)
    requires DistinctIds(SwissPlayers(t.players)) && m.player2.Some?
    requires OnRoster(t.players, m.player1) && OnRoster(t.players, m.player2.value)
    ensures PlaysIn(t, m, user).None? <==> SitsAt(t, m, user)
  {
    SeatedEntrant(t, m.player1);
    SeatedEntrant(t, m.player2.value);
    hide DistinctIds, OnRoster, FindEntrant;
    var p1, p2 := FindEntrant(t.players, m.player1).value, FindEntrant(t.players, m.player2.value).value;
    if PlaysIn(t, m, user).None? {
      var p := if t.players[p1].user == user then p1 else p2;
      assert t.players[p].user == user && t.players[p].id in SeatBag(m);
    }
  }

  lemma SeatedOnRoster(t: Tournament, k: nat, i: nat)
    requires TournamentOk(t) && k < |t.rounds| && i < |t.rounds[k].matches|
    ensures var m := t.rounds[k].matches[i];
            OnRoster(t.players, m.player1) && (m.player2.Some? ==> OnRoster(t.players, m.player2.value))
  {
    assert RoundOk(t.players, t.rounds[k]);
    SeatsHold(t.rounds[k].matches, i);
    var m := t.rounds[k].matches[i];
    assert m.player1 in SeatBag(m) && (m.player2.Some? ==> m.player2.value in SeatBag(m));
  }

  /** A score is valid exactly as a best of three: at most three games, and nobody wins more than two. */
  lemma BestOfThree(r: Score)
    ensures Valid(r)
            <==> && r.p1Games >= 0 && r.p2Games >= 0 && r.draws >= 0
                 && r.p1Games <= 2 && r.p2Games <= 2 && r.p1Games + r.p2Games + r.draws <= 3
  {
  }

  /**
   In every reachable state a report goes through exactly for a valid score of
   a match that is no bye, in the latest round once it is out of draft; and
   from a player only when they sit at that match, the round is still open and
   no organizer has ruled on it.
   */
  lemma WhoMayReport(s: State, k: nat, i: nat, caller: Id, admin: bool, score: Score)
    requires StateOk(s) && s.event == R.Started && HasRow(s, k, i)
    ensures var t := s.tournament.value;
            var m := t.rounds[k].matches[i];
            ReportResult(s, MatchId(t.rounds[k].draw, i), caller, admin, score).Ok?
            <==> && Valid(score) && m.player2.Some?
                 && k == |t.rounds| - 1 && t.rounds[k].status != Draft
                 && (admin || (!m.ruled && t.rounds[k].status == Published && SitsAt(t, m, caller)))
  {
    var t := s.tournament.value;
    FindMatch(t, k, i);
    ReportByGuard(s, k, i, caller, admin, score);
    hide ReportResult, GetMatch, ReportGuard, SitsAt, Valid;
    GuardMeans(t, k, i, caller, admin);
  }

  lemma GuardMeans(t: Tournament, k: nat, i: nat, caller: Id, admin: bool)
    requires TournamentOk(t) && k < |t.rounds| && i < |t.rounds[k].matches|
    ensures var m := t.rounds[k].matches[i];
            ReportGuard(t, k, m, caller, admin).None?
            <==> && m.player2.Some? && k == |t.rounds| - 1 && t.rounds[k].status != Draft
                 && (admin || (!m.ruled && t.rounds[k].status == Published && SitsAt(t, m, caller)))
  {
    var m := t.rounds[k].matches[i];
    NumberedByPlace(t, k);
    NumberedByPlace(t, |t.rounds| - 1);
    SeatedOnRoster(t, k, i);
    hide TournamentOk, DistinctIds, SitsAt, PlaysIn, OnRoster, ReportGuard;
    if m.player2.Some? {
      PlayingIsSitting(t, m, caller);
    }
    GuardOpens(t, k, m, caller, admin);
  }

  lemma GuardOpens(t: Tournament, k: nat, m: TableMatch, caller: Id, admin: bool)
    requires k < |t.rounds| && t.rounds[k].number == k + 1 && t.rounds[|t.rounds| - 1].number == |t.rounds|
    requires m.player2.Some? ==> (PlaysIn(t, m, caller).None? <==> SitsAt(t, m, caller))
    ensures ReportGuard(t, k, m, caller, admin).None?
            <==> && m.player2.Some? && k == |t.rounds| - 1 && t.rounds[k].status != Draft
                 && (admin || (!m.ruled && t.rounds[k].status == Published && SitsAt(t, m, caller)))
  {
    hide PlaysIn, SitsAt;
  }

  lemma NumberedByPlace(t: Tournament, k: nat)
    requires TournamentOk(t) && k < |t.rounds|
    ensures t.rounds[k].number == k + 1 && DistinctIds(SwissPlayers(t.players))
  {
    assert Placed(t, k);
  }

  lemma ReportByGuard(s: State, k: nat, i: nat, caller: Id, admin: bool, score: Score)
    requires s.event == R.Started && HasRow(s, k, i)
    requires GetMatch(s.tournament.value.rounds, MatchId(s.tournament.value.rounds[k].draw, i)) == Some((k, i))
    ensures var t := s.tournament.value;
            ReportResult(s, MatchId(t.rounds[k].draw, i), caller, admin, score).Ok?
            <==> Valid(score) && ReportGuard(t, k, t.rounds[k].matches[i], caller, admin).None?
  {
    hide GetMatch, Valid, ReportGuard;
  }

  // ---------------------------------------------------------------------
  // A started event can always be finished
  // ---------------------------------------------------------------------

  const DRAWN := Score(1, 1, 0)

  ghost predicate LastIs(s: State, status: RoundStatus) {
    && s.event == R.Started && s.tournament.Some? && s.tournament.value.rounds != []
    && s.tournament.value.rounds[|s.tournament.value.rounds| - 1].status == status
  }

  function LastMatches(s: State): seq<TableMatch>
    requires s.tournament.Some? && s.tournament.value.rounds != []
  {
    s.tournament.value.rounds[|s.tournament.value.rounds| - 1].matches
  }

  ghost predicate ReportedBelow(ms: seq<TableMatch>, i: nat) {
    i <= |ms| && forall j :: 0 <= j < i ==> ms[j].result.Some?
  }

  /** `s` with its last round rewritten. */
  function WithLast(s: State, r: Round): State
    requires s.tournament.Some? && s.tournament.value.rounds != []
  {
    SetRound(s, s.tournament.value, |s.tournament.value.rounds| - 1, r)
  }

  function LastRound(s: State): Round
    requires s.tournament.Some? && s.tournament.value.rounds != []
  {
    s.tournament.value.rounds[|s.tournament.value.rounds| - 1]
  }

  lemma StepTo(s: State, a: Action, r: Round)
    requires StateOk(s) && s.event == R.Started && s.tournament.Some? && s.tournament.value.rounds != []
    requires Enabled(s, a) && Attempt(s, a) == Ok(WithLast(s, r))
    ensures StateOk(Step(s, a)) && LastIs(Step(s, a), r.status) && LastRound(Step(s, a)) == r
  {
    StepKeepsInvariant(s, a);
    hide StateOk, Enabled, Attempt, Evolves;
  }

  /** The organizer can report any unreported match of the published round. */
  lemma ReportOne(s: State, i: nat)
    requires StateOk(s) && LastIs(s, Published) && i < |LastMatches(s)| && LastMatches(s)[i].result.None?
    ensures var s' := Step(s, DoReport(MatchId(LastRound(s).draw, i), 0, true, DRAWN));
            && StateOk(s') && LastIs(s', Published)
            && LastMatches(s') == LastMatches(s)[i := Reported(LastMatches(s)[i], true, DRAWN)]
  {
    var t := s.tournament.value;
    var r := LastRound(s);
    FindMatch(t, |t.rounds| - 1, i);
    assert RoundOk(t.players, t.rounds[|t.rounds| - 1]);
    assert RowOk(Published, r.matches[i]);
    var r' := r.(matches := r.matches[i := Reported(r.matches[i], true, DRAWN)]);
    ReportGoesThrough(s, i);
    hide StateOk, RoundOk, Reported, Step, Upsert, PairNextRound, Reroll, Swap, Publish, Complete, ReportResult,
         Drop, Undrop, DropByUser, T.Transition;
    StepTo(s, DoReport(MatchId(r.draw, i), 0, true, DRAWN), r');
  }

  lemma ReportGoesThrough(s: State, i: nat)
    requires LastIs(s, Published) && i < |LastMatches(s)| && LastMatches(s)[i].player2.Some?
    requires GetMatch(s.tournament.value.rounds, MatchId(LastRound(s).draw, i))
        == Some((|s.tournament.value.rounds| - 1, i))
    ensures var r := LastRound(s);
            ReportResult(s, MatchId(r.draw, i), 0, true, DRAWN)
            == Ok(WithLast(s, r.(matches := r.matches[i := Reported(r.matches[i], true, DRAWN)])))
  {
    hide GetMatch, Reported, PlaysIn;
  }

  lemma {:induction false} ReportFrom(s: State, i: nat) returns (actions: seq<Action>)
    requires StateOk(s) && LastIs(s, Published) && ReportedBelow(LastMatches(s), i)
    ensures StateOk(Run(s, actions)) && LastIs(Run(s, actions), Published) && AllReported(LastMatches(Run(s, actions)))
    decreases |LastMatches(s)| - i
  {
    if i == |LastMatches(s)| {
      return [];
    }
    if LastMatches(s)[i].result.Some? {
      actions := ReportFrom(s, i + 1);
      return;
    }
    var a := DoReport(MatchId(LastRound(s).draw, i), 0, true, DRAWN);
    ReportOne(s, i);
    hide Step, StateOk, LastIs, AllReported;
    var rest := ReportFrom(Step(s, a), i + 1);
    RunFirst(s, a, rest);
    actions := [a] + rest;
  }

  lemma CompleteLast(s: State, n: nat)
    requires StateOk(s) && LastIs(s, Published) && AllReported(LastMatches(s)) && n == |s.tournament.value.rounds|
    ensures StateOk(Step(s, DoComplete(n))) && LastIs(Step(s, DoComplete(n)), Completed)
  {
    FindNumber(s.tournament.value, n - 1);
    CompleteGoesThrough(s, n);
    hide StateOk, LastIs, AllReported, WithLast, RoundByNumber, LastMatches, LastRound;
    StepTo(s, DoComplete(n), LastRound(s).(status := Completed));
  }

  lemma CompleteGoesThrough(s: State, n: nat)
    requires LastIs(s, Published) && AllReported(LastMatches(s)) && n == |s.tournament.value.rounds|
    requires RoundByNumber(s.tournament.value.rounds, n) == Some(n - 1)
    ensures Attempt(s, DoComplete(n)) == Ok(WithLast(s, LastRound(s).(status := Completed)))
    ensures Enabled(s, DoComplete(n))
  {
    hide RoundByNumber, AllReported;
  }

  lemma PublishLast(s: State, n: nat)
    requires StateOk(s) && LastIs(s, Draft) && n == |s.tournament.value.rounds|
    ensures StateOk(Step(s, DoPublish(n))) && LastIs(Step(s, DoPublish(n)), Published)
  {
    FindNumber(s.tournament.value, n - 1);
    PublishGoesThrough(s, n);
    hide StateOk, LastIs, WithLast, RoundByNumber, LastMatches, LastRound, FillByes;
    StepTo(s, DoPublish(n), LastRound(s).(status := Published, matches := FillByes(LastMatches(s))));
  }

  lemma PublishGoesThrough(s: State, n: nat)
    requires LastIs(s, Draft) && n == |s.tournament.value.rounds|
    requires RoundByNumber(s.tournament.value.rounds, n) == Some(n - 1)
    ensures Attempt(s, DoPublish(n))
            == Ok(WithLast(s, LastRound(s).(status := Published, matches := FillByes(LastMatches(s)))))
    ensures Enabled(s, DoPublish(n))
  {
    hide RoundByNumber, FillByes;
  }

  lemma FinishNow(s: State)
    requires StateOk(s) && s.event == R.Started
        && (s.tournament.Some? && s.tournament.value.rounds != [] ==> LastIs(s, Completed))
    ensures Step(s, DoTransition(R.Finish)).event == R.Finished
  {
    if s.tournament.Some? {
      AllCompleted(s.tournament.value);
    }
    FinishGoesThrough(s);
  }

  lemma AllCompleted(t: Tournament)
    requires TournamentOk(t) && (t.rounds != [] ==> t.rounds[|t.rounds| - 1].status == Completed)
    ensures OpenRounds(t.rounds) == 0
  {
    forall k | 0 <= k < |t.rounds| ensures t.rounds[k].status == Completed {
      assert Placed(t, k);
    }
    hide TournamentOk;
    NoneOpen(t.rounds);
  }

  lemma FinishGoesThrough(s: State)
    requires s.event == R.Started && CountOpen(s) == 0
    ensures Step(s, DoTransition(R.Finish)).event == R.Finished
  {
    hide CountOpen, OpenRounds;
  }

  lemma {:induction false} FinishPublished(s: State) returns (actions: seq<Action>)
    requires StateOk(s) && LastIs(s, Published)
    ensures Run(s, actions).event == R.Finished
  {
    var reports := ReportFrom(s, 0);
    var reported := Run(s, reports);
    var complete := DoComplete(|reported.tournament.value.rounds|);
    CompleteLast(reported, |reported.tournament.value.rounds|);
    hide Step, StateOk;
    FinishNow(Step(reported, complete));
    RunOne(Step(reported, complete), DoTransition(R.Finish));
    RunFirst(reported, complete, [DoTransition(R.Finish)]);
    actions := reports + ([complete] + [DoTransition(R.Finish)]);
    RunAppend(s, reports, [complete] + [DoTransition(R.Finish)]);
  }

  /** From every reachable started state, the organizer alone can bring the event to its end. */
  lemma CanAlwaysFinish(s: State, actions: seq<Action>) returns (more: seq<Action>)
    requires StateOk(s) && Run(s, actions).event == R.Started
    ensures Run(s, actions + more).event == R.Finished
  {
    RunKeepsInvariant(s, actions);
    var s1 := Run(s, actions);
    hide Run, Step, StateOk, Evolves;
    if LastIs(s1, Published) {
      more := FinishPublished(s1);
    } else if LastIs(s1, Draft) {
      PublishLast(s1, |s1.tournament.value.rounds|);
      var a := DoPublish(|s1.tournament.value.rounds|);
      var rest := FinishPublished(Step(s1, a));
      RunFirst(s1, a, rest);
      more := [a] + rest;
    } else {
      FinishNow(s1);
      RunOne(s1, DoTransition(R.Finish));
      more := [DoTransition(R.Finish)];
    }
    RunAppend(s, actions, more);
  }
}
