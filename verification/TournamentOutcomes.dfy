/** What each call of the tournament service changes and leaves alone, and whom it gives match points. */
module TournamentOutcomes {
  import opened Wrappers
  import opened SwissTypes
  import R = RegistrationRows
  import opened T = TournamentRounds
  import opened TournamentInvariant
  import opened TournamentRuns
  import opened TournamentTheorems

  // ---------------------------------------------------------------------
  // What stays
  // ---------------------------------------------------------------------

  /** Nothing but round `k` differs, and of it only the status and the match rows. */
  ghost predicate OnlyRound(s: State, s': State, k: nat)
    requires HasRound(s, k)
  {
    && HasRound(s', k) && s'.event == s.event
    && var t, t' := s.tournament.value, s'.tournament.value;
       && t'.plannedRounds == t.plannedRounds && t'.players == t.players && t'.draws == t.draws
       && |t'.rounds| == |t.rounds|
       && (forall l :: 0 <= l < |t.rounds| && l != k ==> t'.rounds[l] == t.rounds[l])
       && t'.rounds[k].number == t.rounds[k].number && t'.rounds[k].createdAt == t.rounds[k].createdAt
       && t'.rounds[k].draw == t.rounds[k].draw
       && |t'.rounds[k].matches| == |t.rounds[k].matches|
  }

  /** Writing one round back. */
  lemma SetRoundIsLocal(s: State, k: nat, r: Round)
    requires HasRound(s, k)
    requires var was := s.tournament.value.rounds[k];
             r == was.(status := r.status, matches := r.matches) && |r.matches| == |was.matches|
    ensures var s' := SetRound(s, s.tournament.value, k, r);
            OnlyRound(s, s', k) && s'.tournament.value.rounds[k] == r
  {
  }

  /** The rows of round `k` other than `i` stay. */
  ghost predicate OtherRowsStay(s: State, s': State, k: nat, i: nat)
    requires HasRound(s, k) && OnlyRound(s, s', k)
  {
    forall j :: 0 <= j < |s.tournament.value.rounds[k].matches| && j != i ==> RowAt(s', k, j) == RowAt(s, k, j)
  }

  // ---------------------------------------------------------------------
  // Reports
  // ---------------------------------------------------------------------

  /** A report that goes through stores its score in that row, ruled if an organizer made it; all else stays. */
  lemma ReportOutcome(s: State, k: nat, i: nat, caller: Id, admin: bool, score: Score)
    requires StateOk(s) && HasRow(s, k, i)
    requires ReportResult(s, MatchId(s.tournament.value.rounds[k].draw, i), caller, admin, score).Ok?
    ensures var s' := ReportResult(s, MatchId(s.tournament.value.rounds[k].draw, i), caller, admin, score).value;
            && OnlyRound(s, s', k) && OtherRowsStay(s, s', k, i)
            && s'.tournament.value.rounds[k].status == s.tournament.value.rounds[k].status
            && var m, m' := RowAt(s, k, i), RowAt(s', k, i);
               && m'.result == Some(score) && (m'.ruled <==> m.ruled || admin)
               && m'.table == m.table && m'.player1 == m.player1 && m'.player2 == m.player2
  {
    var r := s.tournament.value.rounds[k];
    ReportedHere(s, k, i, caller, admin, score);
    SetRoundIsLocal(s, k, r.(matches := r.matches[i := Reported(r.matches[i], admin, score)]));
    hide StateOk, ReportResult, SetRound, OnlyRound;
  }

  lemma ReportedHere(s: State, k: nat, i: nat, caller: Id, admin: bool, score: Score)
    requires StateOk(s) && HasRow(s, k, i)
    requires ReportResult(s, MatchId(s.tournament.value.rounds[k].draw, i), caller, admin, score).Ok?
    ensures var t := s.tournament.value;
            var r := t.rounds[k];
            ReportResult(s, MatchId(r.draw, i), caller, admin, score).value
            == SetRound(s, t, k, r.(matches := r.matches[i := Reported(r.matches[i], admin, score)]))
  {
    FindMatch(s.tournament.value, k, i);
    hide StateOk, GetMatch, ReportGuard, Valid, Reported;
  }

  // ---------------------------------------------------------------------
  // Match points
  // ---------------------------------------------------------------------

  /** Three for the side with more games, one each when level. */
  function SidePoints(own: int, theirs: int): nat {
    if own > theirs then 3 else if own == theirs then 1 else 0
  }

  /** What a score in this row is worth to `id`; a bye is a win. */
  function Worth(m: TableMatch, score: Option<Score>, id: Id): nat {
    if score.None? then 0
    else if m.player2.None? then if id == m.player1 then 3 else 0
    else if id == m.player1 then SidePoints(score.value.p1Games, score.value.p2Games)
    else if id == m.player2.value then SidePoints(score.value.p2Games, score.value.p1Games)
    else 0
  }

  /** Somebody's match points as the pairing engine and the standings see them. */
  function PointsOf(s: State, id: Id): nat {
    if s.tournament.None? then 0 else MatchPoints(History(s.tournament.value.rounds), id)
  }

  function RoundPoints(r: Round, id: Id): nat {
    if r.status == Draft then 0 else MatchPoints(SwissMatches(r.matches), id)
  }

  lemma RowPoints(m: TableMatch, id: Id)
    requires m.player2 != Some(m.player1)
    ensures PointsFromMatch(Match(m.player1, m.player2, m.result), id) == Worth(m, m.result, id)
  {
  }

  lemma {:induction false} RoundsUpdate(rounds: seq<Round>, k: nat, r: Round, id: Id)
    requires k < |rounds|
    ensures MatchPoints(History(rounds[k := r]), id) + RoundPoints(rounds[k], id)
         == MatchPoints(History(rounds), id) + RoundPoints(r, id)
    decreases |rounds|
  {
    var n := |rounds| - 1;
    var front, after := rounds[..n], rounds[k := r];
    hide MatchPoints, History, RoundPoints;
    LastRoundPoints(rounds, id);
    LastRoundPoints(after, id);
    if k == n {
      assert after[..n] == front && after[n] == r;
    } else {
      assert after[..n] == front[k := r] && after[n] == rounds[n];
      RoundsUpdate(front, k, r, id);
    }
  }

  lemma LastRoundPoints(rounds: seq<Round>, id: Id)
    requires rounds != []
    ensures MatchPoints(History(rounds), id)
         == MatchPoints(History(rounds[..|rounds| - 1]), id) + RoundPoints(rounds[|rounds| - 1], id)
  {
    var last := rounds[|rounds| - 1];
    PointsAcross(History(rounds[..|rounds| - 1]), if last.status == Draft then [] else SwissMatches(last.matches), id);
    NoMatchNoPoints(id);
    hide MatchPoints, SwissMatches;
  }

  lemma {:induction false} RowsUpdate(ms: seq<TableMatch>, i: nat, m: TableMatch, id: Id)
    requires i < |ms|
    ensures MatchPoints(SwissMatches(ms[i := m]), id)
            + PointsFromMatch(Match(ms[i].player1, ms[i].player2, ms[i].result), id)
         == MatchPoints(SwissMatches(ms), id) + PointsFromMatch(Match(m.player1, m.player2, m.result), id)
  {
    hide PointsFromMatch;
    var n := |ms| - 1;
    assert SwissMatches(ms)[..n] == SwissMatches(ms[..n]);
    assert SwissMatches(ms[i := m])[..n] == SwissMatches(ms[i := m][..n]);
    if i == n {
      assert ms[i := m][..n] == ms[..n];
    } else {
      assert ms[i := m][..n] == ms[..n][i := m];
      RowsUpdate(ms[..n], i, m, id);
    }
  }

  lemma NobodyPlaysThemselves(players: seq<Entrant>, matches: seq<TableMatch>, i: nat)
    requires SeatsOk(players, matches) && i < |matches|
    ensures matches[i].player2 != Some(matches[i].player1)
  {
    SeatsHold(matches, i);
    assert SeatBag(matches[i])[matches[i].player1] <= Seats(matches)[matches[i].player1] <= 1;
  }

  /**
   A report gives each of the two players what the score is worth to them, in
   place of what the row's result was worth before, and nobody else anything.
   So a first report gives the side with more games three points and the other
   none, and one each when the games are level.
   */
  lemma ReportPoints(s: State, k: nat, i: nat, caller: Id, admin: bool, score: Score, id: Id)
    requires StateOk(s) && HasRow(s, k, i)
    requires ReportResult(s, MatchId(s.tournament.value.rounds[k].draw, i), caller, admin, score).Ok?
    ensures var s' := ReportResult(s, MatchId(s.tournament.value.rounds[k].draw, i), caller, admin, score).value;
            var m := RowAt(s, k, i);
            && PointsOf(s', id) == PointsOf(s, id) + Worth(m, Some(score), id) - Worth(m, m.result, id)
            && (m.result.None? && m.player2.Some? ==>
                  PointsOf(s', id) - PointsOf(s, id)
                  == if score.p1Games == score.p2Games then (if id == m.player1 || Some(id) == m.player2 then 1 else 0)
                     else if id == m.player1 then (if score.p1Games > score.p2Games then 3 else 0)
                     else if Some(id) == m.player2 then (if score.p2Games > score.p1Games then 3 else 0)
                     else 0)
  {
    var t := s.tournament.value;
    var r := t.rounds[k];
    var m := r.matches[i];
    ReportedHere(s, k, i, caller, admin, score);
    ReportOpens(s, k, i, caller, admin, score);
    assert RoundOk(t.players, r);
    NobodyPlaysThemselves(t.players, r.matches, i);
    hide StateOk, RoundOk, ReportResult, PointsOf, RoundPoints, Reported, SetRound;
    ReportedRoundPoints(r, i, admin, score, id);
    RewritePoints(s, k, r.(matches := r.matches[i := Reported(m, admin, score)]), id);
    WorthSpeltOut(m, score, id);
    hide Worth;
  }

  /** Rewriting a round moves points by the difference between its old and its new ones. */
  lemma RewritePoints(s: State, k: nat, r: Round, id: Id)
    requires HasRound(s, k)
    ensures var t := s.tournament.value;
            PointsOf(SetRound(s, t, k, r), id) + RoundPoints(t.rounds[k], id) == PointsOf(s, id) + RoundPoints(r, id)
  {
    RoundsUpdate(s.tournament.value.rounds, k, r, id);
    hide History, MatchPoints, RoundPoints;
  }

  lemma ReportedRoundPoints(r: Round, i: nat, admin: bool, score: Score, id: Id)
    requires i < |r.matches| && r.status != Draft && r.matches[i].player2 != Some(r.matches[i].player1)
    ensures var m := r.matches[i];
            RoundPoints(r.(matches := r.matches[i := Reported(m, admin, score)]), id) + Worth(m, m.result, id)
            == RoundPoints(r, id) + Worth(m, Some(score), id)
  {
    var m := r.matches[i];
    RowsUpdate(r.matches, i, Reported(m, admin, score), id);
    RowPoints(m, id);
    RowPoints(Reported(m, admin, score), id);
    hide SwissMatches, MatchPoints, PointsFromMatch, SidePoints;
  }

  lemma WorthSpeltOut(m: TableMatch, score: Score, id: Id)
    requires m.player2 != Some(m.player1)
    ensures m.result.None? ==> Worth(m, m.result, id) == 0
    ensures m.player2.Some? ==>
              Worth(m, Some(score), id)
              == if score.p1Games == score.p2Games then (if id == m.player1 || Some(id) == m.player2 then 1 else 0)
                 else if id == m.player1 then (if score.p1Games > score.p2Games then 3 else 0)
                 else if Some(id) == m.player2 then (if score.p2Games > score.p1Games then 3 else 0)
                 else 0
  {
  }

  lemma ReportOpens(s: State, k: nat, i: nat, caller: Id, admin: bool, score: Score)
    requires StateOk(s) && HasRow(s, k, i)
    requires ReportResult(s, MatchId(s.tournament.value.rounds[k].draw, i), caller, admin, score).Ok?
    ensures s.tournament.value.rounds[k].status != Draft && RowAt(s, k, i).player2.Some?
  {
    FindMatch(s.tournament.value, k, i);
    hide StateOk, GetMatch, Valid, PlaysIn;
  }

  // ---------------------------------------------------------------------
  // Publishing and completing
  // ---------------------------------------------------------------------

  /** Whether round `number` exists, in that status, in a started event. */
  ghost predicate RoundIs(s: State, number: int, status: RoundStatus) {
    && s.event == R.Started && s.tournament.Some? && 1 <= number <= |s.tournament.value.rounds|
    && s.tournament.value.rounds[number - 1].status == status
  }

  lemma DraftByNumber(t: Tournament, number: int)
    requires TournamentOk(t)
    ensures DraftRound(t.rounds, number).Ok?
            <==> 1 <= number <= |t.rounds| && t.rounds[number - 1].status == Draft
    ensures DraftRound(t.rounds, number).Ok? ==> DraftRound(t.rounds, number).value == number - 1
  {
    RoundsByNumber(t, number);
    hide TournamentOk, RoundByNumber;
  }

  lemma RoundsByNumber(t: Tournament, number: int)
    requires TournamentOk(t)
    ensures RoundByNumber(t.rounds, number) == if 1 <= number <= |t.rounds| then Some(number - 1) else None
  {
    forall k | 0 <= k < |t.rounds| ensures t.rounds[k].number == k + 1 {
      assert Placed(t, k);
    }
    var found := RoundByNumber(t.rounds, number);
    assert found.Some? ==> t.rounds[found.value].number == number;
    if 1 <= number <= |t.rounds| {
      FindNumber(t, number - 1);
    }
  }

  /** Publishing takes a draft out, gives its bye 2-0, and leaves every other row without a result. */
  lemma PublishOutcome(s: State, number: int)
    requires StateOk(s)
    ensures Publish(s, number).Ok? <==> RoundIs(s, number, Draft)
    ensures Publish(s, number).Ok? ==>
              var s' := Publish(s, number).value;
              var k := number - 1;
              && OnlyRound(s, s', k) && s'.tournament.value.rounds[k].status == Published
              && forall i :: 0 <= i < |s.tournament.value.rounds[k].matches| ==>
                   RowAt(s', k, i) == (if RowAt(s, k, i).player2.None?
                                       then RowAt(s, k, i).(result := Some(Score(2, 0, 0))) else RowAt(s, k, i))
  {
    hide StateOk, Publish;
    PublishedHere(s, number);
    if RoundIs(s, number, Draft) {
      var r := s.tournament.value.rounds[number - 1];
      SetRoundIsLocal(s, number - 1, r.(status := Published, matches := FillByes(r.matches)));
    }
    hide SetRound, OnlyRound, RoundIs;
  }

  lemma PublishedHere(s: State, number: int)
    requires StateOk(s)
    ensures Publish(s, number).Ok? <==> RoundIs(s, number, Draft)
    ensures Publish(s, number).Ok? ==>
              var t := s.tournament.value;
              var r := t.rounds[number - 1];
              Publish(s, number).value
              == SetRound(s, t, number - 1, r.(status := Published, matches := FillByes(r.matches)))
  {
    hide TournamentOk, DraftRound, FillByes, OpenRounds;
    if s.tournament.Some? {
      DraftByNumber(s.tournament.value, number);
    }
    hide StateOk;
  }

  ghost predicate FullyReported(r: Round) {
    forall i :: 0 <= i < |r.matches| ==> r.matches[i].result.Some?
  }

  lemma CompletedHere(s: State, number: int)
    requires StateOk(s)
    ensures Complete(s, number).Ok?
            <==> RoundIs(s, number, Published) && AllReported(s.tournament.value.rounds[number - 1].matches)
    ensures Complete(s, number).Ok? ==>
              var t := s.tournament.value;
              Complete(s, number).value == SetRound(s, t, number - 1, t.rounds[number - 1].(status := Completed))
  {
    hide TournamentOk, RoundByNumber, AllReported, OpenRounds;
    if s.tournament.Some? {
      RoundsByNumber(s.tournament.value, number);
    }
    hide StateOk;
  }

  /** Completing closes a published round once every match has a result, and touches nothing else. */
  lemma CompleteOutcome(s: State, number: int)
    requires StateOk(s)
    ensures Complete(s, number).Ok?
            <==> RoundIs(s, number, Published) && FullyReported(s.tournament.value.rounds[number - 1])
    ensures Complete(s, number).Ok? ==>
              var s' := Complete(s, number).value;
              var k := number - 1;
              && OnlyRound(s, s', k) && s'.tournament.value.rounds[k].status == Completed
              && s'.tournament.value.rounds[k].matches == s.tournament.value.rounds[k].matches
  {
    hide StateOk, Complete;
    CompletedHere(s, number);
    if RoundIs(s, number, Published) {
      SetRoundIsLocal(s, number - 1, s.tournament.value.rounds[number - 1].(status := Completed));
    }
    hide SetRound, OnlyRound;
  }

  // ---------------------------------------------------------------------
  // Pairing and redrawing
  // ---------------------------------------------------------------------

  /** Who is still playing, by place on the roster. */
  ghost function Playing(players: seq<Entrant>): set<nat> {
    set i: nat | i < |players| && players[i].droppedAt.None?
  }

  lemma {:induction false} PlayingAreActive(players: seq<Entrant>)
    ensures |ActiveIds(SwissPlayers(players))| == |Playing(players)|
  {
    if players == [] {
      assert Playing(players) == {};
    } else {
      var n := |players| - 1;
      PlayingAreActive(players[..n]);
      assert SwissPlayers(players)[..n] == SwissPlayers(players[..n]);
      assert Playing(players) == Playing(players[..n]) + if players[n].droppedAt.None? then {n} else {};
    }
  }

  /** The rows of a fresh draw: one a pairing, with nothing reported. */
  ghost predicate FreshRows(matches: seq<TableMatch>, pairings: seq<Pairing>) {
    && |matches| == |pairings|
    && forall i :: 0 <= i < |pairings| ==>
         && matches[i].table == pairings[i].tableNumber && matches[i].player1 == pairings[i].player1
         && matches[i].player2 == pairings[i].player2 && matches[i].result.None? && !matches[i].ruled
  }

  /**
   The next round can be paired exactly when every round is completed, more are
   planned and two players are left; it comes last, as a draft of the engine's
   pairings, and changes nothing before it.
   */
  lemma PairOutcome(s: State, roster: seq<Entrant>, now: int, pairings: seq<Pairing>)
    requires StateOk(s) && s.tournament.Some?
    ensures var t := s.tournament.value;
            PairNextRound(s, roster, now, pairings).Ok?
            <==> && s.event == R.Started && |t.rounds| < t.plannedRounds && |Playing(t.players)| >= 2
                 && forall k :: 0 <= k < |t.rounds| ==> t.rounds[k].status == Completed
    ensures PairNextRound(s, roster, now, pairings).Ok? ==>
              var t := s.tournament.value;
              var s' := PairNextRound(s, roster, now, pairings).value;
              && s'.event == s.event && s'.tournament.Some?
              && var t' := s'.tournament.value;
                 && t'.players == t.players && t'.plannedRounds == t.plannedRounds && |t'.rounds| == |t.rounds| + 1
                 && t'.rounds[..|t.rounds|] == t.rounds
                 && var r := t'.rounds[|t.rounds|];
                    r.number == |t.rounds| + 1 && r.status == Draft && r.createdAt == now
                    && FreshRows(r.matches, pairings)
  {
    var t := s.tournament.value;
    PlayingAreActive(t.players);
    NoneOpen(t.rounds);
    hide StateOk, ActiveIds, OpenRounds, Playing;
    if s.event == R.Started {
      assert (forall k :: 0 <= k < |t.rounds| ==> t.rounds[k].status == Completed) <==> OpenRounds(t.rounds) == 0;
    }
  }

  /** A draft can be redrawn at any time: its rows become the engine's new pairings, and nothing else changes. */
  lemma RerollOutcome(s: State, number: int, pairings: seq<Pairing>)
    requires StateOk(s)
    ensures Reroll(s, number, pairings).Ok? <==> RoundIs(s, number, Draft)
    ensures Reroll(s, number, pairings).Ok? ==>
              var t := s.tournament.value;
              var s' := Reroll(s, number, pairings).value;
              var k := number - 1;
              && s'.event == s.event && s'.tournament.Some?
              && var t' := s'.tournament.value;
                 && t'.players == t.players && t'.plannedRounds == t.plannedRounds && |t'.rounds| == |t.rounds|
                 && (forall l :: 0 <= l < |t.rounds| && l != k ==> t'.rounds[l] == t.rounds[l])
                 && t'.rounds[k].number == number && t'.rounds[k].status == Draft
                 && t'.rounds[k].createdAt == t.rounds[k].createdAt
                 && FreshRows(t'.rounds[k].matches, pairings)
  {
    RedrawnHere(s, number, pairings);
    if s.tournament.Some? && 1 <= number <= |s.tournament.value.rounds| {
      NumberedByPlace(s.tournament.value, number - 1);
    }
    hide StateOk, Reroll;
  }

  lemma RedrawnHere(s: State, number: int, pairings: seq<Pairing>)
    requires StateOk(s)
    ensures Reroll(s, number, pairings).Ok? <==> RoundIs(s, number, Draft)
    ensures Reroll(s, number, pairings).Ok? ==>
              var t := s.tournament.value;
              Reroll(s, number, pairings).value
              == SetRound(s, t.(draws := t.draws + 1), number - 1, Redrawn(t, number - 1, pairings))
  {
    hide TournamentOk, DraftRound, InsertPairings, OpenRounds;
    if s.tournament.Some? {
      DraftByNumber(s.tournament.value, number);
    }
    hide StateOk;
  }

  // ---------------------------------------------------------------------
  // The roster
  // ---------------------------------------------------------------------

  /** Nothing but entrant `p` differs, and of them only whether they are out. */
  ghost predicate OnlyEntrant(s: State, s': State, p: nat)
    requires s.tournament.Some? && p < |s.tournament.value.players|
  {
    && s'.event == s.event && s'.tournament.Some?
    && var t, t' := s.tournament.value, s'.tournament.value;
       && |t'.players| == |t.players|
       && t' == t.(players := t.players[p := t.players[p].(droppedAt := t'.players[p].droppedAt)])
  }

  /** A player is dropped, once, by themselves or by an organizer, while the event is started, and nobody else is. */
  lemma DropOutcome(s: State, p: nat, caller: Id, admin: bool, now: int)
    requires StateOk(s) && s.tournament.Some? && p < |s.tournament.value.players|
    ensures var e := s.tournament.value.players[p];
            Drop(s, e.id, caller, admin, now).Ok?
            <==> s.event == R.Started && (admin || caller == e.user) && e.droppedAt.None?
    ensures var e := s.tournament.value.players[p];
            Drop(s, e.id, caller, admin, now).Ok? ==>
              var s' := Drop(s, e.id, caller, admin, now).value;
              OnlyEntrant(s, s', p) && s'.tournament.value.players[p].droppedAt == Some(now)
  {
    FindsPlayer(s.tournament.value, p);
    hide StateOk, FindEntrant;
  }

  /** A drop is taken back by the player or an organizer alone, while no round bears a later time. */
  lemma UndropOutcome(s: State, p: nat, caller: Id, admin: bool)
    requires StateOk(s) && s.tournament.Some? && p < |s.tournament.value.players|
    ensures var t := s.tournament.value;
            var e := t.players[p];
            Undrop(s, e.id, caller, admin).Ok?
            <==> s.event == R.Started && (admin || caller == e.user) && e.droppedAt.Some?
                 && forall k :: 0 <= k < |t.rounds| ==> t.rounds[k].createdAt <= e.droppedAt.value
    ensures var e := s.tournament.value.players[p];
            Undrop(s, e.id, caller, admin).Ok? ==>
              var s' := Undrop(s, e.id, caller, admin).value;
              OnlyEntrant(s, s', p) && s'.tournament.value.players[p].droppedAt.None?
  {
    FindsPlayer(s.tournament.value, p);
    hide StateOk, FindEntrant;
  }

  /** Nobody who is not on the roster is dropped or taken back. */
  lemma OnlyTheRoster(s: State, player: Id, caller: Id, admin: bool, now: int)
    requires s.tournament.Some? && !OnRoster(s.tournament.value.players, player)
    ensures Drop(s, player, caller, admin, now).Err? && Undrop(s, player, caller, admin).Err?
  {
    hide FindEntrant;
  }

  /** Removing a participant drops their player if still in, and leaves everybody else and the rounds alone. */
  lemma RemovalOutcome(s: State, user: Id, now: int)
    requires s.tournament.Some?
    ensures var t := s.tournament.value;
            var s' := DropByUser(s, user, now);
            && s'.event == s.event && s'.tournament.Some? && |s'.tournament.value.players| == |t.players|
            && s'.tournament.value == t.(players := s'.tournament.value.players)
            && forall p :: 0 <= p < |t.players| ==>
                 var e, e' := t.players[p], s'.tournament.value.players[p];
                 && e' == e.(droppedAt := e'.droppedAt)
                 && e'.droppedAt == if e.droppedAt.None? && e.user == user then Some(now) else e.droppedAt
  {
  }

  /** A tournament starts with the roster and the rounds asked for, or else enough to leave one undefeated. */
  ghost predicate StartsWith(t: Tournament, roster: seq<Entrant>, planned: Option<int>) {
    && t.players == roster && t.rounds == [] && t.draws == 0
    && (planned.Some? ==> t.plannedRounds == planned.value)
    && (planned.None? ==> 1 <= t.plannedRounds && |roster| <= Pow2(t.plannedRounds)
                          && (t.plannedRounds > 1 ==> Pow2(t.plannedRounds - 1) < |roster|))
  }

  /** At least one round is planned, and no fewer than there are; planning changes nothing else. */
  lemma UpsertOutcome(s: State, roster: seq<Entrant>, planned: Option<int>)
    requires StateOk(s)
    ensures Upsert(s, roster, planned).Ok?
            <==> && s.event == R.Started && (planned.Some? ==> planned.value >= 1)
                 && (if s.tournament.None? then roster != []
                     else planned.Some? ==> planned.value >= |s.tournament.value.rounds|)
    ensures Upsert(s, roster, planned).Ok? ==>
              var s' := Upsert(s, roster, planned).value;
              && s'.event == s.event && s'.tournament.Some?
              && (if s.tournament.None? then StartsWith(s'.tournament.value, roster, planned)
                  else s'.tournament.value
                       == s.tournament.value.(plannedRounds := planned.GetOr(s.tournament.value.plannedRounds)))
  {
    DefaultRoundsIsLog(|roster|);
    hide StateOk, DefaultRounds, Pow2;
  }

  // ---------------------------------------------------------------------
  // Where match points come from
  // ---------------------------------------------------------------------

  ghost predicate HasBye(matches: seq<TableMatch>, id: Id) {
    exists i :: 0 <= i < |matches| && matches[i].player2.None? && matches[i].player1 == id
  }

  function ByesOf(matches: seq<TableMatch>, id: Id): nat {
    if matches == [] then 0
    else
      var m := matches[|matches| - 1];
      ByesOf(matches[..|matches| - 1], id) + if m.player2.None? && m.player1 == id then 1 else 0
  }

  lemma {:induction false} ByesAreSeats(matches: seq<TableMatch>, id: Id)
    ensures ByesOf(matches, id) <= Seats(matches)[id]
  {
    if matches != [] {
      ByesAreSeats(matches[..|matches| - 1], id);
    }
  }

  lemma {:induction false} ByesAreFound(matches: seq<TableMatch>, id: Id)
    ensures ByesOf(matches, id) > 0 <==> HasBye(matches, id)
  {
    if matches != [] {
      var front := matches[..|matches| - 1];
      ByesAreFound(front, id);
      if HasBye(front, id) {
        var i :| 0 <= i < |front| && front[i].player2.None? && front[i].player1 == id;
        assert matches[i] == front[i];
      }
    }
  }

  lemma {:induction false} FilledPoints(matches: seq<TableMatch>, id: Id)
    requires RowsOk(Draft, matches)
    ensures MatchPoints(SwissMatches(FillByes(matches)), id) == 3 * ByesOf(matches, id)
  {
    if matches != [] {
      var n := |matches| - 1;
      assert RowOk(Draft, matches[n]);
      FilledPoints(matches[..n], id);
      assert SwissMatches(FillByes(matches))[..n] == SwissMatches(FillByes(matches[..n]));
    }
  }

  /** Publishing gives whoever has the bye three points, and nobody else anything. */
  lemma PublishPoints(s: State, number: int, s': State, id: Id)
    requires StateOk(s) && RoundIs(s, number, Draft) && Publish(s, number) == Ok(s')
    ensures PointsOf(s', id)
         == PointsOf(s, id) + if HasBye(s.tournament.value.rounds[number - 1].matches, id) then 3 else 0
  {
    hide TournamentOk, RoundOk, Publish, PointsOf, HasBye, FillByes, SetRound;
    DraftIsOk(s, number);
    hide StateOk;
    PublishedHere(s, number);
    hide RoundIs;
    DraftGains(s, number - 1, id);
  }

  lemma DraftIsOk(s: State, number: int)
    requires StateOk(s) && RoundIs(s, number, Draft)
    ensures HasRound(s, number - 1) && s.tournament.value.rounds[number - 1].status == Draft
    ensures RoundOk(s.tournament.value.players, s.tournament.value.rounds[number - 1])
  {
    hide TournamentOk, RoundOk;
    RoundAt(s.tournament.value, number - 1);
  }

  lemma DraftGains(s: State, k: nat, id: Id)
    requires HasRound(s, k) && s.tournament.value.rounds[k].status == Draft
    requires RoundOk(s.tournament.value.players, s.tournament.value.rounds[k])
    ensures var t := s.tournament.value;
            var r := t.rounds[k];
            PointsOf(SetRound(s, t, k, r.(status := Published, matches := FillByes(r.matches))), id)
            == PointsOf(s, id) + if HasBye(r.matches, id) then 3 else 0
  {
    var r := s.tournament.value.rounds[k];
    hide RoundOk, PointsOf, RoundPoints, HasBye, FillByes, SetRound;
    PublishedRoundPoints(s.tournament.value.players, r, id);
    RewritePoints(s, k, r.(status := Published, matches := FillByes(r.matches)), id);
  }

  lemma PublishedRoundPoints(players: seq<Entrant>, r: Round, id: Id)
    requires RoundOk(players, r) && r.status == Draft
    ensures RoundPoints(r, id) == 0
    ensures RoundPoints(r.(status := Published, matches := FillByes(r.matches)), id)
         == if HasBye(r.matches, id) then 3 else 0
  {
    FilledPoints(r.matches, id);
    ByesAreSeats(r.matches, id);
    ByesAreFound(r.matches, id);
    assert Seats(r.matches)[id] <= 1;
    hide RoundOk, SwissMatches, MatchPoints, HasBye, Seats, FillByes, ByesOf;
  }

  /** What a step gives somebody. */
  ghost function Gain(s: State, a: Action, id: Id): int {
    if !Enabled(s, a) || Attempt(s, a).Err? then 0
    else if a.DoPublish? then
      if RoundIs(s, a.number, Draft) && HasBye(s.tournament.value.rounds[a.number - 1].matches, id) then 3 else 0
    else if a.DoReport? && s.tournament.Some? && GetMatch(s.tournament.value.rounds, a.match').Some? then
      var (k, i) := GetMatch(s.tournament.value.rounds, a.match').value;
      var m := RowAt(s, k, i);
      Worth(m, Some(a.score), id) - Worth(m, m.result, id)
    else 0
  }

  /**
   Match points come from reports and byes alone: every other step, and every
   attempt that fails, leaves everybody's points as they are.
   */
  lemma PointsMove(s: State, a: Action, id: Id)
    requires StateOk(s)
    ensures PointsOf(Step(s, a), id) == PointsOf(s, id) + Gain(s, a, id)
  {
    if Enabled(s, a) && Attempt(s, a).Ok? {
      hide StateOk, Enabled, PointsOf, Gain, Step;
      if a.DoPublish? {
        PublishGain(s, a, id);
      } else if a.DoReport? {
        ReportGain(s, a, id);
      } else {
        NoGain(s, a, id);
      }
    }
  }

  lemma PublishGain(s: State, a: Action, id: Id)
    requires StateOk(s) && a.DoPublish? && Attempt(s, a).Ok?
    ensures PointsOf(Step(s, a), id) == PointsOf(s, id) + Gain(s, a, id)
  {
    hide StateOk, PointsOf, HasBye, SetRound, FillByes, RoundIs, Publish, Step, Enabled;
    PublishStep(s, a);
    hide Attempt;
    PublishedHere(s, a.number);
    PublishPoints(s, a.number, Step(s, a), id);
  }

  lemma PublishStep(s: State, a: Action)
    requires a.DoPublish? && Attempt(s, a).Ok?
    ensures Attempt(s, a) == Publish(s, a.number) && Step(s, a) == Publish(s, a.number).value && Enabled(s, a)
  {
    hide Publish;
  }

  lemma ReportGain(s: State, a: Action, id: Id)
    requires StateOk(s) && a.DoReport? && Attempt(s, a).Ok?
    ensures PointsOf(Step(s, a), id) == PointsOf(s, id) + Gain(s, a, id)
  {
    FoundByReport(s, a);
    var (k, i) := GetMatch(s.tournament.value.rounds, a.match').value;
    ReportPoints(s, k, i, a.caller, a.admin, a.score, id);
    hide StateOk, ReportResult, PointsOf, Worth;
  }

  lemma FoundByReport(s: State, a: Action)
    requires a.DoReport? && Attempt(s, a).Ok?
    ensures s.tournament.Some? && GetMatch(s.tournament.value.rounds, a.match').Some?
  {
    hide GetMatch, PlaysIn, Valid, Reported;
  }

  lemma NoGain(s: State, a: Action, id: Id)
    requires StateOk(s) && Enabled(s, a) && Attempt(s, a).Ok? && !a.DoPublish? && !a.DoReport?
    ensures PointsOf(Step(s, a), id) == PointsOf(s, id) && Gain(s, a, id) == 0
  {
    hide StateOk, Enabled;
    match a {
      case DoPairNext(roster, now, pairings) => PairGain(s, roster, now, pairings, id);
      case DoReroll(number, pairings) => RerollGain(s, number, pairings, id);
      case DoSwap(number, x, y) => SwapGain(s, number, x, y, id);
      case DoComplete(number) => CompleteGain(s, number, id);
      case DoUpsert(roster, planned) => UpsertGain(s, roster, planned, id);
      case _ => RosterGain(s, a);
    }
    hide PointsOf, Upsert, PairNextRound, Reroll, Swap, Complete, Drop, Undrop, DropByUser, T.Transition;
  }

  lemma PairGain(s: State, roster: seq<Entrant>, now: int, pairings: seq<Pairing>, id: Id)
    requires PairNextRound(s, roster, now, pairings).Ok?
    ensures PointsOf(PairNextRound(s, roster, now, pairings).value, id) == PointsOf(s, id)
  {
    PairedOnto(s, roster, now, pairings);
    AddRoundPoints(LockOrCreate(s, roster).value, now, pairings, id);
    NoRoundsNoPoints(id);
    hide MatchPoints, History, AddRound, PairNextRound, LockOrCreate;
  }

  lemma PairedOnto(s: State, roster: seq<Entrant>, now: int, pairings: seq<Pairing>)
    requires PairNextRound(s, roster, now, pairings).Ok?
    ensures LockOrCreate(s, roster).Ok?
    ensures var t := LockOrCreate(s, roster).value;
            && PairNextRound(s, roster, now, pairings).value == With(s, AddRound(t, now, pairings))
            && (if s.tournament.Some? then t == s.tournament.value else t.rounds == [])
  {
    hide AddRound, PairGuard, DefaultRounds;
  }

  lemma AddRoundPoints(t: Tournament, now: int, pairings: seq<Pairing>, id: Id)
    ensures MatchPoints(History(AddRound(t, now, pairings).rounds), id) == MatchPoints(History(t.rounds), id)
  {
    var rounds' := AddRound(t, now, pairings).rounds;
    LastRoundPoints(rounds', id);
    assert rounds'[..|rounds'| - 1] == t.rounds;
    hide MatchPoints, History, SwissMatches, InsertPairings;
  }

  lemma NoRoundsNoPoints(id: Id)
    ensures MatchPoints(History([]), id) == 0
  {
  }

  lemma UpsertGain(s: State, roster: seq<Entrant>, planned: Option<int>, id: Id)
    requires Upsert(s, roster, planned).Ok?
    ensures PointsOf(Upsert(s, roster, planned).value, id) == PointsOf(s, id)
  {
    NoRoundsNoPoints(id);
    hide MatchPoints, History, DefaultRounds;
  }

  lemma RerollGain(s: State, number: int, pairings: seq<Pairing>, id: Id)
    requires Reroll(s, number, pairings).Ok?
    ensures PointsOf(Reroll(s, number, pairings).value, id) == PointsOf(s, id)
  {
    var k := RerollIsLocal(s, number, pairings);
    RoundsUpdate(s.tournament.value.rounds, k, Redrawn(s.tournament.value, k, pairings), id);
    hide Reroll, History, MatchPoints, InsertPairings;
  }

  lemma SwapGain(s: State, number: int, a: SlotRef, b: SlotRef, id: Id)
    requires Swap(s, number, a, b).Ok?
    ensures PointsOf(Swap(s, number, a, b).value, id) == PointsOf(s, id)
  {
    var k, i, j := SwapIsLocal(s, number, a, b);
    var r := s.tournament.value.rounds[k];
    RoundsUpdate(s.tournament.value.rounds, k, r.(matches := SwapSlots(r.matches, i, a.slot, j, b.slot).value), id);
    hide Swap, History, MatchPoints, SwapSlots;
  }

  lemma CompleteGain(s: State, number: int, id: Id)
    requires Complete(s, number).Ok?
    ensures PointsOf(Complete(s, number).value, id) == PointsOf(s, id)
  {
    var k := CompleteIsLocal(s, number);
    RoundsUpdate(s.tournament.value.rounds, k, s.tournament.value.rounds[k].(status := Completed), id);
    hide Complete, History, MatchPoints, AllReported;
  }

  lemma RosterGain(s: State, a: Action)
    requires Attempt(s, a).Ok? && (a.DoDrop? || a.DoUndrop? || a.DoRemoveUser? || a.DoTransition?)
    ensures var s' := Attempt(s, a).value;
            && s.tournament.Some? == s'.tournament.Some?
            && (s.tournament.Some? ==> s'.tournament.value.rounds == s.tournament.value.rounds)
  {
    hide FindEntrant, CountOpen;
  }
}
