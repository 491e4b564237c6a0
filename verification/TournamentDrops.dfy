/** Who has a seat in a round: whoever was in when it was last drawn. */
module TournamentDrops {
  import opened Wrappers
  import opened SwissTypes
  import SwissPair
  import R = RegistrationRows
  import opened T = TournamentRounds
  import opened TournamentInvariant
  import opened TournamentRuns

  ghost predicate Sits(t: Tournament, k: nat, player: Id)
    requires k < |t.rounds|
  {
    player in Seats(t.rounds[k].matches)
  }

  // ---------------------------------------------------------------------
  // What leaves seats alone
  // ---------------------------------------------------------------------

  /** Publishing, completing and reporting leave every seat where it is. */
  lemma ResultsKeepSeats(s: State, a: Action, k: nat)
    requires HasRound(s, k) && Attempt(s, a).Ok? && (a.DoPublish? || a.DoComplete? || a.DoReport?)
    ensures HasRound(Attempt(s, a).value, k)
    ensures var r, r' := s.tournament.value.rounds[k], Attempt(s, a).value.tournament.value.rounds[k];
            r'.draw == r.draw && Seats(r'.matches) == Seats(r.matches)
  {
    hide Seats;
    SamePlayers(s, a, k);
    hide Attempt;
    SameSeats(s.tournament.value.rounds[k].matches, Attempt(s, a).value.tournament.value.rounds[k].matches);
  }

  lemma SamePlayers(s: State, a: Action, k: nat)
    requires HasRound(s, k) && Attempt(s, a).Ok? && (a.DoPublish? || a.DoComplete? || a.DoReport?)
    ensures HasRound(Attempt(s, a).value, k)
    ensures var r, r' := s.tournament.value.rounds[k], Attempt(s, a).value.tournament.value.rounds[k];
            && r'.draw == r.draw && |r'.matches| == |r.matches|
            && forall i :: 0 <= i < |r.matches| ==>
                 r'.matches[i].player1 == r.matches[i].player1 && r'.matches[i].player2 == r.matches[i].player2
  {
    RoundsOnly(s, a);
    hide Valid, PlaysIn, AllReported, GetMatch, RoundByNumber, DraftRound;
  }

  /** The other mutations leave the rounds there are alone. */
  lemma OthersKeepRounds(s: State, a: Action, k: nat)
    requires HasRound(s, k) && Attempt(s, a).Ok?
    requires !a.DoReroll? && !a.DoSwap? && !a.DoPublish? && !a.DoComplete? && !a.DoReport?
    ensures HasRound(Attempt(s, a).value, k)
    ensures Attempt(s, a).value.tournament.value.rounds[k] == s.tournament.value.rounds[k]
  {
    hide InsertPairings, OpenRounds, ActiveIds;
  }

  // ---------------------------------------------------------------------
  // Seats and the last draw
  // ---------------------------------------------------------------------

  /** The tournament an action draws round `k` for, if it does: pairing it or rerolling it. */
  ghost function DrawnFor(s: State, a: Action, k: nat): Option<Tournament> {
    if !Enabled(s, a) || Attempt(s, a).Err? then None
    else if a.DoPairNext? && |LockOrCreate(s, a.roster).value.rounds| == k then Some(LockOrCreate(s, a.roster).value)
    else if a.DoReroll? && a.number == k + 1 then s.tournament
    else None
  }

  ghost function Active(t: Tournament): multiset<Id> {
    multiset(ActiveIds(SwissPlayers(t.players)))
  }

  /** Who was in when round `k` was last drawn, in a run from a fresh event. */
  ghost function ActiveAtLastDraw(actions: seq<Action>, k: nat): multiset<Id> {
    if actions == [] then multiset{}
    else
      var front := actions[..|actions| - 1];
      var drawn := DrawnFor(Run(START, front), actions[|actions| - 1], k);
      if drawn.Some? then Active(drawn.value) else ActiveAtLastDraw(front, k)
  }

  lemma PairAppends(s: State, roster: seq<Entrant>, now: int, pairings: seq<Pairing>)
    requires PairNextRound(s, roster, now, pairings).Ok?
    ensures var t, t' := LockOrCreate(s, roster).value, PairNextRound(s, roster, now, pairings).value.tournament;
            && t'.Some? && |t'.value.rounds| == |t.rounds| + 1 && t'.value.rounds[..|t.rounds|] == t.rounds
            && t'.value.rounds[|t.rounds|].matches == InsertPairings(pairings)
            && (if s.tournament.Some? then t == s.tournament.value else t.rounds == [])
  {
    hide InsertPairings, PairGuard;
  }

  lemma PairSeats(s: State, roster: seq<Entrant>, now: int, pairings: seq<Pairing>, k: nat)
    requires StateOk(s) && Enabled(s, DoPairNext(roster, now, pairings)) && PairNextRound(s, roster, now, pairings).Ok?
    requires HasRound(PairNextRound(s, roster, now, pairings).value, k)
    ensures var t, rounds := LockOrCreate(s, roster).value,
                             PairNextRound(s, roster, now, pairings).value.tournament.value.rounds;
            && (|t.rounds| == k ==> Seats(rounds[k].matches) == Active(t))
            && (|t.rounds| != k ==> HasRound(s, k) && rounds[k] == s.tournament.value.rounds[k])
  {
    hide StateOk, SwissPair.ValidRound, Seats, Active, ActiveIds, DistinctIds, SwissPlayers, InsertPairings, History;
    var t := LockOrCreate(s, roster).value;
    RosterIsOk(s, roster);
    PairAppends(s, roster, now, pairings);
    assert EngineAnswer(t, pairings);
    hide PairNextRound, LockOrCreate, FreshRoster;
    DrawSeats(t, pairings);
    var rounds := PairNextRound(s, roster, now, pairings).value.tournament.value.rounds;
    assert k < |t.rounds| ==> rounds[k] == rounds[..|t.rounds|][k];
  }

  /** A draw seats exactly those who are in. */
  lemma DrawSeats(t: Tournament, pairings: seq<Pairing>)
    requires DistinctIds(SwissPlayers(t.players)) && EngineAnswer(t, pairings)
    ensures Seats(InsertPairings(pairings)) == Active(t)
  {
    hide SwissPair.ValidRound, Seats, ActiveIds, DistinctIds, RowsOk, SeatsOk, CountByes, InsertPairings;
    NewPairingsOk(t.players, History(t.rounds), pairings);
  }

  lemma RosterIsOk(s: State, roster: seq<Entrant>)
    requires StateOk(s) && FreshRoster(roster) && LockOrCreate(s, roster).Ok?
    ensures DistinctIds(SwissPlayers(LockOrCreate(s, roster).value.players))
  {
  }

  lemma RerollSeats(s: State, number: int, pairings: seq<Pairing>) returns (j: nat)
    requires StateOk(s) && Enabled(s, DoReroll(number, pairings)) && Reroll(s, number, pairings).Ok?
    ensures s.tournament.Some? && j < |s.tournament.value.rounds| && number == j + 1
    ensures var t, t' := s.tournament.value, Reroll(s, number, pairings).value.tournament;
            && t'.Some? && |t'.value.rounds| == |t.rounds|
            && Seats(t'.value.rounds[j].matches) == Active(t)
            && forall k :: 0 <= k < |t.rounds| && k != j ==> t'.value.rounds[k] == t.rounds[k]
  {
    hide Seats, Active, TournamentOk, InsertPairings, DraftRound, EngineAnswer, DistinctIds;
    j := RerollIsLocal(s, number, pairings);
    var t := s.tournament.value;
    RerollNumber(s, number, pairings, j);
    hide Reroll, StateOk;
    DrawsBehind(t, j);
    DrawSeats(t, pairings);
  }

  lemma DrawsBehind(t: Tournament, k: nat)
    requires TournamentOk(t) && k < |t.rounds|
    ensures t.rounds[k].draw < t.draws && DistinctIds(SwissPlayers(t.players))
  {
  }

  lemma RerollNumber(s: State, number: int, pairings: seq<Pairing>, j: nat)
    requires StateOk(s) && Reroll(s, number, pairings).Ok? && j < |s.tournament.value.rounds|
    requires s.tournament.value.rounds[j].status == Draft
    ensures number == j + 1
  {
    var t := s.tournament.value;
    var k := DraftRound(t.rounds, number).value;
    LastRoundOnly(t, j);
    LastRoundOnly(t, k);
    assert Placed(t, j);
  }

  /** Only pairing the next round makes one. */
  lemma NoNewRounds(s: State, a: Action, k: nat)
    requires Attempt(s, a).Ok? && !a.DoPairNext? && HasRound(Attempt(s, a).value, k)
    ensures HasRound(s, k)
  {
    if s.tournament.Some? && (a.DoReroll? || a.DoSwap? || a.DoPublish? || a.DoComplete? || a.DoReport?) {
      RoundsOnly(s, a);
      hide Attempt;
    } else {
      hide GetMatch, DraftRound, RoundByNumber, Valid, PlaysIn, SwapSlots, FillByes, InsertPairings, AllReported;
    }
  }

  /** What one action does to the seats of round `k`. */
  ghost predicate SeatsFollow(s: State, a: Action, s': State, k: nat) {
    HasRound(s', k) ==>
      var seats := Seats(s'.tournament.value.rounds[k].matches);
      if DrawnFor(s, a, k).Some? then seats == Active(DrawnFor(s, a, k).value)
      else HasRound(s, k) && seats == Seats(s.tournament.value.rounds[k].matches)
  }

  lemma PairFollows(s: State, a: Action, k: nat)
    requires StateOk(s) && a.DoPairNext? && Enabled(s, a) && Attempt(s, a).Ok?
    ensures SeatsFollow(s, a, Attempt(s, a).value, k)
  {
    hide StateOk, EngineAnswer, Seats, Active, PairNextRound, LockOrCreate, FreshRoster;
    if HasRound(Attempt(s, a).value, k) {
      PairSeats(s, a.roster, a.now, a.pairings, k);
    }
  }

  lemma RerollFollows(s: State, a: Action, k: nat)
    requires StateOk(s) && a.DoReroll? && Enabled(s, a) && Attempt(s, a).Ok?
    ensures SeatsFollow(s, a, Attempt(s, a).value, k)
  {
    hide StateOk, EngineAnswer, Seats, Active, Reroll;
    var j := RerollSeats(s, a.number, a.pairings);
  }

  lemma OthersFollow(s: State, a: Action, k: nat)
    requires !a.DoPairNext? && !a.DoReroll? && Enabled(s, a) && Attempt(s, a).Ok?
    ensures SeatsFollow(s, a, Attempt(s, a).value, k)
  {
    hide Seats, Active;
    assert DrawnFor(s, a, k).None?;
    if HasRound(Attempt(s, a).value, k) {
      NoNewRounds(s, a, k);
      if a.DoSwap? {
        OneSwapKeepsSeats(s, a, k);
        hide Attempt, Enabled, DrawnFor;
      } else if a.DoPublish? || a.DoComplete? || a.DoReport? {
        hide Attempt, Enabled, DrawnFor;
        ResultsKeepSeats(s, a, k);
      } else {
        hide Attempt, Enabled, DrawnFor;
        OthersKeepRounds(s, a, k);
      }
    }
  }

  /** One more action: a draw seats whoever is in, anything else leaves the seats of round `k` alone. */
  lemma SeatsAfter(s: State, a: Action, k: nat)
    requires StateOk(s)
    ensures SeatsFollow(s, a, Step(s, a), k)
  {
    hide StateOk, Seats, Active, Attempt, Enabled;
    if Enabled(s, a) && Attempt(s, a).Ok? {
      if a.DoPairNext? {
        PairFollows(s, a, k);
      } else if a.DoReroll? {
        RerollFollows(s, a, k);
      } else {
        OthersFollow(s, a, k);
      }
    }
  }

  /** In every run from a fresh event, a round seats exactly those who were in when it was last drawn. */
  lemma {:induction false} SeatsAreTheLastDraw(actions: seq<Action>, k: nat)
    requires HasRound(Run(START, actions), k)
    ensures Seats(Run(START, actions).tournament.value.rounds[k].matches) == ActiveAtLastDraw(actions, k)
  {
    if actions != [] {
      var front := actions[..|actions| - 1];
      RunKeepsInvariant(START, front);
      hide StateOk, Step, DrawnFor, Seats, Active;
      SeatsAfter(Run(START, front), actions[|actions| - 1], k);
      if DrawnFor(Run(START, front), actions[|actions| - 1], k).None? {
        SeatsAreTheLastDraw(front, k);
      }
    }
  }

  /** So whoever is in has a seat if, and only if, they were in at the last draw. */
  lemma SeatedIffInAtLastDraw(actions: seq<Action>, k: nat, player: Id)
    requires HasRound(Run(START, actions), k)
    ensures Sits(Run(START, actions).tournament.value, k, player) <==> player in ActiveAtLastDraw(actions, k)
  {
    SeatsAreTheLastDraw(actions, k);
  }

  // ---------------------------------------------------------------------
  // The seat of a dropped player
  // ---------------------------------------------------------------------

  /** In round `k` the player still sits exactly if they sat at draw `draw` and it is still that draw. */
  ghost predicate SeatFollows(t: Tournament, k: nat, player: Id, draw: nat, sat: bool) {
    && k < |t.rounds| && draw <= t.rounds[k].draw
    && (Sits(t, k, player) <==> sat && t.rounds[k].draw == draw)
  }

  ghost predicate Dropped(t: Tournament, p: nat, player: Id) {
    p < |t.players| && t.players[p].id == player && t.players[p].droppedAt.Some?
  }

  lemma DroppedIsNotActive(t: Tournament, p: nat, player: Id)
    requires DistinctIds(SwissPlayers(t.players)) && Dropped(t, p, player)
    ensures player !in ActiveIds(SwissPlayers(t.players))
  {
    ActiveIdsAreRosterIds(SwissPlayers(t.players));
    hide ActiveIds;
    FindsPlayer(t, p);
    forall i | 0 <= i < |t.players| && t.players[i].id == player ensures i == p {
      FindsPlayer(t, i);
    }
    hide FindEntrant;
    forall q | q in SwissPlayers(t.players) && q.id == player ensures q.dropped {
      var i :| 0 <= i < |t.players| && SwissPlayers(t.players)[i] == q;
    }
  }

  /** Fresh pairings seat exactly those who are in, so not a dropped player. */
  lemma DroppedIsNotSeated(t: Tournament, pairings: seq<Pairing>, p: nat, player: Id)
    requires DistinctIds(SwissPlayers(t.players)) && EngineAnswer(t, pairings) && Dropped(t, p, player)
    ensures player !in Seats(InsertPairings(pairings))
  {
    DroppedIsNotActive(t, p, player);
    NewPairingsOk(t.players, History(t.rounds), pairings);
    hide SeatsOk, RowsOk, Seats, ActiveIds, DistinctIds, InsertPairings, EngineAnswer;
    assert player !in multiset(ActiveIds(SwissPlayers(t.players)));
  }

  /** A reroll of round `k` takes a dropped player's seat; of another round, it changes nothing here. */
  lemma RerollUnseats(s: State, number: int, pairings: seq<Pairing>, p: nat, player: Id, k: nat, draw: nat, sat: bool)
    requires StateOk(s) && Reroll(s, number, pairings).Ok? && EngineAnswer(s.tournament.value, pairings)
    requires Dropped(s.tournament.value, p, player) && SeatFollows(s.tournament.value, k, player, draw, sat)
    ensures var t' := Reroll(s, number, pairings).value.tournament;
            t'.Some? && SeatFollows(t'.value, k, player, draw, sat)
  {
    hide TournamentOk, Seats, InsertPairings, EngineAnswer, DistinctIds, Dropped, DraftRound;
    DrawsBehind(s.tournament.value, k);
    DroppedIsNotSeated(s.tournament.value, pairings, p, player);
    var j := RerollIsLocal(s, number, pairings);
    hide Reroll, StateOk;
  }

  lemma SwapKeepsSeat(s: State, a: Action, player: Id, k: nat, draw: nat, sat: bool)
    requires s.tournament.Some? && SeatFollows(s.tournament.value, k, player, draw, sat) && a.DoSwap?
    requires Attempt(s, a).Ok?
    ensures var t' := Attempt(s, a).value.tournament;
            t'.Some? && SeatFollows(t'.value, k, player, draw, sat)
  {
    OneSwapKeepsSeats(s, a, k);
    hide Seats, CountByes, SwapSlots, DraftRound, GetMatch;
    var d, i, j := SwapIsLocal(s, a.number, a.a, a.b);
    hide Swap;
  }

  lemma SeatStep(s: State, a: Action, p: nat, player: Id, k: nat, draw: nat, sat: bool)
    requires StateOk(s) && s.tournament.Some? && Dropped(s.tournament.value, p, player)
    requires SeatFollows(s.tournament.value, k, player, draw, sat)
    ensures var t' := Step(s, a).tournament;
            t'.Some? && SeatFollows(t'.value, k, player, draw, sat)
  {
    if Enabled(s, a) && Attempt(s, a).Ok? {
      hide StateOk, Seats, Upsert, PairNextRound, Reroll, Swap, Publish, Complete, ReportResult, Drop, Undrop,
           DropByUser, T.Transition;
      if a.DoReroll? {
        hide EngineAnswer;
        RerollUnseats(s, a.number, a.pairings, p, player, k, draw, sat);
      } else if a.DoSwap? {
        SwapKeepsSeat(s, a, player, k, draw, sat);
      } else if a.DoPublish? || a.DoComplete? || a.DoReport? {
        ResultsKeepSeats(s, a, k);
      } else {
        OthersKeepRounds(s, a, k);
      }
    }
  }

  /** Only an undrop of that player takes a drop back. */
  lemma StaysOut(s: State, a: Action, p: nat, player: Id)
    requires s.tournament.Some? && Dropped(s.tournament.value, p, player) && !(a.DoUndrop? && a.player == player)
    ensures Step(s, a).tournament.Some? && Dropped(Step(s, a).tournament.value, p, player)
    ensures Step(s, a).tournament.value.players[p] == s.tournament.value.players[p]
  {
    hide Enabled, Upsert, PairNextRound, Reroll, Swap, Publish, Complete, ReportResult, Drop, Undrop, DropByUser,
         T.Transition;
    if Enabled(s, a) && Attempt(s, a).Ok? {
      if a.DoReroll? || a.DoSwap? || a.DoPublish? || a.DoComplete? || a.DoReport? {
        RoundsOnly(s, a);
      } else {
        OthersLeaveOut(s, a, p, player);
      }
    }
  }

  lemma OthersLeaveOut(s: State, a: Action, p: nat, player: Id)
    requires s.tournament.Some? && Dropped(s.tournament.value, p, player) && !(a.DoUndrop? && a.player == player)
    requires !a.DoReroll? && !a.DoSwap? && !a.DoPublish? && !a.DoComplete? && !a.DoReport? && Attempt(s, a).Ok?
    ensures var t' := Attempt(s, a).value.tournament;
            t'.Some? && Dropped(t'.value, p, player) && t'.value.players[p] == s.tournament.value.players[p]
  {
    hide InsertPairings, ActiveIds, OpenRounds;
  }

  lemma {:induction false} SeatRun(s: State, actions: seq<Action>, p: nat, player: Id, k: nat, draw: nat, sat: bool)
    requires StateOk(s) && s.tournament.Some? && Dropped(s.tournament.value, p, player)
    requires forall a :: a in actions ==> !(a.DoUndrop? && a.player == player)
    requires SeatFollows(s.tournament.value, k, player, draw, sat)
    ensures var t' := Run(s, actions).tournament;
            && t'.Some? && Dropped(t'.value, p, player) && SeatFollows(t'.value, k, player, draw, sat)
            && t'.value.players[p] == s.tournament.value.players[p]
  {
    if actions != [] {
      var front := actions[..|actions| - 1];
      SeatRun(s, front, p, player, k, draw, sat);
      RunKeepsInvariant(s, front);
      hide StateOk, Step, SeatFollows, Dropped;
      StaysOut(Run(s, front), actions[|actions| - 1], p, player);
      SeatStep(Run(s, front), actions[|actions| - 1], p, player, k, draw, sat);
    }
  }

  /**
   After a drop and no undrop of that player in between, taking the drop back
   makes the player active again. In any round of the time of the drop they
   then have a seat if, and only if, they had one and it was not redrawn since.
   */
  lemma UndroppedUnlessRedrawn(s: State, p: nat, caller: Id, admin: bool, now: int, actions: seq<Action>,
                               organizer: Id, k: nat)
    requires StateOk(s) && s.tournament.Some? && p < |s.tournament.value.players|
    requires Drop(s, s.tournament.value.players[p].id, caller, admin, now).Ok?
    requires forall a :: a in actions ==> !(a.DoUndrop? && a.player == s.tournament.value.players[p].id)
    requires k < |s.tournament.value.rounds|
    requires Undrop(Run(Drop(s, s.tournament.value.players[p].id, caller, admin, now).value, actions),
                    s.tournament.value.players[p].id, organizer, true).Ok?
    ensures var player := s.tournament.value.players[p].id;
            var s' := Undrop(Run(Drop(s, player, caller, admin, now).value, actions), player, organizer, true).value;
            && s'.tournament.Some? && k < |s'.tournament.value.rounds|
            && player in ActiveIds(SwissPlayers(s'.tournament.value.players))
            && (Sits(s'.tournament.value, k, player)
                <==> Sits(s.tournament.value, k, player)
                     && s'.tournament.value.rounds[k].draw == s.tournament.value.rounds[k].draw)
  {
    var t := s.tournament.value;
    var player := t.players[p].id;
    var s0 := Drop(s, player, caller, admin, now).value;
    FindsPlayer(t, p);
    DropKeeps(s, player, caller, admin, now);
    var sat := Sits(t, k, player);
    assert Dropped(s0.tournament.value, p, player);
    assert SeatFollows(s0.tournament.value, k, player, t.rounds[k].draw, sat);
    hide Evolves, StateOk, Seats;
    SeatRun(s0, actions, p, player, k, t.rounds[k].draw, sat);
    UndroppedIsActive(Run(s0, actions), player, organizer);
  }

  lemma UndroppedIsActive(s: State, player: Id, organizer: Id)
    requires Undrop(s, player, organizer, true).Ok?
    ensures var s' := Undrop(s, player, organizer, true).value;
            && s.tournament.Some? && s'.tournament.Some? && s'.tournament.value.rounds == s.tournament.value.rounds
            && player in ActiveIds(SwissPlayers(s'.tournament.value.players))
  {
    var players := Undrop(s, player, organizer, true).value.tournament.value.players;
    var i := PlayerForAction(s.tournament.value, player, organizer, true).value;
    ActiveIdsAreRosterIds(SwissPlayers(players));
    hide ActiveIds;
    assert SwissPlayers(players)[i] in SwissPlayers(players);
  }

  // ---------------------------------------------------------------------
  // Coming back, whatever the clock
  // ---------------------------------------------------------------------

  lemma {:induction false} StaysOutOverRuns(s: State, actions: seq<Action>, p: nat, player: Id)
    requires StateOk(s) && s.tournament.Some? && Dropped(s.tournament.value, p, player)
    requires forall a :: a in actions ==> !(a.DoUndrop? && a.player == player)
    ensures var t' := Run(s, actions).tournament;
            t'.Some? && Dropped(t'.value, p, player) && t'.value.players[p] == s.tournament.value.players[p]
  {
    if actions != [] {
      var front := actions[..|actions| - 1];
      StaysOutOverRuns(s, front, p, player);
      hide StateOk, Step, Dropped;
      StaysOut(Run(s, front), actions[|actions| - 1], p, player);
    }
  }

  /** A drop can be taken back exactly while the event is started and no round bears a later time than the drop. */
  lemma UndropByCreationTimes(s: State, p: nat, caller: Id, admin: bool, now: int, actions: seq<Action>, organizer: Id)
    requires StateOk(s) && s.tournament.Some? && p < |s.tournament.value.players|
    requires Drop(s, s.tournament.value.players[p].id, caller, admin, now).Ok?
    requires forall a :: a in actions ==> !(a.DoUndrop? && a.player == s.tournament.value.players[p].id)
    ensures var player := s.tournament.value.players[p].id;
            var s' := Run(Drop(s, player, caller, admin, now).value, actions);
            && s'.tournament.Some?
            && (Undrop(s', player, organizer, true).Ok?
                <==> s'.event == R.Started && !CreatedAfter(s'.tournament.value.rounds, now))
  {
    var t := s.tournament.value;
    var player := t.players[p].id;
    var s0 := Drop(s, player, caller, admin, now).value;
    FindsPlayer(t, p);
    DropKeeps(s, player, caller, admin, now);
    assert DroppedAt(s0.tournament.value, p, now);
    hide Evolves, StateOk;
    StaysOutOverRuns(s0, actions, p, player);
    RunKeepsInvariant(s0, actions);
    EventOfTournament(Run(s0, actions));
    FindsPlayer(Run(s0, actions).tournament.value, p);
    hide Run, Drop;
  }

  /**
   A round's time is when its transaction began, which may be before a drop
   that was committed while it waited for the lock. The player then missed that
   pairing, and can come back all the same.
   */
  lemma PairedWhileWaiting(s: State, p: nat, caller: Id, admin: bool, now: int, s0: State, roster: seq<Entrant>,
                           began: int, pairings: seq<Pairing>, s1: State, organizer: Id)
    requires StateOk(s) && s.tournament.Some? && p < |s.tournament.value.players|
    requires Drop(s, s.tournament.value.players[p].id, caller, admin, now) == Ok(s0)
    requires forall k :: 0 <= k < |s.tournament.value.rounds| ==> s.tournament.value.rounds[k].createdAt <= now
    requires began <= now
    requires Enabled(s0, DoPairNext(roster, began, pairings)) && PairNextRound(s0, roster, began, pairings) == Ok(s1)
    ensures var t, t1 := s.tournament.value, s1.tournament;
            && t1.Some? && |t1.value.rounds| == |t.rounds| + 1
            && !Sits(t1.value, |t.rounds|, t.players[p].id)
            && Undrop(s1, t.players[p].id, organizer, true).Ok?
  {
    var t := s.tournament.value;
    var player := t.players[p].id;
    var a := DoPairNext(roster, began, pairings);
    DroppedNow(s, p, caller, admin, now, s0);
    hide StateOk, Seats, EngineAnswer, FreshRoster, DistinctIds, SwissPlayers, PairNextRound, Undrop, Drop;
    UndropByCreationTimes(s, p, caller, admin, now, [a], organizer);
    RunOne(s0, a);
    hide Run;
    PairedOver(s0, p, player, now, roster, began, pairings);
  }

  lemma DroppedNow(s: State, p: nat, caller: Id, admin: bool, now: int, s0: State)
    requires StateOk(s) && s.tournament.Some? && p < |s.tournament.value.players|
    requires Drop(s, s.tournament.value.players[p].id, caller, admin, now) == Ok(s0)
    ensures s0.tournament.Some? && s0.tournament.value.rounds == s.tournament.value.rounds
    ensures Dropped(s0.tournament.value, p, s.tournament.value.players[p].id)
    ensures DistinctIds(SwissPlayers(s0.tournament.value.players))
  {
    FindsPlayer(s.tournament.value, p);
    DropKeeps(s, s.tournament.value.players[p].id, caller, admin, now);
    hide Evolves;
    EventOfTournament(s0);
  }

  lemma PairedOver(s: State, p: nat, player: Id, now: int, roster: seq<Entrant>, began: int, pairings: seq<Pairing>)
    requires s.tournament.Some? && DistinctIds(SwissPlayers(s.tournament.value.players))
    requires Dropped(s.tournament.value, p, player) && began <= now
    requires forall k :: 0 <= k < |s.tournament.value.rounds| ==> s.tournament.value.rounds[k].createdAt <= now
    requires Enabled(s, DoPairNext(roster, began, pairings)) && PairNextRound(s, roster, began, pairings).Ok?
    ensures var t, s' := s.tournament.value, PairNextRound(s, roster, began, pairings).value;
            && s'.event == R.Started && s'.tournament.Some? && |s'.tournament.value.rounds| == |t.rounds| + 1
            && !Sits(s'.tournament.value, |t.rounds|, player) && !CreatedAfter(s'.tournament.value.rounds, now)
  {
    hide Seats, EngineAnswer, DistinctIds, SwissPlayers, FreshRoster;
    PairCreates(s, roster, began, pairings);
    DroppedIsNotSeated(s.tournament.value, pairings, p, player);
    hide PairNextRound, LockOrCreate;
  }

  lemma PairCreates(s: State, roster: seq<Entrant>, now: int, pairings: seq<Pairing>)
    requires PairNextRound(s, roster, now, pairings).Ok? && s.tournament.Some?
    ensures var t, s' := s.tournament.value, PairNextRound(s, roster, now, pairings).value;
            && s'.event == s.event == R.Started && LockOrCreate(s, roster) == Ok(t)
            && s'.tournament.Some? && |s'.tournament.value.rounds| == |t.rounds| + 1
            && s'.tournament.value.rounds[|t.rounds|].matches == InsertPairings(pairings)
            && s'.tournament.value.rounds[|t.rounds|].createdAt == now
            && forall k :: 0 <= k < |t.rounds| ==> s'.tournament.value.rounds[k] == t.rounds[k]
  {
    hide InsertPairings, PairGuard;
  }

  // ---------------------------------------------------------------------
  // Coming back without a seat: a run
  // ---------------------------------------------------------------------

  const ANN := Entrant(0, 10, "Ann", None)
  const BOB := Entrant(1, 11, "Bob", None)

  const BOTH: seq<Pairing> := [Pairing(1, 0, Some(1))]
  const ANN_ALONE: seq<Pairing> := [Pairing(1, 0, None)]

  /** Pair the two, drop Bob, reroll (Ann gets a bye), take the drop back. */
  const DROP_REROLL_UNDROP: seq<Action> :=
    [DoTransition(R.Publish), DoTransition(R.Start), DoPairNext([ANN, BOB], 1, BOTH),
     DoDrop(1, 11, false, 2), DoReroll(1, ANN_ALONE), DoUndrop(1, 11, false)]

  function Entered(players: seq<Entrant>, rounds: seq<Round>, draws: nat): State {
    State(R.Started, Some(Tournament(1, players, rounds, draws)))
  }

  const PAIRED := Round(1, Draft, 1, 0, [TableMatch(1, 0, Some(1), None, false)])
  const REDRAWN := Round(1, Draft, 1, 1, [TableMatch(1, 0, None, None, false)])
  const BOB_DROPPED := Entrant(1, 11, "Bob", Some(2))

  const BOTH_IN: seq<Player> := [Player(0, "Ann", false), Player(1, "Bob", false)]
  const BOB_OUT: seq<Player> := [Player(0, "Ann", false), Player(1, "Bob", true)]

  lemma TheTwo()
    ensures SwissPlayers([ANN, BOB]) == BOTH_IN && SwissPlayers([ANN, BOB_DROPPED]) == BOB_OUT
    ensures ActiveIds(BOTH_IN) == [0, 1] && ActiveIds(BOB_OUT) == [0] && FreshRoster([ANN, BOB])
  {
    var ann := [Player(0, "Ann", false)];
    assert SwissPlayers([ANN, BOB]) == BOTH_IN && SwissPlayers([ANN, BOB_DROPPED]) == BOB_OUT;
    assert BOTH_IN[..1] == ann && BOB_OUT[..1] == ann && ann[..0] == [];
    assert ActiveIds([]) == [] && ActiveIds(ann) == [0];
    assert Ids(BOTH_IN) == [0, 1];
  }

  lemma BothSeats()
    ensures SwissPair.Couples(BOTH) == [(0, 1)] && SwissPair.RoundSeats(BOTH) == multiset{0, 1}
    ensures InsertPairings(BOTH) == [TableMatch(1, 0, Some(1), None, false)]
  {
    assert BOTH[..0] == [];
    assert SwissPair.Couples([]) == [] && SwissPair.RoundSeats([]) == multiset{};
  }

  lemma AnnSeats()
    ensures SwissPair.Couples(ANN_ALONE) == [] && SwissPair.RoundSeats(ANN_ALONE) == multiset{0}
    ensures InsertPairings(ANN_ALONE) == [TableMatch(1, 0, None, None, false)]
  {
    assert ANN_ALONE[..0] == [];
    assert SwissPair.Couples([]) == [] && SwissPair.RoundSeats([]) == multiset{};
  }

  lemma BothIsValid()
    ensures EngineAnswer(Tournament(1, [ANN, BOB], [], 0), BOTH)
  {
    hide SwissPair.CheapestPairing, SwissPair.Couples, SwissPair.RoundSeats, ActiveIds, SwissPlayers, FreshRoster,
         SwissPair.ByeChoice;
    TheTwo();
    BothSeats();
    OneCoupleIsCheapest(SwissPair.Couples(BOTH));
    assert SwissPair.FewestRematches(SwissPair.Couples(BOTH), [], [0, 1]);
    assert History([]) == [];
  }

  lemma OneCoupleIsCheapest(couples: seq<(Id, Id)>)
    requires couples == [(0, 1)]
    ensures SwissPair.CheapestPairing([0, 1], Met([]), couples)
  {
    assert couples[1..] == [] && Met([]) == {};
    assert SwissPair.Seated([]) == multiset{} && SwissPair.Seated(couples) == multiset{0, 1};
    assert SwissPair.Rematches([], {}) == 0 && SwissPair.Rematches(couples, {}) == 0;
    OnlyOpponent(couples);
    hide SwissPair.NearestFirst, SwissPair.Seated, SwissPair.Rematches;
  }

  lemma OnlyOpponent(couples: seq<(Id, Id)>)
    requires couples == [(0, 1)] && SwissPair.Seated([]) == multiset{} && SwissPair.Rematches([], {}) == 0
    ensures SwissPair.NearestFirst([0, 1], {}, 0, couples)
  {
    hide SwissPair.Seated, SwissPair.Rematches;
    var rest := SwissPair.Without([0, 1], 1);
    assert rest == [] && couples[1..] == [];
    assert SwissPair.FitsBudget(rest, {}, 0, []);
    assert SwissPair.NearestOpponent([0, 1], {}, 0, 1);
    assert SwissPair.NearestFirst(rest, {}, 0, couples[1..]);
  }

  lemma AnnAloneIsValid()
    ensures EngineAnswer(Tournament(1, [ANN, BOB_DROPPED], [PAIRED], 1), ANN_ALONE)
  {
    TheTwo();
    AnnSeats();
    assert SwissPair.Seated([]) == multiset{} && SwissPair.Rematches([], Met([])) == 0;
    hide SwissPair.Couples, SwissPair.RoundSeats, ActiveIds, SwissPlayers;
    assert SwissPair.FewestRematches(SwissPair.Couples(ANN_ALONE), [], []);
    assert [PAIRED][..0] == [] && History([]) == [] && History([PAIRED]) == [];
  }

  lemma Starting()
    ensures Step(Step(START, DoTransition(R.Publish)), DoTransition(R.Start)) == State(R.Started, None)
  {
  }

  lemma PairingBoth()
    ensures Step(State(R.Started, None), DoPairNext([ANN, BOB], 1, BOTH)) == Entered([ANN, BOB], [PAIRED], 1)
  {
    hide EngineAnswer, ActiveIds, SwissPlayers, InsertPairings, FreshRoster;
    TheTwo();
    BothSeats();
    BothIsValid();
    NewTournament();
    var t := Tournament(1, [ANN, BOB], [], 0);
    assert AddRound(t, 1, BOTH) == Tournament(1, [ANN, BOB], [PAIRED], 1);
    hide AddRound, LockOrCreate, PairGuard;
  }

  lemma NewTournament()
    requires |ActiveIds(SwissPlayers([ANN, BOB]))| == 2
    ensures var t := Tournament(1, [ANN, BOB], [], 0);
            && LockOrCreate(State(R.Started, None), [ANN, BOB]) == Ok(t)
            && PairGuard(t).None?
  {
    hide ActiveIds, SwissPlayers;
    assert OpenRounds([]) == 0;
  }

  lemma DroppingBob()
    ensures Step(Entered([ANN, BOB], [PAIRED], 1), DoDrop(1, 11, false, 2)) == Entered([ANN, BOB_DROPPED], [PAIRED], 1)
  {
    assert [ANN, BOB][1..] == [BOB];
    assert FindEntrant([BOB], 1) == Some(0) && FindEntrant([ANN, BOB], 1) == Some(1);
    assert [ANN, BOB][1 := BOB_DROPPED] == [ANN, BOB_DROPPED];
  }

  lemma Rerolling()
    ensures Step(Entered([ANN, BOB_DROPPED], [PAIRED], 1), DoReroll(1, ANN_ALONE))
        == Entered([ANN, BOB_DROPPED], [REDRAWN], 2)
  {
    hide EngineAnswer, InsertPairings;
    AnnSeats();
    AnnAloneIsValid();
    assert DraftRound([PAIRED], 1) == Ok(0);
    hide DraftRound;
    assert [PAIRED][0 := REDRAWN] == [REDRAWN];
  }

  lemma TakingBack()
    ensures Step(Entered([ANN, BOB_DROPPED], [REDRAWN], 2), DoUndrop(1, 11, false)) == Entered([ANN, BOB], [REDRAWN], 2)
  {
    var players := [ANN, BOB_DROPPED];
    assert players[1..] == [BOB_DROPPED];
    assert FindEntrant([BOB_DROPPED], 1) == Some(0) && FindEntrant(players, 1) == Some(1);
    assert !CreatedAfter([REDRAWN], 2);
    assert players[1 := BOB] == [ANN, BOB];
  }

  /** In a state a fresh event reaches, Bob is in, the round is a draft, and he has no seat in it. */
  lemma BackWithoutASeat()
    ensures var s := Run(START, DROP_REROLL_UNDROP);
            && s.event == R.Started && s.tournament.Some? && |s.tournament.value.rounds| == 1
            && s.tournament.value.rounds[0].status == Draft
            && 1 in ActiveIds(SwissPlayers(s.tournament.value.players))
            && !Sits(s.tournament.value, 0, 1)
  {
    SixSteps();
    TheTwo();
    assert REDRAWN.matches[..0] == [];
    assert Seats([]) == multiset{} && Seats(REDRAWN.matches) == multiset{0};
    hide Run, ActiveIds, SwissPlayers, FreshRoster;
  }

  lemma SixSteps()
    ensures Run(START, DROP_REROLL_UNDROP) == Entered([ANN, BOB], [REDRAWN], 2)
  {
    hide Step;
    var a := DROP_REROLL_UNDROP;
    Starting();
    PairingBoth();
    DroppingBob();
    Rerolling();
    TakingBack();
    RunFirst(START, a[0], a[1..]);
    RunFirst(Step(START, a[0]), a[1], a[2..]);
    RunFirst(State(R.Started, None), a[2], a[3..]);
    RunFirst(Entered([ANN, BOB], [PAIRED], 1), a[3], a[4..]);
    RunFirst(Entered([ANN, BOB_DROPPED], [PAIRED], 1), a[4], a[5..]);
    RunOne(Entered([ANN, BOB_DROPPED], [REDRAWN], 2), a[5]);
    assert a == [a[0]] + a[1..] && a[1..] == [a[1]] + a[2..] && a[2..] == [a[2]] + a[3..];
    assert a[3..] == [a[3]] + a[4..] && a[4..] == [a[4]] + a[5..] && a[5..] == [a[5]];
  }
}
