/**
 The service methods that update the tournament's rows in place, each one
 transaction under the event and tournament locks. Every method is tied to the
 mutation whose runs are studied in TournamentRuns.
 */
module TournamentService {
  import opened Wrappers
  import opened SwissTypes
  import SwissPair
  import R = RegistrationRows
  import opened T = TournamentRounds
  import opened TournamentInvariant
  import opened TournamentRuns

  /** A transaction's outcome: committed, or rolled back with an error; the invariant survives either way. */
  ghost predicate Outcome(before: State, r: Result<State, Error>, after: State, e: Option<Error>) {
    match r
    case Ok(s) => e.None? && after == s
    case Err(x) => e == Some(x) && after == before
  }

  ghost predicate Kept(before: State, after: State) {
    StateOk(before) ==> StateOk(after) && Evolves(before, after)
  }

  lemma OutcomeKept(before: State, a: Action, after: State, e: Option<Error>)
    requires Enabled(before, a) || Attempt(before, a).Err?
    requires Outcome(before, Attempt(before, a), after, e)
    ensures Kept(before, after)
  {
    if StateOk(before) {
      StepKeepsInvariant(before, a);
    }
  }

  lemma FilledSoFar(ms: seq<TableMatch>, i: nat)
    requires i < |ms|
    ensures var now := FillByes(ms[..i]) + ms[i..];
            && |now| == |ms| && now[i] == ms[i]
            && now[i := FillBye(ms[i])] == FillByes(ms[..i + 1]) + ms[i + 1..]
  {
    assert FillByes(ms[..i + 1]) == FillByes(ms[..i]) + [FillBye(ms[i])];
  }

  lemma HistoryNext(rounds: seq<Round>, k: nat)
    requires k < |rounds|
    ensures History(rounds[..k + 1])
         == History(rounds[..k]) + if rounds[k].status == Draft then [] else SwissMatches(rounds[k].matches)
    ensures History([]) == []
  {
    TakeNext(rounds, k);
  }

  class TournamentStore {
    var event: R.EventStatus
    var created: bool
    var plannedRounds: int
    var players: seq<Entrant>
    var rounds: seq<Round>
    var draws: nat

    ghost function Contents(): State
      reads this
    {
      State(event, if created then Some(Tournament(plannedRounds, players, rounds, draws)) else None)
    }

    /** A draft event without a tournament. */
    constructor ()
      ensures Contents() == START
    {
      event, created := R.EventStatus.Draft, false;
      plannedRounds, players, rounds, draws := 0, [], [], 0;
    }

    /** startedEvent and lockTournament. */
    method LockTournament() returns (e: Option<Error>)
      ensures e.None? <==> Lock(Contents()).Ok?
      ensures e.Some? ==> Lock(Contents()) == Err(e.value)
    {
      if event == R.EventStatus.Draft {
        return Some(EventNotFound);
      }
      if event != R.EventStatus.Started {
        return Some(EventNotStarted);
      }
      return if created then None else Some(TournamentNotFound);
    }

    method CreateTournament(roster: seq<Entrant>, planned: Option<int>) returns (e: Option<Error>)
      modifies this`created, this`plannedRounds, this`players, this`rounds, this`draws
      ensures var t := T.CreateTournament(roster, planned);
              match t
              case Ok(t) => e.None? && created && Tournament(plannedRounds, players, rounds, draws) == t
              case Err(x) => e == Some(x) && Contents() == old(Contents())
    {
      if |roster| == 0 {
        return Some(NoPlayers);
      }
      var n := DefaultRounds(|roster|);
      if planned.Some? {
        n := planned.value;
      }
      if n < 1 {
        return Some(ConstraintViolated);
      }
      created, plannedRounds, rounds, draws := true, n, [], 0;
      players := [];
      for i := 0 to |roster|
        invariant created && plannedRounds == n && rounds == [] && draws == 0 && event == old(event)
        invariant players == roster[..i]
      {
        players := players + [roster[i]];
      }
      return None;
    }

    method Upsert(roster: seq<Entrant>, planned: Option<int>) returns (e: Option<Error>)
      requires FreshRoster(roster)
      modifies this
      ensures Outcome(old(Contents()), T.Upsert(old(Contents()), roster, planned), Contents(), e)
      ensures Kept(old(Contents()), Contents())
    {
      e := UpsertRows(roster, planned);
      OutcomeKept(old(Contents()), DoUpsert(roster, planned), Contents(), e);
    }

    method UpsertRows(roster: seq<Entrant>, planned: Option<int>) returns (e: Option<Error>)
      modifies this
      ensures Outcome(old(Contents()), T.Upsert(old(Contents()), roster, planned), Contents(), e)
    {
      var locked := LockTournament();
      if locked == Some(TournamentNotFound) {
        e := CreateTournament(roster, planned);
        return;
      }
      if locked.Some? {
        return locked;
      }
      if planned.None? {
        return None;
      }
      if planned.value < |rounds| {
        return Some(PlannedRoundsTooLow);
      }
      if planned.value < 1 {
        return Some(ConstraintViolated);
      }
      plannedRounds := planned.value;
      return None;
    }

    method PairingInputs() returns (sp: seq<Player>, history: seq<Match>)
      ensures sp == SwissPlayers(players) && history == History(rounds)
    {
      sp := [];
      for i := 0 to |players|
        invariant sp == SwissPlayers(players[..i])
      {
        sp := sp + [Player(players[i].id, players[i].displayName, players[i].droppedAt.Some?)];
      }
      TakeAll(players);
      history := [];
      for k := 0 to |rounds|
        invariant history == History(rounds[..k])
      {
        HistoryNext(rounds, k);
        if rounds[k].status == Draft {
          continue;
        }
        var rows := rounds[k].matches;
        ghost var earlier := history;
        for i := 0 to |rows|
          invariant history == earlier + SwissMatches(rows[..i])
        {
          history := history + [Match(rows[i].player1, rows[i].player2, rows[i].result)];
        }
        TakeAll(rows);
      }
      TakeAll(rounds);
    }

    /** A match row for every pairing of round `k`. */
    method InsertPairings(k: nat, pairings: seq<Pairing>)
      requires k < |rounds| && rounds[k].matches == []
      modifies this`rounds
      ensures rounds == old(rounds)[k := old(rounds[k]).(matches := T.InsertPairings(pairings))]
    {
      assert T.InsertPairings(pairings[..0]) == [] && rounds[k] == rounds[k].(matches := []);
      for i := 0 to |pairings|
        invariant k < |rounds|
        invariant rounds == old(rounds)[k := old(rounds[k]).(matches := T.InsertPairings(pairings[..i]))]
      {
        var p := pairings[i];
        var row := TableMatch(p.tableNumber, p.player1, p.player2, None, false);
        assert T.InsertPairings(pairings[..i + 1]) == T.InsertPairings(pairings[..i]) + [row];
        rounds := rounds[k := rounds[k].(matches := rounds[k].matches + [row])];
      }
      TakeAll(pairings);
    }

    /** Every earlier round is completed, there is room for one more, and at least two players are left. */
    method CheckPairable() returns (e: Option<Error>)
      requires created
      ensures e == PairGuard(Contents().tournament.value)
    {
      NoneOpen(rounds);
      for k := 0 to |rounds|
        invariant forall j :: 0 <= j < k ==> rounds[j].status == Completed
      {
        if rounds[k].status != Completed {
          return Some(RoundExists);
        }
      }
      if |rounds| >= plannedRounds {
        return Some(AllRoundsPaired);
      }
      var sp, _ := PairingInputs();
      var active := SwissPair.ActivePlayers(sp);
      return if |active| < 2 then Some(TooFewPlayers) else None;
    }

    method PairNextRound(roster: seq<Entrant>, now: int, rng: SwissPair.Rng)
      returns (e: Option<Error>, pairings: seq<Pairing>)
      requires FreshRoster(roster) && DistinctIds(SwissPlayers(players))
      modifies this
      ensures Outcome(old(Contents()), T.PairNextRound(old(Contents()), roster, now, pairings), Contents(), e)
      ensures e.None? ==> EngineAnswer(LockOrCreate(old(Contents()), roster).value, pairings)
      ensures Kept(old(Contents()), Contents())
    {
      e, pairings := PairNextRows(roster, now, rng);
      OutcomeKept(old(Contents()), DoPairNext(roster, now, pairings), Contents(), e);
    }

    method PairNextRows(roster: seq<Entrant>, now: int, rng: SwissPair.Rng)
      returns (e: Option<Error>, pairings: seq<Pairing>)
      requires FreshRoster(roster) && DistinctIds(SwissPlayers(players))
      modifies this
      ensures Outcome(old(Contents()), T.PairNextRound(old(Contents()), roster, now, pairings), Contents(), e)
      ensures e.None? ==> EngineAnswer(LockOrCreate(old(Contents()), roster).value, pairings)
    {
      hide EngineAnswer, AddRound, PairGuard, DistinctIds, SwissPlayers;
      pairings := [];
      e := LockTournament();
      var created', plannedRounds', players', rounds', draws' := created, plannedRounds, players, rounds, draws;
      if e == Some(TournamentNotFound) {
        e := CreateTournament(roster, None);
      }
      if e.Some? {
        return;
      }
      e := CheckPairable();
      if e.Some? {
        created, plannedRounds, players, rounds, draws := created', plannedRounds', players', rounds', draws';
        return;
      }
      pairings := StoreDraft(now, rng);
    }

    /** Pair the next round and store it as a draft. */
    method StoreDraft(now: int, rng: SwissPair.Rng) returns (pairings: seq<Pairing>)
      requires created && DistinctIds(SwissPlayers(players))
      modifies this`rounds, this`draws
      ensures var t := old(Contents()).tournament.value;
              EngineAnswer(t, pairings) && Contents() == With(old(Contents()), AddRound(t, now, pairings))
    {
      hide SwissPair.ValidRound, SwissPair.PairedBy, History, DistinctIds, SwissPlayers, T.InsertPairings;
      var sp, history := PairingInputs();
      pairings := SwissPair.Pair(sp, history, rng);
      rounds := rounds + [Round(|rounds| + 1, Draft, now, draws, [])];
      draws := draws + 1;
      InsertPairings(|rounds| - 1, pairings);
      assert Contents().tournament.value == AddRound(old(Contents()).tournament.value, now, pairings);
    }

    /** The index of draft round `number`. */
    method LoadDraftRound(number: int) returns (e: Option<Error>, k: nat)
      ensures e.None? <==> DraftRound(rounds, number).Ok?
      ensures match DraftRound(rounds, number)
              case Ok(found) => k == found && k < |rounds|
              case Err(x) => e == Some(x)
    {
      k := 0;
      var found := RoundByNumber(rounds, number);
      if found.None? {
        return Some(RoundNotFound), 0;
      }
      if rounds[found.value].status != Draft {
        return Some(RoundNotDraft), 0;
      }
      return None, found.value;
    }

    method Reroll(number: int, rng: SwissPair.Rng) returns (e: Option<Error>, pairings: seq<Pairing>)
      requires DistinctIds(SwissPlayers(players))
      modifies this
      ensures Outcome(old(Contents()), T.Reroll(old(Contents()), number, pairings), Contents(), e)
      ensures e.None? ==> EngineAnswer(Lock(old(Contents())).value, pairings)
      ensures Kept(old(Contents()), Contents())
    {
      e, pairings := RerollRows(number, rng);
      OutcomeKept(old(Contents()), DoReroll(number, pairings), Contents(), e);
    }

    method RerollRows(number: int, rng: SwissPair.Rng) returns (e: Option<Error>, pairings: seq<Pairing>)
      requires DistinctIds(SwissPlayers(players))
      modifies this
      ensures Outcome(old(Contents()), T.Reroll(old(Contents()), number, pairings), Contents(), e)
      ensures e.None? ==> EngineAnswer(Lock(old(Contents())).value, pairings)
    {
      hide SwissPair.ValidRound, DistinctIds, SwissPlayers, DraftRound, T.InsertPairings, History;
      pairings := [];
      e := LockTournament();
      if e.Some? {
        return;
      }
      var k;
      e, k := LoadDraftRound(number);
      if e.Some? {
        return;
      }
      pairings := Redraw(k, rng);
    }

    /** Delete the draft's matches, pair again and insert. */
    method Redraw(k: nat, rng: SwissPair.Rng) returns (pairings: seq<Pairing>)
      requires k < |rounds| && rounds[k].status == Draft && DistinctIds(SwissPlayers(players))
      modifies this`rounds, this`draws
      ensures SwissPair.ValidRound(SwissPlayers(players), History(old(rounds)), pairings)
      ensures rounds == old(rounds)[k := old(rounds[k]).(draw := old(draws), matches := T.InsertPairings(pairings))]
      ensures draws == old(draws) + 1
    {
      hide SwissPair.ValidRound, SwissPair.PairedBy, DistinctIds, SwissPlayers, T.InsertPairings;
      rounds := rounds[k := rounds[k].(matches := [])];
      DraftsAreNotHistory(old(rounds), rounds, k);
      hide History;
      var sp, history := PairingInputs();
      rounds := rounds[k := rounds[k].(draw := draws)];
      draws := draws + 1;
      pairings := SwissPair.Pair(sp, history, rng);
      InsertPairings(k, pairings);
    }

    method Swap(number: int, a: SlotRef, b: SlotRef) returns (e: Option<Error>)
      modifies this
      ensures Outcome(old(Contents()), T.Swap(old(Contents()), number, a, b), Contents(), e)
      ensures Kept(old(Contents()), Contents())
    {
      e := SwapRows(number, a, b);
      OutcomeKept(old(Contents()), DoSwap(number, a, b), Contents(), e);
    }

    method SwapRows(number: int, a: SlotRef, b: SlotRef) returns (e: Option<Error>)
      modifies this
      ensures Outcome(old(Contents()), T.Swap(old(Contents()), number, a, b), Contents(), e)
    {
      hide DraftRound, GetMatch;
      e := LockTournament();
      if e.Some? {
        return;
      }
      var k;
      e, k := LoadDraftRound(number);
      if e.Some? {
        return;
      }
      if a.match' == b.match' && a.slot == b.slot {
        return Some(SwapInvalid);
      }
      var ma := GetMatch(rounds, a.match');
      if ma.None? || ma.value.0 != k {
        return Some(SwapInvalid);
      }
      var mb := GetMatch(rounds, b.match');
      if mb.None? || mb.value.0 != k {
        return Some(SwapInvalid);
      }
      var i, j := ma.value.1, mb.value.1;
      var rows := rounds[k].matches;
      var pa := SlotPlayer(rows[i], a.slot);
      var pb := SlotPlayer(rows[j], b.slot);
      if pa.None? || pb.None? {
        return Some(SwapInvalid);
      }
      hide SlotPlayer;
      assert i == j <==> a.match' == b.match';
      if a.match' == b.match' {
        hide PlaceBothSlots;
        var both := PlaceBothSlots(rows[i], a.slot, pb.value, b.slot, pa.value);
        if both.None? {
          return Some(SwapInvalid);
        }
        rounds := rounds[k := rounds[k].(matches := rows[i := both.value])];
        return None;
      }
      hide SlotAssigned;
      var saved := rounds;
      var rowA := SlotAssigned(rows[i], a.slot, pb.value);
      if rowA.None? {
        return Some(SwapInvalid);
      }
      rounds := rounds[k := rounds[k].(matches := rows[i := rowA.value])];
      var rowB := SlotAssigned(rounds[k].matches[j], b.slot, pa.value);
      if rowB.None? {
        rounds := saved;
        return Some(SwapInvalid);
      }
      rounds := rounds[k := rounds[k].(matches := rounds[k].matches[j := rowB.value])];
      assert rounds == saved[k := saved[k].(matches := rows[i := rowA.value][j := rowB.value])];
      return None;
    }

    method Publish(number: int) returns (e: Option<Error>)
      modifies this
      ensures Outcome(old(Contents()), T.Publish(old(Contents()), number), Contents(), e)
      ensures Kept(old(Contents()), Contents())
    {
      e := PublishRows(number);
      OutcomeKept(old(Contents()), DoPublish(number), Contents(), e);
    }

    method PublishRows(number: int) returns (e: Option<Error>)
      modifies this
      ensures Outcome(old(Contents()), T.Publish(old(Contents()), number), Contents(), e)
    {
      hide DraftRound;
      e := LockTournament();
      if e.Some? {
        return;
      }
      var k;
      e, k := LoadDraftRound(number);
      if e.Some? {
        return;
      }
      var rows := rounds[k].matches;
      assert FillByes(rows[..0]) + rows[0..] == rows;
      for i := 0 to |rows|
        invariant event == old(event) && created == old(created) && plannedRounds == old(plannedRounds)
        invariant players == old(players) && draws == old(draws)
        invariant rounds == old(rounds)[k := old(rounds[k]).(matches := FillByes(rows[..i]) + rows[i..])]
      {
        FilledSoFar(rows, i);
        ghost var filled := rounds[k].matches;
        var m := rows[i];
        if m.player2.None? {
          rounds := rounds[k := rounds[k].(matches := rounds[k].matches[i := m.(result := Some(BYE_SCORE))])];
        } else {
          assert filled[i := m] == filled;
        }
      }
      TakeAll(rows);
      assert FillByes(rows) + rows[|rows|..] == FillByes(rows);
      rounds := rounds[k := rounds[k].(status := Published)];
      assert rounds == old(rounds)[k := old(rounds[k]).(status := Published, matches := FillByes(rows))];
    }

    method Complete(number: int) returns (e: Option<Error>)
      modifies this
      ensures Outcome(old(Contents()), T.Complete(old(Contents()), number), Contents(), e)
      ensures Kept(old(Contents()), Contents())
    {
      e := CompleteRows(number);
      OutcomeKept(old(Contents()), DoComplete(number), Contents(), e);
    }

    method CompleteRows(number: int) returns (e: Option<Error>)
      modifies this
      ensures Outcome(old(Contents()), T.Complete(old(Contents()), number), Contents(), e)
    {
      e := LockTournament();
      if e.Some? {
        return;
      }
      var found := RoundByNumber(rounds, number);
      if found.None? {
        return Some(RoundNotFound);
      }
      var k := found.value;
      if rounds[k].status != Published {
        return Some(RoundNotPublished);
      }
      var rows := rounds[k].matches;
      for i := 0 to |rows|
        invariant forall j :: 0 <= j < i ==> rows[j].result.Some?
      {
        if rows[i].result.None? {
          return Some(RoundIncomplete);
        }
      }
      rounds := rounds[k := rounds[k].(status := Completed)];
    }

    method ReportResult(id: MatchId, caller: Id, admin: bool, score: Score) returns (e: Option<Error>)
      modifies this
      ensures Outcome(old(Contents()), T.ReportResult(old(Contents()), id, caller, admin, score), Contents(), e)
      ensures Kept(old(Contents()), Contents())
    {
      e := ReportRows(id, caller, admin, score);
      OutcomeKept(old(Contents()), DoReport(id, caller, admin, score), Contents(), e);
    }

    method ReportRows(id: MatchId, caller: Id, admin: bool, score: Score) returns (e: Option<Error>)
      modifies this
      ensures Outcome(old(Contents()), T.ReportResult(old(Contents()), id, caller, admin, score), Contents(), e)
    {
      hide GetMatch, Valid, FindEntrant;
      if !Valid(score) {
        return Some(ResultInvalid);
      }
      e := LockTournament();
      if e.Some? {
        return;
      }
      var found := GetMatch(rounds, id);
      if found.None? {
        return Some(MatchNotFound);
      }
      var (k, i) := found.value;
      var m := rounds[k].matches[i];
      if m.player2.None? {
        return Some(ByeImmutable);
      }
      if !admin && m.ruled {
        return Some(ResultLocked);
      }
      var latest := rounds[|rounds| - 1];
      if rounds[k].number != latest.number || rounds[k].status == Draft {
        return Some(ResultLocked);
      }
      if !admin {
        var p1 := FindEntrant(players, m.player1);
        var p2 := FindEntrant(players, m.player2.value);
        if p1.None? || p2.None? {
          return Some(PlayerNotFound);
        }
        if players[p1.value].user != caller && players[p2.value].user != caller {
          return Some(NotInMatch);
        }
        if rounds[k].status != Published {
          return Some(ResultLocked);
        }
      }
      var reported := m.(result := Some(score), ruled := m.ruled || admin);
      rounds := rounds[k := rounds[k].(matches := rounds[k].matches[i := reported])];
      return None;
    }

    method Drop(player: Id, caller: Id, admin: bool, now: int) returns (e: Option<Error>)
      modifies this
      ensures Outcome(old(Contents()), T.Drop(old(Contents()), player, caller, admin, now), Contents(), e)
      ensures Kept(old(Contents()), Contents())
    {
      e := DropRow(player, caller, admin, now);
      OutcomeKept(old(Contents()), DoDrop(player, caller, admin, now), Contents(), e);
    }

    method DropRow(player: Id, caller: Id, admin: bool, now: int) returns (e: Option<Error>)
      modifies this
      ensures Outcome(old(Contents()), T.Drop(old(Contents()), player, caller, admin, now), Contents(), e)
    {
      e := LockTournament();
      if e.Some? {
        return;
      }
      var k;
      e, k := PlayerForAction(player, caller, admin);
      if e.Some? {
        return;
      }
      if players[k].droppedAt.Some? {
        return Some(AlreadyDropped);
      }
      players := players[k := players[k].(droppedAt := Some(now))];
    }

    method PlayerForAction(player: Id, caller: Id, admin: bool) returns (e: Option<Error>, k: nat)
      requires created
      ensures match T.PlayerForAction(Contents().tournament.value, player, caller, admin)
              case Ok(found) => e.None? && k == found && k < |players|
              case Err(x) => e == Some(x)
    {
      var found := FindEntrant(players, player);
      if found.None? {
        return Some(PlayerNotFound), 0;
      }
      if !admin && players[found.value].user != caller {
        return Some(NotYourPlayer), 0;
      }
      return None, found.value;
    }

    method Undrop(player: Id, caller: Id, admin: bool) returns (e: Option<Error>)
      modifies this
      ensures Outcome(old(Contents()), T.Undrop(old(Contents()), player, caller, admin), Contents(), e)
      ensures Kept(old(Contents()), Contents())
    {
      e := UndropRow(player, caller, admin);
      OutcomeKept(old(Contents()), DoUndrop(player, caller, admin), Contents(), e);
    }

    method UndropRow(player: Id, caller: Id, admin: bool) returns (e: Option<Error>)
      modifies this
      ensures Outcome(old(Contents()), T.Undrop(old(Contents()), player, caller, admin), Contents(), e)
    {
      e := LockTournament();
      if e.Some? {
        return;
      }
      var k;
      e, k := PlayerForAction(player, caller, admin);
      if e.Some? {
        return;
      }
      hide T.PlayerForAction;
      if players[k].droppedAt.None? {
        return Some(NotDropped);
      }
      var droppedAt := players[k].droppedAt.value;
      for j := 0 to |rounds|
        invariant forall l :: 0 <= l < j ==> rounds[l].createdAt <= droppedAt
      {
        if rounds[j].createdAt > droppedAt {
          return Some(UndropTooLate);
        }
      }
      players := players[k := players[k].(droppedAt := None)];
    }

    /** The row update a removed registration makes here. */
    method DropTournamentPlayerByEventUser(user: Id, now: int)
      modifies this`players
      ensures Contents() == DropByUser(old(Contents()), user, now)
      ensures Kept(old(Contents()), Contents())
    {
      if created {
        for i := 0 to |players|
          invariant |players| == |old(players)|
          invariant forall j :: 0 <= j < i ==> players[j] == DropUser(old(players)[j], user, now)
          invariant forall j :: i <= j < |players| ==> players[j] == old(players)[j]
        {
          if players[i].user == user && players[i].droppedAt.None? {
            players := players[i := players[i].(droppedAt := Some(now))];
          }
        }
        assert players == DropByUser(old(Contents()), user, now).tournament.value.players;
      }
      OutcomeKept(old(Contents()), DoRemoveUser(user, now), Contents(), None);
    }

    /** The event's lifecycle; finishing counts the open rounds. */
    method Transition(action: R.LifecycleAction) returns (e: Option<Error>)
      modifies this`event
      ensures Outcome(old(Contents()), T.Transition(old(Contents()), action), Contents(), e)
      ensures Kept(old(Contents()), Contents())
    {
      e := TransitionRow(action);
      OutcomeKept(old(Contents()), DoTransition(action), Contents(), e);
    }

    method TransitionRow(action: R.LifecycleAction) returns (e: Option<Error>)
      modifies this`event
      ensures Outcome(old(Contents()), T.Transition(old(Contents()), action), Contents(), e)
    {
      if !R.Legal(action, event) {
        return Some(InvalidTransition);
      }
      if action == R.Finish && created {
        var open := OpenRounds(rounds);
        if open > 0 {
          return Some(RoundOpen);
        }
      }
      event := R.Target(action);
      return None;
    }
  }

  lemma {:induction false} DraftsAreNotHistory(rounds: seq<Round>, rounds': seq<Round>, k: nat)
    requires k < |rounds| && rounds[k].status == Draft && rounds' == rounds[k := rounds[k].(matches := [])]
    ensures History(rounds') == History(rounds)
  {
    var n := |rounds| - 1;
    if k < n {
      DraftsAreNotHistory(rounds[..n], rounds[..n][k := rounds[k].(matches := [])], k);
      assert rounds'[..n] == rounds[..n][k := rounds[k].(matches := [])];
    } else {
      assert rounds'[..n] == rounds[..n];
    }
  }
}
