/** Runs of tournament mutations in any order, and what holds along all of them. */
module TournamentRuns {
  import opened Wrappers
  import opened SwissTypes
  import SwissPair
  import R = RegistrationRows
  import opened T = TournamentRounds
  import opened TournamentInvariant

  /** `roster` is the paid roster at that moment with the players' new ids; `pairings` is the engine's answer. */
  datatype Action =
    | DoUpsert(roster: seq<Entrant>, planned: Option<int>)
    | DoPairNext(roster: seq<Entrant>, now: int, pairings: seq<Pairing>)
    | DoReroll(number: int, pairings: seq<Pairing>)
    | DoSwap(number: int, a: SlotRef, b: SlotRef)
    | DoPublish(number: int)
    | DoComplete(number: int)
    | DoReport(match': MatchId, caller: Id, admin: bool, score: Score)
    | DoDrop(player: Id, caller: Id, admin: bool, now: int)
    | DoUndrop(player: Id, caller: Id, admin: bool)
    | DoRemoveUser(user: Id, now: int)
    | DoTransition(action: R.LifecycleAction)

  function Attempt(s: State, a: Action): Result<State, Error> {
    match a
    case DoUpsert(roster, planned) => Upsert(s, roster, planned)
    case DoPairNext(roster, now, pairings) => PairNextRound(s, roster, now, pairings)
    case DoReroll(number, pairings) => Reroll(s, number, pairings)
    case DoSwap(number, x, y) => Swap(s, number, x, y)
    case DoPublish(number) => Publish(s, number)
    case DoComplete(number) => Complete(s, number)
    case DoReport(m, caller, admin, score) => ReportResult(s, m, caller, admin, score)
    case DoDrop(player, caller, admin, now) => Drop(s, player, caller, admin, now)
    case DoUndrop(player, caller, admin) => Undrop(s, player, caller, admin)
    case DoRemoveUser(user, now) => Ok(DropByUser(s, user, now))
    case DoTransition(action) => Transition(s, action)
  }

  /** What the engine may answer for a tournament: any round its contract allows. */
  ghost predicate EngineAnswer(t: Tournament, pairings: seq<Pairing>) {
    SwissPair.ValidRound(SwissPlayers(t.players), History(t.rounds), pairings)
  }

  /** The environment's part of an action is well-formed. */
  ghost predicate Enabled(s: State, a: Action) {
    match a
    case DoUpsert(roster, planned) => FreshRoster(roster)
    case DoPairNext(roster, now, pairings) =>
      FreshRoster(roster) && (LockOrCreate(s, roster).Ok? ==> EngineAnswer(LockOrCreate(s, roster).value, pairings))
    case DoReroll(number, pairings) => Lock(s).Ok? ==> EngineAnswer(Lock(s).value, pairings)
    case _ => true
  }

  /** A failed transaction is rolled back. */
  ghost function Step(s: State, a: Action): State {
    if Enabled(s, a) && Attempt(s, a).Ok? then Attempt(s, a).value else s
  }

  ghost function Run(s: State, actions: seq<Action>): State {
    if actions == [] then s else Step(Run(s, actions[..|actions| - 1]), actions[|actions| - 1])
  }

  const START := State(R.EventStatus.Draft, None)

  lemma StepKeepsInvariant(s: State, a: Action)
    requires StateOk(s)
    ensures StateOk(Step(s, a)) && Evolves(s, Step(s, a))
  {
    if Enabled(s, a) && Attempt(s, a).Ok? {
      hide StateOk, Evolves, SwissPair.ValidRound, FreshRoster, Upsert, PairNextRound, Reroll, Swap, Publish, Complete,
           ReportResult, Drop, Undrop, DropByUser, T.Transition;
      match a
      case DoUpsert(roster, planned) => UpsertKeeps(s, roster, planned);
      case DoPairNext(roster, now, pairings) => PairStep(s, roster, now, pairings);
      case DoReroll(number, pairings) => RerollStep(s, number, pairings);
      case DoSwap(number, x, y) => SwapKeeps(s, number, x, y);
      case DoPublish(number) => PublishKeeps(s, number);
      case DoComplete(number) => CompleteKeeps(s, number);
      case DoReport(m, caller, admin, score) => ReportKeeps(s, m, caller, admin, score);
      case DoDrop(player, caller, admin, now) => DropKeeps(s, player, caller, admin, now);
      case DoUndrop(player, caller, admin) => UndropKeeps(s, player, caller, admin);
      case DoRemoveUser(user, now) => DropByUserKeeps(s, user, now);
      case DoTransition(action) => TransitionKeeps(s, action);
    } else if s.tournament.Some? {
      ExtendsSelf(s.tournament.value);
    }
  }

  lemma PairStep(s: State, roster: seq<Entrant>, now: int, pairings: seq<Pairing>)
    requires StateOk(s) && PairNextRound(s, roster, now, pairings).Ok? && Enabled(s, DoPairNext(roster, now, pairings))
    ensures var s' := PairNextRound(s, roster, now, pairings).value;
            StateOk(s') && Evolves(s, s')
  {
    PairKeeps(s, roster, now, pairings);
  }

  lemma RerollStep(s: State, number: int, pairings: seq<Pairing>)
    requires StateOk(s) && Reroll(s, number, pairings).Ok? && Enabled(s, DoReroll(number, pairings))
    ensures var s' := Reroll(s, number, pairings).value;
            StateOk(s') && Evolves(s, s')
  {
    RerollKeeps(s, number, pairings);
  }

  /** Every run keeps the invariant, and everything in it only moves forward. */
  lemma {:induction false} RunKeepsInvariant(s: State, actions: seq<Action>)
    requires StateOk(s)
    ensures StateOk(Run(s, actions)) && Evolves(s, Run(s, actions))
  {
    if actions == [] {
      if s.tournament.Some? {
        ExtendsSelf(s.tournament.value);
      }
    } else {
      var front := actions[..|actions| - 1];
      RunKeepsInvariant(s, front);
      StepKeepsInvariant(Run(s, front), actions[|actions| - 1]);
      hide StateOk, Evolves, Step;
      EvolvesTransitive(s, Run(s, front), Run(s, actions));
    }
  }

  lemma {:induction false} RunAppend(s: State, first: seq<Action>, then': seq<Action>)
    ensures Run(s, first + then') == Run(Run(s, first), then')
  {
    if then' == [] {
      assert first + then' == first;
    } else {
      assert (first + then')[..|first + then'| - 1] == first + then'[..|then'| - 1];
      RunAppend(s, first, then'[..|then'| - 1]);
    }
  }

  lemma RunOne(s: State, a: Action)
    ensures Run(s, [a]) == Step(s, a)
  {
    assert [a][..0] == [];
    assert Run(s, []) == s;
  }

  lemma RunFirst(s: State, a: Action, rest: seq<Action>)
    ensures Run(s, [a] + rest) == Run(Step(s, a), rest)
  {
    RunAppend(s, [a], rest);
    RunOne(s, a);
  }

  // ---------------------------------------------------------------------
  // The round in flight
  // ---------------------------------------------------------------------

  /**
   From a fresh event, whatever is attempted: rounds are numbered in order, all
   but the last are completed, there are no more than planned, completed rounds
   are fully and validly reported, byes score 2-0 and drafts have no results.
   */
  lemma RoundsInOrder(actions: seq<Action>)
    requires Run(START, actions).tournament.Some?
    ensures var t := Run(START, actions).tournament.value;
            && |t.rounds| <= t.plannedRounds
            && (forall k :: 0 <= k < |t.rounds| ==>
                  t.rounds[k].number == k + 1 && (k + 1 < |t.rounds| ==> t.rounds[k].status == Completed))
            && (forall k, i :: 0 <= k < |t.rounds| && 0 <= i < |t.rounds[k].matches| ==>
                  RowOk(t.rounds[k].status, t.rounds[k].matches[i]))
  {
    RunKeepsInvariant(START, actions);
    var t := Run(START, actions).tournament.value;
    hide Run, RowOk, SeatsOk;
    forall k | 0 <= k < |t.rounds|
      ensures t.rounds[k].number == k + 1 && (k + 1 < |t.rounds| ==> t.rounds[k].status == Completed)
      ensures RowsOk(t.rounds[k].status, t.rounds[k].matches)
    {
      assert Placed(t, k) && RoundOk(t.players, t.rounds[k]);
    }
  }

  /** Once the next round exists, a round never changes again: results, pairings, status. */
  lemma EarlierRoundsFrozen(s: State, actions: seq<Action>, k: nat)
    requires StateOk(s) && s.tournament.Some? && k + 1 < |s.tournament.value.rounds|
    ensures var s' := Run(s, actions);
            && s'.tournament.Some? && |s'.tournament.value.rounds| >= |s.tournament.value.rounds|
            && s'.tournament.value.rounds[k] == s.tournament.value.rounds[k]
  {
    RunKeepsInvariant(s, actions);
    hide RoundExtends, StateOk, Run;
  }

  /** Published pairings are final: seats of a round out of draft never change, and neither does who won a bye. */
  lemma PublishedSeatsFixed(s: State, actions: seq<Action>, k: nat, i: nat)
    requires StateOk(s) && s.tournament.Some? && k < |s.tournament.value.rounds|
    requires s.tournament.value.rounds[k].status != Draft && i < |s.tournament.value.rounds[k].matches|
    ensures var s' := Run(s, actions);
            && s'.tournament.Some? && k < |s'.tournament.value.rounds|
            && s'.tournament.value.rounds[k].status != Draft
            && i < |s'.tournament.value.rounds[k].matches|
            && RowExtends(s.tournament.value.rounds[k].matches[i], s'.tournament.value.rounds[k].matches[i])
  {
    RunKeepsInvariant(s, actions);
    hide RowExtends, StateOk, Run;
    var r, r' := s.tournament.value.rounds[k], Run(s, actions).tournament.value.rounds[k];
    assert RoundExtends(r, r');
    assert Rank(r'.status) > 0;
  }

  lemma {:induction false} HistoryOfPrefix(rounds: seq<Round>, rounds': seq<Round>)
    requires rounds != [] && |rounds| == |rounds'|
    requires forall k :: 0 <= k < |rounds| - 1 ==> rounds'[k] == rounds[k]
    requires rounds[|rounds| - 1].status == Draft && rounds'[|rounds| - 1].status == Draft
    ensures History(rounds') == History(rounds)
  {
    assert rounds'[..|rounds| - 1] == rounds[..|rounds| - 1];
  }

  /**
   A draft can be rerolled any time later, and the engine is then shown exactly
   the history it was shown when the round was first paired.
   */
  lemma RerollSameHistory(s: State, roster: seq<Entrant>, now: int, pairings: seq<Pairing>, actions: seq<Action>,
                          number: int, again: seq<Pairing>)
    requires StateOk(s) && Enabled(s, DoPairNext(roster, now, pairings))
    requires PairNextRound(s, roster, now, pairings).Ok?
    requires var s1 := Run(PairNextRound(s, roster, now, pairings).value, actions);
             && Reroll(s1, number, again).Ok?
             && number == |LockOrCreate(s, roster).value.rounds| + 1
    ensures var s1 := Run(PairNextRound(s, roster, now, pairings).value, actions);
            && History(s1.tournament.value.rounds) == History(LockOrCreate(s, roster).value.rounds)
            && SameRoster(LockOrCreate(s, roster).value.players, s1.tournament.value.players)
  {
    var s0 := PairNextRound(s, roster, now, pairings).value;
    PairStep(s, roster, now, pairings);
    RunKeepsInvariant(s0, actions);
    var t0, t1 := s0.tournament.value, Run(s0, actions).tournament.value;
    var k := DraftRound(t1.rounds, number).value;
    hide Run, RoundOk, RoundExtends, SwissPair.ValidRound, InsertPairings, DrawsIncrease;
    LastRoundOnly(t1, k);
    assert Placed(t1, k);
    HistoryOfPrefix(t0.rounds, t1.rounds);
    assert t0.rounds[..|t0.rounds| - 1] == LockOrCreate(s, roster).value.rounds;
  }

  /** A finished event stays finished, has no open round, and its tournament's rounds never change again. */
  lemma {:induction false} FinishedIsFinal(s: State, actions: seq<Action>)
    requires StateOk(s) && s.event == R.Finished
    ensures var s' := Run(s, actions);
            && s'.event == R.Finished && CountOpen(s') == 0
            && s'.tournament.Some? == s.tournament.Some?
            && (s.tournament.Some? ==> s'.tournament.value.rounds == s.tournament.value.rounds)
  {
    RunKeepsInvariant(s, actions);
    hide Run, TournamentOk, Extends;
  }

  // ---------------------------------------------------------------------
  // Looking things up
  // ---------------------------------------------------------------------

  lemma FindNumber(t: Tournament, k: nat)
    requires TournamentOk(t) && k < |t.rounds|
    ensures RoundByNumber(t.rounds, k + 1) == Some(k)
  {
    assert Placed(t, k);
    var found := RoundByNumber(t.rounds, k + 1);
    if found.Some? {
      assert Placed(t, found.value);
    }
  }

  /** Match ids are unique. */
  lemma FindMatch(t: Tournament, k: nat, i: nat)
    requires TournamentOk(t) && k < |t.rounds| && i < |t.rounds[k].matches|
    ensures GetMatch(t.rounds, MatchId(t.rounds[k].draw, i)) == Some((k, i))
  {
    var p := (r: Round) => r.draw == MatchId(t.rounds[k].draw, i).draw;
    var found := FindRound(t.rounds, p);
    assert p(t.rounds[k]);
    assert found.Some? && t.rounds[found.value].draw == t.rounds[k].draw;
    assert found.value == k;
  }

  // ---------------------------------------------------------------------
  // The organizer's word
  // ---------------------------------------------------------------------

  ghost predicate RulesOn(a: Action, id: MatchId) {
    a.DoReport? && a.admin && a.match' == id
  }

  ghost predicate HasRow(s: State, k: nat, i: nat) {
    s.tournament.Some? && k < |s.tournament.value.rounds| && i < |s.tournament.value.rounds[k].matches|
  }

  function RowAt(s: State, k: nat, i: nat): TableMatch
    requires s.tournament.Some? && k < |s.tournament.value.rounds| && i < |s.tournament.value.rounds[k].matches|
  {
    s.tournament.value.rounds[k].matches[i]
  }

  lemma RuledIsNoDraft(s: State, k: nat, i: nat)
    requires StateOk(s) && HasRow(s, k, i) && RowAt(s, k, i).ruled
    ensures s.tournament.value.rounds[k].status != Draft
  {
    var t := s.tournament.value;
    assert RoundOk(t.players, t.rounds[k]);
    assert RowOk(t.rounds[k].status, t.rounds[k].matches[i]);
  }

  lemma RulingStands(s: State, a: Action, k: nat, i: nat)
    requires StateOk(s) && HasRow(s, k, i) && RowAt(s, k, i).ruled
    requires !RulesOn(a, MatchId(s.tournament.value.rounds[k].draw, i))
    ensures HasRow(Step(s, a), k, i) && RowAt(Step(s, a), k, i) == RowAt(s, k, i)
    ensures Step(s, a).tournament.value.rounds[k].draw == s.tournament.value.rounds[k].draw
  {
    RuledIsNoDraft(s, k, i);
    hide StateOk, Enabled, Upsert, PairNextRound, Reroll, Swap, Publish, Complete, ReportResult, Drop, Undrop,
         DropByUser, T.Transition;
    if Enabled(s, a) && Attempt(s, a).Ok? {
      if a.DoReport? {
        RulingAgainstReport(s, a, k, i);
      } else if a.DoReroll? || a.DoSwap? || a.DoPublish? || a.DoComplete? {
        RulingAgainstRounds(s, a, k, i);
      } else {
        RulingElsewhere(s, a, k, i);
      }
    }
  }

  lemma RulingElsewhere(s: State, a: Action, k: nat, i: nat)
    requires HasRow(s, k, i) && Attempt(s, a).Ok?
    requires !a.DoReport? && !a.DoReroll? && !a.DoSwap? && !a.DoPublish? && !a.DoComplete?
    ensures var s' := Attempt(s, a).value;
            HasRow(s', k, i) && s'.tournament.value.rounds[k] == s.tournament.value.rounds[k]
  {
  }

  lemma RulingAgainstRounds(s: State, a: Action, k: nat, i: nat)
    requires HasRow(s, k, i) && s.tournament.value.rounds[k].status != Draft && Attempt(s, a).Ok?
    requires a.DoReroll? || a.DoSwap? || a.DoPublish? || a.DoComplete?
    ensures var s' := Attempt(s, a).value;
            && HasRow(s', k, i)
            && s'.tournament.value.rounds[k].matches == s.tournament.value.rounds[k].matches
            && s'.tournament.value.rounds[k].draw == s.tournament.value.rounds[k].draw
  {
  }

  lemma RulingAgainstReport(s: State, a: Action, k: nat, i: nat)
    requires HasRow(s, k, i) && RowAt(s, k, i).ruled && a.DoReport? && Attempt(s, a).Ok?
    requires !RulesOn(a, MatchId(s.tournament.value.rounds[k].draw, i))
    ensures var s' := Attempt(s, a).value;
            && HasRow(s', k, i) && RowAt(s', k, i) == RowAt(s, k, i)
            && s'.tournament.value.rounds[k].draw == s.tournament.value.rounds[k].draw
  {
    hide Valid, PlaysIn;
  }

  /** After an organizer's report, the row changes only when an organizer reports that match again. */
  lemma {:induction false} OrganizerHasTheLastWord(s: State, actions: seq<Action>, k: nat, i: nat)
    requires StateOk(s) && HasRow(s, k, i) && RowAt(s, k, i).ruled
    requires forall a :: a in actions ==> !RulesOn(a, MatchId(s.tournament.value.rounds[k].draw, i))
    ensures var s' := Run(s, actions);
            && HasRow(s', k, i) && RowAt(s', k, i) == RowAt(s, k, i)
            && s'.tournament.value.rounds[k].draw == s.tournament.value.rounds[k].draw
  {
    if actions != [] {
      var front := actions[..|actions| - 1];
      OrganizerHasTheLastWord(s, front, k, i);
      RunKeepsInvariant(s, front);
      hide StateOk, Step;
      RulingStands(Run(s, front), actions[|actions| - 1], k, i);
    }
  }

  // ---------------------------------------------------------------------
  // Swaps
  // ---------------------------------------------------------------------

  ghost predicate HasRound(s: State, k: nat) {
    s.tournament.Some? && k < |s.tournament.value.rounds|
  }

  /** Any number of swap attempts leaves the same players seated, with as many byes. */
  lemma {:induction false} SwapsKeepSeats(s: State, actions: seq<Action>, k: nat)
    requires StateOk(s) && HasRound(s, k) && forall a :: a in actions ==> a.DoSwap?
    ensures HasRound(Run(s, actions), k)
    ensures var ms, ms' := s.tournament.value.rounds[k].matches, Run(s, actions).tournament.value.rounds[k].matches;
            Seats(ms') == Seats(ms) && CountByes(ms') == CountByes(ms)
  {
    if actions != [] {
      var front := actions[..|actions| - 1];
      SwapsKeepSeats(s, front, k);
      OneSwapKeepsSeats(Run(s, front), actions[|actions| - 1], k);
    }
  }

  lemma OneSwapKeepsSeats(s: State, a: Action, k: nat)
    requires a.DoSwap? && HasRound(s, k)
    ensures HasRound(Step(s, a), k)
    ensures var ms, ms' := s.tournament.value.rounds[k].matches, Step(s, a).tournament.value.rounds[k].matches;
            Seats(ms') == Seats(ms) && CountByes(ms') == CountByes(ms)
  {
    hide Seats, CountByes, SwapSlots, Swap;
    SwapStepIs(s, a);
    hide Step;
    if Swap(s, a.number, a.a, a.b).Ok? {
      var d, i, j := SwapIsLocal(s, a.number, a.a, a.b);
      SwapKeepsSeats(s.tournament.value.rounds[d].matches, i, a.a.slot, j, a.b.slot);
    }
  }

  lemma SwapStepIs(s: State, a: Action)
    requires a.DoSwap?
    ensures Step(s, a) == if Swap(s, a.number, a.a, a.b).Ok? then Swap(s, a.number, a.a, a.b).value else s
  {
    hide Swap;
  }

  /** Whether `ref` names an occupied seat of round `k`. */
  ghost predicate NamesSeat(t: Tournament, k: nat, ref: SlotRef) {
    && GetMatch(t.rounds, ref.match').Some? && GetMatch(t.rounds, ref.match').value.0 == k
    && SlotPlayer(t.rounds[k].matches[GetMatch(t.rounds, ref.match').value.1], ref.slot).Some?
  }

  /** In every reachable draft, a swap succeeds exactly for two different occupied seats of it. */
  lemma SwapAlwaysPossible(s: State, k: nat, a: SlotRef, b: SlotRef)
    requires StateOk(s) && s.event == R.Started && HasRound(s, k) && s.tournament.value.rounds[k].status == Draft
    ensures Swap(s, k + 1, a, b).Ok?
            <==> a != b && NamesSeat(s.tournament.value, k, a) && NamesSeat(s.tournament.value, k, b)
  {
    var t := s.tournament.value;
    FindNumber(t, k);
    assert RoundOk(t.players, t.rounds[k]);
    var ma, mb := GetMatch(t.rounds, a.match'), GetMatch(t.rounds, b.match');
    if ma.Some? && ma.value.0 == k && mb.Some? && mb.value.0 == k {
      SwapSucceeds(t.rounds[k].matches, ma.value.1, a.slot, mb.value.1, b.slot);
      hide Seats, CountByes, SwapSlots, SlotPlayer, EachOnce, RowsOk, TournamentOk;
    }
  }

  /** Repeating a successful swap restores the state. */
  lemma SwapUndoesItself(s: State, number: int, a: SlotRef, b: SlotRef)
    requires StateOk(s) && Swap(s, number, a, b).Ok?
    ensures Swap(Swap(s, number, a, b).value, number, a, b) == Ok(s)
  {
    var t := s.tournament.value;
    var k := DraftRound(t.rounds, number).value;
    assert Placed(t, k) && RoundOk(t.players, t.rounds[k]);
    SwapKeeps(s, number, a, b);
    var s' := Swap(s, number, a, b).value;
    var t' := s'.tournament.value;
    var i, j := GetMatch(t.rounds, a.match').value.1, GetMatch(t.rounds, b.match').value.1;
    var ms := t.rounds[k].matches;
    SwapTwice(ms, i, a.slot, j, b.slot);
    FindNumber(t', k);
    FindMatch(t', k, i);
    FindMatch(t', k, j);
    hide SwapSlots, RoundOk, TournamentOk, StateOk, Evolves, FindRound, EachOnce, RoundByNumber, GetMatch;
    assert t.rounds[k := t'.rounds[k]][k := t.rounds[k]] == t.rounds;
    assert t'.rounds[k].(matches := ms) == t.rounds[k];
  }

  // ---------------------------------------------------------------------
  // Dropping out and coming back
  // ---------------------------------------------------------------------

  /** The clock reads more than `time` at every action that reads it. */
  ghost predicate Later(actions: seq<Action>, time: int) {
    forall a :: a in actions && (a.DoPairNext? || a.DoDrop? || a.DoRemoveUser?) ==> a.now > time
  }

  ghost predicate DroppedAt(t: Tournament, p: nat, time: int) {
    p < |t.players| && t.players[p].droppedAt == Some(time)
  }

  /** Exactly the rounds from `n` on were created after `time`. */
  ghost predicate SplitAt(rounds: seq<Round>, n: nat, time: int) {
    && n <= |rounds|
    && forall k :: 0 <= k < |rounds| ==> (rounds[k].createdAt > time <==> k >= n)
  }

  lemma StillDropped(s: State, a: Action, p: nat, player: Id, n: nat, time: int)
    requires StateOk(s) && s.tournament.Some? && DroppedAt(s.tournament.value, p, time)
    requires s.tournament.value.players[p].id == player && SplitAt(s.tournament.value.rounds, n, time)
    requires Later([a], time) && !(a.DoUndrop? && a.player == player)
    ensures var t' := Step(s, a).tournament;
            && t'.Some? && DroppedAt(t'.value, p, time)
            && t'.value.players[p].id == player && SplitAt(t'.value.rounds, n, time)
  {
    assert a in [a];
    hide StateOk, Enabled, Upsert, PairNextRound, Reroll, Swap, Publish, Complete, ReportResult, Drop, Undrop,
         DropByUser, T.Transition;
    if Enabled(s, a) && Attempt(s, a).Ok? {
      if a.DoReroll? || a.DoSwap? || a.DoPublish? || a.DoComplete? || a.DoReport? {
        RoundsOnly(s, a);
      } else {
        PlayersOnly(s, a, p, player, n, time);
      }
    }
  }

  lemma RoundsOnly(s: State, a: Action)
    requires s.tournament.Some? && Attempt(s, a).Ok?
    requires a.DoReroll? || a.DoSwap? || a.DoPublish? || a.DoComplete? || a.DoReport?
    ensures var t, t' := s.tournament.value, Attempt(s, a).value.tournament;
            && t'.Some? && t'.value.players == t.players && |t'.value.rounds| == |t.rounds|
            && forall k :: 0 <= k < |t.rounds| ==> t'.value.rounds[k].createdAt == t.rounds[k].createdAt
  {
    hide Valid, PlaysIn, SwapSlots, FillByes, InsertPairings, AllReported;
  }

  lemma PlayersOnly(s: State, a: Action, p: nat, player: Id, n: nat, time: int)
    requires s.tournament.Some? && DroppedAt(s.tournament.value, p, time) && Attempt(s, a).Ok?
    requires s.tournament.value.players[p].id == player && SplitAt(s.tournament.value.rounds, n, time)
    requires Later([a], time) && !(a.DoUndrop? && a.player == player)
    requires !a.DoReroll? && !a.DoSwap? && !a.DoPublish? && !a.DoComplete? && !a.DoReport?
    ensures var t' := Attempt(s, a).value.tournament;
            && t'.Some? && DroppedAt(t'.value, p, time)
            && t'.value.players[p].id == player && SplitAt(t'.value.rounds, n, time)
  {
    assert a in [a];
    hide InsertPairings, ActiveIds, OpenRounds;
  }

  lemma {:induction false} StaysDropped(s: State, actions: seq<Action>, p: nat, player: Id, n: nat, time: int)
    requires StateOk(s) && s.tournament.Some? && DroppedAt(s.tournament.value, p, time)
    requires s.tournament.value.players[p].id == player && SplitAt(s.tournament.value.rounds, n, time)
    requires Later(actions, time) && forall a :: a in actions ==> !(a.DoUndrop? && a.player == player)
    ensures var t' := Run(s, actions).tournament;
            && t'.Some? && DroppedAt(t'.value, p, time)
            && t'.value.players[p].id == player && SplitAt(t'.value.rounds, n, time)
  {
    if actions != [] {
      var front := actions[..|actions| - 1];
      StaysDropped(s, front, p, player, n, time);
      RunKeepsInvariant(s, front);
      hide StateOk, Step;
      StillDropped(Run(s, front), actions[|actions| - 1], p, player, n, time);
    }
  }

  lemma FindsPlayer(t: Tournament, p: nat)
    requires DistinctIds(SwissPlayers(t.players)) && p < |t.players|
    ensures FindEntrant(t.players, t.players[p].id) == Some(p)
  {
    var ids := Ids(SwissPlayers(t.players));
    var q := FindEntrant(t.players, t.players[p].id).value;
    assert ids[q] == ids[p];
    TwiceInBag(ids, if q < p then q else p, if q < p then p else q);
  }

  lemma TwiceInBag(ids: seq<Id>, i: nat, j: nat)
    ensures i < j < |ids| && ids[i] == ids[j] ==> multiset(ids)[ids[j]] >= 2
  {
    if i < j < |ids| {
      assert ids[i] in ids[..j] && ids[j..][0] in ids[j..];
      assert ids == ids[..j] + ids[j..];
    }
  }

  /**
   After a drop, with the clock moving on and no undrop of that player in
   between, the organizer can take the drop back exactly as long as no further
   round has been paired.
   */
  lemma UndropUntilNextRound(s: State, p: nat, caller: Id, admin: bool, now: int, actions: seq<Action>, organizer: Id)
    requires StateOk(s) && s.tournament.Some? && p < |s.tournament.value.players|
    requires Drop(s, s.tournament.value.players[p].id, caller, admin, now).Ok?
    requires forall k :: 0 <= k < |s.tournament.value.rounds| ==> s.tournament.value.rounds[k].createdAt <= now
    requires Later(actions, now)
    requires forall a :: a in actions ==> !(a.DoUndrop? && a.player == s.tournament.value.players[p].id)
    ensures var player := s.tournament.value.players[p].id;
            var s' := Run(Drop(s, player, caller, admin, now).value, actions);
            && s'.tournament.Some?
            && (Undrop(s', player, organizer, true).Ok?
                <==> s'.event == R.Started && |s'.tournament.value.rounds| == |s.tournament.value.rounds|)
  {
    var t := s.tournament.value;
    var player := t.players[p].id;
    var s0 := Drop(s, player, caller, admin, now).value;
    FindsPlayer(t, p);
    DropKeeps(s, player, caller, admin, now);
    assert DroppedAt(s0.tournament.value, p, now) && SplitAt(s0.tournament.value.rounds, |t.rounds|, now);
    hide Evolves, StateOk;
    StaysDropped(s0, actions, p, player, |t.rounds|, now);
    RunKeepsInvariant(s0, actions);
    var s' := Run(s0, actions);
    EventOfTournament(s');
    FindsPlayer(s'.tournament.value, p);
    hide Run, Drop;
    RoundsSinceDrop(s'.tournament.value.rounds, |t.rounds|, now);
  }

  lemma RoundsSinceDrop(rounds: seq<Round>, n: nat, time: int)
    requires SplitAt(rounds, n, time)
    ensures CreatedAfter(rounds, time) <==> |rounds| != n
  {
    if |rounds| > n {
      assert rounds[n].createdAt > time;
    }
  }

  lemma EventOfTournament(s: State)
    requires StateOk(s) && s.tournament.Some?
    ensures s.event != R.EventStatus.Draft && DistinctIds(SwissPlayers(s.tournament.value.players))
  {
  }
}
