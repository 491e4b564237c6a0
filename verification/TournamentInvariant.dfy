/**
 What every tournament mutation keeps: one round in flight, everyone seated at
 most once, results where they belong.
 */
module TournamentInvariant {
  import opened Wrappers
  import opened SwissTypes
  import SwissPair
  import R = RegistrationRows
  import opened T = TournamentRounds

  // ---------------------------------------------------------------------
  // Who sits where
  // ---------------------------------------------------------------------

  function SeatBag(m: TableMatch): multiset<Id> {
    if m.player2.Some? then multiset{m.player1, m.player2.value} else multiset{m.player1}
  }

  /** Everyone seated in a round. */
  function Seats(matches: seq<TableMatch>): multiset<Id> {
    if matches == [] then multiset{} else Seats(matches[..|matches| - 1]) + SeatBag(matches[|matches| - 1])
  }

  function CountByes(matches: seq<TableMatch>): nat {
    if matches == [] then 0
    else CountByes(matches[..|matches| - 1]) + if matches[|matches| - 1].player2.None? then 1 else 0
  }

  function Bye(m: TableMatch): nat {
    if m.player2.None? then 1 else 0
  }

  lemma SeatsAfterUpdate(matches: seq<TableMatch>, i: nat, m: TableMatch)
    requires i < |matches|
    ensures Seats(matches[i := m]) + SeatBag(matches[i]) == Seats(matches) + SeatBag(m)
    ensures CountByes(matches[i := m]) + Bye(matches[i]) == CountByes(matches) + Bye(m)
  {
    SeatsUpdated(matches, i, m);
    ByesUpdated(matches, i, m);
  }

  lemma {:induction false} ByesUpdated(matches: seq<TableMatch>, i: nat, m: TableMatch)
    requires i < |matches|
    ensures CountByes(matches[i := m]) + Bye(matches[i]) == CountByes(matches) + Bye(m)
  {
    var n := |matches| - 1;
    if i < n {
      ByesUpdated(matches[..n], i, m);
      assert matches[i := m][..n] == matches[..n][i := m];
    } else {
      assert matches[i := m][..n] == matches[..n];
    }
  }

  /** `b` in `s'` has taken the place of `a` in `s`. */
  ghost predicate Replaced(s: multiset<Id>, a: multiset<Id>, s': multiset<Id>, b: multiset<Id>) {
    s' + a == s + b
  }

  function Sum(s: multiset<Id>, b: multiset<Id>): multiset<Id> {
    s + b
  }

  lemma {:induction false} SeatsUpdated(matches: seq<TableMatch>, i: nat, m: TableMatch)
    requires i < |matches|
    ensures Replaced(Seats(matches), SeatBag(matches[i]), Seats(matches[i := m]), SeatBag(m))
  {
    var n := |matches| - 1;
    var front, last, after := matches[..n], matches[n], matches[i := m];
    hide Seats, SeatBag, Replaced, Sum;
    SeatsUnfold(matches);
    SeatsUnfold(after);
    FrontUpdated(matches, i, m);
    if i < n {
      SeatsUpdated(front, i, m);
      ReplacedBefore(Seats(front), SeatBag(matches[i]), Seats(front[i := m]), SeatBag(m), SeatBag(last));
    } else {
      ReplacedLast(Seats(front), SeatBag(last), SeatBag(m));
    }
  }

  lemma FrontUpdated(matches: seq<TableMatch>, i: nat, m: TableMatch)
    requires i < |matches|
    ensures var n := |matches| - 1;
            if i < n then
              && matches[i := m][..n] == matches[..n][i := m] && matches[..n][i] == matches[i]
              && matches[i := m][n] == matches[n]
            else matches[i := m][..n] == matches[..n] && matches[i := m][n] == m
  {
  }

  lemma SeatsUnfold(matches: seq<TableMatch>)
    requires matches != []
    ensures Seats(matches) == Sum(Seats(matches[..|matches| - 1]), SeatBag(matches[|matches| - 1]))
  {
  }

  lemma ReplacedBefore(s: multiset<Id>, a: multiset<Id>, s': multiset<Id>, b: multiset<Id>, last: multiset<Id>)
    requires Replaced(s, a, s', b)
    ensures Replaced(Sum(s, last), a, Sum(s', last), b)
  {
    forall x ensures (s' + last + a)[x] == (s + last + b)[x] {
      assert (s' + a)[x] == (s + b)[x];
    }
  }

  lemma ReplacedLast(s: multiset<Id>, a: multiset<Id>, b: multiset<Id>)
    ensures Replaced(Sum(s, a), a, Sum(s, b), b)
  {
  }

  lemma {:induction false} SeatsHold(matches: seq<TableMatch>, i: nat)
    requires i < |matches|
    ensures SeatBag(matches[i]) <= Seats(matches)
  {
    var n := |matches| - 1;
    if i < n {
      SeatsHold(matches[..n], i);
    }
  }

  lemma {:induction false} TwoMatchesHold(matches: seq<TableMatch>, i: nat, j: nat)
    requires i < j < |matches|
    ensures SeatBag(matches[i]) + SeatBag(matches[j]) <= Seats(matches)
  {
    var n := |matches| - 1;
    assert Seats(matches) == Seats(matches[..n]) + SeatBag(matches[n]);
    hide SeatBag, Seats;
    assert matches[..n][i] == matches[i];
    if j < n {
      assert matches[..n][j] == matches[j];
      TwoMatchesHold(matches[..n], i, j);
    } else {
      SeatsHold(matches[..n], i);
      BagsMonotone(SeatBag(matches[i]), Seats(matches[..n]), SeatBag(matches[j]));
    }
  }

  lemma BagsMonotone(a: multiset<Id>, s: multiset<Id>, b: multiset<Id>)
    requires a <= s
    ensures a + b <= s + b
  {
  }

  /** Rewriting rows without touching their seats. */
  lemma {:induction false} SameSeats(before: seq<TableMatch>, after: seq<TableMatch>)
    requires |before| == |after|
    requires forall i :: 0 <= i < |before| ==>
        after[i].player1 == before[i].player1 && after[i].player2 == before[i].player2
    ensures Seats(after) == Seats(before) && CountByes(after) == CountByes(before)
  {
    if before != [] {
      SameSeats(before[..|before| - 1], after[..|after| - 1]);
    }
  }

  ghost predicate EachOnce(matches: seq<TableMatch>) {
    forall x :: Seats(matches)[x] <= 1
  }

  lemma OwnSeats(matches: seq<TableMatch>, i: nat)
    requires EachOnce(matches) && i < |matches|
    ensures matches[i].player2 != Some(matches[i].player1)
  {
    SeatsHold(matches, i);
    var m := matches[i];
    assert m.player2 == Some(m.player1) ==> SeatBag(m)[m.player1] == 2;
    assert SeatBag(m)[m.player1] <= Seats(matches)[m.player1];
  }

  lemma BagOfSlot(m: TableMatch, slot: int)
    requires SlotPlayer(m, slot).Some?
    ensures SeatBag(m)[SlotPlayer(m, slot).value] >= 1
  {
  }

  lemma TwoBags(seats: multiset<Id>, a: multiset<Id>, b: multiset<Id>, x: Id)
    requires a + b <= seats
    ensures a[x] + b[x] <= seats[x]
  {
    assert (a + b)[x] <= seats[x];
  }

  lemma SeatsApart(matches: seq<TableMatch>, i: nat, slotA: int, j: nat, slotB: int)
    requires EachOnce(matches) && i < |matches| && j < |matches| && i != j
    requires SlotPlayer(matches[i], slotA).Some? && SlotPlayer(matches[j], slotB).Some?
    ensures SlotPlayer(matches[i], slotA) != SlotPlayer(matches[j], slotB)
  {
    TwoMatchesHold(matches, if i < j then i else j, if i < j then j else i);
    BagOfSlot(matches[i], slotA);
    BagOfSlot(matches[j], slotB);
    hide SeatBag, Seats, SlotPlayer;
    var a := SlotPlayer(matches[i], slotA).value;
    TwoBags(Seats(matches), SeatBag(matches[i]), SeatBag(matches[j]), a);
  }

  // ---------------------------------------------------------------------
  // Swapping
  // ---------------------------------------------------------------------

  ghost predicate Occupied(matches: seq<TableMatch>, i: nat, slot: int)
    requires i < |matches|
  {
    SlotPlayer(matches[i], slot).Some?
  }

  /** The self-pair guards never fire: two different occupied slots can always be swapped, nothing else can. */
  lemma SwapSucceeds(matches: seq<TableMatch>, i: nat, slotA: int, j: nat, slotB: int)
    requires i < |matches| && j < |matches| && EachOnce(matches)
    ensures SwapSlots(matches, i, slotA, j, slotB).Some?
            <==> (i, slotA) != (j, slotB) && Occupied(matches, i, slotA) && Occupied(matches, j, slotB)
  {
    OwnSeats(matches, i);
    OwnSeats(matches, j);
    if i != j && Occupied(matches, i, slotA) && Occupied(matches, j, slotB) {
      OtherSeatApart(matches, i, slotA, j, slotB);
      OtherSeatApart(matches, j, slotB, i, slotA);
    }
  }

  /** Moving b into a's slot cannot meet b there. */
  lemma OtherSeatApart(matches: seq<TableMatch>, i: nat, slotA: int, j: nat, slotB: int)
    requires i < |matches| && j < |matches| && i != j && EachOnce(matches)
    requires Occupied(matches, i, slotA) && Occupied(matches, j, slotB)
    ensures SlotAssigned(matches[i], slotA, SlotPlayer(matches[j], slotB).value).Some?
  {
    SeatsApart(matches, i, 1, j, slotB);
    if matches[i].player2.Some? {
      SeatsApart(matches, i, 2, j, slotB);
    }
  }

  /** Exactly the two named slots exchange their players. */
  ghost predicate Transposed(before: seq<TableMatch>, after: seq<TableMatch>, i: nat, slotA: int, j: nat, slotB: int)
    requires i < |before| && j < |before|
  {
    && |after| == |before|
    && (forall k :: 0 <= k < |before| ==>
        after[k] == before[k].(player1 := after[k].player1, player2 := after[k].player2))
    && forall k, slot :: 0 <= k < |before| ==>
         SlotPlayer(after[k], slot) ==
           if (k, slot) == (i, slotA) then SlotPlayer(before[j], slotB)
           else if (k, slot) == (j, slotB) then SlotPlayer(before[i], slotA)
           else SlotPlayer(before[k], slot)
  }

  lemma SwapTransposes(matches: seq<TableMatch>, i: nat, slotA: int, j: nat, slotB: int)
    requires i < |matches| && j < |matches| && SwapSlots(matches, i, slotA, j, slotB).Some?
    ensures Transposed(matches, SwapSlots(matches, i, slotA, j, slotB).value, i, slotA, j, slotB)
  {
  }

  /** Nobody enters or leaves the round, and there are as many byes as before. */
  lemma SwapKeepsSeats(matches: seq<TableMatch>, i: nat, slotA: int, j: nat, slotB: int)
    requires i < |matches| && j < |matches| && SwapSlots(matches, i, slotA, j, slotB).Some?
    ensures var after := SwapSlots(matches, i, slotA, j, slotB).value;
            Seats(after) == Seats(matches) && CountByes(after) == CountByes(matches)
  {
    hide Seats, CountByes, SeatBag;
    if i == j {
      SwapInside(matches, i, slotA, slotB);
    } else {
      SwapAcross(matches, i, slotA, j, slotB);
    }
  }

  lemma SwapInside(matches: seq<TableMatch>, i: nat, slotA: int, slotB: int)
    requires i < |matches| && SwapSlots(matches, i, slotA, i, slotB).Some?
    ensures var after := SwapSlots(matches, i, slotA, i, slotB).value;
            Seats(after) == Seats(matches) && CountByes(after) == CountByes(matches)
  {
    BothPlaced(matches[i], slotA, slotB);
    var a, b := SlotPlayer(matches[i], slotA).value, SlotPlayer(matches[i], slotB).value;
    hide SeatBag, PlaceBothSlots, SlotPlayer, Seats, CountByes;
    var m := PlaceBothSlots(matches[i], slotA, b, slotB, a).value;
    SeatsAfterUpdate(matches, i, m);
    BagCancels(Seats(matches[i := m]), Seats(matches), SeatBag(matches[i]));
  }

  lemma BagCancels(s: multiset<Id>, s': multiset<Id>, b: multiset<Id>)
    requires s + b == s' + b
    ensures s == s'
  {
    forall x ensures s[x] == s'[x] {
      assert (s + b)[x] == (s' + b)[x];
    }
  }

  lemma SwapAcross(matches: seq<TableMatch>, i: nat, slotA: int, j: nat, slotB: int)
    requires i < |matches| && j < |matches| && i != j && SwapSlots(matches, i, slotA, j, slotB).Some?
    ensures var after := SwapSlots(matches, i, slotA, j, slotB).value;
            Seats(after) == Seats(matches) && CountByes(after) == CountByes(matches)
  {
    hide Seats, CountByes;
    var mi, mj, a, b := SwapIsTwoWrites(matches, i, slotA, j, slotB);
    hide SwapSlots, SlotPlayer, SlotAssigned, SeatBag, Bye;
    TwoSeatsChange(matches, i, j, mi, mj, a, b);
  }

  /** A swap across two matches: each of them gets the other's player. */
  lemma SwapIsTwoWrites(matches: seq<TableMatch>, i: nat, slotA: int, j: nat, slotB: int)
    returns (mi: TableMatch, mj: TableMatch, a: Id, b: Id)
    requires i < |matches| && j < |matches| && i != j && SwapSlots(matches, i, slotA, j, slotB).Some?
    ensures SwapSlots(matches, i, slotA, j, slotB).value == matches[i := mi][j := mj]
    ensures SeatBag(mi) + multiset{a} == SeatBag(matches[i]) + multiset{b} && Bye(mi) == Bye(matches[i])
    ensures SeatBag(mj) + multiset{b} == SeatBag(matches[j]) + multiset{a} && Bye(mj) == Bye(matches[j])
  {
    a, b := SlotPlayer(matches[i], slotA).value, SlotPlayer(matches[j], slotB).value;
    mi, mj := SlotAssigned(matches[i], slotA, b).value, SlotAssigned(matches[j], slotB, a).value;
    AssignedSeat(matches[i], slotA, b);
    AssignedSeat(matches[j], slotB, a);
    hide SeatBag, Bye, SlotAssigned, SlotPlayer;
  }

  lemma TwoSeatsChange(matches: seq<TableMatch>, i: nat, j: nat, mi: TableMatch, mj: TableMatch, a: Id, b: Id)
    requires i < |matches| && j < |matches| && i != j
    requires SeatBag(mi) + multiset{a} == SeatBag(matches[i]) + multiset{b} && Bye(mi) == Bye(matches[i])
    requires SeatBag(mj) + multiset{b} == SeatBag(matches[j]) + multiset{a} && Bye(mj) == Bye(matches[j])
    ensures Seats(matches[i := mi][j := mj]) == Seats(matches)
    ensures CountByes(matches[i := mi][j := mj]) == CountByes(matches)
  {
    hide Seats, SeatBag, CountByes, Bye;
    var middle := matches[i := mi];
    assert middle[j] == matches[j];
    SeatsAfterUpdate(matches, i, mi);
    SeatsAfterUpdate(middle, j, mj);
    BagsCancel(Seats(matches), Seats(middle), Seats(middle[j := mj]), SeatBag(matches[i]), SeatBag(mi),
               SeatBag(matches[j]), SeatBag(mj), a, b);
  }

  lemma BothPlaced(m: TableMatch, slotA: int, slotB: int)
    requires slotA != slotB && SlotPlayer(m, slotA).Some? && SlotPlayer(m, slotB).Some?
    requires PlaceBothSlots(m, slotA, SlotPlayer(m, slotB).value, slotB, SlotPlayer(m, slotA).value).Some?
    ensures var m' := PlaceBothSlots(m, slotA, SlotPlayer(m, slotB).value, slotB, SlotPlayer(m, slotA).value).value;
            SeatBag(m') == SeatBag(m) && Bye(m') == Bye(m)
  {
  }

  lemma AssignedSeat(m: TableMatch, slot: int, player: Id)
    requires SlotPlayer(m, slot).Some? && SlotAssigned(m, slot, player).Some?
    ensures var m' := SlotAssigned(m, slot, player).value;
            && SeatBag(m') + multiset{SlotPlayer(m, slot).value} == SeatBag(m) + multiset{player}
            && Bye(m') == Bye(m)
  {
  }

  lemma BagsCancel(s0: multiset<Id>, s1: multiset<Id>, s2: multiset<Id>, mi: multiset<Id>, mi': multiset<Id>,
                   mj: multiset<Id>, mj': multiset<Id>, a: Id, b: Id)
    requires s1 + mi == s0 + mi' && s2 + mj == s1 + mj'
    requires mi' + multiset{a} == mi + multiset{b} && mj' + multiset{b} == mj + multiset{a}
    ensures s2 == s0
  {
    forall x ensures s2[x] == s0[x] {
      assert (s1 + mi)[x] == (s0 + mi')[x] && (s2 + mj)[x] == (s1 + mj')[x];
      assert (mi' + multiset{a})[x] == (mi + multiset{b})[x] && (mj' + multiset{b})[x] == (mj + multiset{a})[x];
    }
  }

  lemma AssignedBack(m: TableMatch, slot: int, player: Id)
    requires m.player2 != Some(m.player1) && SlotPlayer(m, slot).Some? && SlotAssigned(m, slot, player).Some?
    ensures var m' := SlotAssigned(m, slot, player).value;
            && SlotPlayer(m', slot) == Some(player)
            && SlotAssigned(m', slot, SlotPlayer(m, slot).value) == Some(m)
  {
  }

  /** Repeating a swap undoes it. */
  lemma SwapTwice(matches: seq<TableMatch>, i: nat, slotA: int, j: nat, slotB: int)
    requires i < |matches| && j < |matches| && EachOnce(matches) && SwapSlots(matches, i, slotA, j, slotB).Some?
    ensures SwapSlots(SwapSlots(matches, i, slotA, j, slotB).value, i, slotA, j, slotB) == Some(matches)
  {
    OwnSeats(matches, i);
    OwnSeats(matches, j);
    var a, b := SlotPlayer(matches[i], slotA).value, SlotPlayer(matches[j], slotB).value;
    if i == j {
      var m := PlaceBothSlots(matches[i], slotA, b, slotB, a).value;
      assert PlaceBothSlots(m, slotA, a, slotB, b) == Some(matches[i]);
      assert matches[i := m][i := matches[i]] == matches;
    } else {
      AssignedBack(matches[i], slotA, b);
      AssignedBack(matches[j], slotB, a);
      hide SlotAssigned, SlotPlayer;
      var mi, mj := SlotAssigned(matches[i], slotA, b).value, SlotAssigned(matches[j], slotB, a).value;
      assert matches[i := mi][j := mj][i := matches[i]][j := matches[j]] == matches;
    }
  }

  // ---------------------------------------------------------------------
  // The invariant
  // ---------------------------------------------------------------------

  /** Drafts carry no results, byes of other rounds are 2-0, completed rounds are fully reported. */
  ghost predicate RowOk(status: RoundStatus, m: TableMatch) {
    && (m.result.Some? ==> status != Draft && Valid(m.result.value))
    && (m.ruled ==> m.result.Some? && m.player2.Some?)
    && (m.player2.None? && status != Draft ==> m.result == Some(BYE_SCORE))
    && (status == Completed ==> m.result.Some?)
  }

  ghost predicate RowsOk(status: RoundStatus, matches: seq<TableMatch>) {
    forall i :: 0 <= i < |matches| ==> RowOk(status, matches[i])
  }

  ghost predicate OnRoster(players: seq<Entrant>, id: Id) {
    exists i :: 0 <= i < |players| && players[i].id == id
  }

  /** Nobody sits twice, only the roster sits, at most one bye. */
  ghost predicate SeatsOk(players: seq<Entrant>, matches: seq<TableMatch>) {
    && EachOnce(matches)
    && (forall x :: x in Seats(matches) ==> OnRoster(players, x))
    && CountByes(matches) <= 1
  }

  ghost predicate RoundOk(players: seq<Entrant>, r: Round) {
    SeatsOk(players, r.matches) && RowsOk(r.status, r.matches)
  }

  /** Round `k`'s place: numbered k + 1, and finished unless it is the last. */
  ghost predicate Placed(t: Tournament, k: nat)
    requires k < |t.rounds|
  {
    t.rounds[k].number == k + 1 && (k < |t.rounds| - 1 ==> t.rounds[k].status == Completed)
  }

  /** Later rounds come from later draws. */
  ghost predicate DrawsIncrease(t: Tournament) {
    && (forall i, j :: 0 <= i < j < |t.rounds| ==> t.rounds[i].draw < t.rounds[j].draw)
    && (forall i :: 0 <= i < |t.rounds| ==> t.rounds[i].draw < t.draws)
  }

  ghost predicate TournamentOk(t: Tournament) {
    && DistinctIds(SwissPlayers(t.players))
    && 1 <= t.plannedRounds && |t.rounds| <= t.plannedRounds
    && DrawsIncrease(t)
    && (forall k :: 0 <= k < |t.rounds| ==> Placed(t, k))
    && (forall k :: 0 <= k < |t.rounds| ==> RoundOk(t.players, t.rounds[k]))
  }

  ghost predicate StateOk(s: State) {
    s.tournament.Some? ==>
      && TournamentOk(s.tournament.value)
      && (s.event == R.Started || s.event == R.Finished || s.event == R.CalledOff)
      && (s.event == R.Finished ==> OpenRounds(s.tournament.value.rounds) == 0)
  }

  // ---------------------------------------------------------------------
  // What a step may change
  // ---------------------------------------------------------------------

  /** A row of a round that is out of draft: seats stay, a result once there stays there, a ruling stays a ruling. */
  ghost predicate RowExtends(m: TableMatch, m': TableMatch) {
    && m'.table == m.table && m'.player1 == m.player1 && m'.player2 == m.player2
    && (m.result.Some? ==> m'.result.Some?)
    && (m.ruled ==> m'.ruled)
  }

  function Rank(status: RoundStatus): nat {
    match status
    case Draft => 0
    case Published => 1
    case Completed => 2
  }

  ghost predicate RowsExtend(ms: seq<TableMatch>, ms': seq<TableMatch>) {
    |ms'| == |ms| && forall i :: 0 <= i < |ms| ==> RowExtends(ms[i], ms'[i])
  }

  ghost predicate RoundExtends(r: Round, r': Round) {
    && r'.number == r.number && r'.createdAt == r.createdAt
    && Rank(r.status) <= Rank(r'.status)
    && (r.status != Draft ==> r'.draw == r.draw && RowsExtend(r.matches, r'.matches))
  }

  ghost predicate SameRoster(ps: seq<Entrant>, ps': seq<Entrant>) {
    && |ps'| == |ps|
    && forall i :: 0 <= i < |ps| ==> ps'[i] == ps[i].(droppedAt := ps'[i].droppedAt)
  }

  /** Rounds before the last never change again; the last one only moves forward; no round disappears. */
  ghost predicate RoundsExtend(rs: seq<Round>, rs': seq<Round>) {
    && |rs| <= |rs'|
    && (forall k :: 0 <= k < |rs| ==> RoundExtends(rs[k], rs'[k]))
    && (forall k :: 0 <= k < |rs| - 1 ==> rs'[k] == rs[k])
  }

  ghost predicate Extends(t: Tournament, t': Tournament) {
    SameRoster(t.players, t'.players) && RoundsExtend(t.rounds, t'.rounds) && t.draws <= t'.draws
  }

  ghost predicate Over(event: R.EventStatus) {
    event == R.Finished || event == R.CalledOff
  }

  ghost predicate Evolves(s: State, s': State) {
    && (s.tournament.Some? ==> s'.tournament.Some? && Extends(s.tournament.value, s'.tournament.value))
    && (s.event == R.Finished ==> s'.event == R.Finished)
    && (Over(s.event) ==>
          && Over(s'.event)
          && s'.tournament.Some? == s.tournament.Some?
          && (s.tournament.Some? ==> s'.tournament.value.rounds == s.tournament.value.rounds))
  }

  lemma RoundExtendsTransitive(a: Round, b: Round, c: Round)
    requires RoundExtends(a, b) && RoundExtends(b, c)
    ensures RoundExtends(a, c)
  {
    if a.status != Draft {
      forall i | 0 <= i < |a.matches| ensures RowExtends(a.matches[i], c.matches[i]) {
        assert RowExtends(a.matches[i], b.matches[i]) && RowExtends(b.matches[i], c.matches[i]);
      }
    }
  }

  lemma ExtendsTransitive(a: Tournament, b: Tournament, c: Tournament)
    requires Extends(a, b) && Extends(b, c)
    ensures Extends(a, c)
  {
    hide RoundExtends;
    forall k | 0 <= k < |a.rounds| ensures RoundExtends(a.rounds[k], c.rounds[k]) {
      assert RoundExtends(a.rounds[k], b.rounds[k]) && RoundExtends(b.rounds[k], c.rounds[k]);
      RoundExtendsTransitive(a.rounds[k], b.rounds[k], c.rounds[k]);
    }
    forall i | 0 <= i < |a.players| ensures c.players[i] == a.players[i].(droppedAt := c.players[i].droppedAt) {
      assert b.players[i] == a.players[i].(droppedAt := b.players[i].droppedAt);
    }
  }

  lemma EvolvesTransitive(a: State, b: State, c: State)
    requires Evolves(a, b) && Evolves(b, c)
    ensures Evolves(a, c)
  {
    hide Extends;
    if a.tournament.Some? {
      ExtendsTransitive(a.tournament.value, b.tournament.value, c.tournament.value);
    }
  }

  lemma RowsExtendSelf(ms: seq<TableMatch>)
    ensures RowsExtend(ms, ms)
  {
  }

  lemma ExtendsSelf(t: Tournament)
    ensures Extends(t, t)
  {
  }

  // ---------------------------------------------------------------------
  // Each mutation
  // ---------------------------------------------------------------------

  lemma LastRoundOnly(t: Tournament, k: nat)
    requires TournamentOk(t) && k < |t.rounds| && t.rounds[k].status != Completed
    ensures k == |t.rounds| - 1
  {
    assert Placed(t, k);
  }

  /** The last round may be rewritten forward. */
  lemma SetRoundKeeps(t: Tournament, k: nat, r: Round, draws: nat)
    requires TournamentOk(t) && k == |t.rounds| - 1
    requires RoundExtends(t.rounds[k], r) && RoundOk(t.players, r)
    requires t.draws <= draws && r.draw < draws && r.draw >= t.rounds[k].draw
    ensures var t' := t.(rounds := t.rounds[k := r], draws := draws);
            TournamentOk(t') && Extends(t, t')
  {
    hide RoundOk;
    var t' := t.(rounds := t.rounds[k := r], draws := draws);
    forall i | 0 <= i < |t'.rounds| ensures Placed(t', i) && RoundOk(t'.players, t'.rounds[i]) {
      assert Placed(t, i) && RoundOk(t.players, t.rounds[i]);
    }
    forall i | 0 <= i < |t.rounds| ensures RoundExtends(t.rounds[i], t'.rounds[i]) {
      RowsExtendSelf(t.rounds[i].matches);
    }
  }

  ghost predicate FreshRoster(roster: seq<Entrant>) {
    DistinctIds(SwissPlayers(roster))
  }

  lemma CreateIsOk(s: State, roster: seq<Entrant>, planned: Option<int>)
    requires Lock(s) == Err(TournamentNotFound) && FreshRoster(roster) && CreateTournament(roster, planned).Ok?
    ensures var t := CreateTournament(roster, planned).value;
            TournamentOk(t) && StateOk(With(s, t)) && Evolves(s, With(s, t)) && t.rounds == []
  {
  }

  lemma UpsertKeeps(s: State, roster: seq<Entrant>, planned: Option<int>)
    requires StateOk(s) && FreshRoster(roster) && Upsert(s, roster, planned).Ok?
    ensures StateOk(Upsert(s, roster, planned).value) && Evolves(s, Upsert(s, roster, planned).value)
  {
    if Lock(s) == Err(TournamentNotFound) {
      CreateIsOk(s, roster, planned);
    } else {
      var t := s.tournament.value;
      ExtendsSelf(t);
      if planned.Some? {
        var t' := t.(plannedRounds := planned.value);
        assert forall k :: 0 <= k < |t.rounds| ==> Placed(t, k) && t'.rounds[k] == t.rounds[k];
        hide RoundOk, Extends;
        assert TournamentOk(t');
        assert Extends(t, t') by {
          ExtendsSelf(t);
          PlannedIsNoPartOfIt(t, t');
        }
      }
    }
  }

  lemma PlannedIsNoPartOfIt(t: Tournament, t': Tournament)
    requires Extends(t, t) && t' == t.(plannedRounds := t'.plannedRounds)
    ensures Extends(t, t')
  {
  }

  /** A fresh set of pairings seats exactly the pairings' players. */
  lemma {:induction false} InsertedSeats(pairings: seq<Pairing>)
    ensures Seats(InsertPairings(pairings)) == SwissPair.RoundSeats(pairings)
    ensures CountByes(InsertPairings(pairings)) == |pairings| - |SwissPair.Couples(pairings)|
  {
    if pairings != [] {
      var front := pairings[..|pairings| - 1];
      InsertedSeats(front);
      assert InsertPairings(pairings)[..|pairings| - 1] == InsertPairings(front);
    }
  }

  /** Seats of a new draft: everyone still in, once each. */
  lemma NewPairingsOk(players: seq<Entrant>, history: seq<Match>, pairings: seq<Pairing>)
    requires DistinctIds(SwissPlayers(players)) && SwissPair.ValidRound(SwissPlayers(players), history, pairings)
    ensures var ms := InsertPairings(pairings);
            && SeatsOk(players, ms) && RowsOk(Draft, ms)
            && Seats(ms) == multiset(ActiveIds(SwissPlayers(players)))
            && CountByes(ms) == |ActiveIds(SwissPlayers(players))| % 2
  {
    var active := ActiveIds(SwissPlayers(players));
    hide SwissPair.RoundSeats, SwissPair.Couples, SwissPair.ByeChoice, SwissPair.FewestRematches, ActiveIds, Seats,
         CountByes, OnRoster;
    InsertedSeats(pairings);
    SwissPair.CouplesAt(pairings, |active| / 2, 0);
    hide SwissPair.ValidRound, SwissPair.NumberedTables;
    ActiveIdsDistinct(SwissPlayers(players));
    ActiveOnRoster(players);
    assert forall x :: multiset(active)[x] <= 1;
  }

  lemma ActiveOnRoster(players: seq<Entrant>)
    ensures forall x :: x in multiset(ActiveIds(SwissPlayers(players))) ==> OnRoster(players, x)
  {
    ActiveIdsAreRosterIds(SwissPlayers(players));
    hide ActiveIds;
    forall x | x in multiset(ActiveIds(SwissPlayers(players))) ensures OnRoster(players, x) {
      assert x in ActiveIds(SwissPlayers(players));
      var p :| p in SwissPlayers(players) && !p.dropped && p.id == x;
      var i :| 0 <= i < |players| && SwissPlayers(players)[i] == p;
      assert players[i].id == x;
    }
  }

  lemma {:induction false} NoneOpen(rounds: seq<Round>)
    ensures OpenRounds(rounds) == 0 <==> forall k :: 0 <= k < |rounds| ==> rounds[k].status == Completed
  {
    if rounds != [] {
      NoneOpen(rounds[..|rounds| - 1]);
    }
  }

  /** A round appended after completed ones. */
  lemma AppendKeeps(t: Tournament, r: Round)
    requires TournamentOk(t) && |t.rounds| < t.plannedRounds
    requires forall k :: 0 <= k < |t.rounds| ==> t.rounds[k].status == Completed
    requires r.number == |t.rounds| + 1 && r.draw == t.draws && RoundOk(t.players, r)
    ensures var t' := t.(rounds := t.rounds + [r], draws := t.draws + 1);
            TournamentOk(t') && Extends(t, t')
  {
    var t' := t.(rounds := t.rounds + [r], draws := t.draws + 1);
    hide RoundOk;
    forall k | 0 <= k < |t'.rounds| ensures Placed(t', k) && RoundOk(t'.players, t'.rounds[k]) {
      if k < |t.rounds| {
        assert Placed(t, k) && RoundOk(t.players, t.rounds[k]);
      }
    }
    forall k | 0 <= k < |t.rounds| ensures RoundExtends(t.rounds[k], t'.rounds[k]) {
      RowsExtendSelf(t.rounds[k].matches);
    }
  }

  lemma AddRoundKeeps(t: Tournament, now: int, pairings: seq<Pairing>)
    requires TournamentOk(t) && OpenRounds(t.rounds) == 0 && |t.rounds| < t.plannedRounds
    requires SwissPair.ValidRound(SwissPlayers(t.players), History(t.rounds), pairings)
    ensures TournamentOk(AddRound(t, now, pairings)) && Extends(t, AddRound(t, now, pairings))
  {
    NoneOpen(t.rounds);
    NewPairingsOk(t.players, History(t.rounds), pairings);
    hide SeatsOk, RowsOk, SwissPair.ValidRound, InsertPairings, OpenRounds, Extends, History;
    AppendKeeps(t, Round(|t.rounds| + 1, Draft, now, t.draws, InsertPairings(pairings)));
  }

  lemma PairKeeps(s: State, roster: seq<Entrant>, now: int, pairings: seq<Pairing>)
    requires StateOk(s) && FreshRoster(roster) && PairNextRound(s, roster, now, pairings).Ok?
    requires var t := LockOrCreate(s, roster).value;
             SwissPair.ValidRound(SwissPlayers(t.players), History(t.rounds), pairings)
    ensures var s' := PairNextRound(s, roster, now, pairings).value;
            StateOk(s') && Evolves(s, s')
  {
    hide SwissPair.ValidRound, TournamentOk, Extends, FreshRoster, History, SwissPlayers, AddRound;
    if Lock(s) == Err(TournamentNotFound) {
      CreateIsOk(s, roster, None);
    }
    AddRoundKeeps(LockOrCreate(s, roster).value, now, pairings);
  }

  /** Writing a checked rewrite of the last round back. */
  lemma SetRoundKeepsState(s: State, k: nat, r: Round, draws: nat)
    requires StateOk(s) && s.event == R.Started && s.tournament.Some?
    requires k < |s.tournament.value.rounds|
    requires s.tournament.value.rounds[k].status != Completed || k == |s.tournament.value.rounds| - 1
    requires RoundExtends(s.tournament.value.rounds[k], r) && RoundOk(s.tournament.value.players, r)
    requires s.tournament.value.draws <= draws && r.draw < draws && r.draw >= s.tournament.value.rounds[k].draw
    ensures var t := s.tournament.value;
            var s' := SetRound(s, t.(draws := draws), k, r);
            StateOk(s') && Evolves(s, s')
  {
    var t := s.tournament.value;
    if t.rounds[k].status != Completed {
      LastRoundOnly(t, k);
    }
    hide RoundExtends, RoundOk, TournamentOk, Extends;
    SetRoundKeeps(t, k, r, draws);
  }

  function Redrawn(t: Tournament, k: nat, pairings: seq<Pairing>): Round
    requires k < |t.rounds|
  {
    t.rounds[k].(draw := t.draws, matches := InsertPairings(pairings))
  }

  lemma RedrawnIsOk(t: Tournament, k: nat, pairings: seq<Pairing>)
    requires TournamentOk(t) && k < |t.rounds| && t.rounds[k].status == Draft
    requires SwissPair.ValidRound(SwissPlayers(t.players), History(t.rounds), pairings)
    ensures RoundOk(t.players, Redrawn(t, k, pairings)) && RoundExtends(t.rounds[k], Redrawn(t, k, pairings))
  {
    NewPairingsOk(t.players, History(t.rounds), pairings);
    hide SwissPair.ValidRound, SeatsOk, RowsOk, History, InsertPairings;
  }

  lemma RerollIsLocal(s: State, number: int, pairings: seq<Pairing>) returns (k: nat)
    requires Reroll(s, number, pairings).Ok?
    ensures s.event == R.Started && s.tournament.Some?
    ensures var t := s.tournament.value;
            && k < |t.rounds| && t.rounds[k].status == Draft
            && Reroll(s, number, pairings).value == SetRound(s, t.(draws := t.draws + 1), k, Redrawn(t, k, pairings))
  {
    hide InsertPairings;
    k := DraftRound(s.tournament.value.rounds, number).value;
  }

  lemma RerollKeeps(s: State, number: int, pairings: seq<Pairing>)
    requires StateOk(s) && Reroll(s, number, pairings).Ok?
    requires SwissPair.ValidRound(SwissPlayers(s.tournament.value.players), History(s.tournament.value.rounds),
                                  pairings)
    ensures var s' := Reroll(s, number, pairings).value;
            StateOk(s') && Evolves(s, s')
  {
    hide SwissPair.ValidRound, SeatsOk, RowsOk, History, SwissPlayers, Evolves, RoundOk, RoundExtends;
    var k := RerollIsLocal(s, number, pairings);
    hide Reroll;
    var t := s.tournament.value;
    RedrawnIsOk(t, k, pairings);
    assert t.rounds[k].draw < t.draws;
    hide StateOk, TournamentOk;
    SetRoundKeepsState(s, k, Redrawn(t, k, pairings), t.draws + 1);
  }

  lemma RoundAt(t: Tournament, k: nat)
    requires TournamentOk(t) && k < |t.rounds|
    ensures RoundOk(t.players, t.rounds[k]) && t.rounds[k].number == k + 1 && t.rounds[k].draw < t.draws
  {
    assert Placed(t, k);
  }

  /** Writing back a rewrite of the round in flight that stays with its draw. */
  lemma RewriteKeeps(s: State, k: nat, r: Round)
    requires StateOk(s) && s.event == R.Started && s.tournament.Some? && k < |s.tournament.value.rounds|
    requires s.tournament.value.rounds[k].status != Completed || k == |s.tournament.value.rounds| - 1
    requires r.draw == s.tournament.value.rounds[k].draw
    requires RoundExtends(s.tournament.value.rounds[k], r) && RoundOk(s.tournament.value.players, r)
    ensures var s' := SetRound(s, s.tournament.value, k, r);
            StateOk(s') && Evolves(s, s')
  {
    RoundAt(s.tournament.value, k);
    hide StateOk, Evolves, RoundExtends, RoundOk, TournamentOk;
    SetRoundKeepsState(s, k, r, s.tournament.value.draws);
  }

  /** A successful swap is one exchange of slots in the draft round. */
  lemma SwapIsLocal(s: State, number: int, a: SlotRef, b: SlotRef) returns (d: nat, i: nat, j: nat)
    requires Swap(s, number, a, b).Ok?
    ensures s.event == R.Started && s.tournament.Some? && d < |s.tournament.value.rounds|
    ensures i < |s.tournament.value.rounds[d].matches| && j < |s.tournament.value.rounds[d].matches|
    ensures var r := s.tournament.value.rounds[d];
            var swapped := SwapSlots(r.matches, i, a.slot, j, b.slot);
            && r.status == Draft && swapped.Some?
            && Swap(s, number, a, b).value == SetRound(s, s.tournament.value, d, r.(matches := swapped.value))
  {
    hide SwapSlots;
    var rounds := s.tournament.value.rounds;
    d := DraftRound(rounds, number).value;
    i, j := GetMatch(rounds, a.match').value.1, GetMatch(rounds, b.match').value.1;
  }

  lemma SwappedIsOk(players: seq<Entrant>, r: Round, i: nat, slotA: int, j: nat, slotB: int)
    requires RoundOk(players, r) && r.status == Draft && i < |r.matches| && j < |r.matches|
    requires SwapSlots(r.matches, i, slotA, j, slotB).Some?
    ensures var r' := r.(matches := SwapSlots(r.matches, i, slotA, j, slotB).value);
            RoundOk(players, r') && RoundExtends(r, r')
  {
    SwapKeepsSeats(r.matches, i, slotA, j, slotB);
    SwapKeepsRows(r.matches, i, slotA, j, slotB);
    hide Seats, CountByes, SwapSlots, RowsOk;
  }

  lemma SwapKeeps(s: State, number: int, a: SlotRef, b: SlotRef)
    requires StateOk(s) && Swap(s, number, a, b).Ok?
    ensures StateOk(Swap(s, number, a, b).value) && Evolves(s, Swap(s, number, a, b).value)
  {
    hide Evolves, SwapSlots, RoundOk, RoundExtends;
    var k, i, j := SwapIsLocal(s, number, a, b);
    hide Swap;
    var t := s.tournament.value;
    RoundAt(t, k);
    hide StateOk, TournamentOk;
    SwappedIsOk(t.players, t.rounds[k], i, a.slot, j, b.slot);
    RewriteKeeps(s, k, t.rounds[k].(matches := SwapSlots(t.rounds[k].matches, i, a.slot, j, b.slot).value));
  }

  lemma SwapKeepsRows(matches: seq<TableMatch>, i: nat, slotA: int, j: nat, slotB: int)
    requires i < |matches| && j < |matches| && SwapSlots(matches, i, slotA, j, slotB).Some? && RowsOk(Draft, matches)
    ensures RowsOk(Draft, SwapSlots(matches, i, slotA, j, slotB).value)
  {
    SwapTransposes(matches, i, slotA, j, slotB);
    var after := SwapSlots(matches, i, slotA, j, slotB).value;
    hide SwapSlots;
    forall k | 0 <= k < |after| ensures RowOk(Draft, after[k]) {
      assert RowOk(Draft, matches[k]);
      assert after[k] == matches[k].(player1 := after[k].player1, player2 := after[k].player2);
      assert SlotPlayer(after[k], 2) == after[k].player2;
    }
  }

  lemma FilledByes(players: seq<Entrant>, matches: seq<TableMatch>)
    requires SeatsOk(players, matches) && RowsOk(Draft, matches)
    ensures SeatsOk(players, FillByes(matches)) && RowsOk(Published, FillByes(matches))
  {
    SameSeats(matches, FillByes(matches));
    FilledRows(matches);
    hide Seats, CountByes, OnRoster, FillByes, RowsOk;
  }

  lemma FilledRows(matches: seq<TableMatch>)
    requires RowsOk(Draft, matches)
    ensures RowsOk(Published, FillByes(matches))
    ensures RowsExtend(matches, FillByes(matches))
  {
    assert forall i :: 0 <= i < |matches| ==> RowOk(Draft, matches[i]);
  }

  lemma PublishIsLocal(s: State, number: int) returns (k: nat)
    requires Publish(s, number).Ok?
    ensures s.event == R.Started && s.tournament.Some? && k < |s.tournament.value.rounds|
    ensures var r := s.tournament.value.rounds[k];
            && r.status == Draft
            && Publish(s, number).value
               == SetRound(s, s.tournament.value, k, r.(status := Published, matches := FillByes(r.matches)))
  {
    hide FillByes;
    k := DraftRound(s.tournament.value.rounds, number).value;
  }

  lemma PublishKeeps(s: State, number: int)
    requires StateOk(s) && Publish(s, number).Ok?
    ensures StateOk(Publish(s, number).value) && Evolves(s, Publish(s, number).value)
  {
    hide Evolves, FillByes, RowsOk, SeatsOk;
    var k := PublishIsLocal(s, number);
    hide Publish;
    var t := s.tournament.value;
    RoundAt(t, k);
    hide StateOk, TournamentOk;
    FilledByes(t.players, t.rounds[k].matches);
    RewriteKeeps(s, k, t.rounds[k].(status := Published, matches := FillByes(t.rounds[k].matches)));
  }

  lemma CompleteIsLocal(s: State, number: int) returns (k: nat)
    requires Complete(s, number).Ok?
    ensures s.event == R.Started && s.tournament.Some? && k < |s.tournament.value.rounds|
    ensures var r := s.tournament.value.rounds[k];
            && r.status == Published && AllReported(r.matches)
            && Complete(s, number).value == SetRound(s, s.tournament.value, k, r.(status := Completed))
  {
    hide AllReported;
    k := RoundByNumber(s.tournament.value.rounds, number).value;
  }

  lemma CompletedIsOk(players: seq<Entrant>, r: Round)
    requires RoundOk(players, r) && r.status == Published && AllReported(r.matches)
    ensures RoundOk(players, r.(status := Completed)) && RoundExtends(r, r.(status := Completed))
  {
    RowsExtendSelf(r.matches);
    assert forall i :: 0 <= i < |r.matches| ==> RowOk(Published, r.matches[i]);
    hide SeatsOk, RowsExtend;
  }

  lemma CompleteKeeps(s: State, number: int)
    requires StateOk(s) && Complete(s, number).Ok?
    ensures StateOk(Complete(s, number).value) && Evolves(s, Complete(s, number).value)
  {
    hide Evolves, AllReported, RoundOk, RoundExtends;
    var k := CompleteIsLocal(s, number);
    hide Complete;
    var t := s.tournament.value;
    RoundAt(t, k);
    hide StateOk, TournamentOk;
    CompletedIsOk(t.players, t.rounds[k]);
    RewriteKeeps(s, k, t.rounds[k].(status := Completed));
  }

  lemma ReportedRow(players: seq<Entrant>, status: RoundStatus, matches: seq<TableMatch>, i: nat, admin: bool,
                    score: Score)
    requires SeatsOk(players, matches) && RowsOk(status, matches) && i < |matches|
    requires status != Draft && Valid(score) && matches[i].player2.Some?
    ensures var ms' := matches[i := Reported(matches[i], admin, score)];
            SeatsOk(players, ms') && RowsOk(status, ms') && RowsExtend(matches, ms')
  {
    var ms' := matches[i := Reported(matches[i], admin, score)];
    SameSeats(matches, ms');
    hide Seats, CountByes, OnRoster;
    assert SeatsOk(players, ms') by {
      hide Reported;
    }
    assert forall j :: 0 <= j < |matches| ==> RowOk(status, matches[j]);
    hide SeatsOk;
  }

  lemma ReportIsLocal(s: State, id: MatchId, caller: Id, admin: bool, score: Score) returns (k: nat, i: nat)
    requires ReportResult(s, id, caller, admin, score).Ok?
    ensures Valid(score) && s.event == R.Started && s.tournament.Some? && k < |s.tournament.value.rounds|
    ensures var rounds := s.tournament.value.rounds;
            var r := rounds[k];
            && i < |r.matches| && r.status != Draft && r.matches[i].player2.Some?
            && r.number == rounds[|rounds| - 1].number
            && ReportResult(s, id, caller, admin, score).value
               == SetRound(s, s.tournament.value, k,
                           r.(matches := r.matches[i := Reported(r.matches[i], admin, score)]))
  {
    hide PlaysIn, Valid, Reported;
    var (k', i') := GetMatch(s.tournament.value.rounds, id).value;
    k, i := k', i';
  }

  lemma ReportKeeps(s: State, id: MatchId, caller: Id, admin: bool, score: Score)
    requires StateOk(s) && ReportResult(s, id, caller, admin, score).Ok?
    ensures var s' := ReportResult(s, id, caller, admin, score).value;
            StateOk(s') && Evolves(s, s')
  {
    hide Evolves, Reported, RowsOk, SeatsOk, RowsExtend, Valid;
    var k, i := ReportIsLocal(s, id, caller, admin, score);
    hide ReportResult;
    var t := s.tournament.value;
    var r := t.rounds[k];
    RoundAt(t, k);
    RoundAt(t, |t.rounds| - 1);
    hide StateOk, TournamentOk;
    ReportedRow(t.players, r.status, r.matches, i, admin, score);
    RewriteKeeps(s, k, r.(matches := r.matches[i := Reported(r.matches[i], admin, score)]));
  }

  lemma RosterKeeps(s: State, players: seq<Entrant>)
    requires StateOk(s) && s.tournament.Some? && SameRoster(s.tournament.value.players, players)
    ensures var s' := With(s, s.tournament.value.(players := players));
            StateOk(s') && Evolves(s, s')
  {
    var t := s.tournament.value;
    var t' := t.(players := players);
    assert Ids(SwissPlayers(players)) == Ids(SwissPlayers(t.players));
    forall x | OnRoster(t.players, x) ensures OnRoster(players, x) {
      var i :| 0 <= i < |t.players| && t.players[i].id == x;
      assert players[i].id == x;
    }
    hide Ids, SwissPlayers, Placed, RowsOk, Seats, OnRoster, EachOnce;
    forall k | 0 <= k < |t.rounds| ensures RoundOk(players, t.rounds[k]) && Placed(t', k)
        && RoundExtends(t.rounds[k], t.rounds[k]) {
      assert RoundOk(t.players, t.rounds[k]) && Placed(t, k);
      RowsExtendSelf(t.rounds[k].matches);
      SamePlace(t, t', k);
    }
  }

  lemma SamePlace(t: Tournament, t': Tournament, k: nat)
    requires t'.rounds == t.rounds && k < |t.rounds| && Placed(t, k)
    ensures Placed(t', k)
  {
  }

  lemma DropKeeps(s: State, player: Id, caller: Id, admin: bool, now: int)
    requires StateOk(s) && Drop(s, player, caller, admin, now).Ok?
    ensures var s' := Drop(s, player, caller, admin, now).value;
            StateOk(s') && Evolves(s, s')
  {
    hide StateOk, Evolves;
    RosterKeeps(s, Drop(s, player, caller, admin, now).value.tournament.value.players);
  }

  lemma UndropKeeps(s: State, player: Id, caller: Id, admin: bool)
    requires StateOk(s) && Undrop(s, player, caller, admin).Ok?
    ensures var s' := Undrop(s, player, caller, admin).value;
            StateOk(s') && Evolves(s, s')
  {
    hide StateOk, Evolves;
    RosterKeeps(s, Undrop(s, player, caller, admin).value.tournament.value.players);
  }

  lemma DropByUserKeeps(s: State, user: Id, now: int)
    requires StateOk(s)
    ensures StateOk(DropByUser(s, user, now)) && Evolves(s, DropByUser(s, user, now))
  {
    if s.tournament.Some? {
      hide StateOk, Evolves;
      RosterKeeps(s, DropByUser(s, user, now).tournament.value.players);
    }
  }

  lemma TransitionKeeps(s: State, action: R.LifecycleAction)
    requires StateOk(s) && Transition(s, action).Ok?
    ensures StateOk(Transition(s, action).value) && Evolves(s, Transition(s, action).value)
  {
    hide TournamentOk, Extends;
    if s.tournament.Some? {
      ExtendsSelf(s.tournament.value);
    }
  }
}
