/**
 The tournament of one event: roster, rounds and match rows, and the mutations
 that change them. Each mutation is one transaction under the event and
 tournament locks; one that fails is rolled back.
 */
module TournamentRounds {
  import opened Wrappers
  import opened SwissTypes
  import R = RegistrationRows

  datatype RoundStatus = Draft | Published | Completed

  /** A user snapshotted into the roster. */
  datatype Entrant = Entrant(id: Id, user: Id, displayName: string, droppedAt: Option<int>)

  /** A row of `matches`. Its result columns are all null or all set; `ruled` says an organizer has reported it. */
  datatype TableMatch = TableMatch(table: nat, player1: Id, player2: Option<Id>, result: Option<Score>, ruled: bool)

  /** A match's UUID: which draw of pairings it came from, and its place there. Ids are never used twice. */
  datatype MatchId = MatchId(draw: nat, index: nat)

  datatype Round = Round(number: nat, status: RoundStatus, createdAt: int, draw: nat, matches: seq<TableMatch>)

  /** `draws` counts the sets of pairings inserted so far. */
  datatype Tournament = Tournament(plannedRounds: int, players: seq<Entrant>, rounds: seq<Round>, draws: nat)

  datatype State = State(event: R.EventStatus, tournament: Option<Tournament>)

  datatype SlotRef = SlotRef(match': MatchId, slot: int)

  datatype Error =
    | EventNotFound | EventNotStarted | TournamentNotFound | NoPlayers | PlannedRoundsTooLow | AllRoundsPaired
    | TooFewPlayers | RoundNotFound | RoundExists | RoundNotDraft | RoundNotPublished | RoundIncomplete
    | MatchNotFound | NotInMatch | ResultLocked | ResultInvalid | ByeImmutable | PlayerNotFound | NotYourPlayer
    | AlreadyDropped | NotDropped | UndropTooLate | SwapInvalid | InvalidTransition | RoundOpen | ConstraintViolated

  // ---------------------------------------------------------------------
  // Queries
  // ---------------------------------------------------------------------

  function SwissPlayers(players: seq<Entrant>): seq<Player> {
    seq(|players|, i requires 0 <= i < |players| =>
      Player(players[i].id, players[i].displayName, players[i].droppedAt.Some?))
  }

  function SwissMatches(matches: seq<TableMatch>): seq<Match> {
    seq(|matches|, i requires 0 <= i < |matches| =>
      Match(matches[i].player1, matches[i].player2, matches[i].result))
  }

  /** What the engine is told has been played: every round but drafts. */
  function History(rounds: seq<Round>): seq<Match> {
    if rounds == [] then []
    else
      var last := rounds[|rounds| - 1];
      History(rounds[..|rounds| - 1]) + if last.status == Draft then [] else SwissMatches(last.matches)
  }

  function OpenRounds(rounds: seq<Round>): nat {
    if rounds == [] then 0
    else OpenRounds(rounds[..|rounds| - 1]) + if rounds[|rounds| - 1].status == Completed then 0 else 1
  }

  /** The first round for which `p` holds. */
  function FindRound(rounds: seq<Round>, p: Round -> bool): (r: Option<nat>)
    ensures r.Some? ==> r.value < |rounds| && p(rounds[r.value]) && forall i :: 0 <= i < r.value ==> !p(rounds[i])
    ensures r.None? ==> forall i :: 0 <= i < |rounds| ==> !p(rounds[i])
  {
    if rounds == [] then None
    else if p(rounds[0]) then Some(0)
    else
      var rest := FindRound(rounds[1..], p);
      if rest.Some? then Some(rest.value + 1)
      else
        assert forall i :: 0 < i < |rounds| ==> rounds[i] == rounds[1..][i - 1];
        None
  }

  function RoundByNumber(rounds: seq<Round>, number: int): Option<nat> {
    FindRound(rounds, (r: Round) => r.number == number)
  }

  /** Where a match is: its round and its place in it. */
  function GetMatch(rounds: seq<Round>, id: MatchId): (r: Option<(nat, nat)>)
    ensures r.Some? ==> r.value.0 < |rounds| && r.value.1 < |rounds[r.value.0].matches|
    ensures r.Some? ==> id == MatchId(rounds[r.value.0].draw, r.value.1)
  {
    var k := FindRound(rounds, (r: Round) => r.draw == id.draw);
    if k.Some? && id.index < |rounds[k.value].matches| then Some((k.value, id.index)) else None
  }

  function FindEntrant(players: seq<Entrant>, id: Id): (r: Option<nat>)
    ensures r.Some? ==> r.value < |players| && players[r.value].id == id
    ensures r.None? ==> forall i :: 0 <= i < |players| ==> players[i].id != id
  {
    if players == [] then None
    else if players[0].id == id then Some(0)
    else
      var rest := FindEntrant(players[1..], id);
      if rest.Some? then Some(rest.value + 1)
      else
        assert forall i :: 0 < i < |players| ==> players[i] == players[1..][i - 1];
        None
  }

  // ---------------------------------------------------------------------
  // Guards
  // ---------------------------------------------------------------------

  /** The event must be started; drafts read as absent. */
  function Started(event: R.EventStatus): Option<Error> {
    if event == R.EventStatus.Draft then Some(EventNotFound)
    else if event != R.EventStatus.Started then Some(EventNotStarted)
    else None
  }

  function Lock(s: State): Result<Tournament, Error> {
    if Started(s.event).Some? then Err(Started(s.event).value)
    else if s.tournament.None? then Err(TournamentNotFound)
    else Ok(s.tournament.value)
  }

  function DraftRound(rounds: seq<Round>, number: int): (r: Result<nat, Error>)
    ensures r.Ok? ==> r.value < |rounds| && rounds[r.value].number == number && rounds[r.value].status == Draft
  {
    var k := RoundByNumber(rounds, number);
    if k.None? then Err(RoundNotFound)
    else if rounds[k.value].status != Draft then Err(RoundNotDraft)
    else Ok(k.value)
  }

  /** The bit length of `n`. */
  function BitLen(n: nat): nat {
    if n == 0 then 0 else 1 + BitLen(n / 2)
  }

  function DefaultRounds(playerCount: nat): nat {
    if playerCount <= 2 then 1 else BitLen(playerCount - 1)
  }

  /** Bounds of a best-of-three score. */
  predicate Valid(r: Score) {
    && 0 <= r.p1Games <= 2 && 0 <= r.p2Games <= 2 && 0 <= r.draws <= 3
    && r.p1Games + r.p2Games + r.draws <= 3
    && (r.p1Games != 2 || r.p2Games != 2)
  }

  // ---------------------------------------------------------------------
  // Match rows
  // ---------------------------------------------------------------------

  function InsertPairings(pairings: seq<Pairing>): seq<TableMatch> {
    seq(|pairings|, i requires 0 <= i < |pairings| =>
      TableMatch(pairings[i].tableNumber, pairings[i].player1, pairings[i].player2, None, false))
  }

  const BYE_SCORE := Score(2, 0, 0)

  function FillBye(m: TableMatch): TableMatch {
    if m.player2.None? then m.(result := Some(BYE_SCORE)) else m
  }

  function FillByes(matches: seq<TableMatch>): seq<TableMatch> {
    seq(|matches|, i requires 0 <= i < |matches| => FillBye(matches[i]))
  }

  predicate AllReported(matches: seq<TableMatch>) {
    forall i :: 0 <= i < |matches| ==> matches[i].result.Some?
  }

  /** Who sits in a slot. */
  function SlotPlayer(m: TableMatch, slot: int): Option<Id> {
    if slot == 1 then Some(m.player1) else if slot == 2 then m.player2 else None
  }

  /** The match with one slot given to `player`, unless that pairs someone with themselves. */
  function SlotAssigned(m: TableMatch, slot: int, player: Id): Option<TableMatch> {
    var p1 := if slot == 1 then player else m.player1;
    var p2 := if slot == 1 then m.player2 else Some(player);
    if p2 == Some(p1) then None else Some(m.(player1 := p1, player2 := p2))
  }

  /** Both slots of one match at once, `slotX` written first. The source starts from two empty slots. */
  function PlaceBothSlots(m: TableMatch, slotX: int, playerX: Id, slotY: int, playerY: Id): Option<TableMatch> {
    var p1 := if slotY == 1 then playerY else if slotX == 1 then playerX else 0;
    var p2 := if slotY != 1 then Some(playerY) else if slotX != 1 then Some(playerX) else None;
    if p2 == Some(p1) then None else Some(m.(player1 := p1, player2 := p2))
  }

  /** The draft's match rows with two slots exchanged. */
  function SwapSlots(matches: seq<TableMatch>, i: nat, slotA: int, j: nat, slotB: int): Option<seq<TableMatch>>
    requires i < |matches| && j < |matches|
  {
    var a := SlotPlayer(matches[i], slotA);
    var b := SlotPlayer(matches[j], slotB);
    if i == j && slotA == slotB then None
    else if a.None? || b.None? then None
    else if i == j then
      var m := PlaceBothSlots(matches[i], slotA, b.value, slotB, a.value);
      if m.None? then None else Some(matches[i := m.value])
    else
      var ma := SlotAssigned(matches[i], slotA, b.value);
      var mb := SlotAssigned(matches[j], slotB, a.value);
      if ma.None? || mb.None? then None else Some(matches[i := ma.value][j := mb.value])
  }

  // ---------------------------------------------------------------------
  // Mutations
  // ---------------------------------------------------------------------

  /** Snapshot the roster. */
  function CreateTournament(roster: seq<Entrant>, planned: Option<int>): Result<Tournament, Error> {
    if roster == [] then Err(NoPlayers)
    else
      var rounds := planned.GetOr(DefaultRounds(|roster|));
      if rounds < 1 then Err(ConstraintViolated) else Ok(Tournament(rounds, roster, [], 0))
  }

  function With(s: State, t: Tournament): State {
    s.(tournament := Some(t))
  }

  function Upsert(s: State, roster: seq<Entrant>, planned: Option<int>): Result<State, Error> {
    var l := Lock(s);
    if l == Err(TournamentNotFound) then
      var c := CreateTournament(roster, planned);
      if c.Err? then Err(c.error) else Ok(With(s, c.value))
    else if l.Err? then Err(l.error)
    else if planned.None? then Ok(s)
    else if planned.value < |l.value.rounds| then Err(PlannedRoundsTooLow)
    else if planned.value < 1 then Err(ConstraintViolated)
    else Ok(With(s, l.value.(plannedRounds := planned.value)))
  }

  /** The tournament PairNextRound works on: created with defaults when there is none. */
  function LockOrCreate(s: State, roster: seq<Entrant>): Result<Tournament, Error> {
    if Lock(s) == Err(TournamentNotFound) then CreateTournament(roster, None) else Lock(s)
  }

  /** Whether the next round may be paired. */
  function PairGuard(t: Tournament): Option<Error> {
    if OpenRounds(t.rounds) > 0 then Some(RoundExists)
    else if |t.rounds| >= t.plannedRounds then Some(AllRoundsPaired)
    else if |ActiveIds(SwissPlayers(t.players))| < 2 then Some(TooFewPlayers)
    else None
  }

  function AddRound(t: Tournament, now: int, pairings: seq<Pairing>): Tournament {
    t.(rounds := t.rounds + [Round(|t.rounds| + 1, Draft, now, t.draws, InsertPairings(pairings))],
       draws := t.draws + 1)
  }

  /** `pairings` is what the engine answers. */
  function PairNextRound(s: State, roster: seq<Entrant>, now: int, pairings: seq<Pairing>): Result<State, Error> {
    var l := LockOrCreate(s, roster);
    if l.Err? then Err(l.error)
    else if PairGuard(l.value).Some? then Err(PairGuard(l.value).value)
    else Ok(With(s, AddRound(l.value, now, pairings)))
  }

  /** Rewrite one round of a locked tournament. */
  function SetRound(s: State, t: Tournament, k: nat, r: Round): State
    requires k < |t.rounds|
  {
    With(s, t.(rounds := t.rounds[k := r]))
  }

  function Reroll(s: State, number: int, pairings: seq<Pairing>): Result<State, Error> {
    var l := Lock(s);
    if l.Err? then Err(l.error)
    else
      var t := l.value;
      var k := DraftRound(t.rounds, number);
      if k.Err? then Err(k.error)
      else
        var r := t.rounds[k.value].(draw := t.draws, matches := InsertPairings(pairings));
        Ok(SetRound(s, t.(draws := t.draws + 1), k.value, r))
  }

  function Swap(s: State, number: int, a: SlotRef, b: SlotRef): Result<State, Error> {
    var l := Lock(s);
    if l.Err? then Err(l.error)
    else
      var t := l.value;
      var k := DraftRound(t.rounds, number);
      if k.Err? then Err(k.error)
      else if a == b then Err(SwapInvalid)
      else
        var ma := GetMatch(t.rounds, a.match');
        var mb := GetMatch(t.rounds, b.match');
        if ma.None? || ma.value.0 != k.value || mb.None? || mb.value.0 != k.value then Err(SwapInvalid)
        else
          var swapped := SwapSlots(t.rounds[k.value].matches, ma.value.1, a.slot, mb.value.1, b.slot);
          if swapped.None? then Err(SwapInvalid)
          else Ok(SetRound(s, t, k.value, t.rounds[k.value].(matches := swapped.value)))
  }

  function Publish(s: State, number: int): Result<State, Error> {
    var l := Lock(s);
    if l.Err? then Err(l.error)
    else
      var t := l.value;
      var k := DraftRound(t.rounds, number);
      if k.Err? then Err(k.error)
      else
        var r := t.rounds[k.value];
        Ok(SetRound(s, t, k.value, r.(status := Published, matches := FillByes(r.matches))))
  }

  function Complete(s: State, number: int): Result<State, Error> {
    var l := Lock(s);
    if l.Err? then Err(l.error)
    else
      var t := l.value;
      var k := RoundByNumber(t.rounds, number);
      if k.None? then Err(RoundNotFound)
      else
        var r := t.rounds[k.value];
        if r.status != Published then Err(RoundNotPublished)
        else if !AllReported(r.matches) then Err(RoundIncomplete)
        else Ok(SetRound(s, t, k.value, r.(status := Completed)))
  }

  /** Whether `caller` plays in the match. */
  function PlaysIn(t: Tournament, m: TableMatch, caller: Id): Option<Error>
    requires m.player2.Some?
  {
    var p1 := FindEntrant(t.players, m.player1);
    var p2 := FindEntrant(t.players, m.player2.value);
    if p1.None? || p2.None? then Some(PlayerNotFound)
    else if t.players[p1.value].user != caller && t.players[p2.value].user != caller then Some(NotInMatch)
    else None
  }

  /** Who may report match `m` of round `k`, and when. */
  function ReportGuard(t: Tournament, k: nat, m: TableMatch, caller: Id, admin: bool): Option<Error>
    requires k < |t.rounds|
  {
    if m.player2.None? then Some(ByeImmutable)
    else if !admin && m.ruled then Some(ResultLocked)
    else if t.rounds[k].number != t.rounds[|t.rounds| - 1].number || t.rounds[k].status == Draft then Some(ResultLocked)
    else if admin then None
    else if PlaysIn(t, m, caller).Some? then PlaysIn(t, m, caller)
    else if t.rounds[k].status != Published then Some(ResultLocked)
    else None
  }

  function Reported(m: TableMatch, admin: bool, r: Score): TableMatch {
    m.(result := Some(r), ruled := m.ruled || admin)
  }

  function ReportResult(s: State, id: MatchId, caller: Id, admin: bool, r: Score): Result<State, Error> {
    if !Valid(r) then Err(ResultInvalid)
    else
      var l := Lock(s);
      if l.Err? then Err(l.error)
      else
        var t := l.value;
        var found := GetMatch(t.rounds, id);
        if found.None? then Err(MatchNotFound)
        else
          var (k, i) := found.value;
          var round := t.rounds[k];
          var e := ReportGuard(t, k, round.matches[i], caller, admin);
          if e.Some? then Err(e.value)
          else Ok(SetRound(s, t, k, round.(matches := round.matches[i := Reported(round.matches[i], admin, r)])))
  }

  function PlayerForAction(t: Tournament, player: Id, caller: Id, admin: bool): (r: Result<nat, Error>)
    ensures r.Ok? ==> r.value < |t.players| && t.players[r.value].id == player
  {
    var k := FindEntrant(t.players, player);
    if k.None? then Err(PlayerNotFound)
    else if !admin && t.players[k.value].user != caller then Err(NotYourPlayer)
    else Ok(k.value)
  }

  function SetDropped(t: Tournament, k: nat, at: Option<int>): Tournament
    requires k < |t.players|
  {
    t.(players := t.players[k := t.players[k].(droppedAt := at)])
  }

  function Drop(s: State, player: Id, caller: Id, admin: bool, now: int): Result<State, Error> {
    var l := Lock(s);
    if l.Err? then Err(l.error)
    else
      var t := l.value;
      var k := PlayerForAction(t, player, caller, admin);
      if k.Err? then Err(k.error)
      else if t.players[k.value].droppedAt.Some? then Err(AlreadyDropped)
      else Ok(With(s, SetDropped(t, k.value, Some(now))))
  }

  predicate CreatedAfter(rounds: seq<Round>, time: int) {
    exists i :: 0 <= i < |rounds| && rounds[i].createdAt > time
  }

  function Undrop(s: State, player: Id, caller: Id, admin: bool): Result<State, Error> {
    var l := Lock(s);
    if l.Err? then Err(l.error)
    else
      var t := l.value;
      var k := PlayerForAction(t, player, caller, admin);
      if k.Err? then Err(k.error)
      else if t.players[k.value].droppedAt.None? then Err(NotDropped)
      else if CreatedAfter(t.rounds, t.players[k.value].droppedAt.value) then Err(UndropTooLate)
      else Ok(With(s, SetDropped(t, k.value, None)))
  }

  function DropUser(e: Entrant, user: Id, now: int): Entrant {
    if e.user == user && e.droppedAt.None? then e.(droppedAt := Some(now)) else e
  }

  /** What removing a participant's registration does here; no guard on the event's status. */
  function DropByUser(s: State, user: Id, now: int): State {
    if s.tournament.None? then s
    else
      var players := s.tournament.value.players;
      With(s, s.tournament.value.(players :=
        seq(|players|, i requires 0 <= i < |players| => DropUser(players[i], user, now))))
  }

  function CountOpen(s: State): nat {
    if s.tournament.None? then 0 else OpenRounds(s.tournament.value.rounds)
  }

  /** The event's own lifecycle, as far as the tournament is concerned. */
  function Transition(s: State, action: R.LifecycleAction): Result<State, Error> {
    if !R.Legal(action, s.event) then Err(InvalidTransition)
    else if action == R.Finish && CountOpen(s) > 0 then Err(RoundOpen)
    else Ok(s.(event := R.Target(action)))
  }
}
