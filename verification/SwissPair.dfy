/** Pairing a round: minimum-rematch perfect matching by backtracking, and the bye. */
module SwissPair {
  import opened Wrappers
  import opened SwissTypes
  import Sorting

  type Pairs = seq<(Id, Id)>

  // ---------------------------------------------------------------------
  // Reference notion: a perfect pairing is any list of couples, in any order
  // and either way round, that seats every listed player exactly once.
  // ---------------------------------------------------------------------

  function Seated(q: Pairs): multiset<Id> {
    if q == [] then multiset{} else Both(q[0]) + Seated(q[1..])
  }

  function Both(couple: (Id, Id)): multiset<Id> {
    multiset{couple.0, couple.1}
  }

  ghost predicate PerfectPairing(order: seq<Id>, q: Pairs) {
    Seated(q) == multiset(order)
  }

  function Cost(played: set<(Id, Id)>, a: Id, b: Id): nat {
    if (a, b) in played then 1 else 0
  }

  function Rematches(q: Pairs, played: set<(Id, Id)>): nat {
    if q == [] then 0 else Cost(played, q[0].0, q[0].1) + Rematches(q[1..], played)
  }

  ghost predicate FitsBudget(order: seq<Id>, played: set<(Id, Id)>, budget: int, q: Pairs) {
    PerfectPairing(order, q) && Rematches(q, played) <= budget
  }

  ghost predicate Feasible(order: seq<Id>, played: set<(Id, Id)>, budget: int) {
    exists q :: FitsBudget(order, played, budget, q)
  }

  ghost predicate Symmetric(played: set<(Id, Id)>) {
    forall a, b :: (a, b) in played ==> (b, a) in played
  }

  /** The players left once `order[0]` has been seated with `order[i]`. */
  function Without(order: seq<Id>, i: nat): (rest: seq<Id>)
    requires 1 <= i < |order|
    ensures |rest| == |order| - 2
  {
    order[1..i] + order[i + 1..]
  }

  ghost predicate LeavesFeasible(order: seq<Id>, played: set<(Id, Id)>, budget: int, i: nat)
    requires 1 <= i < |order|
  {
    Feasible(Without(order, i), played, budget - Cost(played, order[0], order[i]))
  }

  /** The nearest opponent of `order[0]` whose choice leaves the rest feasible. */
  ghost predicate NearestOpponent(order: seq<Id>, played: set<(Id, Id)>, budget: int, i: nat) {
    && 1 <= i < |order|
    && LeavesFeasible(order, played, budget, i)
    && forall j :: 1 <= j < i ==> !LeavesFeasible(order, played, budget, j)
  }

  /** Every top remaining player, in turn, is seated with the nearest such opponent. */
  ghost predicate NearestFirst(order: seq<Id>, played: set<(Id, Id)>, budget: int, p: Pairs)
    decreases |order|
  {
    if order == [] then p == []
    else
      && p != []
      && exists i: nat ::
           && NearestOpponent(order, played, budget, i)
           && p[0] == (order[0], order[i])
           && NearestFirst(Without(order, i), played, budget - Cost(played, order[0], order[i]), p[1..])
  }

  // ---------------------------------------------------------------------
  // Facts about perfect pairings
  // ---------------------------------------------------------------------

  lemma {:induction false} SeatedHas(q: Pairs, x: Id) returns (k: nat)
    requires x in Seated(q)
    ensures k < |q| && (q[k].0 == x || q[k].1 == x)
  {
    if q[0].0 == x || q[0].1 == x {
      k := 0;
    } else {
      k := SeatedHas(q[1..], x);
      k := k + 1;
    }
  }

  // Taking one couple out takes out its two players and its cost.

  lemma {:induction false} TakeOutSeats(q: Pairs, k: nat)
    requires k < |q|
    ensures Seated(q) == Both(q[k]) + Seated(q[..k] + q[k + 1..])
  {
    hide Both;
    var rest := q[..k] + q[k + 1..];
    if k == 0 {
      assert rest == q[1..];
    } else {
      TakeOutSeats(q[1..], k - 1);
      assert rest[0] == q[0] && rest[1..] == q[1..][..k - 1] + q[1..][k..];
      Exchange(Both(q[0]), Both(q[k]), Seated(rest[1..]));
    }
  }

  lemma Exchange(a: multiset<Id>, b: multiset<Id>, c: multiset<Id>)
    ensures a + (b + c) == b + (a + c)
  {
  }

  lemma {:induction false} TakeOutCost(q: Pairs, played: set<(Id, Id)>, k: nat)
    requires k < |q|
    ensures Rematches(q, played) == Cost(played, q[k].0, q[k].1) + Rematches(q[..k] + q[k + 1..], played)
  {
    var rest := q[..k] + q[k + 1..];
    if k == 0 {
      assert rest == q[1..];
    } else {
      TakeOutCost(q[1..], played, k - 1);
      assert rest[0] == q[0] && rest[1..] == q[1..][..k - 1] + q[1..][k..];
    }
  }

  lemma WithoutKeeps(order: seq<Id>, i: nat)
    requires 1 <= i < |order|
    ensures multiset(order) == multiset{order[0], order[i]} + multiset(Without(order, i))
    ensures NoDuplicates(order) ==> NoDuplicates(Without(order, i))
  {
    assert order == [order[0]] + order[1..i] + [order[i]] + order[i + 1..];
    assert forall x :: multiset(Without(order, i))[x] <= multiset(order)[x];
  }

  lemma PartnerPosition(order: seq<Id>, b: Id, rest: multiset<Id>) returns (i: nat)
    requires order != [] && NoDuplicates(order)
    requires multiset(order) == multiset{order[0], b} + rest
    ensures 1 <= i < |order| && order[i] == b
    ensures multiset(Without(order, i)) == rest
  {
    assert multiset(order)[order[0]] <= 1;
    assert b in multiset(order) && b != order[0];
    i :| 0 <= i < |order| && order[i] == b;
    WithoutKeeps(order, i);
    assert rest == multiset(order) - multiset{order[0], b};
  }

  /** Any perfect pairing seats the first player with some later one, at that couple's cost. */
  lemma FirstPlayersCouple(order: seq<Id>, played: set<(Id, Id)>, q: Pairs) returns (i: nat, rest: Pairs)
    requires order != [] && NoDuplicates(order) && Symmetric(played) && PerfectPairing(order, q)
    ensures 1 <= i < |order| && PerfectPairing(Without(order, i), rest)
    ensures Rematches(q, played) == Cost(played, order[0], order[i]) + Rematches(rest, played)
  {
    assert order[0] in multiset(order);
    var k := SeatedHas(q, order[0]);
    TakeOutSeats(q, k);
    TakeOutCost(q, played, k);
    rest := q[..k] + q[k + 1..];
    var b := if q[k].0 == order[0] then q[k].1 else q[k].0;
    i := PartnerPosition(order, b, Seated(rest));
  }

  lemma FirstTwo(order: seq<Id>, c: (Id, Id), q: Pairs)
    requires |order| >= 2 && c == (order[0], order[1])
    ensures multiset(order) == Both(c) + multiset(order[2..])
    ensures ([c] + q)[1..] == q
  {
    assert order == [order[0], order[1]] + order[2..];
  }

  /** An even number of players can always be paired, at a cost of at most one per couple. */
  lemma {:induction false} EvenIsFeasible(order: seq<Id>, played: set<(Id, Id)>)
    requires |order| % 2 == 0
    ensures Feasible(order, played, |order| / 2)
  {
    hide Both;
    if order == [] {
      assert FitsBudget(order, played, 0, []);
    } else {
      EvenIsFeasible(order[2..], played);
      var q :| FitsBudget(order[2..], played, |order[2..]| / 2, q);
      FirstTwo(order, (order[0], order[1]), q);
      var p := [(order[0], order[1])] + q;
      assert FitsBudget(order, played, |order| / 2, p);
    }
  }

  lemma NoOpponentNoPairing(order: seq<Id>, played: set<(Id, Id)>, budget: int)
    requires order != [] && NoDuplicates(order) && Symmetric(played)
    requires forall j :: 1 <= j < |order| ==> !LeavesFeasible(order, played, budget, j)
    ensures !Feasible(order, played, budget)
  {
    if Feasible(order, played, budget) {
      var q :| FitsBudget(order, played, budget, q);
      var i, rest := FirstPlayersCouple(order, played, q);
      assert FitsBudget(Without(order, i), played, budget - Cost(played, order[0], order[i]), rest);
      assert LeavesFeasible(order, played, budget, i);
    }
  }

  lemma NothingFitsNegativeBudget(order: seq<Id>, played: set<(Id, Id)>, budget: int)
    requires budget < 0
    ensures !Feasible(order, played, budget)
  {
    assert forall q :: !FitsBudget(order, played, budget, q);
  }

  lemma PrependCouple(order: seq<Id>, played: set<(Id, Id)>, i: nat, p: Pairs)
    requires 1 <= i < |order| && PerfectPairing(Without(order, i), p)
    ensures var q := [(order[0], order[i])] + p;
            && PerfectPairing(order, q)
            && Rematches(q, played) == Cost(played, order[0], order[i]) + Rematches(p, played)
            && q[1..] == p
  {
    WithoutKeeps(order, i);
    assert ([(order[0], order[i])] + p)[1..] == p;
  }

  lemma OpponentFound(order: seq<Id>, played: set<(Id, Id)>, budget: int, i: nat, p: Pairs)
    requires 1 <= i < |order|
    requires forall j :: 1 <= j < i ==> !LeavesFeasible(order, played, budget, j)
    requires var left := budget - Cost(played, order[0], order[i]);
             && FitsBudget(Without(order, i), played, left, p)
             && NearestFirst(Without(order, i), played, left, p)
    ensures var q := [(order[0], order[i])] + p;
            && FitsBudget(order, played, budget, q) && Feasible(order, played, budget)
            && NearestFirst(order, played, budget, q)
  {
    hide PerfectPairing, Rematches, Without, Cost;
    PrependCouple(order, played, i, p);
    assert NearestOpponent(order, played, budget, i);
    var q := [(order[0], order[i])] + p;
    assert q[0] == (order[0], order[i]);
  }

  lemma OnlyOneNearest(order: seq<Id>, played: set<(Id, Id)>, budget: int, i: nat, k: nat)
    requires NearestOpponent(order, played, budget, i) && NearestOpponent(order, played, budget, k)
    ensures i == k
  {
    hide Feasible;
    assert !(i < k) && !(k < i);
  }

  lemma FirstCoupleIs(order: seq<Id>, played: set<(Id, Id)>, budget: int, p: Pairs, i: nat)
    requires order != [] && NearestFirst(order, played, budget, p) && NearestOpponent(order, played, budget, i)
    ensures 1 <= i < |order| && p != [] && p[0] == (order[0], order[i])
    ensures NearestFirst(Without(order, i), played, budget - Cost(played, order[0], order[i]), p[1..])
  {
    hide Feasible;
    var k: nat :| NearestOpponent(order, played, budget, k) && p[0] == (order[0], order[k])
      && NearestFirst(Without(order, k), played, budget - Cost(played, order[0], order[k]), p[1..]);
    OnlyOneNearest(order, played, budget, i, k);
  }

  /** The description pins the pairing down: there is only one nearest-first pairing. */
  lemma {:induction false} NearestFirstUnique(order: seq<Id>, played: set<(Id, Id)>, budget: int, p: Pairs, q: Pairs)
    requires NearestFirst(order, played, budget, p) && NearestFirst(order, played, budget, q)
    ensures p == q
    decreases |order|
  {
    hide LeavesFeasible, NearestOpponent, Cost, Without;
    if order != [] {
      var i: nat :| NearestOpponent(order, played, budget, i);
      FirstCoupleIs(order, played, budget, p, i);
      FirstCoupleIs(order, played, budget, q, i);
      NearestFirstUnique(Without(order, i), played, budget - Cost(played, order[0], order[i]), p[1..], q[1..]);
      assert p == [p[0]] + p[1..] && q == [q[0]] + q[1..];
    }
  }

  // ---------------------------------------------------------------------
  // The search
  // ---------------------------------------------------------------------

  /** `None` is Go's nil: no pairing fits the budget. */
  method TryPair(order: seq<Id>, played: set<(Id, Id)>, budget: nat) returns (r: Option<Pairs>)
    requires NoDuplicates(order) && Symmetric(played)
    ensures r.Some? <==> Feasible(order, played, budget)
    ensures r.Some? ==> FitsBudget(order, played, budget, r.value)
    ensures r.Some? ==> NearestFirst(order, played, budget, r.value)
    decreases |order|
  {
    if |order| == 0 {
      assert FitsBudget(order, played, budget, []);
      return Some([]);
    }
    hide Feasible, FitsBudget, NearestFirst, Symmetric, NoDuplicates;
    var p1 := order[0];
    for i := 1 to |order|
      invariant forall j :: 1 <= j < i ==> !LeavesFeasible(order, played, budget, j)
    {
      var p2 := order[i];
      var cost := if (p1, p2) in played then 1 else 0;
      if cost > budget {
        NothingFitsNegativeBudget(Without(order, i), played, budget - cost);
        continue;
      }
      WithoutKeeps(order, i);
      var rest := order[1..i] + order[i + 1..];
      var sub := TryPair(rest, played, budget - cost);
      if sub.Some? {
        OpponentFound(order, played, budget, i, sub.value);
        return Some([(p1, p2)] + sub.value);
      }
    }
    NoOpponentNoPairing(order, played, budget);
    return None;
  }

  // ---------------------------------------------------------------------
  // Chance
  // ---------------------------------------------------------------------

  /** What the seeded generator answers in one call of `Pair`: to `Intn(n)`, and to the i-th `Float64`. */
  datatype Rng = Rng(intn: nat -> nat, floats: nat -> real)

  /** `Intn`'s answer is below its argument, so taking it modulo that changes nothing. */
  function Drawn(ids: seq<Id>, rng: Rng): Id
    requires ids != []
  {
    ids[rng.intn(|ids|) % |ids|]
  }

  // ---------------------------------------------------------------------
  // The bye
  // ---------------------------------------------------------------------

  function Points(points: map<Id, nat>, id: Id): nat {
    if id in points then points[id] else 0
  }

  function Tallied(points: map<Id, nat>): Id -> nat {
    (id: Id) => Points(points, id)
  }

  function Listed(ids: set<Id>): Id -> bool {
    (id: Id) => id in ids
  }

  function HistoryPoints(history: seq<Match>): Id -> nat {
    (id: Id) => MatchPoints(history, id)
  }

  ghost function HistoryByes(history: seq<Match>): Id -> bool {
    (id: Id) => HadBye(history, id)
  }

  /** Fewest points among those without a bye; fewest overall if all have had one. */
  ghost predicate ByeChoice(active: seq<Id>, points: Id -> nat, hadBye: Id -> bool, b: Id) {
    && b in active
    && (forall a :: a in active && !hadBye(a) ==> !hadBye(b) && points(b) <= points(a))
    && ((forall a :: a in active ==> hadBye(a)) ==> forall a :: a in active ==> points(b) <= points(a))
  }

  /** Those of `ids` with `k` points, in order. */
  function Scoring(ids: seq<Id>, points: Id -> nat, k: int): seq<Id> {
    if ids == [] then []
    else
      var last := ids[|ids| - 1];
      Scoring(ids[..|ids| - 1], points, k) + if points(last) == k then [last] else []
  }

  /** Those of `ids` without a bye, in order. */
  function NoByeYet(ids: seq<Id>, hadBye: Id -> bool): seq<Id> {
    if ids == [] then []
    else
      var last := ids[|ids| - 1];
      NoByeYet(ids[..|ids| - 1], hadBye) + if hadBye(last) then [] else [last]
  }

  /** Who may be drawn: those without a bye, or all when everyone has had one. */
  function ByePool(active: seq<Id>, hadBye: Id -> bool): seq<Id> {
    if NoByeYet(active, hadBye) == [] then active else NoByeYet(active, hadBye)
  }

  ghost predicate LowestScore(pool: seq<Id>, points: Id -> nat, k: int) {
    Scoring(pool, points, k) != [] && forall a :: a in pool ==> k <= points(a)
  }

  /** The generator's choice from the lowest score of the pool. */
  ghost predicate DrawnBye(active: seq<Id>, points: Id -> nat, hadBye: Id -> bool, rng: Rng, b: Id) {
    var pool := ByePool(active, hadBye);
    exists k :: LowestScore(pool, points, k) && b == Drawn(Scoring(pool, points, k), rng)
  }

  lemma {:induction false} ScoringHolds(ids: seq<Id>, points: Id -> nat, k: int)
    ensures forall id :: id in Scoring(ids, points, k) <==> id in ids && points(id) == k
  {
    if ids != [] {
      ScoringHolds(ids[..|ids| - 1], points, k);
      assert ids == ids[..|ids| - 1] + [ids[|ids| - 1]];
    }
  }

  lemma {:induction false} NoByeYetHolds(ids: seq<Id>, hadBye: Id -> bool)
    ensures forall id :: id in NoByeYet(ids, hadBye) <==> id in ids && !hadBye(id)
  {
    if ids != [] {
      NoByeYetHolds(ids[..|ids| - 1], hadBye);
      assert ids == ids[..|ids| - 1] + [ids[|ids| - 1]];
    }
  }

  /** Taking the unbyed out of a score group is taking the score group out of the unbyed. */
  lemma {:induction false} FiltersCommute(ids: seq<Id>, points: Id -> nat, hadBye: Id -> bool, k: int)
    ensures NoByeYet(Scoring(ids, points, k), hadBye) == Scoring(NoByeYet(ids, hadBye), points, k)
  {
    if ids != [] {
      var front, last := ids[..|ids| - 1], ids[|ids| - 1];
      FiltersCommute(front, points, hadBye, k);
      var group, unbyed := Scoring(front, points, k), NoByeYet(front, hadBye);
      assert (group + [last])[..|group|] == group && group + [] == group;
      assert (unbyed + [last])[..|unbyed|] == unbyed && unbyed + [] == unbyed;
    }
  }

  lemma {:induction false} ScoringAlike(ids: seq<Id>, f: Id -> nat, g: Id -> nat, k: int)
    requires forall id :: f(id) == g(id)
    ensures Scoring(ids, f, k) == Scoring(ids, g, k)
  {
    if ids != [] {
      ScoringAlike(ids[..|ids| - 1], f, g, k);
    }
  }

  lemma {:induction false} NoByeYetAlike(ids: seq<Id>, f: Id -> bool, g: Id -> bool)
    requires forall id :: f(id) == g(id)
    ensures NoByeYet(ids, f) == NoByeYet(ids, g)
  {
    if ids != [] {
      NoByeYetAlike(ids[..|ids| - 1], f, g);
    }
  }

  lemma DrawnByeAlike(active: seq<Id>, f: Id -> nat, g: Id -> nat, had: Id -> bool, had': Id -> bool, rng: Rng, b: Id)
    requires (forall id :: f(id) == g(id)) && (forall id :: had(id) == had'(id))
    requires DrawnBye(active, f, had, rng, b)
    ensures DrawnBye(active, g, had', rng, b)
  {
    hide Scoring, NoByeYet, Drawn;
    NoByeYetAlike(active, had, had');
    var pool := ByePool(active, had);
    var k :| LowestScore(pool, f, k) && b == Drawn(Scoring(pool, f, k), rng);
    ScoringAlike(pool, f, g, k);
    assert ByePool(active, had') == pool;
    hide ByePool;
    assert LowestScore(pool, g, k);
  }

  /** A lowest score is somebody's. */
  lemma SomeoneScores(pool: seq<Id>, points: Id -> nat, k: int)
    requires LowestScore(pool, points, k)
    ensures exists a :: a in pool && points(a) == k
  {
    ScoringHolds(pool, points, k);
    hide Scoring;
    var someone := Scoring(pool, points, k)[0];
    assert someone in Scoring(pool, points, k);
  }

  /** The draw names one player only. */
  lemma DrawnByeUnique(active: seq<Id>, points: Id -> nat, hadBye: Id -> bool, rng: Rng, a: Id, b: Id)
    requires DrawnBye(active, points, hadBye, rng, a) && DrawnBye(active, points, hadBye, rng, b)
    ensures a == b
  {
    hide Scoring, NoByeYet, ByePool, Drawn;
    var pool := ByePool(active, hadBye);
    var k :| LowestScore(pool, points, k) && a == Drawn(Scoring(pool, points, k), rng);
    var l :| LowestScore(pool, points, l) && b == Drawn(Scoring(pool, points, l), rng);
    SomeoneScores(pool, points, k);
    SomeoneScores(pool, points, l);
  }

  /** Whoever is drawn is a right choice: fewest points among those without a bye, or overall. */
  lemma DrawnByeIsChoice(active: seq<Id>, points: Id -> nat, hadBye: Id -> bool, rng: Rng, b: Id)
    requires DrawnBye(active, points, hadBye, rng, b)
    ensures ByeChoice(active, points, hadBye, b)
  {
    var pool := ByePool(active, hadBye);
    var k :| LowestScore(pool, points, k) && b == Drawn(Scoring(pool, points, k), rng);
    NoByeYetHolds(active, hadBye);
    ScoringHolds(pool, points, k);
    hide Scoring, NoByeYet;
    assert b in Scoring(pool, points, k);
  }

  /** `groups` sorts the players seen so far into match-point groups, and `keys` lists the groups. */
  ghost predicate GroupedByPoints(groups: map<int, seq<Id>>, keys: seq<int>, seen: seq<Id>, points: map<Id, nat>) {
    && (forall j :: 0 <= j < |keys| ==> keys[j] in groups)
    && (forall k :: k in groups ==> k in keys && groups[k] != [])
    && (forall k, id :: k in groups && id in groups[k] ==> id in seen && Points(points, id) == k)
    && (forall id :: id in seen ==> Points(points, id) in groups && id in groups[Points(points, id)])
  }

  /** Every group lists its players in the order they were seen. */
  ghost predicate GroupsInOrder(groups: map<int, seq<Id>>, seen: seq<Id>, points: map<Id, nat>) {
    forall k :: k in groups ==> groups[k] == Scoring(seen, Tallied(points), k)
  }

  method GroupPlayers(active: seq<Id>, points: map<Id, nat>) returns (groups: map<int, seq<Id>>, keys: seq<int>)
    ensures GroupedByPoints(groups, keys, active, points) && GroupsInOrder(groups, active, points)
  {
    groups, keys := map[], [];
    TakeAll(active);
    assert GroupedByPoints(groups, keys, [], points) && GroupsInOrder(groups, [], points);
    hide GroupedByPoints, GroupsInOrder, Points;
    for i := 0 to |active|
      invariant GroupedByPoints(groups, keys, active[..i], points)
      invariant GroupsInOrder(groups, active[..i], points)
    {
      var pts := Points(points, active[i]);
      GroupNext(groups, keys, active[..i], points, active[i]);
      TakeNext(active, i);
      InTwo(groups, pts, active[i]);
      hide Joined;
      if pts !in groups {
        keys := keys + [pts];
        groups := groups[pts := []];
      }
      groups := groups[pts := groups[pts] + [active[i]]];
    }
  }

  /** The groups with one more player put into theirs. */
  function Joined(groups: map<int, seq<Id>>, pts: int, id: Id): map<int, seq<Id>> {
    groups[pts := (if pts in groups then groups[pts] else []) + [id]]
  }

  /** The same in the source's two writes. */
  function JoinedInTwo(groups: map<int, seq<Id>>, pts: int, id: Id): map<int, seq<Id>> {
    var begun := if pts in groups then groups else groups[pts := []];
    begun[pts := begun[pts] + [id]]
  }

  lemma InTwo(groups: map<int, seq<Id>>, pts: int, id: Id)
    ensures JoinedInTwo(groups, pts, id) == Joined(groups, pts, id)
  {
  }

  lemma GroupNext(groups: map<int, seq<Id>>, keys: seq<int>, seen: seq<Id>, points: map<Id, nat>, id: Id)
    requires GroupedByPoints(groups, keys, seen, points) && GroupsInOrder(groups, seen, points)
    ensures var pts := Points(points, id);
            && GroupedByPoints(Joined(groups, pts, id), if pts in groups then keys else keys + [pts],
                               seen + [id], points)
            && GroupsInOrder(Joined(groups, pts, id), seen + [id], points)
  {
    hide Scoring;
    var pts := Points(points, id);
    if pts !in groups {
      NoGroupNobody(groups, keys, seen, points, pts);
    }
    OrderNext(groups, seen, points, id);
    hide GroupsInOrder;
    GroupedNext(groups, keys, seen, points, id);
    hide GroupedByPoints;
  }

  lemma GroupedNext(groups: map<int, seq<Id>>, keys: seq<int>, seen: seq<Id>, points: map<Id, nat>, id: Id)
    requires GroupedByPoints(groups, keys, seen, points)
    ensures var pts := Points(points, id);
            GroupedByPoints(Joined(groups, pts, id), if pts in groups then keys else keys + [pts], seen + [id], points)
  {
  }

  lemma NobodyIn(ids: seq<Id>)
    ensures (forall x :: x !in ids) ==> ids == []
  {
    if ids != [] {
      var someone := ids[0];
      assert someone in ids;
    }
  }

  lemma NoGroupNobody(groups: map<int, seq<Id>>, keys: seq<int>, seen: seq<Id>, points: map<Id, nat>, pts: int)
    requires GroupedByPoints(groups, keys, seen, points) && pts !in groups
    ensures Scoring(seen, Tallied(points), pts) == []
  {
    ScoringHolds(seen, Tallied(points), pts);
    hide Scoring;
    NobodyIn(Scoring(seen, Tallied(points), pts));
  }

  lemma OrderNext(groups: map<int, seq<Id>>, seen: seq<Id>, points: map<Id, nat>, id: Id)
    requires GroupsInOrder(groups, seen, points)
    requires var pts := Points(points, id); pts !in groups ==> Scoring(seen, Tallied(points), pts) == []
    ensures GroupsInOrder(Joined(groups, Points(points, id), id), seen + [id], points)
  {
    assert (seen + [id])[..|seen|] == seen;
    var after := Joined(groups, Points(points, id), id);
    forall k | k in after ensures after[k] == Scoring(seen + [id], Tallied(points), k) {
    }
  }

  /** None of the first `n` groups has an eligible player. */
  ghost predicate NoneInFirst(groups: map<int, seq<Id>>, keys: seq<int>, n: nat, eligible: set<Id>) {
    forall j, id :: 0 <= j < n && j < |keys| && keys[j] in groups && id in groups[keys[j]] ==> id !in eligible
  }

  /** After ineligible groups in ascending order, group `n` is the fewest points an eligible player can have. */
  lemma LowestGroup(groups: map<int, seq<Id>>, keys: seq<int>, active: seq<Id>, points: map<Id, nat>,
                    n: nat, eligible: set<Id>)
    requires GroupedByPoints(groups, keys, active, points)
    requires forall i, j :: 0 <= i < j < |keys| ==> keys[i] <= keys[j]
    requires NoneInFirst(groups, keys, n, eligible)
    ensures forall a :: a in active && a in eligible ==> n < |keys| && keys[n] <= Points(points, a)
  {
    forall a | a in active && a in eligible ensures n < |keys| && keys[n] <= Points(points, a) {
      var key := Points(points, a);
      assert key in keys;
      var k :| 0 <= k < |keys| && keys[k] == key;
      assert a in groups[keys[k]];
    }
  }

  lemma InGroup(groups: map<int, seq<Id>>, keys: seq<int>, active: seq<Id>, points: map<Id, nat>, i: nat)
    requires GroupedByPoints(groups, keys, active, points) && i < |keys|
    ensures keys[i] in groups && groups[keys[i]] != []
    ensures forall id :: id in groups[keys[i]] ==> id in active && Points(points, id) == keys[i]
  {
    var key := keys[i];
    assert key in groups;
  }

  lemma GroupsOfSorted(groups: map<int, seq<Id>>, keys: seq<int>, sorted: seq<int>, active: seq<Id>,
                       points: map<Id, nat>)
    requires GroupedByPoints(groups, keys, active, points)
    requires forall k :: k in sorted <==> k in keys
    ensures GroupedByPoints(groups, sorted, active, points)
  {
    forall j | 0 <= j < |sorted| ensures sorted[j] in groups {
      var key := sorted[j];
      assert key in sorted;
    }
  }

  method SortKeys(keys: seq<int>) returns (sorted: seq<int>)
    ensures forall k :: k in sorted <==> k in keys
    ensures forall i, j :: 0 <= i < j < |sorted| ==> sorted[i] <= sorted[j]
  {
    var le := (x: int, y: int) => x <= y;
    sorted := Sorting.Sort(keys, le);
    assert forall i, j :: 0 <= i < j < |sorted| ==> le(sorted[i], sorted[j]);
  }

  method PickBye(active: seq<Id>, points: map<Id, nat>, hadBye: set<Id>, rng: Rng) returns (b: Id)
    requires active != []
    ensures DrawnBye(active, Tallied(points), Listed(hadBye), rng, b)
  {
    var groups, unsorted := GroupPlayers(active, points);
    var keys := SortKeys(unsorted);
    GroupsOfSorted(groups, unsorted, keys, active, points);
    hide GroupedByPoints, GroupsInOrder, Scoring, NoByeYet, Points, Drawn, DrawnBye, NoneInFirst;
    ghost var eligible := set a | a in active && a !in hadBye;
    assert NoneInFirst(groups, keys, 0, eligible) by { NoneInNone(groups, keys, eligible); }
    for i := 0 to |keys|
      invariant NoneInFirst(groups, keys, i, eligible)
    {
      InGroup(groups, keys, active, points, i);
      GroupOfKey(groups, active, points, keys[i]);
      var noByeYet := WithoutBye(groups[keys[i]], hadBye);
      FiltersCommute(active, Tallied(points), Listed(hadBye), keys[i]);
      if |noByeYet| > 0 {
        b := Drawn(noByeYet, rng);
        LowestGroup(groups, keys, active, points, i, eligible);
        DrawnFromFresh(active, points, hadBye, rng, keys[i], b);
        return;
      }
      NoneInNext(groups, keys, i, eligible, hadBye);
    }
    LowestGroup(groups, keys, active, points, |keys|, eligible);
    SomeGroup(groups, keys, active, points);
    InGroup(groups, keys, active, points, 0);
    GroupOfKey(groups, active, points, keys[0]);
    b := Drawn(groups[keys[0]], rng);
    FewestOverall(groups, keys, active, points);
    DrawnFromAll(active, points, hadBye, rng, keys[0], b);
  }

  lemma NoneInNone(groups: map<int, seq<Id>>, keys: seq<int>, eligible: set<Id>)
    ensures NoneInFirst(groups, keys, 0, eligible)
  {
  }

  lemma NoneInNext(groups: map<int, seq<Id>>, keys: seq<int>, i: nat, eligible: set<Id>, hadBye: set<Id>)
    requires i < |keys| && keys[i] in groups && NoneInFirst(groups, keys, i, eligible)
    requires NoByeYet(groups[keys[i]], Listed(hadBye)) == [] && forall a :: a in eligible ==> a !in hadBye
    ensures NoneInFirst(groups, keys, i + 1, eligible)
  {
    NoByeYetHolds(groups[keys[i]], Listed(hadBye));
  }

  lemma GroupOfKey(groups: map<int, seq<Id>>, active: seq<Id>, points: map<Id, nat>, k: int)
    requires GroupsInOrder(groups, active, points) && k in groups
    ensures groups[k] == Scoring(active, Tallied(points), k)
  {
  }

  lemma DrawnFromFresh(active: seq<Id>, points: map<Id, nat>, hadBye: set<Id>, rng: Rng, k: int, b: Id)
    requires var group := Scoring(NoByeYet(active, Listed(hadBye)), Tallied(points), k);
             group != [] && b == Drawn(group, rng)
    requires forall a :: a in active && a !in hadBye ==> k <= Points(points, a)
    ensures DrawnBye(active, Tallied(points), Listed(hadBye), rng, b)
  {
    var fresh' := NoByeYet(active, Listed(hadBye));
    NoByeYetHolds(active, Listed(hadBye));
    ScoringHolds(fresh', Tallied(points), k);
    hide Scoring, NoByeYet, Drawn, Points;
    var someone := Scoring(fresh', Tallied(points), k)[0];
    assert someone in Scoring(fresh', Tallied(points), k);
    assert ByePool(active, Listed(hadBye)) == fresh';
    hide ByePool;
    assert LowestScore(fresh', Tallied(points), k);
  }

  lemma DrawnFromAll(active: seq<Id>, points: map<Id, nat>, hadBye: set<Id>, rng: Rng, k: int, b: Id)
    requires forall a :: a in active ==> a in hadBye
    requires var group := Scoring(active, Tallied(points), k); group != [] && b == Drawn(group, rng)
    requires forall a :: a in active ==> k <= Points(points, a)
    ensures DrawnBye(active, Tallied(points), Listed(hadBye), rng, b)
  {
    NobodyEligible(active, Listed(hadBye));
    hide Scoring, NoByeYet, Drawn, Points, ByePool;
    assert LowestScore(active, Tallied(points), k);
  }

  lemma NobodyEligible(active: seq<Id>, had: Id -> bool)
    requires forall a :: a in active ==> had(a)
    ensures ByePool(active, had) == active
  {
    NoByeYetHolds(active, had);
    hide NoByeYet;
    NobodyIn(NoByeYet(active, had));
  }

  lemma SomeGroup(groups: map<int, seq<Id>>, keys: seq<int>, active: seq<Id>, points: map<Id, nat>)
    requires GroupedByPoints(groups, keys, active, points) && active != []
    ensures keys != []
  {
    var someone := active[0];
    assert someone in active;
  }

  lemma FewestOverall(groups: map<int, seq<Id>>, keys: seq<int>, active: seq<Id>, points: map<Id, nat>)
    requires GroupedByPoints(groups, keys, active, points) && keys != []
    requires forall i, j :: 0 <= i < j < |keys| ==> keys[i] <= keys[j]
    ensures forall a :: a in active ==> keys[0] <= Points(points, a)
  {
    var everyone := set a | a in active;
    LowestGroup(groups, keys, active, points, 0, everyone);
    assert forall a :: a in active ==> a in everyone;
  }

  method WithoutBye(group: seq<Id>, hadBye: set<Id>) returns (noByeYet: seq<Id>)
    ensures noByeYet == NoByeYet(group, Listed(hadBye))
  {
    noByeYet := [];
    for j := 0 to |group|
      invariant noByeYet == NoByeYet(group[..j], Listed(hadBye))
    {
      TakeNext(group, j);
      if group[j] !in hadBye {
        noByeYet := noByeYet + [group[j]];
      }
    }
    TakeAll(group);
  }

  // ---------------------------------------------------------------------
  // The whole round
  // ---------------------------------------------------------------------

  /** The couples of a round, byes left out. */
  function Couples(round: seq<Pairing>): Pairs {
    if round == [] then []
    else
      var front := Couples(round[..|round| - 1]);
      var last := round[|round| - 1];
      if last.player2.Some? then front + [(last.player1, last.player2.value)] else front
  }

  /** Everyone seated in a round, bye included. */
  function RoundSeats(round: seq<Pairing>): multiset<Id> {
    if round == [] then multiset{}
    else
      var last := round[|round| - 1];
      RoundSeats(round[..|round| - 1])
      + if last.player2.Some? then multiset{last.player1, last.player2.value} else multiset{last.player1}
  }

  ghost predicate SortedByPoints(order: seq<Id>, history: seq<Match>) {
    forall i, j :: 0 <= i < j < |order| ==> MatchPoints(history, order[i]) >= MatchPoints(history, order[j])
  }

  /** The nearest-first pairing for a budget no perfect pairing of these players can undercut. */
  ghost predicate CheapestPairing(order: seq<Id>, played: set<(Id, Id)>, p: Pairs) {
    && PerfectPairing(order, p)
    && NearestFirst(order, played, Rematches(p, played), p)
    && forall q :: PerfectPairing(order, q) ==> Rematches(p, played) <= Rematches(q, played)
  }

  /** The couples are the cheapest pairing of some order by points. */
  ghost predicate FewestRematches(couples: Pairs, history: seq<Match>, order: seq<Id>) {
    && SortedByPoints(order, history)
    && CheapestPairing(order, Met(history), couples)
  }

  /** Tables are numbered from 1, and the first `n` seat couples; anything after is a bye. */
  ghost predicate NumberedTables(round: seq<Pairing>, n: nat) {
    forall i :: 0 <= i < |round| ==> round[i].tableNumber == i + 1 && (round[i].player2.Some? <==> i < n)
  }

  /** What `Pair` promises about the round it returns. */
  ghost predicate ValidRound(players: seq<Player>, history: seq<Match>, round: seq<Pairing>) {
    var active := ActiveIds(players);
    && RoundSeats(round) == multiset(active)
    && |round| == |active| / 2 + |active| % 2
    && NumberedTables(round, |active| / 2)
    && (|active| % 2 == 1 ==>
          ByeChoice(active, HistoryPoints(history), HistoryByes(history), round[|round| - 1].player1))
    && exists order :: FewestRematches(Couples(round), history, order)
  }

  lemma MetSymmetric(history: seq<Match>)
    ensures Symmetric(Met(history))
  {
  }

  /** The order `sort.Slice` is given: points descending, then the player's random key. */
  function ByScore(points: Id -> nat, rnd: map<Id, real>): (Id, Id) -> bool {
    (a: Id, b: Id) =>
      if points(a) != points(b) then points(a) > points(b)
      else (if a in rnd then rnd[a] else 0.0) <= (if b in rnd then rnd[b] else 0.0)
  }

  lemma ByScoreIsTotal(points: Id -> nat, rnd: map<Id, real>)
    ensures Sorting.TotalPreorder(ByScore(points, rnd))
  {
  }

  /** Everyone but the bye, in roster order. */
  function Skip(active: seq<Id>, bye: Option<Id>): seq<Id> {
    if active == [] then []
    else
      var last := active[|active| - 1];
      Skip(active[..|active| - 1], bye) + if bye == Some(last) then [] else [last]
  }

  /** One float for each player, in turn. */
  function KeysOf(ids: seq<Id>, floats: nat -> real): map<Id, real> {
    if ids == [] then map[]
    else KeysOf(ids[..|ids| - 1], floats)[ids[|ids| - 1] := floats(|ids| - 1)]
  }

  lemma SkipNext(active: seq<Id>, i: nat, bye: Option<Id>)
    requires i < |active|
    ensures Skip(active[..i + 1], bye) == Skip(active[..i], bye) + if bye == Some(active[i]) then [] else [active[i]]
  {
    TakeNext(active, i);
  }

  lemma KeysNext(ids: seq<Id>, id: Id, floats: nat -> real)
    ensures KeysOf(ids + [id], floats) == KeysOf(ids, floats)[id := floats(|ids|)]
  {
    assert (ids + [id])[..|ids|] == ids;
  }

  /** Everyone but the bye, by points and then by the key drawn for them. */
  ghost predicate Shuffled(order: seq<Id>, active: seq<Id>, bye: Option<Id>, points: Id -> nat, rng: Rng) {
    var ids := Skip(active, bye);
    multiset(order) == multiset(ids) && Sorting.SortedBy(ByScore(points, KeysOf(ids, rng.floats)), order)
  }

  lemma {:induction false} SkipLeavesTheByeOut(active: seq<Id>, bye: Option<Id>)
    ensures WithoutTheBye(active, bye, Skip(active, bye))
  {
    if active != [] {
      var front, last := active[..|active| - 1], active[|active| - 1];
      SkipLeavesTheByeOut(front, bye);
      assert active == front + [last];
    }
  }

  lemma {:induction false} KeysAt(ids: seq<Id>, floats: nat -> real, i: nat)
    requires NoDuplicates(ids) && i < |ids|
    ensures ids[i] in KeysOf(ids, floats) && KeysOf(ids, floats)[ids[i]] == floats(i)
  {
    var front, last := ids[..|ids| - 1], ids[|ids| - 1];
    assert ids == front + [last];
    if i < |front| {
      FrontHasNoDuplicates(ids);
      KeysAt(front, floats, i);
      assert front[i] in front && front[i] == ids[i];
      assert multiset(ids)[last] == multiset(front)[last] + 1;
    }
  }

  lemma FrontHasNoDuplicates(ids: seq<Id>)
    requires NoDuplicates(ids) && ids != []
    ensures NoDuplicates(ids[..|ids| - 1])
  {
    var front := ids[..|ids| - 1];
    assert ids == front + [ids[|ids| - 1]];
    forall x ensures multiset(front)[x] <= 1 {
      assert multiset(front)[x] <= multiset(ids)[x];
    }
  }

  lemma {:induction false} AtMostOneRematchPerCouple(order: seq<Id>, played: set<(Id, Id)>, budget: int)
    requires |order| % 2 == 0 && budget >= |order| / 2
    ensures Feasible(order, played, budget)
  {
    EvenIsFeasible(order, played);
    var q :| FitsBudget(order, played, |order| / 2, q);
    assert FitsBudget(order, played, budget, q);
  }

  /** The smallest budget that works is the number of rematches of what it returns. */
  lemma SmallestBudgetIsMinimum(order: seq<Id>, played: set<(Id, Id)>, budget: nat, p: Pairs)
    requires FitsBudget(order, played, budget, p) && !Feasible(order, played, budget - 1)
    ensures Rematches(p, played) == budget
    ensures forall q :: PerfectPairing(order, q) ==> budget <= Rematches(q, played)
  {
    assert !FitsBudget(order, played, budget - 1, p);
    forall q | PerfectPairing(order, q) ensures budget <= Rematches(q, played) {
      assert !FitsBudget(order, played, budget - 1, q);
    }
  }

  /** The tally loop over the history. */
  method TallyHistory(history: seq<Match>)
    returns (points: map<Id, nat>, hadBye: set<Id>, played: set<(Id, Id)>)
    ensures forall id :: Points(points, id) == MatchPoints(history, id)
    ensures forall id :: id in hadBye <==> HadBye(history, id)
    ensures played == Met(history)
  {
    points, hadBye, played := map[], {}, {};
    for i := 0 to |history|
      invariant forall id :: Points(points, id) == MatchPoints(history[..i], id)
      invariant forall id :: id in hadBye <==> HadBye(history[..i], id)
      invariant played == Met(history[..i])
    {
      var m := history[i];
      TakeNext(history, i);
      if m.player2.None? {
        hadBye := hadBye + {m.player1};
      } else {
        played := played + {(m.player1, m.player2.value), (m.player2.value, m.player1)};
      }
      if m.result.None? {
        continue;
      }
      var r := m.result.value;
      if m.player2.None? || r.p1Games > r.p2Games {
        points := points[m.player1 := Points(points, m.player1) + 3];
      } else if r.p2Games > r.p1Games {
        points := points[m.player2.value := Points(points, m.player2.value) + 3];
      } else {
        points := points[m.player1 := Points(points, m.player1) + 1];
        points := points[m.player2.value := Points(points, m.player2.value) + 1];
      }
    }
    TakeAll(history);
  }

  function ByeBag(bye: Option<Id>): multiset<Id> {
    if bye.Some? then multiset{bye.value} else multiset{}
  }

  function Byes(bye: Option<Id>): nat {
    if bye.Some? then 1 else 0
  }

  ghost predicate WithoutTheBye(active: seq<Id>, bye: Option<Id>, order: seq<Id>) {
    forall x :: multiset(order)[x] == if bye == Some(x) then 0 else multiset(active)[x]
  }

  lemma LeavingTheByeOut(active: seq<Id>, bye: Option<Id>, order: seq<Id>)
    requires NoDuplicates(active) && (bye.Some? ==> bye.value in active)
    requires WithoutTheBye(active, bye, order)
    ensures multiset(active) == multiset(order) + ByeBag(bye)
    ensures NoDuplicates(order) && |order| == |active| - Byes(bye)
  {
    assert forall x :: multiset(active)[x] <= 1;
    if bye.Some? {
      assert bye.value in multiset(active);
    }
    forall x ensures multiset(active)[x] == (multiset(order) + ByeBag(bye))[x] {
    }
    assert |multiset(active)| == |active| && |multiset(order)| == |order|;
  }

  /** Everyone still in, except the bye, by points with chance deciding within a score group. */
  method ShuffledOrder(active: seq<Id>, bye: Option<Id>, points: map<Id, nat>, rng: Rng) returns (order: seq<Id>)
    requires NoDuplicates(active)
    requires bye.Some? <==> |active| % 2 == 1
    requires bye.Some? ==> bye.value in active
    ensures Shuffled(order, active, bye, Tallied(points), rng)
    ensures multiset(active) == multiset(order) + ByeBag(bye)
    ensures NoDuplicates(order) && |order| == |active| - Byes(bye) && |order| % 2 == 0
  {
    hide Skip, KeysOf, NoDuplicates, ByeBag, WithoutTheBye, ByScore, Sorting.SortedBy, Tallied, Points;
    var ids, rnd := DrawKeys(active, bye, rng);
    SkipLeavesTheByeOut(active, bye);
    LeavingTheByeOut(active, bye, ids);
    order := SortByScore(ids, points, rnd);
  }

  /** A key for everyone but the bye, drawn in roster order. */
  method DrawKeys(active: seq<Id>, bye: Option<Id>, rng: Rng) returns (ids: seq<Id>, rnd: map<Id, real>)
    ensures ids == Skip(active, bye) && rnd == KeysOf(ids, rng.floats)
  {
    rnd := map[];
    ids := [];
    TakeAll(active);
    assert Skip([], bye) == [] && KeysOf([], rng.floats) == map[];
    hide Skip, KeysOf;
    for i := 0 to |active|
      invariant ids == Skip(active[..i], bye) && rnd == KeysOf(ids, rng.floats)
    {
      SkipNext(active, i, bye);
      if bye != Some(active[i]) {
        KeysNext(ids, active[i], rng.floats);
        rnd := rnd[active[i] := rng.floats(|ids|)];
        ids := ids + [active[i]];
      }
    }
  }

  method SortByScore(ids: seq<Id>, points: map<Id, nat>, rnd: map<Id, real>) returns (order: seq<Id>)
    ensures multiset(order) == multiset(ids) && |order| == |ids| && (NoDuplicates(ids) ==> NoDuplicates(order))
    ensures Sorting.SortedBy(ByScore(Tallied(points), rnd), order)
  {
    var score := Tallied(points);
    ByScoreIsTotal(score, rnd);
    order := Sorting.Sort(ids, ByScore(score, rnd));
    assert |order| == |multiset(order)| == |multiset(ids)| == |ids|;
  }

  /** Raise the rematch budget until the search succeeds. */
  method FewestRematchPairing(order: seq<Id>, played: set<(Id, Id)>) returns (pairs: Pairs)
    requires NoDuplicates(order) && Symmetric(played) && |order| % 2 == 0
    ensures CheapestPairing(order, played, pairs) && Rematches(pairs, played) <= |order| / 2
  {
    var budget := 0;
    NothingFitsNegativeBudget(order, played, -1);
    while true
      invariant !Feasible(order, played, budget - 1)
      invariant budget <= |order| / 2
      decreases |order| / 2 - budget
    {
      var r := TryPair(order, played, budget);
      if r.Some? {
        SmallestBudgetIsMinimum(order, played, budget, r.value);
        return r.value;
      }
      if budget == |order| / 2 {
        AtMostOneRematchPerCouple(order, played, budget);
      }
      budget := budget + 1;
    }
  }

  lemma {:induction false} SeatedSize(p: Pairs)
    ensures |Seated(p)| == 2 * |p|
  {
    if p != [] {
      SeatedSize(p[1..]);
    }
  }

  lemma CouplesHalveThePlayers(order: seq<Id>, played: set<(Id, Id)>, p: Pairs)
    requires CheapestPairing(order, played, p)
    ensures |order| == 2 * |p| && Seated(p) == multiset(order)
  {
    SeatedSize(p);
    assert |order| == |multiset(order)|;
  }

  lemma {:induction false} SeatedAppend(p: Pairs, c: (Id, Id))
    ensures Seated(p + [c]) == Seated(p) + multiset{c.0, c.1}
  {
    var q := p + [c];
    if p == [] {
      assert q == [c] && Seated(q[1..]) == multiset{};
    } else {
      assert q[1..] == p[1..] + [c] && q[0] == p[0];
      SeatedAppend(p[1..], c);
      SeatsRegroup(Both(p[0]), Seated(p[1..]), multiset{c.0, c.1});
      hide Both;
    }
  }

  lemma SeatsRegroup(a: multiset<Id>, b: multiset<Id>, c: multiset<Id>)
    ensures a + (b + c) == a + b + c
  {
  }

  lemma AppendTable(round: seq<Pairing>, n: nat, c: (Id, Id))
    ensures var r := round + [Pairing(n, c.0, Some(c.1))];
            && Couples(r) == Couples(round) + [c]
            && RoundSeats(r) == RoundSeats(round) + multiset{c.0, c.1}
            && (NumberedTables(round, |round|) && n == |r| ==> NumberedTables(r, |r|))
  {
    assert (round + [Pairing(n, c.0, Some(c.1))])[..|round|] == round;
  }

  lemma AppendBye(round: seq<Pairing>, n: nat, id: Id)
    ensures var r := round + [Pairing(n, id, None)];
            && Couples(r) == Couples(round)
            && RoundSeats(r) == RoundSeats(round) + ByeBag(Some(id))
            && (NumberedTables(round, |round|) && n == |r| ==> NumberedTables(r, |round|))
  {
    assert (round + [Pairing(n, id, None)])[..|round|] == round;
  }

  ghost predicate SeatsInOrder(round: seq<Pairing>, pairs: Pairs) {
    && |round| == |pairs|
    && forall i :: 0 <= i < |pairs| ==> round[i] == Pairing(i + 1, pairs[i].0, Some(pairs[i].1))
  }

  /** One table per couple, in order. */
  method Tables(pairs: Pairs) returns (round: seq<Pairing>)
    ensures SeatsInOrder(round, pairs)
  {
    round := [];
    for i := 0 to |pairs|
      invariant SeatsInOrder(round, pairs[..i])
    {
      round := round + [Pairing(i + 1, pairs[i].0, Some(pairs[i].1))];
    }
    TakeAll(pairs);
  }

  lemma LastTable(round: seq<Pairing>, pairs: Pairs, n: nat)
    requires SeatsInOrder(round, pairs) && |pairs| == n + 1
    ensures SeatsInOrder(round[..n], pairs[..n])
    ensures round == round[..n] + [Pairing(n + 1, pairs[n].0, Some(pairs[n].1))] && pairs == pairs[..n] + [pairs[n]]
  {
  }

  /** Tables in order hold exactly the couples and their players. */
  lemma {:induction false} SeatsOfTables(round: seq<Pairing>, pairs: Pairs)
    requires SeatsInOrder(round, pairs)
    ensures Couples(round) == pairs && RoundSeats(round) == Seated(pairs) && NumberedTables(round, |round|)
  {
    if pairs != [] {
      hide Seated, Couples, RoundSeats, NumberedTables;
      var n := |pairs| - 1;
      LastTable(round, pairs, n);
      SeatsOfTables(round[..n], pairs[..n]);
      SeatedAppend(pairs[..n], pairs[n]);
      AppendTable(round[..n], n + 1, pairs[n]);
    }
  }

  lemma NoByeBag(seats: multiset<Id>)
    ensures seats + ByeBag(None) == seats
  {
  }

  method TablesAndBye(pairs: Pairs, bye: Option<Id>) returns (round: seq<Pairing>)
    ensures Couples(round) == pairs && RoundSeats(round) == Seated(pairs) + ByeBag(bye)
    ensures |round| == |pairs| + Byes(bye) && NumberedTables(round, |pairs|)
    ensures bye.Some? ==> round[|pairs|].player1 == bye.value
  {
    hide Seated, Couples, RoundSeats, NumberedTables, ByeBag;
    round := Tables(pairs);
    SeatsOfTables(round, pairs);
    NoByeBag(RoundSeats(round));
    if bye.Some? {
      AppendBye(round, |pairs| + 1, bye.value);
      round := round + [Pairing(|pairs| + 1, bye.value, None)];
    }
  }

  lemma ActiveIdsNext(players: seq<Player>, i: nat)
    requires i <= |players|
    ensures ActiveIds([]) == []
    ensures i < |players| ==>
              var next := if players[i].dropped then [] else [players[i].id];
              ActiveIds(players[..i + 1]) == ActiveIds(players[..i]) + next
  {
    if i < |players| {
      TakeNext(players, i);
    }
  }

  method ActivePlayers(players: seq<Player>) returns (active: seq<Id>)
    ensures active == ActiveIds(players)
  {
    active := [];
    ActiveIdsNext(players, 0);
    TakeAll(players);
    for i := 0 to |players|
      invariant active == ActiveIds(players[..i])
    {
      ActiveIdsNext(players, i);
      if !players[i].dropped {
        active := active + [players[i].id];
      }
    }
  }

  method Pair(players: seq<Player>, history: seq<Match>, rng: Rng) returns (round: seq<Pairing>)
    requires DistinctIds(players)
    ensures ValidRound(players, history, round)
    ensures PairedBy(players, history, rng, round)
  {
    assert ByeChoiceOf(ActiveIds(players), history, None);
    hide Seated, Rematches, NearestFirst, Couples, RoundSeats, NoDuplicates, SortedByPoints, ActiveIds, Shuffled,
         ByeChoiceOf, NumberedTables, MatchPoints, Points, HadBye, ValidRound, CheapestPairing, ByeBag,
         DrawnBye, Skip, KeysOf, DrawnAs, PairedBy;
    var points, hadBye, played := TallyHistory(history);
    var active := ActivePlayers(players);
    ActiveIdsDistinct(players);
    var bye: Option<Id> := None;
    if |active| % 2 == 1 {
      var id := PickBye(active, points, hadBye, rng);
      ByeByHistory(active, points, hadBye, history, rng, id);
      bye := Some(id);
    }
    var order := ShuffledOrder(active, bye, points, rng);
    ShuffledByHistory(order, active, bye, points, history, rng);
    MetSymmetric(history);
    var pairs := FewestRematchPairing(order, played);
    CouplesHalveThePlayers(order, played, pairs);
    round := TablesAndBye(pairs, bye);
    RoundIsValid(players, history, bye, order, round);
    RoundIsDrawn(players, history, rng, round, bye, order);
  }

  // ---------------------------------------------------------------------
  // The same seed, the same round
  // ---------------------------------------------------------------------

  ghost predicate DrawnByHistory(active: seq<Id>, history: seq<Match>, rng: Rng, b: Id) {
    DrawnBye(active, HistoryPoints(history), HistoryByes(history), rng, b)
  }

  /** The couples at numbered tables, then the bye. */
  ghost predicate TablesThenBye(round: seq<Pairing>, bye: Option<Id>) {
    var n := |Couples(round)|;
    && |round| == n + Byes(bye) && NumberedTables(round, n)
    && (bye.Some? ==> round[n].player1 == bye.value)
  }

  /** How the generator's answers make the round: the bye, the order, the cheapest pairing of that order. */
  ghost predicate DrawnAs(active: seq<Id>, history: seq<Match>, rng: Rng, round: seq<Pairing>, bye: Option<Id>,
                          order: seq<Id>) {
    && (bye.Some? <==> |active| % 2 == 1)
    && (bye.Some? ==> DrawnByHistory(active, history, rng, bye.value))
    && Shuffled(order, active, bye, HistoryPoints(history), rng)
    && CheapestPairing(order, Met(history), Couples(round))
    && TablesThenBye(round, bye)
  }

  ghost predicate PairedBy(players: seq<Player>, history: seq<Match>, rng: Rng, round: seq<Pairing>) {
    exists bye, order :: DrawnAs(ActiveIds(players), history, rng, round, bye, order)
  }

  lemma RoundIsDrawn(players: seq<Player>, history: seq<Match>, rng: Rng, round: seq<Pairing>, bye: Option<Id>,
                     order: seq<Id>)
    requires bye.Some? <==> |ActiveIds(players)| % 2 == 1
    requires bye.Some? ==> DrawnByHistory(ActiveIds(players), history, rng, bye.value)
    requires Shuffled(order, ActiveIds(players), bye, HistoryPoints(history), rng)
    requires FewestRematches(Couples(round), history, order)
    requires |round| == |Couples(round)| + Byes(bye) && NumberedTables(round, |Couples(round)|)
    requires bye.Some? ==> round[|Couples(round)|].player1 == bye.value
    ensures PairedBy(players, history, rng, round)
  {
    hide Couples, CheapestPairing, ActiveIds, NumberedTables, Shuffled, DrawnByHistory;
    assert DrawnAs(ActiveIds(players), history, rng, round, bye, order);
  }

  lemma {:induction false} CouplesAt(round: seq<Pairing>, n: nat, i: nat)
    requires NumberedTables(round, n) && n <= |round|
    ensures |Couples(round)| == n
    ensures i < n ==> round[i] == Pairing(i + 1, Couples(round)[i].0, Some(Couples(round)[i].1))
  {
    if round != [] {
      var front := round[..|round| - 1];
      assert forall j :: 0 <= j < |front| ==> front[j] == round[j];
      if n < |round| {
        CouplesAt(front, n, i);
      } else {
        CouplesAt(front, n - 1, i);
      }
    }
  }

  lemma SameTables(round: seq<Pairing>, other: seq<Pairing>, bye: Option<Id>)
    requires TablesThenBye(round, bye) && TablesThenBye(other, bye) && Couples(round) == Couples(other)
    ensures round == other
  {
    var n := |Couples(round)|;
    hide Couples;
    forall i | 0 <= i < |round| ensures round[i] == other[i] {
      CouplesAt(round, n, i);
      CouplesAt(other, n, i);
    }
  }

  lemma SameCouples(order: seq<Id>, played: set<(Id, Id)>, p: Pairs, q: Pairs)
    requires CheapestPairing(order, played, p) && CheapestPairing(order, played, q)
    ensures p == q
  {
    hide PerfectPairing, NearestFirst, Rematches;
    assert Rematches(p, played) == Rematches(q, played);
    NearestFirstUnique(order, played, Rematches(p, played), p, q);
  }

  /** Different players have different keys when the generator's floats differ. */
  ghost predicate DistinctFloats(rng: Rng, n: nat) {
    forall i, j :: 0 <= i < j < n ==> rng.floats(i) != rng.floats(j)
  }

  lemma SameOrder(active: seq<Id>, bye: Option<Id>, points: Id -> nat, rng: Rng, a: seq<Id>, b: seq<Id>)
    requires NoDuplicates(active) && (bye.Some? ==> bye.value in active) && DistinctFloats(rng, |active|)
    requires Shuffled(a, active, bye, points, rng) && Shuffled(b, active, bye, points, rng)
    ensures a == b
  {
    var ids := Skip(active, bye);
    var keys := KeysOf(ids, rng.floats);
    var le := ByScore(points, keys);
    SkipLeavesTheByeOut(active, bye);
    LeavingTheByeOut(active, bye, ids);
    ByScoreIsTotal(points, keys);
    hide Skip, KeysOf, NoDuplicates, ByeBag;
    forall x, y | x in a && y in a && le(x, y) && le(y, x) ensures x == y {
      assert x in multiset(a) && y in multiset(a);
      assert x in ids && y in ids;
      SameKey(ids, points, rng, x, y);
    }
    hide ByScore, Shuffled;
    Sorting.SortedOnce(le, a, b);
  }

  /** Ahead in the order means more points, or as many and no larger a key: the float drawn at one's turn. */
  lemma KeysDecide(active: seq<Id>, bye: Option<Id>, points: Id -> nat, rng: Rng, order: seq<Id>, i: nat, j: nat,
                   p: nat, q: nat)
    requires NoDuplicates(active) && (bye.Some? ==> bye.value in active)
    requires Shuffled(order, active, bye, points, rng) && i < j < |order|
    requires var ids := Skip(active, bye); p < |ids| && q < |ids| && ids[p] == order[i] && ids[q] == order[j]
    ensures points(order[i]) >= points(order[j])
    ensures points(order[i]) == points(order[j]) ==> rng.floats(p) <= rng.floats(q)
  {
    var ids := Skip(active, bye);
    SkipLeavesTheByeOut(active, bye);
    LeavingTheByeOut(active, bye, ids);
    KeysAt(ids, rng.floats, p);
    KeysAt(ids, rng.floats, q);
    hide Skip, KeysOf, NoDuplicates;
    assert ByScore(points, KeysOf(ids, rng.floats))(order[i], order[j]);
  }

  lemma SameKey(ids: seq<Id>, points: Id -> nat, rng: Rng, x: Id, y: Id)
    requires NoDuplicates(ids) && DistinctFloats(rng, |ids|) && x in ids && y in ids
    requires var le := ByScore(points, KeysOf(ids, rng.floats)); le(x, y) && le(y, x)
    ensures x == y
  {
    hide KeysOf, NoDuplicates;
    var i :| 0 <= i < |ids| && ids[i] == x;
    var j :| 0 <= j < |ids| && ids[j] == y;
    KeysAt(ids, rng.floats, i);
    KeysAt(ids, rng.floats, j);
  }

  /** Deterministic per seed: the generator's answers leave one round only, as long as no two keys collide. */
  lemma PairIsDeterministic(players: seq<Player>, history: seq<Match>, rng: Rng, round: seq<Pairing>,
                            other: seq<Pairing>)
    requires DistinctIds(players) && DistinctFloats(rng, |ActiveIds(players)|)
    requires PairedBy(players, history, rng, round) && PairedBy(players, history, rng, other)
    ensures round == other
  {
    var active := ActiveIds(players);
    ActiveIdsDistinct(players);
    var bye, order :| DrawnAs(active, history, rng, round, bye, order);
    var bye', order' :| DrawnAs(active, history, rng, other, bye', order');
    hide ActiveIds, Shuffled, CheapestPairing, TablesThenBye, NoDuplicates, DistinctFloats, Couples;
    if bye.Some? {
      DrawnByeUnique(active, HistoryPoints(history), HistoryByes(history), rng, bye.value, bye'.value);
      DrawnByeIsChoice(active, HistoryPoints(history), HistoryByes(history), rng, bye.value);
    }
    assert bye == bye';
    SameOrder(active, bye, HistoryPoints(history), rng, order, order');
    SameCouples(order, Met(history), Couples(round), Couples(other));
    SameTables(round, other, bye);
  }

  lemma RoundIsValid(players: seq<Player>, history: seq<Match>, bye: Option<Id>, order: seq<Id>, round: seq<Pairing>)
    requires |ActiveIds(players)| == |order| + Byes(bye) && |order| == 2 * |Couples(round)|
    requires multiset(ActiveIds(players)) == multiset(order) + ByeBag(bye)
    requires FewestRematches(Couples(round), history, order)
    requires RoundSeats(round) == Seated(Couples(round)) + ByeBag(bye)
    requires |round| == |Couples(round)| + Byes(bye) && NumberedTables(round, |Couples(round)|)
    requires bye.Some? ==> round[|Couples(round)|].player1 == bye.value
    requires ByeChoiceOf(ActiveIds(players), history, bye)
    ensures ValidRound(players, history, round)
  {
    hide Seated, RoundSeats, Couples, NearestFirst, Rematches, ActiveIds, ByeChoice, NumberedTables;
    assert FewestRematches(Couples(round), history, order);
  }

  lemma ByeByHistory(active: seq<Id>, points: map<Id, nat>, hadBye: set<Id>, history: seq<Match>, rng: Rng, b: Id)
    requires forall id :: Points(points, id) == MatchPoints(history, id)
    requires forall id :: id in hadBye <==> HadBye(history, id)
    requires DrawnBye(active, Tallied(points), Listed(hadBye), rng, b)
    ensures b in active && ByeChoiceOf(active, history, Some(b)) && DrawnByHistory(active, history, rng, b)
  {
    var score, had := HistoryPoints(history), HistoryByes(history);
    DrawnByeAlike(active, Tallied(points), score, Listed(hadBye), had, rng, b);
    DrawnByeIsChoice(active, score, had, rng, b);
  }

  ghost predicate ByeChoiceOf(active: seq<Id>, history: seq<Match>, bye: Option<Id>) {
    bye.Some? ==> ByeChoice(active, HistoryPoints(history), HistoryByes(history), bye.value)
  }

  lemma ShuffledByHistory(order: seq<Id>, active: seq<Id>, bye: Option<Id>, points: map<Id, nat>, history: seq<Match>,
                          rng: Rng)
    requires forall id :: Points(points, id) == MatchPoints(history, id)
    requires Shuffled(order, active, bye, Tallied(points), rng)
    ensures Shuffled(order, active, bye, HistoryPoints(history), rng)
    ensures SortedByPoints(order, history)
  {
    hide Points, MatchPoints, Skip, KeysOf;
    var keys := KeysOf(Skip(active, bye), rng.floats);
    var tallied, scored := ByScore(Tallied(points), keys), ByScore(HistoryPoints(history), keys);
    forall i, j | 0 <= i < j < |order|
      ensures scored(order[i], order[j]) && MatchPoints(history, order[i]) >= MatchPoints(history, order[j])
    {
      assert tallied(order[i], order[j]);
    }
  }
}
