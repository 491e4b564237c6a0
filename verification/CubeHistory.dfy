/** Versioned commits over a cube, printing swaps between them, and what replay recovers. */
module CubeHistory {
  import opened Wrappers
  import opened CubeReplay

  datatype AddInput = AddInput(printing: Id, quantity: int)
  datatype RemoveInput = RemoveInput(oracle: Id, quantity: int)

  datatype CommitError = VersionConflict | UnknownCard(printing: Id) | NotInCube(oracle: Id) | Invalid

  /** A cube: its stored list, its version, and its changelog, oldest change first. */
  datatype Cube = Cube(cards: State, version: nat, log: seq<Change>)

  /** Which oracle card a printing belongs to. */
  type Catalogue = map<Id, Id>

  /** Printings resolved to oracle cards, line by line. */
  function ResolveAdds(catalogue: Catalogue, adds: seq<AddInput>): seq<Delta>
    requires forall a :: a in adds ==> a.printing in catalogue
  {
    seq(|adds|, i requires 0 <= i < |adds| =>
      assert adds[i] in adds; Entry(catalogue[adds[i].printing], adds[i].printing, adds[i].quantity))
  }

  /** Removed lines carry the printing the cube has now. */
  function ResolveRemoves(cards: State, removes: seq<RemoveInput>): seq<Delta>
    requires forall r :: r in removes ==> r.oracle in cards
  {
    seq(|removes|, i requires 0 <= i < |removes| =>
      assert removes[i] in removes; Entry(removes[i].oracle, cards[removes[i].oracle].printing, removes[i].quantity))
  }

  ghost predicate Resolvable(cube: Cube, catalogue: Catalogue, adds: seq<AddInput>, removes: seq<RemoveInput>) {
    && (forall a :: a in adds ==> a.printing in catalogue)
    && (forall r :: r in removes ==> r.oracle in cube.cards)
  }

  /** A commit goes through exactly when the caller saw the current version and the diff is legal. */
  ghost predicate Accepts(cube: Cube, catalogue: Catalogue, expected: int, adds: seq<AddInput>,
                          removes: seq<RemoveInput>) {
    && cube.version == expected
    && Resolvable(cube, catalogue, adds, removes)
    && ValidDiff(cube.cards, ResolveAdds(catalogue, adds), ResolveRemoves(cube.cards, removes))
  }

  ghost function Commit(cube: Cube, catalogue: Catalogue, expected: int, adds: seq<AddInput>,
                        removes: seq<RemoveInput>): Cube {
    if !Accepts(cube, catalogue, expected, adds, removes) then cube
    else
      var addLines := ResolveAdds(catalogue, adds);
      var removeLines := ResolveRemoves(cube.cards, removes);
      Cube(Apply(cube.cards, addLines, removeLines), cube.version + 1,
           cube.log + [Change(cube.version + 1, addLines, removeLines)])
  }

  predicate MaySwap(cube: Cube, catalogue: Catalogue, oracle: Id, printing: Id) {
    && oracle in cube.cards && cube.cards[oracle].printing != printing
    && printing in catalogue && catalogue[printing] == oracle
  }

  /** A cosmetic swap: no new version, no changelog entry. */
  function SwapPrinting(cube: Cube, catalogue: Catalogue, oracle: Id, printing: Id): Cube {
    if MaySwap(cube, catalogue, oracle, printing)
    then cube.(cards := cube.cards[oracle := cube.cards[oracle].(printing := printing)])
    else cube
  }

  // ---------------------------------------------------------------------
  // Runs
  // ---------------------------------------------------------------------

  datatype Action =
    | DoCommit(expected: int, adds: seq<AddInput>, removes: seq<RemoveInput>)
    | DoSwap(oracle: Id, printing: Id)

  /** The API refuses quantities below 1. */
  ghost predicate PositiveAction(a: Action) {
    a.DoCommit? ==>
      && (forall i :: i in a.adds ==> i.quantity > 0)
      && (forall i :: i in a.removes ==> i.quantity > 0)
  }

  ghost function Step(cube: Cube, catalogue: Catalogue, a: Action): Cube {
    match a
    case DoCommit(expected, adds, removes) => Commit(cube, catalogue, expected, adds, removes)
    case DoSwap(oracle, printing) => SwapPrinting(cube, catalogue, oracle, printing)
  }

  ghost function Run(cube: Cube, catalogue: Catalogue, actions: seq<Action>): Cube {
    if actions == [] then cube
    else Step(Run(cube, catalogue, actions[..|actions| - 1]), catalogue, actions[|actions| - 1])
  }

  ghost predicate PositiveActions(actions: seq<Action>) {
    forall a :: a in actions ==> PositiveAction(a)
  }

  const EMPTY_CUBE := Cube(map[], 0, [])

  /** Versions are consecutive from 1, every entry and every line is positive. */
  ghost predicate CubeOk(cube: Cube) {
    && StateOk(cube.cards)
    && |cube.log| == cube.version
    && (forall i :: 0 <= i < |cube.log| ==> cube.log[i].version == i + 1)
    && (forall i :: 0 <= i < |cube.log| ==> ChangeOk(cube.log[i]))
  }

  ghost predicate ChangeOk(ch: Change) {
    && Positive(ch.adds) && Positive(ch.removes)
    && OneRowPerOracle(ch.adds) && OneRowPerOracle(ch.removes)
    && (ch.adds != [] || ch.removes != [])
  }

  function NewestFirst(log: seq<Change>): seq<Change> {
    if log == [] then [] else [log[|log| - 1]] + NewestFirst(log[..|log| - 1])
  }

  lemma ResolvedPositive(catalogue: Catalogue, adds: seq<AddInput>)
    requires forall a :: a in adds ==> a.printing in catalogue && a.quantity > 0
    ensures Positive(ResolveAdds(catalogue, adds))
  {
    var ds := ResolveAdds(catalogue, adds);
    forall d | d in ds ensures d.quantity > 0 {
      var k :| 0 <= k < |ds| && ds[k] == d;
      assert adds[k] in adds;
    }
  }

  lemma ResolvedRemovesPositive(cards: State, removes: seq<RemoveInput>)
    requires forall r :: r in removes ==> r.oracle in cards && r.quantity > 0
    ensures Positive(ResolveRemoves(cards, removes)) && RecordsPrintings(cards, ResolveRemoves(cards, removes))
  {
    var ds := ResolveRemoves(cards, removes);
    forall d | d in ds ensures d.quantity > 0 && (d.oracle in cards ==> d.printing == cards[d.oracle].printing) {
      var k :| 0 <= k < |ds| && ds[k] == d;
      assert removes[k] in removes;
    }
  }

  /** A commit appends one change, whose inversion gives back exactly the cube before it. */
  lemma CommitStep(cube: Cube, catalogue: Catalogue, a: Action)
    requires CubeOk(cube) && a.DoCommit? && PositiveAction(a)
    requires Accepts(cube, catalogue, a.expected, a.adds, a.removes)
    ensures var after := Step(cube, catalogue, a);
            && CubeOk(after) && after.version == cube.version + 1
            && after.log[..cube.version] == cube.log
            && Invert(after.cards, after.log[cube.version]) == cube.cards
  {
    var addLines := ResolveAdds(catalogue, a.adds);
    var removeLines := ResolveRemoves(cube.cards, a.removes);
    ResolvedPositive(catalogue, a.adds);
    ResolvedRemovesPositive(cube.cards, a.removes);
    ApplyKeepsState(cube.cards, addLines, removeLines);
    InvertUndoesApply(cube.cards, Change(cube.version + 1, addLines, removeLines));
  }

  lemma SwapStep(cube: Cube, catalogue: Catalogue, oracle: Id, printing: Id)
    requires CubeOk(cube)
    ensures var after := SwapPrinting(cube, catalogue, oracle, printing);
            && CubeOk(after) && after.version == cube.version && after.log == cube.log
            && SameQuantities(after.cards, cube.cards)
  {
  }

  /** A swap of a card that is there, to another printing of it, changes that printing and nothing else. */
  lemma SwapOutcome(cube: Cube, catalogue: Catalogue, oracle: Id, printing: Id, o: Id)
    ensures var after := SwapPrinting(cube, catalogue, oracle, printing);
            && after == cube.(cards := after.cards)
            && At(after.cards, o)
               == (if o == oracle && o in cube.cards && printing in catalogue && catalogue[printing] == oracle
                   then Some(Entry(cube.cards[o].oracle, printing, cube.cards[o].quantity))
                   else At(cube.cards, o))
  {
  }

  lemma StepKeepsCube(cube: Cube, catalogue: Catalogue, a: Action)
    requires CubeOk(cube) && PositiveAction(a)
    ensures CubeOk(Step(cube, catalogue, a)) && cube.version <= Step(cube, catalogue, a).version <= cube.version + 1
  {
    match a
    case DoSwap(oracle, printing) => SwapStep(cube, catalogue, oracle, printing);
    case DoCommit(expected, adds, removes) =>
      if Accepts(cube, catalogue, expected, adds, removes) {
        CommitStep(cube, catalogue, a);
      }
  }

  lemma {:induction false} RunKeepsCube(cube: Cube, catalogue: Catalogue, actions: seq<Action>)
    requires CubeOk(cube) && PositiveActions(actions)
    ensures CubeOk(Run(cube, catalogue, actions)) && cube.version <= Run(cube, catalogue, actions).version
  {
    if actions != [] {
      var front := actions[..|actions| - 1];
      assert forall a :: a in front ==> a in actions;
      RunKeepsCube(cube, catalogue, front);
      assert actions[|actions| - 1] in actions;
      StepKeepsCube(Run(cube, catalogue, front), catalogue, actions[|actions| - 1]);
    }
  }

  /** Nothing newer than the target: replay is the identity. */
  lemma ReplayNothing(cube: Cube)
    requires CubeOk(cube)
    ensures Replay(cube.cards, NewestFirst(cube.log), cube.version) == cube.cards
  {
  }

  ghost predicate NoSwaps(actions: seq<Action>) {
    forall a :: a in actions ==> a.DoCommit?
  }

  /**
   Whatever was committed and swapped since, replaying from the current list to
   the version a past cube had gives that cube's quantities; and if no printing
   was swapped since, it gives that cube exactly.
   */
  lemma {:induction false} ReplayRecoversPast(past: Cube, catalogue: Catalogue, actions: seq<Action>)
    requires CubeOk(past) && PositiveActions(actions)
    ensures var now := Run(past, catalogue, actions);
            var replayed := Replay(now.cards, NewestFirst(now.log), past.version);
            && SameQuantities(replayed, past.cards)
            && (NoSwaps(actions) ==> replayed == past.cards)
  {
    if actions == [] {
      ReplayNothing(past);
    } else {
      var front, last := actions[..|actions| - 1], actions[|actions| - 1];
      var before := Run(past, catalogue, front);
      var now := Run(past, catalogue, actions);
      assert forall a :: a in front ==> a in actions;
      assert last in actions;
      RunKeepsCube(past, catalogue, front);
      ReplayRecoversPast(past, catalogue, front);
      hide CubeOk, SameQuantities, PositiveAction;
      ReplayLastStep(before, catalogue, last, past.version);
      SameQuantitiesTransitive(Replay(now.cards, NewestFirst(now.log), past.version),
                               Replay(before.cards, NewestFirst(before.log), past.version), past.cards);
    }
  }

  lemma SameQuantitiesTransitive(a: State, b: State, c: State)
    requires SameQuantities(a, b) && SameQuantities(b, c)
    ensures SameQuantities(a, c)
  {
  }

  lemma SameQuantitiesRefl(a: State)
    ensures SameQuantities(a, a)
  {
  }

  /** One step, seen from an older version: replay sees through it. */
  lemma ReplayLastStep(before: Cube, catalogue: Catalogue, a: Action, target: nat)
    requires CubeOk(before) && PositiveAction(a) && target <= before.version
    ensures var now := Step(before, catalogue, a);
            var replayed := Replay(now.cards, NewestFirst(now.log), target);
            var earlier := Replay(before.cards, NewestFirst(before.log), target);
            && SameQuantities(replayed, earlier)
            && (a.DoCommit? ==> replayed == earlier)
  {
    var now := Step(before, catalogue, a);
    SameQuantitiesRefl(Replay(before.cards, NewestFirst(before.log), target));
    match a
    case DoSwap(oracle, printing) =>
      SwapStep(before, catalogue, oracle, printing);
      ReplaySameQuantities(now.cards, before.cards, NewestFirst(before.log), target);
    case DoCommit(expected, adds, removes) =>
      if Accepts(before, catalogue, expected, adds, removes) {
        CommitStep(before, catalogue, a);
        var ch := now.log[before.version];
        assert ch.version == before.version + 1;
        assert NewestFirst(now.log) == [ch] + NewestFirst(before.log);
        assert NewestFirst(now.log)[1..] == NewestFirst(before.log);
      }
  }

  /** The whole-run form: version `v` of any run can be rebuilt at any later point of it. */
  lemma HistoryIsRecoverable(catalogue: Catalogue, before: seq<Action>, between: seq<Action>)
    requires PositiveActions(before) && PositiveActions(between)
    ensures var past := Run(EMPTY_CUBE, catalogue, before);
            var now := Run(past, catalogue, between);
            var replayed := Replay(now.cards, NewestFirst(now.log), past.version);
            && SameQuantities(replayed, past.cards)
            && (NoSwaps(between) ==> replayed == past.cards)
  {
    RunKeepsCube(EMPTY_CUBE, catalogue, before);
    ReplayRecoversPast(Run(EMPTY_CUBE, catalogue, before), catalogue, between);
  }

  /** Two commits that saw the same version cannot both go through, whatever happens in between. */
  lemma NoDoubleCommit(cube: Cube, catalogue: Catalogue, first: Action, between: seq<Action>, second: Action)
    requires CubeOk(cube) && PositiveAction(first) && PositiveActions(between)
    requires first.DoCommit? && second.DoCommit? && first.expected == second.expected
    requires Accepts(cube, catalogue, first.expected, first.adds, first.removes)
    ensures !Accepts(Run(Step(cube, catalogue, first), catalogue, between), catalogue, second.expected, second.adds,
                     second.removes)
  {
    CommitStep(cube, catalogue, first);
    RunKeepsCube(Step(cube, catalogue, first), catalogue, between);
  }

  // ---------------------------------------------------------------------
  // The changelog as rows
  // ---------------------------------------------------------------------

  datatype Kind = AddRow | RemoveRow
  datatype ItemRow = ItemRow(version: int, kind: Kind, line: Delta)

  function LinesOf(rows: seq<ItemRow>, kind: Kind): seq<Delta> {
    if rows == [] then []
    else LinesOf(rows[..|rows| - 1], kind) + if rows[|rows| - 1].kind == kind then [rows[|rows| - 1].line] else []
  }

  /** Rows of one change, its lines in whatever order the database returns them. */
  ghost predicate RowsOfChange(rows: seq<ItemRow>, ch: Change) {
    && rows != [] && (forall r :: r in rows ==> r.version == ch.version)
    && SameLines(LinesOf(rows, AddRow), ch.adds)
    && SameLines(LinesOf(rows, RemoveRow), ch.removes)
  }

  /** What the query returns: the rows of each change, newest change first. */
  ghost predicate Listing(rows: seq<ItemRow>, changes: seq<Change>) {
    if changes == [] then rows == []
    else exists k :: 0 < k <= |rows| && RowsOfChange(rows[..k], changes[0]) && Listing(rows[k..], changes[1..])
  }

  function WithRow(ch: Change, row: ItemRow): Change {
    if row.kind == AddRow then ch.(adds := ch.adds + [row.line]) else ch.(removes := ch.removes + [row.line])
  }

  /** Fold one more row into the changes so far: into the last change, or a new one for a new version. */
  function AddRowTo(changes: seq<Change>, row: ItemRow): seq<Change> {
    if changes == [] || changes[|changes| - 1].version != row.version
    then changes + [WithRow(Change(row.version, [], []), row)]
    else changes[..|changes| - 1] + [WithRow(changes[|changes| - 1], row)]
  }

  function Grouped(rows: seq<ItemRow>): seq<Change> {
    if rows == [] then [] else AddRowTo(Grouped(rows[..|rows| - 1]), rows[|rows| - 1])
  }

  method GroupChanges(rows: seq<ItemRow>) returns (changes: seq<Change>)
    ensures changes == Grouped(rows)
  {
    changes := [];
    TakeAll(rows);
    for i := 0 to |rows|
      invariant changes == Grouped(rows[..i])
    {
      TakeNext(rows, i);
      var it := rows[i];
      if |changes| == 0 || changes[|changes| - 1].version != it.version {
        changes := changes + [Change(it.version, [], [])];
      }
      var ch := changes[|changes| - 1];
      if it.kind == AddRow {
        changes := changes[|changes| - 1 := ch.(adds := ch.adds + [it.line])];
      } else {
        changes := changes[|changes| - 1 := ch.(removes := ch.removes + [it.line])];
      }
    }
  }

  lemma AddRowExtends(changes: seq<Change>, ch: Change, row: ItemRow)
    requires row.version == ch.version
    ensures AddRowTo(changes + [ch], row) == changes + [WithRow(ch, row)]
  {
    assert (changes + [ch])[..|changes + [ch]| - 1] == changes;
  }

  lemma AddRowOpens(changes: seq<Change>, row: ItemRow)
    requires changes != [] ==> changes[|changes| - 1].version != row.version
    ensures AddRowTo(changes, row) == changes + [WithRow(Change(row.version, [], []), row)]
  {
  }

  /** Rows of one version behind rows of others become one more change. */
  lemma {:induction false} GroupOneChange(front: seq<ItemRow>, rows: seq<ItemRow>, version: int)
    requires rows != [] && forall r :: r in rows ==> r.version == version
    requires front != [] ==> Grouped(front) != [] && Grouped(front)[|Grouped(front)| - 1].version != version
    ensures Grouped(front + rows)
         == Grouped(front) + [Change(version, LinesOf(rows, AddRow), LinesOf(rows, RemoveRow))]
  {
    var n := |rows| - 1;
    var row := rows[n];
    assert row in rows;
    OneRowMore(front + rows[..n], row);
    SplitLast(front, rows);
    WithLastRow(rows, version);
    if n == 0 {
      AddRowOpens(Grouped(front), row);
      assert front + rows[..n] == front;
      assert LinesOf(rows[..n], AddRow) == [] && LinesOf(rows[..n], RemoveRow) == [];
      hide *;
    } else {
      assert forall r :: r in rows[..n] ==> r in rows;
      hide *;
      GroupOneChange(front, rows[..n], version);
      AddRowExtends(Grouped(front), Change(version, LinesOf(rows[..n], AddRow), LinesOf(rows[..n], RemoveRow)), row);
    }
  }

  lemma WithLastRow(rows: seq<ItemRow>, version: int)
    requires rows != []
    ensures var front, last := rows[..|rows| - 1], rows[|rows| - 1];
            var before := Change(version, LinesOf(front, AddRow), LinesOf(front, RemoveRow));
            WithRow(before, last) == Change(version, LinesOf(rows, AddRow), LinesOf(rows, RemoveRow))
  {
  }

  lemma SplitLast(front: seq<ItemRow>, rows: seq<ItemRow>)
    requires rows != []
    ensures front + rows == (front + rows[..|rows| - 1]) + [rows[|rows| - 1]]
  {
  }

  lemma OneRowMore(rows: seq<ItemRow>, row: ItemRow)
    ensures Grouped(rows + [row]) == AddRowTo(Grouped(rows), row)
  {
    assert (rows + [row])[..|rows|] == rows;
  }

  ghost predicate DecreasingFrom(bound: int, changes: seq<Change>)
    decreases |changes|
  {
    changes == [] || (changes[0].version < bound && DecreasingFrom(changes[0].version, changes[1..]))
  }

  /** The last change grouped so far is newer than everything still to come. */
  ghost predicate EndsAbove(front: seq<ItemRow>, bound: int) {
    front == [] || (Grouped(front) != [] && Grouped(front)[|Grouped(front)| - 1].version >= bound)
  }

  /** The groups from index `from` on are the given changes. */
  ghost predicate GroupsAre(groups: seq<Change>, from: nat, changes: seq<Change>) {
    |groups| == from + |changes| && forall i :: 0 <= i < |changes| ==> SameChange(groups[from + i], changes[i])
  }

  lemma GroupsPrepend(groups: seq<Change>, from: nat, changes: seq<Change>)
    requires changes != [] && from < |groups| && SameChange(groups[from], changes[0])
    requires GroupsAre(groups, from + 1, changes[1..])
    ensures GroupsAre(groups, from, changes)
  {
    forall i | 0 <= i < |changes| ensures SameChange(groups[from + i], changes[i]) {
      if i > 0 {
        assert SameChange(groups[(from + 1) + (i - 1)], changes[1..][i - 1]);
      }
    }
  }

  lemma FirstChangeRows(rows: seq<ItemRow>, changes: seq<Change>, bound: int) returns (k: nat)
    requires changes != [] && Listing(rows, changes) && DecreasingFrom(bound, changes)
    ensures 0 < k <= |rows| && RowsOfChange(rows[..k], changes[0]) && Listing(rows[k..], changes[1..])
    ensures changes[0].version < bound && DecreasingFrom(changes[0].version, changes[1..])
  {
    k :| 0 < k <= |rows| && RowsOfChange(rows[..k], changes[0]) && Listing(rows[k..], changes[1..]);
  }

  /** The rows of one change, behind rows of newer ones, become that change. */
  lemma GroupFirst(front: seq<ItemRow>, mine: seq<ItemRow>, ch: Change, bound: int)
    requires RowsOfChange(mine, ch) && ch.version < bound && EndsAbove(front, bound)
    ensures var groups := Grouped(front + mine);
            && |groups| == |Grouped(front)| + 1 && Grouped(front) <= groups
            && SameChange(groups[|Grouped(front)|], ch)
            && EndsAbove(front + mine, ch.version)
  {
    GroupOneChange(front, mine, ch.version);
  }

  lemma {:induction false} GroupListing(front: seq<ItemRow>, rows: seq<ItemRow>, changes: seq<Change>, bound: int)
    requires Listing(rows, changes) && DecreasingFrom(bound, changes) && EndsAbove(front, bound)
    ensures GroupsAre(Grouped(front + rows), |Grouped(front)|, changes)
    ensures Grouped(front) <= Grouped(front + rows)
    decreases |changes|
  {
    if changes == [] {
      assert front + rows == front;
    } else {
      var k := FirstChangeRows(rows, changes, bound);
      hide *;
      GroupFirst(front, rows[..k], changes[0], bound);
      var next := front + rows[..k];
      SplitRows(front, rows, k);
      GroupListing(next, rows[k..], changes[1..], changes[0].version);
      assert Grouped(front + rows)[|Grouped(front)|] == Grouped(next)[|Grouped(front)|];
      GroupsPrepend(Grouped(front + rows), |Grouped(front)|, changes);
    }
  }

  lemma SplitRows(front: seq<ItemRow>, rows: seq<ItemRow>, k: nat)
    requires k <= |rows|
    ensures front + rows == (front + rows[..k]) + rows[k..]
  {
  }

  /** However the database orders the rows inside a version, replay over the grouped rows is replay over the log. */
  lemma ReplayOfGroupedRows(m: State, rows: seq<ItemRow>, changes: seq<Change>, bound: int, target: int)
    requires Listing(rows, changes) && DecreasingFrom(bound, changes)
    ensures Replay(m, Grouped(rows), target) == Replay(m, changes, target)
  {
    GroupListing([], rows, changes, bound);
    assert [] + rows == rows;
    assert Grouped([]) == [];
    assert forall i :: 0 <= i < |changes| ==> SameChange(Grouped(rows)[0 + i], changes[i]);
    ReplayOrderIrrelevant(m, Grouped(rows), changes, target);
  }
}
