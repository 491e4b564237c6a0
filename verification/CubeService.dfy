/** The cube tables and the statements a commit runs over them. */
module CubeService {
  import opened Wrappers
  import opened CubeReplay
  import opened CubeHistory

  // ---------------------------------------------------------------------
  // Statements
  // ---------------------------------------------------------------------

  /** `update … set quantity = quantity - n`: rows that are not there are not touched, rows at 0 stay. */
  function SubtractRow(m: State, d: Delta): State {
    if d.oracle in m then m[d.oracle := m[d.oracle].(quantity := m[d.oracle].quantity - d.quantity)] else m
  }

  function SubtractRows(m: State, ds: seq<Delta>): State {
    if ds == [] then m else SubtractRow(SubtractRows(m, ds[..|ds| - 1]), ds[|ds| - 1])
  }

  /** `delete … where quantity <= 0` */
  function Purge(m: State): State {
    map o | o in m && m[o].quantity > 0 :: m[o]
  }

  lemma {:induction false} SubtractRowsElsewhere(m: State, ds: seq<Delta>, o: Id)
    requires !Names(ds, o)
    ensures At(SubtractRows(m, ds), o) == At(m, o)
  {
    if ds != [] {
      assert ds[|ds| - 1] in ds;
      assert forall d :: d in ds[..|ds| - 1] ==> d in ds;
      SubtractRowsElsewhere(m, ds[..|ds| - 1], o);
    }
  }

  lemma {:induction false} SubtractRowsAt(m: State, ds: seq<Delta>, d: Delta)
    requires OneRowPerOracle(ds) && d in ds
    ensures At(SubtractRows(m, ds), d.oracle) == At(SubtractRow(m, d), d.oracle)
  {
    var front := ds[..|ds| - 1];
    OnlyOnce(ds, d);
    if d == ds[|ds| - 1] {
      SubtractRowsElsewhere(m, front, d.oracle);
    } else {
      SubtractRowsAt(m, front, d);
    }
  }

  /** Subtracting row by row and purging once is subtracting with deletion at every line. */
  lemma PurgeOnce(m: State, ds: seq<Delta>)
    requires StateOk(m) && OneRowPerOracle(ds) && Positive(ds)
    ensures Purge(SubtractRows(m, ds)) == SubtractAll(m, ds)
  {
    forall o ensures At(Purge(SubtractRows(m, ds)), o) == At(SubtractAll(m, ds), o) {
      if Names(ds, o) {
        var d :| d in ds && d.oracle == o;
        SubtractRowsAt(m, ds, d);
        SubtractAllAt(m, ds, d);
      } else {
        SubtractRowsElsewhere(m, ds, o);
        SubtractAllElsewhere(m, ds, o);
      }
    }
    SameEverywhere(Purge(SubtractRows(m, ds)), SubtractAll(m, ds));
  }

  /** What the statements leave is what the diff promised, whatever order its lines are run in. */
  lemma StatementsRefineApply(m: State, adds: seq<Delta>, removes: seq<Delta>, adds': seq<Delta>, removes': seq<Delta>)
    requires StateOk(m) && ValidDiff(m, adds, removes) && Positive(adds) && Positive(removes)
    requires SameLines(adds, adds') && SameLines(removes, removes')
    ensures Purge(SubtractRows(AddAll(m, adds'), removes')) == Apply(m, adds, removes)
  {
    AddAllKeepsState(m, adds);
    AddOrderIrrelevant(m, adds, adds');
    SubtractOrderIrrelevant(AddAll(m, adds), removes, removes');
    assert Positive(removes');
    PurgeOnce(AddAll(m, adds), removes');
  }

  /** The check constraint `quantity >= 0` never fires while a validated diff is run. */
  lemma NeverNegative(m: State, adds: seq<Delta>, removes: seq<Delta>, n: nat)
    requires StateOk(m) && ValidDiff(m, adds, removes) && Positive(adds) && n <= |removes|
    ensures var during := SubtractRows(AddAll(m, adds), removes[..n]);
            forall o :: o in during ==> during[o].quantity >= 0
  {
    var during := SubtractRows(AddAll(m, adds), removes[..n]);
    AddAllKeepsState(m, adds);
    forall o | o in during ensures during[o].quantity >= 0 {
      assert At(during, o) == Some(during[o]);
      if Names(removes[..n], o) {
        var r :| r in removes[..n] && r.oracle == o;
        assert r in removes;
        assert !Names(adds, o);
        SubtractRowsAt(AddAll(m, adds), removes[..n], r);
        AddAllElsewhere(m, adds, o);
      } else {
        SubtractRowsElsewhere(AddAll(m, adds), removes[..n], o);
        assert At(AddAll(m, adds), o).Some?;
      }
    }
  }

  // ---------------------------------------------------------------------
  // The changelog query
  // ---------------------------------------------------------------------

  function RowsWith(version: int, kind: Kind, ds: seq<Delta>): seq<ItemRow> {
    seq(|ds|, i requires 0 <= i < |ds| => ItemRow(version, kind, ds[i]))
  }

  function ChangesAfter(log: seq<Change>, version: int): seq<Change> {
    if log == [] || log[|log| - 1].version <= version then []
    else [log[|log| - 1]] + ChangesAfter(log[..|log| - 1], version)
  }

  function RowsAfter(log: seq<Change>, version: int): seq<ItemRow> {
    if log == [] || log[|log| - 1].version <= version then []
    else
      var ch := log[|log| - 1];
      (RowsWith(ch.version, AddRow, ch.adds) + RowsWith(ch.version, RemoveRow, ch.removes))
      + RowsAfter(log[..|log| - 1], version)
  }

  lemma {:induction false} LinesOfRows(front: seq<ItemRow>, version: int, kind: Kind, ds: seq<Delta>, want: Kind)
    ensures LinesOf(front + RowsWith(version, kind, ds), want) == LinesOf(front, want) + if kind == want then ds else []
  {
    var rows := RowsWith(version, kind, ds);
    if ds == [] {
      assert front + rows == front;
    } else {
      var n := |ds| - 1;
      LinesOfRows(front, version, kind, ds[..n], want);
      assert RowsWith(version, kind, ds[..n]) == rows[..n];
      assert (front + rows)[..|front + rows| - 1] == front + rows[..n];
      assert ds == ds[..n] + [ds[n]];
    }
  }

  lemma Nothing<T>(s: seq<T>)
    ensures [] + s == s && s + [] == s
  {
  }

  lemma LinesOfChange(ch: Change)
    ensures var rows := RowsWith(ch.version, AddRow, ch.adds) + RowsWith(ch.version, RemoveRow, ch.removes);
            LinesOf(rows, AddRow) == ch.adds && LinesOf(rows, RemoveRow) == ch.removes
  {
    var adds := RowsWith(ch.version, AddRow, ch.adds);
    assert LinesOf([], AddRow) == [] && LinesOf([], RemoveRow) == [];
    hide LinesOf, RowsWith;
    Nothing(adds);
    Nothing(ch.adds);
    Nothing(ch.removes);
    LinesOfRows([], ch.version, AddRow, ch.adds, AddRow);
    LinesOfRows([], ch.version, AddRow, ch.adds, RemoveRow);
    LinesOfRows(adds, ch.version, RemoveRow, ch.removes, AddRow);
    LinesOfRows(adds, ch.version, RemoveRow, ch.removes, RemoveRow);
  }

  lemma RowsAreOfChange(ch: Change)
    requires ChangeOk(ch)
    ensures RowsOfChange(RowsWith(ch.version, AddRow, ch.adds) + RowsWith(ch.version, RemoveRow, ch.removes), ch)
  {
    LinesOfChange(ch);
    hide LinesOf, Positive, OneRowPerOracle;
  }

  lemma {:induction false} RowsAfterList(log: seq<Change>, version: int)
    requires forall i :: 0 <= i < |log| ==> ChangeOk(log[i])
    ensures Listing(RowsAfter(log, version), ChangesAfter(log, version))
  {
    if log != [] && log[|log| - 1].version > version {
      var front, ch := log[..|log| - 1], log[|log| - 1];
      RowsAfterList(front, version);
      RowsAreOfChange(ch);
      hide RowsOfChange, RowsWith;
      var mine := RowsWith(ch.version, AddRow, ch.adds) + RowsWith(ch.version, RemoveRow, ch.removes);
      ListingPrepend(mine, RowsAfter(front, version), ch, ChangesAfter(front, version));
    }
  }

  lemma ListingPrepend(mine: seq<ItemRow>, rest: seq<ItemRow>, ch: Change, changes: seq<Change>)
    requires RowsOfChange(mine, ch) && Listing(rest, changes)
    ensures Listing(mine + rest, [ch] + changes)
  {
    var k := |mine|;
    assert mine != [] && (mine + rest)[..k] == mine && (mine + rest)[k..] == rest;
    assert ([ch] + changes)[1..] == changes;
  }

  lemma {:induction false} ChangesAfterDecrease(log: seq<Change>, version: int)
    requires forall i :: 0 <= i < |log| ==> log[i].version == i + 1
    ensures DecreasingFrom(|log| + 1, ChangesAfter(log, version))
  {
    if log != [] && log[|log| - 1].version > version {
      ChangesAfterDecrease(log[..|log| - 1], version);
      assert ChangesAfter(log, version)[1..] == ChangesAfter(log[..|log| - 1], version);
    }
  }

  /** Asking only for newer changes loses nothing: replay stops at the others anyway. */
  lemma {:induction false} ReplayChangesAfter(m: State, log: seq<Change>, version: int)
    ensures Replay(m, ChangesAfter(log, version), version) == Replay(m, NewestFirst(log), version)
    decreases |log|
  {
    if log != [] && log[|log| - 1].version > version {
      var front, ch := log[..|log| - 1], log[|log| - 1];
      ReplayChangesAfter(Invert(m, ch), front, version);
      assert ChangesAfter(log, version)[1..] == ChangesAfter(front, version);
      assert NewestFirst(log)[1..] == NewestFirst(front);
    }
  }

  lemma AddRowKeepsPositive(changes: seq<Change>, row: ItemRow)
    requires PositiveChanges(changes) && row.line.quantity > 0
    ensures PositiveChanges(AddRowTo(changes, row))
  {
    assert forall ch, d :: ch in changes && (d in ch.adds || d in ch.removes) ==> d.quantity > 0;
  }

  lemma {:induction false} PositiveAfterGrouping(rows: seq<ItemRow>)
    requires forall r :: r in rows ==> r.line.quantity > 0
    ensures PositiveChanges(Grouped(rows))
  {
    if rows != [] {
      assert forall r :: r in rows[..|rows| - 1] ==> r in rows;
      assert rows[|rows| - 1] in rows;
      PositiveAfterGrouping(rows[..|rows| - 1]);
      hide AddRowTo, PositiveChanges;
      AddRowKeepsPositive(Grouped(rows[..|rows| - 1]), rows[|rows| - 1]);
    }
  }

  // ---------------------------------------------------------------------
  // The service
  // ---------------------------------------------------------------------

  datatype ServiceError = NotFound | Forbidden | Refused(error: CommitError)

  class CubeStore {
    const owner: int
    const isPrivate: bool
    var cards: State
    var version: nat
    var log: seq<Change>

    ghost function Contents(): Cube
      reads this
    {
      Cube(cards, version, log)
    }

    constructor (owner: int, isPrivate: bool)
      ensures Contents() == EMPTY_CUBE && CubeOk(Contents())
    {
      this.owner := owner;
      this.isPrivate := isPrivate;
      cards := map[];
      version := 0;
      log := [];
    }

    /** Insert or increment; an existing row keeps its printing. */
    method AddCubeCard(d: Delta)
      modifies this`cards
      ensures cards == AddOne(old(cards), d)
    {
      if d.oracle in cards {
        cards := cards[d.oracle := cards[d.oracle].(quantity := cards[d.oracle].quantity + d.quantity)];
      } else {
        cards := cards[d.oracle := d];
      }
    }

    method RemoveCubeCardQuantity(d: Delta)
      modifies this`cards
      ensures cards == SubtractRow(old(cards), d)
    {
      if d.oracle in cards {
        cards := cards[d.oracle := cards[d.oracle].(quantity := cards[d.oracle].quantity - d.quantity)];
      }
    }

    method DeleteDepletedCubeCards()
      modifies this`cards
      ensures cards == Purge(old(cards))
    {
      cards := map o | o in cards && cards[o].quantity > 0 :: cards[o];
    }

    /** Resolve the lines of a commit, or name the first one that cannot be resolved. */
    method Resolve(catalogue: Catalogue, adds: seq<AddInput>, removes: seq<RemoveInput>)
      returns (r: Result<(seq<Delta>, seq<Delta>), CommitError>)
      ensures r.Ok? <==> Resolvable(Contents(), catalogue, adds, removes)
      ensures r.Ok? ==> r.value == (ResolveAdds(catalogue, adds), ResolveRemoves(cards, removes))
    {
      var addLines: seq<Delta> := [];
      for i := 0 to |adds|
        invariant forall j :: 0 <= j < i ==> adds[j].printing in catalogue
        invariant |addLines| == i
        invariant forall j :: 0 <= j < i ==>
                    addLines[j] == Entry(catalogue[adds[j].printing], adds[j].printing, adds[j].quantity)
      {
        if adds[i].printing !in catalogue {
          assert adds[i] in adds;
          return Err(UnknownCard(adds[i].printing));
        }
        addLines := addLines + [Entry(catalogue[adds[i].printing], adds[i].printing, adds[i].quantity)];
      }
      var removeLines: seq<Delta> := [];
      for i := 0 to |removes|
        invariant forall j :: 0 <= j < i ==> removes[j].oracle in cards
        invariant |removeLines| == i
        invariant forall j :: 0 <= j < i ==>
                    removeLines[j] == Entry(removes[j].oracle, cards[removes[j].oracle].printing, removes[j].quantity)
      {
        if removes[i].oracle !in cards {
          assert removes[i] in removes;
          return Err(NotInCube(removes[i].oracle));
        }
        removeLines := removeLines + [Entry(removes[i].oracle, cards[removes[i].oracle].printing, removes[i].quantity)];
      }
      assert addLines == ResolveAdds(catalogue, adds);
      assert removeLines == ResolveRemoves(cards, removes);
      return Ok((addLines, removeLines));
    }

    /** The statements of a validated commit. */
    method RunStatements(adds: seq<Delta>, removes: seq<Delta>)
      requires StateOk(cards) && ValidDiff(cards, adds, removes) && Positive(adds) && Positive(removes)
      modifies this`cards
      ensures cards == Apply(old(cards), adds, removes)
    {
      ghost var before := cards;
      TakeAll(adds);
      for i := 0 to |adds|
        invariant cards == AddAll(before, adds[..i])
      {
        TakeNext(adds, i);
        AddCubeCard(adds[i]);
      }
      TakeAll(removes);
      NeverNegative(before, adds, removes, 0);
      for i := 0 to |removes|
        invariant cards == SubtractRows(AddAll(before, adds), removes[..i])
        invariant forall o :: o in cards ==> cards[o].quantity >= 0
      {
        TakeNext(removes, i);
        RemoveCubeCardQuantity(removes[i]);
        NeverNegative(before, adds, removes, i + 1);
      }
      StatementsRefineApply(before, adds, removes, adds, removes);
      DeleteDepletedCubeCards();
    }

    /** Commit a diff: all of it, as one new version, or none of it. */
    method ApplyChange(catalogue: Catalogue, author: int, expected: int, adds: seq<AddInput>, removes: seq<RemoveInput>)
      returns (r: Result<nat, ServiceError>)
      requires CubeOk(Contents()) && PositiveAction(DoCommit(expected, adds, removes))
      modifies this
      ensures CubeOk(Contents())
      ensures r.Ok? <==> author == owner && Accepts(old(Contents()), catalogue, expected, adds, removes)
      ensures r.Ok? ==> Contents() == Commit(old(Contents()), catalogue, expected, adds, removes) && r.value == version
      ensures r.Err? ==> Contents() == old(Contents())
      ensures author != owner ==> r == Err(if isPrivate then NotFound else Forbidden)
      ensures author == owner && expected != old(version) ==> r == Err(Refused(VersionConflict))
    {
      hide CubeOk, ValidDiff, ResolveAdds, ResolveRemoves, Apply;
      if owner != author {
        return Err(if isPrivate then NotFound else Forbidden);
      }
      if version != expected {
        return Err(Refused(VersionConflict));
      }
      assert StateOk(cards) by { CubeStateOk(Contents()); }
      var current := ListCards();
      EntriesPositive(current, cards);
      var resolved := Resolve(catalogue, adds, removes);
      if resolved.Err? {
        return Err(Refused(resolved.error));
      }
      var addLines, removeLines := resolved.value.0, resolved.value.1;
      var error := ValidateDiff(current, addLines, removeLines);
      if error.Some? {
        return Err(Refused(Invalid));
      }
      StepKeepsCube(Contents(), catalogue, DoCommit(expected, adds, removes));
      ResolvedPositive(catalogue, adds);
      ResolvedRemovesPositive(cards, removes);
      RunStatements(addLines, removeLines);
      log := log + [Change(version + 1, addLines, removeLines)];
      version := version + 1;
      return Ok(version);
    }

    /** The read half of a swap: the row, and the printing's card. */
    method CheckPrinting(catalogue: Catalogue, viewer: int, oracle: Id, printing: Id)
      returns (error: Option<ServiceError>)
      ensures error.None? <==> viewer == owner && MaySwap(Contents(), catalogue, oracle, printing)
      ensures viewer != owner ==> error == Some(if isPrivate then NotFound else Forbidden)
    {
      if viewer != owner {
        return Some(if isPrivate then NotFound else Forbidden);
      }
      if oracle !in cards || cards[oracle].printing == printing
         || printing !in catalogue || catalogue[printing] != oracle {
        return Some(Refused(Invalid));
      }
      return None;
    }

    /**
     The write half, a statement of its own: commits and other swaps may have
     come in between, so the row may be gone or have the printing already.
     Either way it acts as a swap at the moment of the write.
     */
    method SetCubeCardPrinting(ghost catalogue: Catalogue, oracle: Id, printing: Id)
      requires printing in catalogue && catalogue[printing] == oracle
      modifies this`cards
      ensures Contents() == SwapPrinting(old(Contents()), catalogue, oracle, printing)
    {
      if oracle in cards {
        assert cards[oracle].printing == printing ==> cards[oracle := cards[oracle]] == cards;
        cards := cards[oracle := cards[oracle].(printing := printing)];
      }
    }

    /** Both halves with nothing in between. */
    method ChangePrinting(catalogue: Catalogue, viewer: int, oracle: Id, printing: Id)
      returns (error: Option<ServiceError>)
      modifies this`cards
      ensures error.None? <==> viewer == owner && MaySwap(old(Contents()), catalogue, oracle, printing)
      ensures Contents() == if error.None? then SwapPrinting(old(Contents()), catalogue, oracle, printing)
          else old(Contents())
    {
      error := CheckPrinting(catalogue, viewer, oracle, printing);
      if error.None? {
        SetCubeCardPrinting(catalogue, oracle, printing);
      }
    }

    /** The changelog query: newest version first, no promise on the order inside a version. */
    method ListChangeItemsAfterVersion(after: int) returns (rows: seq<ItemRow>)
      requires CubeOk(Contents())
      ensures Listing(rows, ChangesAfter(log, after))
      ensures forall r :: r in rows ==> r.line.quantity > 0
    {
      rows := RowsAfter(log, after);
      RowsAfterList(log, after);
      PositiveRows(log, after);
    }

    /** The stored rows, in no promised order: they are served by card name, which no row here carries. */
    method ListCards() returns (rows: seq<Entry>)
      requires StateOk(cards)
      ensures IsStateOf(rows, cards)
    {
      rows := [];
      var left := cards.Keys;
      while left != {}
        invariant left <= cards.Keys
        invariant OneRowPerOracle(rows)
        invariant forall e :: e in rows <==> e.oracle in cards && e.oracle !in left && cards[e.oracle] == e
        decreases left
      {
        assert (forall o :: o !in left) ==> left == {};
        var o :| o in left;
        rows := rows + [cards[o]];
        left := left - {o};
      }
    }

    /**
     The list at a version. -1 means now; a version not reached yet is not
     found; anything older is rebuilt from the changelog, in oracle order.
     */
    method GetCards(viewer: int, atVersion: int) returns (r: Result<(seq<Entry>, int), ServiceError>)
      requires CubeOk(Contents())
      ensures r.Err? <==> (isPrivate && viewer != owner) || atVersion > version
      ensures r.Err? ==> r.error == NotFound
      ensures r.Ok? ==>
                && r.value.1 == (if atVersion == -1 then version else atVersion)
                && (r.value.1 < version ==> SortedByOracle(r.value.0))
                && IsStateOf(r.value.0, Replay(cards, NewestFirst(log), r.value.1))
    {
      if (isPrivate && viewer != owner) || atVersion > version {
        return Err(NotFound);
      }
      var current := ListCards();
      if atVersion == -1 || atVersion == version {
        ReplayNothing(Contents());
        return Ok((current, version));
      }
      var rows := ListChangeItemsAfterVersion(atVersion);
      var changes := GroupChanges(rows);
      PositiveAfterGrouping(rows);
      EntriesPositive(current, cards);
      ChangesAfterDecrease(log, atVersion);
      ReplayOfGroupedRows(cards, rows, ChangesAfter(log, atVersion), |log| + 1, atVersion);
      ReplayChangesAfter(cards, log, atVersion);
      var past := ReplayBackwards(current, changes, atVersion);
      return Ok((past, atVersion));
    }
  }

  lemma CubeStateOk(cube: Cube)
    requires CubeOk(cube)
    ensures StateOk(cube.cards)
  {
  }

  /** The list has `n` of card `o`. */
  ghost predicate Lists(entries: seq<Entry>, o: Id, n: int) {
    exists e :: e in entries && e.oracle == o && e.quantity == n
  }

  /**
   The list served for an old version has the cards that cube had, in its
   numbers; unless a printing was swapped since, it has the very entries the
   cube listed then, in whatever order, and is the same list as any other one
   in oracle order.
   */
  lemma ServedListIsThePast(past: Cube, catalogue: Catalogue, actions: seq<Action>, served: seq<Entry>,
                            original: seq<Entry>)
    requires CubeOk(past) && PositiveActions(actions)
    requires var now := Run(past, catalogue, actions);
             IsStateOf(served, Replay(now.cards, NewestFirst(now.log), past.version)) && SortedByOracle(served)
    requires IsStateOf(original, past.cards)
    ensures forall o, n :: Lists(served, o, n) <==> Lists(original, o, n)
    ensures NoSwaps(actions) ==> forall e :: e in served <==> e in original
    ensures NoSwaps(actions) && SortedByOracle(original) ==> served == original
  {
    var now := Run(past, catalogue, actions);
    var replayed := Replay(now.cards, NewestFirst(now.log), past.version);
    ReplayRecoversPast(past, catalogue, actions);
    if NoSwaps(actions) && SortedByOracle(original) {
      SortedListUnique(served, original);
    }
    SameNumbers(served, replayed, original, past.cards);
  }

  lemma SameNumbers(a: seq<Entry>, m: State, b: seq<Entry>, n: State)
    requires IsStateOf(a, m) && IsStateOf(b, n) && SameQuantities(m, n)
    ensures forall o, q :: Lists(a, o, q) <==> Lists(b, o, q)
  {
    forall o, q ensures Lists(a, o, q) <==> Lists(b, o, q) {
      if e :| e in a && e.oracle == o && e.quantity == q {
        assert n[o] in b;
      }
      if e :| e in b && e.oracle == o && e.quantity == q {
        assert m[o] in a;
      }
    }
  }

  lemma {:induction false} PositiveRows(log: seq<Change>, after: int)
    requires forall i :: 0 <= i < |log| ==> ChangeOk(log[i])
    ensures forall r :: r in RowsAfter(log, after) ==> r.line.quantity > 0
  {
    if log != [] && log[|log| - 1].version > after {
      var ch := log[|log| - 1];
      PositiveRows(log[..|log| - 1], after);
      forall r | r in RowsWith(ch.version, AddRow, ch.adds) + RowsWith(ch.version, RemoveRow, ch.removes)
        ensures r.line.quantity > 0
      {
        assert r.line in ch.adds || r.line in ch.removes;
      }
    }
  }

  lemma EntriesPositive(entries: seq<Entry>, m: State)
    requires IsStateOf(entries, m) && StateOk(m)
    ensures Positive(entries)
  {
  }
}
