/** Cube states, diffs over them, and rebuilding the past by inverting diffs. */
module CubeReplay {
  import opened Wrappers
  import Sorting

  type Id = int

  /** One oracle card in a cube, or one line of a diff: a printing and a count. */
  datatype Entry = Entry(oracle: Id, printing: Id, quantity: int)

  type Delta = Entry

  datatype Change = Change(version: int, adds: seq<Delta>, removes: seq<Delta>)

  type State = map<Id, Entry>

  datatype DiffError =
    | EmptyDiff | DuplicateAdd(oracle: Id) | DuplicateRemove(oracle: Id)
    | OnBothSides(oracle: Id) | RemovesTooMany(oracle: Id)

  // ---------------------------------------------------------------------
  // States
  // ---------------------------------------------------------------------

  ghost predicate KeysOk(m: State) {
    forall o :: o in m ==> m[o].oracle == o
  }

  /** What a stored cube always is: every card under its own oracle id, in a positive quantity. */
  ghost predicate StateOk(m: State) {
    KeysOk(m) && forall o :: o in m ==> m[o].quantity > 0
  }

  ghost predicate Positive(ds: seq<Delta>) {
    forall d :: d in ds ==> d.quantity > 0
  }

  function Quantity(m: State, o: Id): int {
    if o in m then m[o].quantity else 0
  }

  /** The same cards in the same numbers, whatever their printings. */
  ghost predicate SameQuantities(m: State, n: State) {
    m.Keys == n.Keys && forall o :: o in m ==> m[o].quantity == n[o].quantity
  }

  ghost predicate OneRowPerOracle(ds: seq<Delta>) {
    forall i, j :: 0 <= i < j < |ds| ==> ds[i].oracle != ds[j].oracle
  }

  ghost predicate Names(ds: seq<Delta>, o: Id) {
    exists d :: d in ds && d.oracle == o
  }

  ghost predicate IsStateOf(entries: seq<Entry>, m: State) {
    && OneRowPerOracle(entries) && KeysOk(m)
    && forall e :: e in entries <==> e.oracle in m && m[e.oracle] == e
  }

  // ---------------------------------------------------------------------
  // One line at a time
  // ---------------------------------------------------------------------

  /** Insert, or increment and keep the printing. */
  function AddOne(m: State, d: Delta): State {
    if d.oracle in m then m[d.oracle := m[d.oracle].(quantity := m[d.oracle].quantity + d.quantity)]
    else m[d.oracle := d]
  }

  /** Subtract; nothing left, no entry. */
  function SubtractOne(m: State, d: Delta): State {
    if Quantity(m, d.oracle) - d.quantity <= 0 then m - {d.oracle}
    else
      var e := if d.oracle in m then m[d.oracle] else Entry(0, 0, 0);
      m[d.oracle := e.(quantity := e.quantity - d.quantity)]
  }

  function AddAll(m: State, ds: seq<Delta>): State {
    if ds == [] then m else AddOne(AddAll(m, ds[..|ds| - 1]), ds[|ds| - 1])
  }

  function SubtractAll(m: State, ds: seq<Delta>): State {
    if ds == [] then m else SubtractOne(SubtractAll(m, ds[..|ds| - 1]), ds[|ds| - 1])
  }

  function Apply(m: State, adds: seq<Delta>, removes: seq<Delta>): State {
    SubtractAll(AddAll(m, adds), removes)
  }

  /** Undo a change: subtract what it added, restore what it removed. */
  function Invert(m: State, ch: Change): State {
    AddAll(SubtractAll(m, ch.adds), ch.removes)
  }

  /** Undo changes, newest first, down to the target version. */
  function Replay(m: State, changes: seq<Change>, target: int): State
    decreases |changes|
  {
    if changes == [] || changes[0].version <= target then m
    else Replay(Invert(m, changes[0]), changes[1..], target)
  }

  // ---------------------------------------------------------------------
  // Key by key
  // ---------------------------------------------------------------------

  function At(m: State, o: Id): Option<Entry> {
    if o in m then Some(m[o]) else None
  }

  lemma {:induction false} AddAllElsewhere(m: State, ds: seq<Delta>, o: Id)
    requires !Names(ds, o)
    ensures At(AddAll(m, ds), o) == At(m, o)
  {
    if ds != [] {
      assert ds[|ds| - 1] in ds;
      assert forall d :: d in ds[..|ds| - 1] ==> d in ds;
      AddAllElsewhere(m, ds[..|ds| - 1], o);
    }
  }

  lemma {:induction false} SubtractAllElsewhere(m: State, ds: seq<Delta>, o: Id)
    requires !Names(ds, o)
    ensures At(SubtractAll(m, ds), o) == At(m, o)
  {
    if ds != [] {
      assert ds[|ds| - 1] in ds;
      assert forall d :: d in ds[..|ds| - 1] ==> d in ds;
      SubtractAllElsewhere(m, ds[..|ds| - 1], o);
    }
  }

  lemma OnlyOnce(ds: seq<Delta>, d: Delta)
    requires OneRowPerOracle(ds) && ds != [] && d in ds
    ensures OneRowPerOracle(ds[..|ds| - 1])
    ensures d == ds[|ds| - 1] ==> !Names(ds[..|ds| - 1], d.oracle)
    ensures d != ds[|ds| - 1] ==> d in ds[..|ds| - 1] && d.oracle != ds[|ds| - 1].oracle
  {
    var k :| 0 <= k < |ds| && ds[k] == d;
    if k == |ds| - 1 {
      forall e | e in ds[..|ds| - 1] ensures e.oracle != d.oracle {
        var j :| 0 <= j < |ds| - 1 && ds[j] == e;
      }
    } else {
      assert ds[..|ds| - 1][k] == d;
    }
  }

  lemma {:induction false} AddAllAt(m: State, ds: seq<Delta>, d: Delta)
    requires OneRowPerOracle(ds) && d in ds
    ensures At(AddAll(m, ds), d.oracle) == At(AddOne(m, d), d.oracle)
  {
    var front := ds[..|ds| - 1];
    OnlyOnce(ds, d);
    if d == ds[|ds| - 1] {
      AddAllElsewhere(m, front, d.oracle);
    } else {
      AddAllAt(m, front, d);
    }
  }

  lemma {:induction false} SubtractAllAt(m: State, ds: seq<Delta>, d: Delta)
    requires OneRowPerOracle(ds) && d in ds
    ensures At(SubtractAll(m, ds), d.oracle) == At(SubtractOne(m, d), d.oracle)
  {
    var front := ds[..|ds| - 1];
    OnlyOnce(ds, d);
    if d == ds[|ds| - 1] {
      SubtractAllElsewhere(m, front, d.oracle);
    } else {
      SubtractAllAt(m, front, d);
    }
  }

  lemma SameEverywhere(m: State, n: State)
    requires forall o :: At(m, o) == At(n, o)
    ensures m == n
  {
    forall o ensures o in m <==> o in n {
      assert At(m, o) == At(n, o);
    }
    forall o | o in m ensures m[o] == n[o] {
      assert At(m, o) == At(n, o);
    }
  }

  // ---------------------------------------------------------------------
  // Validated diffs
  // ---------------------------------------------------------------------

  /** Non-empty, each card at most once over both sides, and nothing removed that is not there. */
  ghost predicate ValidDiff(m: State, adds: seq<Delta>, removes: seq<Delta>) {
    && (adds != [] || removes != [])
    && OneRowPerOracle(adds) && OneRowPerOracle(removes)
    && (forall a, r :: a in adds && r in removes ==> a.oracle != r.oracle)
    && (forall r :: r in removes ==> r.quantity <= Quantity(m, r.oracle))
  }

  /** Removed lines carry the printing the cube had, so it can be restored. */
  ghost predicate RecordsPrintings(m: State, removes: seq<Delta>) {
    forall r :: r in removes && r.oracle in m ==> r.printing == m[r.oracle].printing
  }

  /** Committing never leaves a card with nothing of it, or under the wrong id. */
  lemma ApplyKeepsState(m: State, adds: seq<Delta>, removes: seq<Delta>)
    requires StateOk(m) && Positive(adds) && Positive(removes)
    ensures StateOk(Apply(m, adds, removes))
  {
    AddAllKeepsState(m, adds);
    SubtractAllKeepsState(AddAll(m, adds), removes);
  }

  lemma {:induction false} AddAllKeepsState(m: State, ds: seq<Delta>)
    requires StateOk(m) && Positive(ds)
    ensures StateOk(AddAll(m, ds))
  {
    if ds != [] {
      assert ds[|ds| - 1] in ds;
      assert forall d :: d in ds[..|ds| - 1] ==> d in ds;
      AddAllKeepsState(m, ds[..|ds| - 1]);
    }
  }

  lemma {:induction false} SubtractAllKeepsState(m: State, ds: seq<Delta>)
    requires StateOk(m) && Positive(ds)
    ensures StateOk(SubtractAll(m, ds))
  {
    if ds != [] {
      assert ds[|ds| - 1] in ds;
      assert forall d :: d in ds[..|ds| - 1] ==> d in ds;
      SubtractAllKeepsState(m, ds[..|ds| - 1]);
    }
  }

  lemma UndoAdd(m: State, ch: Change, a: Delta)
    requires StateOk(m) && ValidDiff(m, ch.adds, ch.removes) && Positive(ch.adds) && a in ch.adds
    ensures At(Invert(Apply(m, ch.adds, ch.removes), ch), a.oracle) == At(m, a.oracle)
  {
    var applied := Apply(m, ch.adds, ch.removes);
    assert !Names(ch.removes, a.oracle);
    AddAllAt(m, ch.adds, a);
    SubtractAllElsewhere(AddAll(m, ch.adds), ch.removes, a.oracle);
    SubtractAllAt(applied, ch.adds, a);
    AddAllElsewhere(SubtractAll(applied, ch.adds), ch.removes, a.oracle);
    assert a.quantity > 0;
  }

  lemma UndoRemove(m: State, ch: Change, r: Delta)
    requires StateOk(m) && ValidDiff(m, ch.adds, ch.removes) && RecordsPrintings(m, ch.removes)
    requires Positive(ch.removes) && r in ch.removes
    ensures At(Invert(Apply(m, ch.adds, ch.removes), ch), r.oracle) == At(m, r.oracle)
  {
    var applied := Apply(m, ch.adds, ch.removes);
    assert !Names(ch.adds, r.oracle);
    AddAllElsewhere(m, ch.adds, r.oracle);
    SubtractAllAt(AddAll(m, ch.adds), ch.removes, r);
    SubtractAllElsewhere(applied, ch.adds, r.oracle);
    AddAllAt(SubtractAll(applied, ch.adds), ch.removes, r);
    assert r.quantity > 0 && r.quantity <= Quantity(m, r.oracle);
  }

  lemma UndoElsewhere(m: State, ch: Change, o: Id)
    requires !Names(ch.adds, o) && !Names(ch.removes, o)
    ensures At(Invert(Apply(m, ch.adds, ch.removes), ch), o) == At(m, o)
  {
    var added := AddAll(m, ch.adds);
    var applied := Apply(m, ch.adds, ch.removes);
    AddAllElsewhere(m, ch.adds, o);
    SubtractAllElsewhere(added, ch.removes, o);
    SubtractAllElsewhere(applied, ch.adds, o);
    AddAllElsewhere(SubtractAll(applied, ch.adds), ch.removes, o);
  }

  /** Undoing a commit gives back exactly the cube it was made on, printings included. */
  lemma InvertUndoesApply(m: State, ch: Change)
    requires StateOk(m) && ValidDiff(m, ch.adds, ch.removes) && RecordsPrintings(m, ch.removes)
    requires Positive(ch.adds) && Positive(ch.removes)
    ensures Invert(Apply(m, ch.adds, ch.removes), ch) == m
  {
    hide ValidDiff, RecordsPrintings, Positive, StateOk;
    forall o ensures At(Invert(Apply(m, ch.adds, ch.removes), ch), o) == At(m, o) {
      if Names(ch.adds, o) {
        var a :| a in ch.adds && a.oracle == o;
        UndoAdd(m, ch, a);
      } else if Names(ch.removes, o) {
        var r :| r in ch.removes && r.oracle == o;
        UndoRemove(m, ch, r);
      } else {
        UndoElsewhere(m, ch, o);
      }
    }
    SameEverywhere(Invert(Apply(m, ch.adds, ch.removes), ch), m);
  }

  /** How many copies of a card the lines carry. */
  function Lines(ds: seq<Delta>, o: Id): int {
    if ds == [] then 0
    else Lines(ds[..|ds| - 1], o) + if ds[|ds| - 1].oracle == o then ds[|ds| - 1].quantity else 0
  }

  lemma {:induction false} LinesElsewhere(ds: seq<Delta>, o: Id)
    requires !Names(ds, o)
    ensures Lines(ds, o) == 0
  {
    if ds != [] {
      assert ds[|ds| - 1] in ds;
      assert forall d :: d in ds[..|ds| - 1] ==> d in ds;
      LinesElsewhere(ds[..|ds| - 1], o);
    }
  }

  lemma {:induction false} LinesAt(ds: seq<Delta>, d: Delta)
    requires OneRowPerOracle(ds) && d in ds
    ensures Lines(ds, d.oracle) == d.quantity
  {
    var front := ds[..|ds| - 1];
    OnlyOnce(ds, d);
    if d == ds[|ds| - 1] {
      LinesElsewhere(front, d.oracle);
    } else {
      LinesAt(front, d);
    }
  }

  /**
   Committing a valid diff moves every card's number by exactly what the lines
   say; a card that was there keeps its printing, and a new one has its line's.
   */
  lemma ApplyCounts(m: State, adds: seq<Delta>, removes: seq<Delta>, o: Id)
    requires StateOk(m) && ValidDiff(m, adds, removes) && Positive(adds) && Positive(removes)
    ensures var after := Apply(m, adds, removes);
            && Quantity(after, o) == Quantity(m, o) + Lines(adds, o) - Lines(removes, o)
            && (o in m && o in after ==> after[o].printing == m[o].printing)
            && (o !in m && o in after ==> exists a :: a in adds && a.oracle == o && after[o].printing == a.printing)
  {
    if Names(adds, o) {
      var a :| a in adds && a.oracle == o;
      assert !Names(removes, o);
      AddAllAt(m, adds, a);
      SubtractAllElsewhere(AddAll(m, adds), removes, o);
      LinesAt(adds, a);
      LinesElsewhere(removes, o);
      hide AddAll, SubtractAll, Lines, ValidDiff;
      CountsOf(Apply(m, adds, removes), AddOne(m, a), o);
    } else if Names(removes, o) {
      var r :| r in removes && r.oracle == o;
      AddAllElsewhere(m, adds, o);
      SubtractAllAt(AddAll(m, adds), removes, r);
      LinesAt(removes, r);
      LinesElsewhere(adds, o);
      assert r.quantity <= Quantity(m, o);
      hide AddAll, SubtractAll, Lines, ValidDiff;
      CountsOf(Apply(m, adds, removes), SubtractOne(AddAll(m, adds), r), o);
      CountsOf(AddAll(m, adds), m, o);
    } else {
      AddAllElsewhere(m, adds, o);
      SubtractAllElsewhere(AddAll(m, adds), removes, o);
      LinesElsewhere(adds, o);
      LinesElsewhere(removes, o);
      hide AddAll, SubtractAll, Lines, ValidDiff;
      CountsOf(Apply(m, adds, removes), m, o);
    }
  }

  lemma CountsOf(m: State, n: State, o: Id)
    requires At(m, o) == At(n, o)
    ensures Quantity(m, o) == Quantity(n, o) && (o in m <==> o in n) && (o in m ==> m[o] == n[o])
  {
  }

  // ---------------------------------------------------------------------
  // Printings and order do not matter to quantities
  // ---------------------------------------------------------------------

  lemma {:induction false} AddAllSameQuantities(m: State, n: State, ds: seq<Delta>)
    requires SameQuantities(m, n)
    ensures SameQuantities(AddAll(m, ds), AddAll(n, ds))
  {
    if ds != [] {
      AddAllSameQuantities(m, n, ds[..|ds| - 1]);
    }
  }

  lemma {:induction false} SubtractAllSameQuantities(m: State, n: State, ds: seq<Delta>)
    requires SameQuantities(m, n)
    ensures SameQuantities(SubtractAll(m, ds), SubtractAll(n, ds))
  {
    if ds != [] {
      SubtractAllSameQuantities(m, n, ds[..|ds| - 1]);
    }
  }

  /** Replay never looks at a printing to decide a quantity. */
  lemma {:induction false} ReplaySameQuantities(m: State, n: State, changes: seq<Change>, target: int)
    requires SameQuantities(m, n)
    ensures SameQuantities(Replay(m, changes, target), Replay(n, changes, target))
    decreases |changes|
  {
    if changes != [] && changes[0].version > target {
      var ch := changes[0];
      SubtractAllSameQuantities(m, n, ch.adds);
      AddAllSameQuantities(SubtractAll(m, ch.adds), SubtractAll(n, ch.adds), ch.removes);
      ReplaySameQuantities(Invert(m, ch), Invert(n, ch), changes[1..], target);
    }
  }

  ghost predicate SameLines(ds: seq<Delta>, es: seq<Delta>) {
    OneRowPerOracle(ds) && OneRowPerOracle(es) && forall d :: d in ds <==> d in es
  }

  lemma AddOrderIrrelevant(m: State, ds: seq<Delta>, es: seq<Delta>)
    requires SameLines(ds, es)
    ensures AddAll(m, ds) == AddAll(m, es)
  {
    forall o ensures At(AddAll(m, ds), o) == At(AddAll(m, es), o) {
      if Names(ds, o) {
        var d :| d in ds && d.oracle == o;
        AddAllAt(m, ds, d);
        AddAllAt(m, es, d);
      } else {
        AddAllElsewhere(m, ds, o);
        AddAllElsewhere(m, es, o);
      }
    }
    SameEverywhere(AddAll(m, ds), AddAll(m, es));
  }

  lemma SubtractOrderIrrelevant(m: State, ds: seq<Delta>, es: seq<Delta>)
    requires SameLines(ds, es)
    ensures SubtractAll(m, ds) == SubtractAll(m, es)
  {
    forall o ensures At(SubtractAll(m, ds), o) == At(SubtractAll(m, es), o) {
      if Names(ds, o) {
        var d :| d in ds && d.oracle == o;
        SubtractAllAt(m, ds, d);
        SubtractAllAt(m, es, d);
      } else {
        SubtractAllElsewhere(m, ds, o);
        SubtractAllElsewhere(m, es, o);
      }
    }
    SameEverywhere(SubtractAll(m, ds), SubtractAll(m, es));
  }

  /** The lines of a diff may come in any order. */
  lemma ApplyOrderIrrelevant(m: State, adds: seq<Delta>, removes: seq<Delta>, adds': seq<Delta>, removes': seq<Delta>)
    requires SameLines(adds, adds') && SameLines(removes, removes')
    ensures Apply(m, adds, removes) == Apply(m, adds', removes')
  {
    AddOrderIrrelevant(m, adds, adds');
    SubtractOrderIrrelevant(AddAll(m, adds), removes, removes');
  }

  /** The same change, its lines in any order. */
  ghost predicate SameChange(c: Change, d: Change) {
    c.version == d.version && SameLines(c.adds, d.adds) && SameLines(c.removes, d.removes)
  }

  lemma {:induction false} ReplayOrderIrrelevant(m: State, cs: seq<Change>, ds: seq<Change>, target: int)
    requires |cs| == |ds| && forall i :: 0 <= i < |cs| ==> SameChange(cs[i], ds[i])
    ensures Replay(m, cs, target) == Replay(m, ds, target)
    decreases |cs|
  {
    if cs != [] {
      assert SameChange(cs[0], ds[0]);
      if cs[0].version > target {
        SubtractOrderIrrelevant(m, cs[0].adds, ds[0].adds);
        AddOrderIrrelevant(SubtractAll(m, cs[0].adds), cs[0].removes, ds[0].removes);
        ReplayOrderIrrelevant(Invert(m, cs[0]), cs[1..], ds[1..], target);
      }
    }
  }

  /** Going back in two stages is going back in one. */
  lemma {:induction false} ReplayInStages(m: State, newer: seq<Change>, older: seq<Change>, middle: int, target: int)
    requires target <= middle
    requires forall c :: c in newer ==> c.version > middle
    requires older != [] ==> older[0].version <= middle
    ensures Replay(Replay(m, newer + older, middle), older, target) == Replay(m, newer + older, target)
    decreases |newer|
  {
    if newer == [] {
      assert newer + older == older;
    } else {
      assert newer[0] in newer;
      assert (newer + older)[1..] == newer[1..] + older;
      ReplayInStages(Invert(m, newer[0]), newer[1..], older, middle, target);
    }
  }

  // ---------------------------------------------------------------------
  // The loops
  // ---------------------------------------------------------------------

  method StateMap(entries: seq<Entry>) returns (m: State)
    requires OneRowPerOracle(entries)
    ensures IsStateOf(entries, m)
  {
    m := map[];
    for i := 0 to |entries|
      invariant IsStateOf(entries[..i], m)
    {
      var e := entries[i];
      StateMapStep(entries, i, m);
      m := m[e.oracle := e];
    }
    assert entries[..|entries|] == entries;
  }

  lemma StateMapStep(entries: seq<Entry>, i: nat, m: State)
    requires OneRowPerOracle(entries) && i < |entries| && IsStateOf(entries[..i], m)
    ensures IsStateOf(entries[..i + 1], m[entries[i].oracle := entries[i]])
  {
    var front, e := entries[..i], entries[i];
    assert entries[..i + 1] == front + [e];
    forall d | d in front ensures d.oracle != e.oracle {
      var k :| 0 <= k < i && entries[k] == d;
    }
    assert forall o :: o in m ==> m[o] in front;
  }

  ghost predicate SortedByOracle(entries: seq<Entry>) {
    forall i, j :: 0 <= i < j < |entries| ==> entries[i].oracle < entries[j].oracle
  }

  /** A sorted list is determined by the state it lists. */
  lemma {:induction false} SortedListUnique(a: seq<Entry>, b: seq<Entry>)
    requires SortedByOracle(a) && SortedByOracle(b) && forall e :: e in a <==> e in b
    ensures a == b
  {
    SameEmptiness(a, b);
    if a != [] {
      assert a[0] in b;
      assert b[0] in a;
      assert a[0] == b[0];
      forall e ensures e in a[1..] <==> e in b[1..] {
        TailMembers(a, e);
        TailMembers(b, e);
      }
      SortedListUnique(a[1..], b[1..]);
      assert a == [a[0]] + a[1..] && b == [b[0]] + b[1..];
    }
  }

  lemma SomethingInCommon(a: seq<Entry>, b: seq<Entry>)
    requires a != [] && forall e :: e in a ==> e in b
    ensures b != []
  {
    assert a[0] in b;
  }

  lemma SameEmptiness(a: seq<Entry>, b: seq<Entry>)
    requires forall e :: e in a <==> e in b
    ensures a == [] <==> b == []
  {
    if a != [] {
      SomethingInCommon(a, b);
    }
    if b != [] {
      SomethingInCommon(b, a);
    }
  }

  lemma TailMembers(a: seq<Entry>, e: Entry)
    requires SortedByOracle(a) && a != []
    ensures e in a[1..] <==> e in a && e != a[0]
  {
    if e in a[1..] {
      var k :| 0 <= k < |a[1..]| && a[1..][k] == e;
      assert a[k + 1] == e;
    }
  }

  lemma SomeMember(s: set<Id>)
    requires s != {}
    ensures exists o :: o in s
  {
    assert (forall o :: o !in s) ==> s == {};
  }

  /** The state's entries, in oracle order. */
  method Sorted(m: State) returns (out: seq<Entry>)
    requires KeysOk(m)
    ensures IsStateOf(out, m) && SortedByOracle(out)
  {
    var entries: seq<Entry> := [];
    var left := m.Keys;
    while left != {}
      invariant left <= m.Keys
      invariant OneRowPerOracle(entries)
      invariant forall e :: e in entries <==> e.oracle in m && e.oracle !in left && m[e.oracle] == e
      decreases left
    {
      SomeMember(left);
      var o :| o in left;
      left := left - {o};
      entries := entries + [m[o]];
    }
    var le := (a: Entry, b: Entry) => a.oracle <= b.oracle;
    out := Sorting.Sort(entries, le);
    StrictlySorted(entries, out, le);
  }

  lemma StrictlySorted(entries: seq<Entry>, out: seq<Entry>, le: (Entry, Entry) -> bool)
    requires OneRowPerOracle(entries) && multiset(out) == multiset(entries) && Sorting.SortedBy(le, out)
    requires forall a, b :: le(a, b) <==> a.oracle <= b.oracle
    ensures OneRowPerOracle(out) && SortedByOracle(out)
  {
    forall i, j | 0 <= i < j < |out| ensures out[i].oracle < out[j].oracle {
      assert le(out[i], out[j]);
      if out[i].oracle == out[j].oracle {
        TwoOfOne(entries, out, i, j);
      }
    }
  }

  lemma {:induction false} AtMostOnce(entries: seq<Entry>, e: Entry)
    requires OneRowPerOracle(entries)
    ensures multiset(entries)[e] <= 1
  {
    if entries != [] {
      AtMostOnce(entries[1..], e);
      assert entries == [entries[0]] + entries[1..];
      assert entries[0] !in entries[1..];
    }
  }

  lemma Twice(out: seq<Entry>, i: nat, j: nat)
    requires i < j < |out| && out[i] == out[j]
    ensures multiset(out)[out[i]] >= 2
  {
    assert out == out[..i] + [out[i]] + out[i + 1..j] + [out[j]] + out[j + 1..];
  }

  lemma TwoOfOne(entries: seq<Entry>, out: seq<Entry>, i: nat, j: nat)
    requires OneRowPerOracle(entries) && multiset(out) == multiset(entries) && i < j < |out|
    ensures out[i].oracle != out[j].oracle
  {
    var a, b := out[i], out[j];
    assert a in multiset(out) && b in multiset(out);
    assert a in entries && b in entries;
    assert a.oracle == b.oracle ==> a == b;
    AtMostOnce(entries, a);
    if a == b {
      Twice(out, i, j);
    }
  }

  /** A line removes more of a card than there is. */
  ghost predicate Overdraws(m: State, removes: seq<Delta>, o: Id) {
    exists r :: r in removes && r.oracle == o && r.quantity > Quantity(m, o)
  }

  method ValidateDiff(current: seq<Entry>, adds: seq<Delta>, removes: seq<Delta>) returns (error: Option<DiffError>)
    requires OneRowPerOracle(current)
    ensures forall m :: IsStateOf(current, m) ==> (error.None? <==> ValidDiff(m, adds, removes))
    ensures error.Some? ==>
      match error.value
      case EmptyDiff => adds == [] && removes == []
      case DuplicateAdd(o) => Names(adds, o) && !OneRowPerOracle(adds)
      case DuplicateRemove(o) => Names(removes, o) && !OneRowPerOracle(removes)
      case OnBothSides(o) => Names(adds, o) && Names(removes, o)
      case RemovesTooMany(o) => forall m :: IsStateOf(current, m) ==> Overdraws(m, removes, o)
  {
    if |adds| == 0 && |removes| == 0 {
      return Some(EmptyDiff);
    }
    var have := StateMap(current);
    var added: set<Id> := {};
    for i := 0 to |adds|
      invariant OneRowPerOracle(adds[..i])
      invariant forall o :: o in added <==> Names(adds[..i], o)
    {
      var a := adds[i];
      NamesNext(adds, i);
      if a.oracle in added {
        return Some(DuplicateAdd(a.oracle));
      }
      added := added + {a.oracle};
    }
    assert adds[..|adds|] == adds;
    var removed: set<Id> := {};
    for i := 0 to |removes|
      invariant OneRowPerOracle(removes[..i])
      invariant forall o :: o in removed <==> Names(removes[..i], o)
      invariant forall r :: r in removes[..i] ==> r.oracle !in added && r.quantity <= Quantity(have, r.oracle)
    {
      var r := removes[i];
      NamesNext(removes, i);
      assert r in removes;
      if r.oracle in added {
        return Some(OnBothSides(r.oracle));
      }
      if r.oracle in removed {
        return Some(DuplicateRemove(r.oracle));
      }
      removed := removed + {r.oracle};
      if Quantity(have, r.oracle) < r.quantity {
        assert Overdraws(have, removes, r.oracle);
        forall m | IsStateOf(current, m) ensures Overdraws(m, removes, r.oracle) {
          StateUnique(current, m, have);
        }
        return Some(RemovesTooMany(r.oracle));
      }
    }
    assert removes[..|removes|] == removes;
    return None;
  }

  lemma NamesNext(ds: seq<Delta>, i: nat)
    requires i < |ds|
    ensures forall o :: Names(ds[..i + 1], o) <==> Names(ds[..i], o) || o == ds[i].oracle
    ensures OneRowPerOracle(ds[..i]) && !Names(ds[..i], ds[i].oracle) ==> OneRowPerOracle(ds[..i + 1])
    ensures Names(ds[..i], ds[i].oracle) ==> !OneRowPerOracle(ds) && Names(ds, ds[i].oracle)
  {
    assert ds[..i + 1] == ds[..i] + [ds[i]];
    assert forall d :: d in ds[..i + 1] ==> d in ds[..i] || d == ds[i];
    forall o ensures Names(ds[..i + 1], o) <==> Names(ds[..i], o) || o == ds[i].oracle {
      if Names(ds[..i], o) {
        var d :| d in ds[..i] && d.oracle == o;
        assert d in ds[..i + 1];
      } else if o == ds[i].oracle {
        assert ds[i] in ds[..i + 1];
      }
    }
  }

  lemma StateUnique(entries: seq<Entry>, m: State, n: State)
    requires IsStateOf(entries, m) && IsStateOf(entries, n)
    ensures m == n
  {
    forall o ensures At(m, o) == At(n, o) {
      assert o in m ==> m[o] in entries;
      assert o in n ==> n[o] in entries;
    }
    SameEverywhere(m, n);
  }

  lemma StateIsOk(entries: seq<Entry>, m: State)
    requires IsStateOf(entries, m) && Positive(entries)
    ensures StateOk(m)
  {
    forall o | o in m ensures m[o].quantity > 0 {
      assert m[o] in entries;
    }
  }

  /** Add lines to a state, or take them away, in a loop over the lines. */
  method AddLines(m: State, ds: seq<Delta>) returns (state: State)
    ensures state == AddAll(m, ds)
  {
    state := m;
    for i := 0 to |ds|
      invariant state == AddAll(m, ds[..i])
    {
      var a := ds[i];
      TakeNext(ds, i);
      if a.oracle in state {
        var e := state[a.oracle];
        state := state[a.oracle := e.(quantity := e.quantity + a.quantity)];
      } else {
        state := state[a.oracle := a];
      }
    }
    TakeAll(ds);
  }

  method SubtractLines(m: State, ds: seq<Delta>) returns (state: State)
    ensures state == SubtractAll(m, ds)
  {
    state := m;
    TakeAll(ds);
    assert SubtractAll(m, []) == m;
    hide SubtractAll, SubtractOne;
    for i := 0 to |ds|
      invariant state == SubtractAll(m, ds[..i])
    {
      var r := ds[i];
      SubtractNext(m, ds, i);
      SubtractOneIs(state, r);
      var e := if r.oracle in state then state[r.oracle] else Entry(0, 0, 0);
      e := e.(quantity := e.quantity - r.quantity);
      if e.quantity <= 0 {
        state := state - {r.oracle};
      } else {
        state := state[r.oracle := e];
      }
    }
  }

  lemma SubtractNext(m: State, ds: seq<Delta>, i: nat)
    requires i < |ds|
    ensures SubtractAll(m, ds[..i + 1]) == SubtractOne(SubtractAll(m, ds[..i]), ds[i])
  {
    TakeNext(ds, i);
  }

  /** The source's line: read the entry or a zero one, subtract, store or delete. */
  lemma SubtractOneIs(m: State, r: Delta)
    ensures var e := if r.oracle in m then m[r.oracle] else Entry(0, 0, 0);
            SubtractOne(m, r) == if e.quantity - r.quantity <= 0 then m - {r.oracle}
                                 else m[r.oracle := e.(quantity := e.quantity - r.quantity)]
  {
  }

  /** Apply a validated diff: adds first, then removes. */
  method ApplyDiff(current: seq<Entry>, adds: seq<Delta>, removes: seq<Delta>) returns (out: seq<Entry>)
    requires OneRowPerOracle(current) && Positive(current) && Positive(adds) && Positive(removes)
    ensures SortedByOracle(out)
    ensures forall m :: IsStateOf(current, m) ==> IsStateOf(out, Apply(m, adds, removes))
  {
    var start := StateMap(current);
    StateIsOk(current, start);
    ApplyKeepsState(start, adds, removes);
    var state := AddLines(start, adds);
    state := SubtractLines(state, removes);
    out := Sorted(state);
    forall m | IsStateOf(current, m) ensures IsStateOf(out, Apply(m, adds, removes)) {
      StateUnique(current, m, start);
    }
  }

  ghost predicate PositiveChanges(changes: seq<Change>) {
    forall ch :: ch in changes ==> Positive(ch.adds) && Positive(ch.removes)
  }

  lemma {:induction false} ReplayKeepsState(m: State, changes: seq<Change>, target: int)
    requires StateOk(m) && PositiveChanges(changes)
    ensures StateOk(Replay(m, changes, target))
    decreases |changes|
  {
    if changes != [] && changes[0].version > target {
      assert changes[0] in changes;
      SubtractAllKeepsState(m, changes[0].adds);
      AddAllKeepsState(SubtractAll(m, changes[0].adds), changes[0].removes);
      ReplayKeepsState(Invert(m, changes[0]), changes[1..], target);
    }
  }

  /** Rebuild the state at a version by inverting newer changes. */
  method ReplayBackwards(current: seq<Entry>, changes: seq<Change>, target: int) returns (out: seq<Entry>)
    requires OneRowPerOracle(current) && Positive(current) && PositiveChanges(changes)
    ensures SortedByOracle(out)
    ensures forall m :: IsStateOf(current, m) ==> IsStateOf(out, Replay(m, changes, target))
  {
    var start := StateMap(current);
    StateIsOk(current, start);
    ReplayKeepsState(start, changes, target);
    var state := start;
    var i := 0;
    while i < |changes|
      invariant 0 <= i <= |changes|
      invariant Replay(state, changes[i..], target) == Replay(start, changes, target)
    {
      var ch := changes[i];
      assert changes[i..][0] == ch && changes[i..][1..] == changes[i + 1..];
      if ch.version <= target {
        break;
      }
      state := SubtractLines(state, ch.adds);
      state := AddLines(state, ch.removes);
      i := i + 1;
    }
    assert state == Replay(start, changes, target);
    out := Sorted(state);
    forall m | IsStateOf(current, m) ensures IsStateOf(out, Replay(m, changes, target)) {
      StateUnique(current, m, start);
    }
  }
}
