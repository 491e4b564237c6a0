/**
 The editor's net pending diff over the server's list, the preview of what
 saving will give, and when saving is accepted.
 */
module PendingDiff {
  import opened Wrappers
  import opened CubeReplay
  import opened CubeHistory

  /** What the autocomplete hands over: a printing of an oracle card. */
  datatype Card = Card(oracle: Id, printing: Id)

  datatype PendingAdd = PendingAdd(card: Card, quantity: int)
  datatype PendingRemove = PendingRemove(entry: Entry, quantity: int)

  datatype Pending = Pending(adds: map<Id, PendingAdd>, removes: map<Id, PendingRemove>)

  const EMPTY_PENDING := Pending(map[], map[])

  function Min(a: int, b: int): int {
    if a < b then a else b
  }

  /** Cancel against a pending remove first; what is left over is added, up to 99. */
  function BumpAdd(p: Pending, card: Card, n: int): Pending {
    var removed := if card.oracle in p.removes then p.removes[card.oracle].quantity else 0;
    if card.oracle in p.removes && removed > n then
      p.(removes := p.removes[card.oracle := p.removes[card.oracle].(quantity := removed - n)])
    else
      var removes := p.removes - {card.oracle};
      if card.oracle in p.removes && n == removed then p.(removes := removes)
      else
        var existing := if card.oracle in p.adds then p.adds[card.oracle].quantity else 0;
        Pending(p.adds[card.oracle := PendingAdd(card, Min(existing + n - removed, 99))], removes)
  }

  /** Cancel against a pending add first; what is left over is removed, up to the entry's quantity. */
  function BumpRemove(p: Pending, entry: Entry, n: int): Pending {
    var added := if entry.oracle in p.adds then p.adds[entry.oracle].quantity else 0;
    if entry.oracle in p.adds && added > n then
      p.(adds := p.adds[entry.oracle := p.adds[entry.oracle].(quantity := added - n)])
    else
      var adds := p.adds - {entry.oracle};
      if entry.oracle in p.adds && n == added then p.(adds := adds)
      else
        var existing := if entry.oracle in p.removes then p.removes[entry.oracle].quantity else 0;
        var quantity := Min(existing + n - added, entry.quantity);
        if quantity <= 0 then p.(adds := adds)
        else Pending(adds, p.removes[entry.oracle := PendingRemove(entry, quantity)])
  }

  function BumpAll(p: Pending, items: seq<(Card, int)>): Pending {
    if items == [] then p
    else BumpAdd(BumpAll(p, items[..|items| - 1]), items[|items| - 1].0, items[|items| - 1].1)
  }

  /** No copies of this card at all: drop pending adds, remove every server copy. */
  function RemoveAll(p: Pending, entry: Entry): Pending {
    Pending(p.adds - {entry.oracle},
            if entry.quantity > 0 then p.removes[entry.oracle := PendingRemove(entry, entry.quantity)]
            else p.removes - {entry.oracle})
  }

  /** Against a refetched list, removes shrink to what is there and refer to the fresh entries. */
  function Revalidate(p: Pending, current: State): Pending {
    p.(removes := map o | o in p.removes && o in current ::
         PendingRemove(current[o], Min(p.removes[o].quantity, current[o].quantity)))
  }

  function SetAddPrinting(p: Pending, oracle: Id, printing: Id): Pending {
    if oracle !in p.adds then p
    else p.(adds := p.adds[oracle := p.adds[oracle].(card := Card(p.adds[oracle].card.oracle, printing))])
  }

  // ---------------------------------------------------------------------
  // The editor page
  // ---------------------------------------------------------------------

  /** What the user is shown they will get. */
  function Preview(server: State, p: Pending): State {
    map o | o in server.Keys + p.adds.Keys && PreviewQuantity(server, p, o) > 0 ::
      Entry(o, if Kept(server, p, o) > 0 then server[o].printing else p.adds[o].card.printing,
            PreviewQuantity(server, p, o))
  }

  /** Server copies left once the pending removes are gone. */
  function Kept(server: State, p: Pending, o: Id): int {
    if o !in server then 0
    else
      var left := server[o].quantity - if o in p.removes then p.removes[o].quantity else 0;
      if o in p.removes && left <= 0 then 0 else left
  }

  function PreviewQuantity(server: State, p: Pending, o: Id): int {
    Kept(server, p, o) + if o in p.adds then p.adds[o].quantity else 0
  }

  /** `server` is the list the page holds; a refetch replaces it at any time, with or without a revalidation. */
  datatype Editor = Editor(server: State, pending: Pending)

  datatype Click =
    | Pick(card: Card)
    | Import(items: seq<(Card, int)>)
    | Plus(oracle: Id)
    | Minus(oracle: Id)
    | Cross(oracle: Id)
    | UndoAdd(oracle: Id)
    | UndoRemove(oracle: Id)
    | Reloaded(current: State)
    | Revalidated(current: State)
    | Discard
    | PickPrinting(oracle: Id, printing: Id)

  /** The entry a row's buttons dispatch: the server's, or the previewed one when the server has none. */
  function RowEntry(e: Editor, oracle: Id): Option<Entry> {
    if oracle in e.server then Some(e.server[oracle])
    else if oracle in Preview(e.server, e.pending) then Some(Preview(e.server, e.pending)[oracle])
    else None
  }

  function OnClick(e: Editor, c: Click): Editor {
    match c
    case Pick(card) => e.(pending := BumpAdd(e.pending, card, 1))
    case Import(items) => e.(pending := BumpAll(e.pending, items))
    case Plus(o) =>
      var row := RowEntry(e, o);
      if row.None? then e else e.(pending := BumpAdd(e.pending, Card(o, row.value.printing), 1))
    case Minus(o) =>
      var row := RowEntry(e, o);
      if row.None? then e else e.(pending := BumpRemove(e.pending, row.value, 1))
    case Cross(o) =>
      var row := RowEntry(e, o);
      if row.None? then e else e.(pending := RemoveAll(e.pending, row.value))
    case UndoAdd(o) => e.(pending := e.pending.(adds := e.pending.adds - {o}))
    case UndoRemove(o) => e.(pending := e.pending.(removes := e.pending.removes - {o}))
    case Reloaded(current) => e.(server := current)
    case Revalidated(current) => e.(pending := Revalidate(e.pending, current))
    case Discard => e.(pending := EMPTY_PENDING)
    case PickPrinting(o, printing) => e.(pending := SetAddPrinting(e.pending, o, printing))
  }

  // ---------------------------------------------------------------------
  // The invariant
  // ---------------------------------------------------------------------

  /** The card names a printing of its own oracle card. */
  ghost predicate CardOk(catalogue: Catalogue, card: Card) {
    card.printing in catalogue && catalogue[card.printing] == card.oracle
  }

  ghost predicate AddOk(catalogue: Catalogue, o: Id, a: PendingAdd) {
    a.card.oracle == o && CardOk(catalogue, a.card) && 1 <= a.quantity <= 99
  }

  /** No card on both sides, positive quantities, adds within the cap. */
  ghost predicate PendingOk(catalogue: Catalogue, p: Pending) {
    && p.adds.Keys !! p.removes.Keys
    && (forall o :: o in p.adds ==> AddOk(catalogue, o, p.adds[o]))
    && (forall o :: o in p.removes ==> p.removes[o].quantity >= 1)
  }

  ghost predicate ServerOk(catalogue: Catalogue, server: State) {
    StateOk(server) && forall o :: o in server ==> CardOk(catalogue, Card(o, server[o].printing))
  }

  ghost predicate EditorOk(catalogue: Catalogue, e: Editor) {
    ServerOk(catalogue, e.server) && PendingOk(catalogue, e.pending)
  }

  /** The list still has every copy that is to be removed. */
  ghost predicate Covered(server: State, p: Pending) {
    forall o :: o in p.removes ==> o in server && p.removes[o].quantity <= server[o].quantity
  }

  /** Clicks carry real cards and real lists; imports carry positive counts. */
  ghost predicate ClickOk(catalogue: Catalogue, c: Click) {
    match c
    case Pick(card) => CardOk(catalogue, card)
    case Import(items) => forall i :: i in items ==> CardOk(catalogue, i.0) && i.1 > 0
    case Reloaded(current) => ServerOk(catalogue, current)
    case Revalidated(current) => ServerOk(catalogue, current)
    case PickPrinting(o, printing) => CardOk(catalogue, Card(o, printing))
    case _ => true
  }

  lemma BumpAddOk(catalogue: Catalogue, server: State, p: Pending, card: Card, n: int)
    requires PendingOk(catalogue, p) && CardOk(catalogue, card) && n > 0
    ensures PendingOk(catalogue, BumpAdd(p, card, n))
    ensures Covered(server, p) ==> Covered(server, BumpAdd(p, card, n))
  {
    if card.oracle in p.adds {
      assert AddOk(catalogue, card.oracle, p.adds[card.oracle]);
    }
  }

  lemma BumpRemoveOk(catalogue: Catalogue, server: State, p: Pending, entry: Entry)
    requires PendingOk(catalogue, p) && entry.quantity > 0
    ensures PendingOk(catalogue, BumpRemove(p, entry, 1))
    ensures Covered(server, p) && (entry.oracle in p.adds || (entry.oracle in server && entry == server[entry.oracle]))
            ==> Covered(server, BumpRemove(p, entry, 1))
  {
    if entry.oracle in p.adds {
      assert AddOk(catalogue, entry.oracle, p.adds[entry.oracle]);
    }
  }

  lemma {:induction false} BumpAllOk(catalogue: Catalogue, server: State, p: Pending, items: seq<(Card, int)>)
    requires PendingOk(catalogue, p) && forall i :: i in items ==> CardOk(catalogue, i.0) && i.1 > 0
    ensures PendingOk(catalogue, BumpAll(p, items))
    ensures Covered(server, p) ==> Covered(server, BumpAll(p, items))
  {
    if items != [] {
      var n := |items| - 1;
      assert forall i :: i in items[..n] ==> i in items;
      assert items[n] in items;
      BumpAllOk(catalogue, server, p, items[..n]);
      BumpAddOk(catalogue, server, BumpAll(p, items[..n]), items[n].0, items[n].1);
    }
  }

  /** A row the server does not have is shown because of a pending add, with that add's printing and count. */
  lemma PendingOnlyRow(catalogue: Catalogue, e: Editor, o: Id)
    requires EditorOk(catalogue, e) && o !in e.server && RowEntry(e, o).Some?
    ensures o in e.pending.adds
    ensures RowEntry(e, o).value == Entry(o, e.pending.adds[o].card.printing, e.pending.adds[o].quantity)
  {
  }

  /** The entry a row's buttons dispatch is a real card in a positive quantity. */
  lemma RowIsReal(catalogue: Catalogue, e: Editor, o: Id)
    requires EditorOk(catalogue, e) && RowEntry(e, o).Some?
    ensures var row := RowEntry(e, o).value;
            row.oracle == o && row.quantity > 0 && CardOk(catalogue, Card(o, row.printing))
  {
    if o !in e.server {
      PendingOnlyRow(catalogue, e, o);
      assert AddOk(catalogue, o, e.pending.adds[o]);
    }
  }

  /** Every click, and every list the page is handed, keeps the two sides apart, positive and within the cap. */
  lemma ClickKeepsOk(catalogue: Catalogue, e: Editor, c: Click)
    requires EditorOk(catalogue, e) && ClickOk(catalogue, c)
    ensures EditorOk(catalogue, OnClick(e, c))
  {
    var p := e.pending;
    match c {
      case Pick(card) => BumpAddOk(catalogue, e.server, p, card, 1);
      case Import(items) => BumpAllOk(catalogue, e.server, p, items);
      case Plus(o) =>
        if RowEntry(e, o).Some? {
          RowIsReal(catalogue, e, o);
          BumpAddOk(catalogue, e.server, p, Card(o, RowEntry(e, o).value.printing), 1);
        }
      case Minus(o) =>
        if RowEntry(e, o).Some? {
          RowIsReal(catalogue, e, o);
          BumpRemoveOk(catalogue, e.server, p, RowEntry(e, o).value);
        }
      case Cross(o) =>
        if RowEntry(e, o).Some? {
          RowIsReal(catalogue, e, o);
        }
      case Reloaded(current) =>
      case Revalidated(current) =>
      case UndoAdd(o) =>
      case UndoRemove(o) =>
      case Discard =>
      case PickPrinting(o, printing) =>
        if o in p.adds {
          assert AddOk(catalogue, o, p.adds[o]);
        }
    }
  }

  /**
   What a caller can look at before the click: a cross is not on a card that is
   a pending add and nothing else, and a new list still has the copies that are
   pending removal.
   */
  ghost predicate Careful(e: Editor, c: Click) {
    && (c.Cross? && c.oracle in e.pending.adds ==> c.oracle in e.server)
    && (c.Reloaded? ==> Covered(c.current, e.pending))
  }

  /** Removes stay covered by the list exactly under careful clicks. */
  lemma ClickKeepsCovered(catalogue: Catalogue, e: Editor, c: Click)
    requires EditorOk(catalogue, e) && ClickOk(catalogue, c) && Covered(e.server, e.pending)
    ensures var after := OnClick(e, c);
            Covered(after.server, after.pending) <==> Careful(e, c)
  {
    var p := e.pending;
    match c {
      case Pick(card) => BumpAddOk(catalogue, e.server, p, card, 1);
      case Import(items) => BumpAllOk(catalogue, e.server, p, items);
      case Plus(o) =>
        if RowEntry(e, o).Some? {
          RowIsReal(catalogue, e, o);
          BumpAddOk(catalogue, e.server, p, Card(o, RowEntry(e, o).value.printing), 1);
        }
      case Minus(o) =>
        if RowEntry(e, o).Some? {
          RowIsReal(catalogue, e, o);
          if o !in e.server {
            PendingOnlyRow(catalogue, e, o);
          }
          BumpRemoveOk(catalogue, e.server, p, RowEntry(e, o).value);
        }
      case Cross(o) => CrossCovered(catalogue, e, o);
      case Reloaded(current) =>
      case Revalidated(current) =>
      case UndoAdd(o) =>
      case UndoRemove(o) =>
      case Discard =>
      case PickPrinting(o, printing) =>
    }
  }

  lemma CrossCovered(catalogue: Catalogue, e: Editor, o: Id)
    requires EditorOk(catalogue, e) && Covered(e.server, e.pending)
    ensures Covered(e.server, OnClick(e, Cross(o)).pending) <==> (o in e.pending.adds ==> o in e.server)
  {
    if o !in e.server && o in e.pending.adds {
      assert AddOk(catalogue, o, e.pending.adds[o]);
      assert o in Preview(e.server, e.pending);
      assert o in OnClick(e, Cross(o)).pending.removes;
    }
  }

  /** Revalidating against the list the page holds covers the removes again, whatever they were. */
  lemma RevalidationCovers(e: Editor)
    ensures var after := OnClick(e, Revalidated(e.server));
            Covered(after.server, after.pending)
  {
  }

  // ---------------------------------------------------------------------
  // Whole sessions
  // ---------------------------------------------------------------------

  function Session(e: Editor, clicks: seq<Click>): Editor {
    if clicks == [] then e else OnClick(Session(e, clicks[..|clicks| - 1]), clicks[|clicks| - 1])
  }

  lemma {:induction false} SessionKeepsOk(catalogue: Catalogue, e: Editor, clicks: seq<Click>)
    requires EditorOk(catalogue, e) && (forall c :: c in clicks ==> ClickOk(catalogue, c))
    ensures EditorOk(catalogue, Session(e, clicks))
  {
    if clicks != [] {
      var n := |clicks| - 1;
      assert forall c :: c in clicks[..n] ==> c in clicks;
      assert clicks[n] in clicks;
      SessionKeepsOk(catalogue, e, clicks[..n]);
      ClickKeepsOk(catalogue, Session(e, clicks[..n]), clicks[n]);
    }
  }

  ghost predicate CarefulSession(e: Editor, clicks: seq<Click>) {
    forall n :: 0 <= n < |clicks| ==> Careful(Session(e, clicks[..n]), clicks[n])
  }

  /** A careful session ends with its removes covered. */
  lemma {:induction false} SessionKeepsCovered(catalogue: Catalogue, e: Editor, clicks: seq<Click>)
    requires EditorOk(catalogue, e) && (forall c :: c in clicks ==> ClickOk(catalogue, c))
    requires Covered(e.server, e.pending) && CarefulSession(e, clicks)
    ensures Covered(Session(e, clicks).server, Session(e, clicks).pending)
  {
    if clicks != [] {
      var n := |clicks| - 1;
      var front := clicks[..n];
      assert forall c :: c in front ==> c in clicks;
      assert clicks[n] in clicks;
      forall i | 0 <= i < n ensures Careful(Session(e, front[..i]), front[i]) {
        assert front[..i] == clicks[..i];
      }
      SessionKeepsOk(catalogue, e, front);
      SessionKeepsCovered(catalogue, e, front);
      ClickKeepsCovered(catalogue, Session(e, front), clicks[n]);
    }
  }

  // ---------------------------------------------------------------------
  // Saving
  // ---------------------------------------------------------------------

  /** `keys` walks over exactly the keys of a map, each once: a JavaScript Map in insertion order. */
  ghost predicate Walks<T>(keys: seq<Id>, m: map<Id, T>) {
    && (forall i, j :: 0 <= i < j < |keys| ==> keys[i] != keys[j])
    && (forall o :: o in keys <==> o in m)
  }

  /** The add lines sent to the server, by printing. */
  function CommitAdds(p: Pending, keys: seq<Id>): seq<AddInput>
    requires forall o :: o in keys ==> o in p.adds
  {
    seq(|keys|, i requires 0 <= i < |keys| =>
      var o := keys[i]; assert o in keys; AddInput(p.adds[o].card.printing, p.adds[o].quantity))
  }

  /** The remove lines sent to the server, by oracle card. */
  function CommitRemoves(p: Pending, keys: seq<Id>): seq<RemoveInput>
    requires forall o :: o in keys ==> o in p.removes
  {
    seq(|keys|, i requires 0 <= i < |keys| =>
      var o := keys[i]; assert o in keys; RemoveInput(o, p.removes[o].quantity))
  }

  /** The pending add of `o` as the line the server resolves it to. */
  ghost function AddLine(p: Pending, o: Id): Delta
    requires o in p.adds
  {
    Entry(o, p.adds[o].card.printing, p.adds[o].quantity)
  }

  ghost function RemoveLine(server: State, p: Pending, o: Id): Delta
    requires o in p.removes && o in server
  {
    Entry(o, server[o].printing, p.removes[o].quantity)
  }

  /** The lines are those of the map's keys, one each. */
  ghost predicate AddLinesOf(p: Pending, lines: seq<Delta>) {
    && OneRowPerOracle(lines)
    && (forall d :: d in lines ==> d.oracle in p.adds && d == AddLine(p, d.oracle))
    && (forall o :: o in p.adds ==> AddLine(p, o) in lines)
  }

  ghost predicate RemoveLinesOf(server: State, p: Pending, lines: seq<Delta>)
    requires forall o :: o in p.removes ==> o in server
  {
    && OneRowPerOracle(lines)
    && (forall d :: d in lines ==> d.oracle in p.removes && d == RemoveLine(server, p, d.oracle))
    && (forall o :: o in p.removes ==> RemoveLine(server, p, o) in lines)
  }

  lemma ResolvedAddLines(catalogue: Catalogue, p: Pending, keys: seq<Id>)
    requires PendingOk(catalogue, p) && Walks(keys, p.adds)
    ensures forall a :: a in CommitAdds(p, keys) ==> a.printing in catalogue && 1 <= a.quantity <= 99
    ensures AddLinesOf(p, ResolveAdds(catalogue, CommitAdds(p, keys)))
  {
    var inputs := CommitAdds(p, keys);
    forall a | a in inputs ensures a.printing in catalogue && 1 <= a.quantity <= 99 {
      var i :| 0 <= i < |inputs| && inputs[i] == a;
      var o := keys[i];
      assert o in keys && AddOk(catalogue, o, p.adds[o]);
    }
    var lines := ResolveAdds(catalogue, inputs);
    forall i | 0 <= i < |keys| ensures keys[i] in p.adds && lines[i] == AddLine(p, keys[i]) {
      var o := keys[i];
      assert o in keys && AddOk(catalogue, o, p.adds[o]);
    }
    forall o | o in p.adds ensures AddLine(p, o) in lines {
      var i :| 0 <= i < |keys| && keys[i] == o;
      assert lines[i] == AddLine(p, keys[i]);
    }
  }

  /** The remove lines sent are those of the pending removes, one each. */
  lemma SentRemoves(p: Pending, keys: seq<Id>)
    requires Walks(keys, p.removes)
    ensures forall r :: r in CommitRemoves(p, keys) <==>
              r.oracle in p.removes && r.quantity == p.removes[r.oracle].quantity
  {
    var inputs := CommitRemoves(p, keys);
    forall r | r in inputs ensures r.oracle in p.removes && r.quantity == p.removes[r.oracle].quantity {
      var i :| 0 <= i < |inputs| && inputs[i] == r;
      assert keys[i] in keys;
    }
    forall r: RemoveInput | r.oracle in p.removes && r.quantity == p.removes[r.oracle].quantity ensures r in inputs {
      var i :| 0 <= i < |keys| && keys[i] == r.oracle;
      assert inputs[i] == r;
    }
  }

  lemma ResolvedRemoveLines(server: State, p: Pending, keys: seq<Id>)
    requires Walks(keys, p.removes) && forall o :: o in p.removes ==> o in server
    ensures forall r :: r in CommitRemoves(p, keys) ==> r.oracle in server
    ensures RemoveLinesOf(server, p, ResolveRemoves(server, CommitRemoves(p, keys)))
  {
    var inputs := CommitRemoves(p, keys);
    SentRemoves(p, keys);
    var lines := ResolveRemoves(server, inputs);
    forall i | 0 <= i < |keys| ensures keys[i] in p.removes && lines[i] == RemoveLine(server, p, keys[i]) {
      var o := keys[i];
      assert o in keys;
    }
    forall o | o in p.removes ensures RemoveLine(server, p, o) in lines {
      var i :| 0 <= i < |keys| && keys[i] == o;
      assert lines[i] == RemoveLine(server, p, keys[i]);
    }
  }

  /** The resolved lines pass validation exactly when there are any and the removes are covered. */
  lemma LinesAreValid(catalogue: Catalogue, server: State, p: Pending, adds: seq<Delta>, removes: seq<Delta>)
    requires PendingOk(catalogue, p)
    requires (forall o :: o in p.removes ==> o in server) && AddLinesOf(p, adds) && RemoveLinesOf(server, p, removes)
    ensures ValidDiff(server, adds, removes) <==> (p.adds != map[] || p.removes != map[]) && Covered(server, p)
  {
    if o :| o in p.adds {
      assert AddLine(p, o) in adds;
    }
    if o :| o in p.removes {
      assert RemoveLine(server, p, o) in removes;
    }
    assert (forall o :: o !in p.adds) ==> p.adds == map[];
    assert (forall o :: o !in p.removes) ==> p.removes == map[];
    assert adds != [] ==> adds[0] in adds;
    assert removes != [] ==> removes[0] in removes;
    if ValidDiff(server, adds, removes) {
      forall o | o in p.removes ensures p.removes[o].quantity <= server[o].quantity {
        assert RemoveLine(server, p, o) in removes;
      }
    }
  }

  /** The preview is the server's own diff, although it removes first and the server adds first. */
  lemma PreviewIsApply(catalogue: Catalogue, server: State, p: Pending, adds: seq<Delta>, removes: seq<Delta>)
    requires ServerOk(catalogue, server) && PendingOk(catalogue, p)
    requires (forall o :: o in p.removes ==> o in server) && AddLinesOf(p, adds) && RemoveLinesOf(server, p, removes)
    ensures Preview(server, p) == Apply(server, adds, removes)
  {
    forall o ensures At(Preview(server, p), o) == At(Apply(server, adds, removes), o) {
      PreviewAt(catalogue, server, p, adds, removes, o);
    }
    SameEverywhere(Preview(server, p), Apply(server, adds, removes));
  }

  lemma PreviewAt(catalogue: Catalogue, server: State, p: Pending, adds: seq<Delta>, removes: seq<Delta>, o: Id)
    requires ServerOk(catalogue, server) && PendingOk(catalogue, p)
    requires (forall o :: o in p.removes ==> o in server) && AddLinesOf(p, adds) && RemoveLinesOf(server, p, removes)
    ensures At(Preview(server, p), o) == At(Apply(server, adds, removes), o)
  {
    if o in p.adds {
      assert AddOk(catalogue, o, p.adds[o]);
      assert !Names(removes, o);
      AddAllAt(server, adds, AddLine(p, o));
      SubtractAllElsewhere(AddAll(server, adds), removes, o);
    } else {
      assert !Names(adds, o);
      AddAllElsewhere(server, adds, o);
      if o in p.removes {
        SubtractAllAt(AddAll(server, adds), removes, RemoveLine(server, p, o));
      } else {
        assert !Names(removes, o);
        SubtractAllElsewhere(AddAll(server, adds), removes, o);
      }
    }
  }

  const MAX_ITEMS := 1000

  /** The endpoint's bounds: so many lines a side, and so many copies a line. */
  ghost predicate InRange(adds: seq<AddInput>, removes: seq<RemoveInput>) {
    && |adds| <= MAX_ITEMS && |removes| <= MAX_ITEMS
    && (forall a :: a in adds ==> 1 <= a.quantity <= 99)
    && (forall r :: r in removes ==> 1 <= r.quantity <= 99)
  }

  /** Who saves, whose cube it is, and the version the page holds. */
  datatype Save = Save(author: int, owner: int, expected: int)

  /** What the endpoint and the service let through. */
  ghost predicate LetThrough(cube: Cube, catalogue: Catalogue, saver: Save, adds: seq<AddInput>,
                             removes: seq<RemoveInput>) {
    && InRange(adds, removes)
    && saver.author == saver.owner
    && Accepts(cube, catalogue, saver.expected, adds, removes)
  }

  /** Within the endpoint's bounds: adds are never more than 99 of a card anyway. */
  ghost predicate Sendable(p: Pending) {
    && |p.adds| <= MAX_ITEMS && |p.removes| <= MAX_ITEMS
    && forall o :: o in p.removes ==> p.removes[o].quantity <= 99
  }

  /** What has to hold of the cube and the pending diff: each part can be looked at before saving. */
  ghost predicate Savable(cube: Cube, saver: Save, p: Pending) {
    && saver.author == saver.owner && cube.version == saver.expected
    && (p.adds != map[] || p.removes != map[])
    && Covered(cube.cards, p)
    && Sendable(p)
  }

  /** Saving is let through exactly when the diff is savable, and then gives the preview over the stored list. */
  lemma SavingIsAccepted(catalogue: Catalogue, cube: Cube, saver: Save, p: Pending, addKeys: seq<Id>,
                         removeKeys: seq<Id>)
    requires ServerOk(catalogue, cube.cards) && PendingOk(catalogue, p)
    requires Walks(addKeys, p.adds) && Walks(removeKeys, p.removes)
    ensures var adds := CommitAdds(p, addKeys);
            var removes := CommitRemoves(p, removeKeys);
            && (LetThrough(cube, catalogue, saver, adds, removes) <==> Savable(cube, saver, p))
            && (Savable(cube, saver, p) ==>
                  Commit(cube, catalogue, saver.expected, adds, removes).cards == Preview(cube.cards, p))
  {
    SentCards(catalogue, cube, p, addKeys, removeKeys);
    RangeOfSent(catalogue, p, addKeys, removeKeys);
    if forall o :: o in p.removes ==> o in cube.cards {
      KnownCardsAccepted(catalogue, cube.cards, p, addKeys, removeKeys);
    }
    hide PendingOk, ServerOk, Walks, InRange, Sendable, Apply, Preview, ValidDiff, CommitAdds, CommitRemoves,
         ResolveAdds, ResolveRemoves;
  }

  /** The lines can be resolved exactly when the cube has every card that is to be removed. */
  lemma SentCards(catalogue: Catalogue, cube: Cube, p: Pending, addKeys: seq<Id>, removeKeys: seq<Id>)
    requires PendingOk(catalogue, p) && Walks(addKeys, p.adds) && Walks(removeKeys, p.removes)
    ensures Resolvable(cube, catalogue, CommitAdds(p, addKeys), CommitRemoves(p, removeKeys))
            <==> forall o :: o in p.removes ==> o in cube.cards
  {
    ResolvedAddLines(catalogue, p, addKeys);
    SentRemoves(p, removeKeys);
    forall o | o in p.removes ensures RemoveInput(o, p.removes[o].quantity) in CommitRemoves(p, removeKeys) {
    }
  }

  lemma KnownCardsAccepted(catalogue: Catalogue, server: State, p: Pending, addKeys: seq<Id>, removeKeys: seq<Id>)
    requires ServerOk(catalogue, server) && PendingOk(catalogue, p)
    requires Walks(addKeys, p.adds) && Walks(removeKeys, p.removes)
    requires forall o :: o in p.removes ==> o in server
    requires Resolvable(Cube(server, 0, []), catalogue, CommitAdds(p, addKeys), CommitRemoves(p, removeKeys))
    ensures var adds := ResolveAdds(catalogue, CommitAdds(p, addKeys));
            var removes := ResolveRemoves(server, CommitRemoves(p, removeKeys));
            && (ValidDiff(server, adds, removes) <==> (p.adds != map[] || p.removes != map[]) && Covered(server, p))
            && Apply(server, adds, removes) == Preview(server, p)
  {
    ResolvedAddLines(catalogue, p, addKeys);
    ResolvedRemoveLines(server, p, removeKeys);
    var addLines := ResolveAdds(catalogue, CommitAdds(p, addKeys));
    var removeLines := ResolveRemoves(server, CommitRemoves(p, removeKeys));
    hide PendingOk, ServerOk, AddLinesOf, RemoveLinesOf, ValidDiff, Apply, Preview, Walks, CommitAdds, CommitRemoves,
         ResolveAdds, ResolveRemoves, Covered;
    LinesAreValid(catalogue, server, p, addLines, removeLines);
    PreviewIsApply(catalogue, server, p, addLines, removeLines);
  }

  lemma RangeOfSent(catalogue: Catalogue, p: Pending, addKeys: seq<Id>, removeKeys: seq<Id>)
    requires PendingOk(catalogue, p) && Walks(addKeys, p.adds) && Walks(removeKeys, p.removes)
    ensures InRange(CommitAdds(p, addKeys), CommitRemoves(p, removeKeys)) <==> Sendable(p)
  {
    ResolvedAddLines(catalogue, p, addKeys);
    SentRemoves(p, removeKeys);
    WalkLength(addKeys, p.adds);
    WalkLength(removeKeys, p.removes);
    forall o | o in p.removes ensures RemoveInput(o, p.removes[o].quantity) in CommitRemoves(p, removeKeys) {
    }
  }

  /** One line a key. */
  lemma WalkLength<T>(keys: seq<Id>, m: map<Id, T>)
    requires Walks(keys, m)
    ensures |keys| == |m|
  {
    DistinctCount(keys, m.Keys);
  }

  lemma {:induction false} DistinctCount(keys: seq<Id>, s: set<Id>)
    requires forall i, j :: 0 <= i < j < |keys| ==> keys[i] != keys[j]
    requires forall o :: o in keys <==> o in s
    ensures |keys| == |s|
  {
    if keys == [] {
      assert (forall o :: o !in s) ==> s == {};
    } else {
      var front, last := keys[..|keys| - 1], keys[|keys| - 1];
      assert keys == front + [last] && last in keys;
      DistinctCount(front, s - {last});
    }
  }

  /** Lists that differ in printings only give previews that differ in printings only. */
  lemma PreviewNumbers(a: State, b: State, p: Pending)
    requires SameQuantities(a, b)
    ensures SameQuantities(Preview(a, p), Preview(b, p)) && (Covered(a, p) <==> Covered(b, p))
  {
    assert forall o :: PreviewQuantity(a, p, o) == PreviewQuantity(b, p, o);
  }

  /** While the version stands still only printings are swapped. */
  lemma {:induction false} SameVersionSameNumbers(catalogue: Catalogue, fetched: Cube, since: seq<Action>)
    requires CubeOk(fetched) && PositiveActions(since) && ServerOk(catalogue, fetched.cards)
    ensures var now := Run(fetched, catalogue, since);
            && fetched.version <= now.version
            && (now.version == fetched.version ==>
                  SameQuantities(now.cards, fetched.cards) && ServerOk(catalogue, now.cards))
  {
    RunKeepsCube(fetched, catalogue, since);
    if since != [] {
      var front := since[..|since| - 1];
      var before := Run(fetched, catalogue, front);
      SameVersionSameNumbers(catalogue, fetched, front);
      RunKeepsCube(fetched, catalogue, front);
      StepKeepsCube(before, catalogue, since[|since| - 1]);
      hide CubeOk, Accepts;
    }
  }

  /**
   Whatever was clicked, whatever lists the page was handed meanwhile, and
   whatever happened to the cube since the list on the page was fetched: saving
   goes through exactly when nobody has committed and the diff is savable, by
   the owner, against the page's own list. The cube then has the numbers the preview
   showed, with the same printings unless some were swapped.
   */
  lemma SavingGivesThePreview(catalogue: Catalogue, start: State, clicks: seq<Click>, fetched: Cube, since: seq<Action>,
                              author: int, owner: int, addKeys: seq<Id>, removeKeys: seq<Id>)
    requires ServerOk(catalogue, start) && (forall c :: c in clicks ==> ClickOk(catalogue, c))
    requires CubeOk(fetched) && PositiveActions(since)
    requires var e := Session(Editor(start, EMPTY_PENDING), clicks);
             && Walks(addKeys, e.pending.adds) && Walks(removeKeys, e.pending.removes)
             && e.server == fetched.cards
    ensures var p := Session(Editor(start, EMPTY_PENDING), clicks).pending;
            var now := Run(fetched, catalogue, since);
            var saver := Save(author, owner, fetched.version);
            var adds, removes := CommitAdds(p, addKeys), CommitRemoves(p, removeKeys);
            var accepted := LetThrough(now, catalogue, saver, adds, removes);
            var saved := Commit(now, catalogue, fetched.version, adds, removes).cards;
            && (accepted <==> now.version == fetched.version && Savable(fetched, saver, p))
            && (accepted ==> SameQuantities(saved, Preview(fetched.cards, p)))
            && (accepted && now.cards == fetched.cards ==> saved == Preview(fetched.cards, p))
  {
    SessionKeepsOk(catalogue, Editor(start, EMPTY_PENDING), clicks);
    var p := Session(Editor(start, EMPTY_PENDING), clicks).pending;
    var now := Run(fetched, catalogue, since);
    SameVersionSameNumbers(catalogue, fetched, since);
    if now.version == fetched.version {
      SavingIsAccepted(catalogue, now, Save(author, owner, fetched.version), p, addKeys, removeKeys);
      PreviewNumbers(now.cards, fetched.cards, p);
    }
    hide ServerOk, PendingOk, Session, Run, Walks, CommitAdds, CommitRemoves, Preview, InRange, Covered, SameQuantities,
         Commit, ValidDiff, Resolvable, Sendable;
  }

  /** After a careful session on rows of at most 99 copies, the owner can save any diff of at most 1000 lines a side. */
  lemma CarefulSessionsSave(catalogue: Catalogue, start: State, clicks: seq<Click>, owner: int, version: nat,
                            log: seq<Change>)
    requires ServerOk(catalogue, start) && (forall c :: c in clicks ==> ClickOk(catalogue, c))
    requires CarefulSession(Editor(start, EMPTY_PENDING), clicks)
    ensures var e := Session(Editor(start, EMPTY_PENDING), clicks);
            && (e.pending.adds != map[] || e.pending.removes != map[])
            && |e.pending.adds| <= MAX_ITEMS && |e.pending.removes| <= MAX_ITEMS
            && (forall o :: o in e.pending.removes && o in e.server ==> e.server[o].quantity <= 99)
            ==> Savable(Cube(e.server, version, log), Save(owner, owner, version), e.pending)
  {
    SessionKeepsCovered(catalogue, Editor(start, EMPTY_PENDING), clicks);
    hide Session;
  }

  // ---------------------------------------------------------------------
  // The four ways to a diff that its owner cannot save
  // ---------------------------------------------------------------------

  const OWNER := Save(1, 1, 0)

  /** Pick a card the cube does not have, then press its cross. */
  lemma CrossOnPendingOnlyCard()
    ensures var e := Session(Editor(map[], EMPTY_PENDING), [Pick(Card(1, 7)), Cross(1)]);
            && e.pending == Pending(map[], map[1 := PendingRemove(Entry(1, 7, 1), 1)])
            && !Savable(Cube(e.server, 0, []), OWNER, e.pending)
  {
    var start := Editor(map[], EMPTY_PENDING);
    var picked := OnClick(start, Pick(Card(1, 7)));
    TwoClicks(start, Pick(Card(1, 7)), Cross(1));
    assert picked.pending == Pending(map[1 := PendingAdd(Card(1, 7), 1)], map[]);
    assert Preview(picked.server, picked.pending) == map[1 := Entry(1, 7, 1)];
    var crossed := OnClick(picked, Cross(1)).pending;
    assert crossed.adds == map[];
    assert 1 in crossed.removes;
  }

  /** Press the cross on a row of three; a refetch finds two of them gone, and nothing revalidates. */
  lemma RemoveOutlivesItsCopies()
    ensures var e := Session(Editor(map[1 := Entry(1, 7, 3)], EMPTY_PENDING),
                             [Cross(1), Reloaded(map[1 := Entry(1, 7, 1)])]);
            && e.pending == Pending(map[], map[1 := PendingRemove(Entry(1, 7, 3), 3)])
            && !Savable(Cube(e.server, 0, []), OWNER, e.pending)
  {
    var start := Editor(map[1 := Entry(1, 7, 3)], EMPTY_PENDING);
    TwoClicks(start, Cross(1), Reloaded(map[1 := Entry(1, 7, 1)]));
    var e := Session(start, [Cross(1), Reloaded(map[1 := Entry(1, 7, 1)])]);
    assert e.pending.adds == map[];
    assert 1 in e.pending.removes;
  }

  /** Press the cross on a row of a hundred: covered, but past the endpoint's bound. */
  lemma CrossOnHundredCopies()
    ensures var e := OnClick(Editor(map[1 := Entry(1, 7, 100)], EMPTY_PENDING), Cross(1));
            && Covered(e.server, e.pending) && !Savable(Cube(e.server, 0, []), OWNER, e.pending)
  {
    var e := OnClick(Editor(map[1 := Entry(1, 7, 100)], EMPTY_PENDING), Cross(1));
    assert 1 in e.pending.removes && e.pending.removes[1].quantity == 100;
  }

  /** One of each of `n` cards, picked into an empty cube. */
  function Picks(n: nat): seq<Click> {
    if n == 0 then [] else Picks(n - 1) + [Pick(Card(n - 1, n - 1))]
  }

  function Picked(n: nat): map<Id, PendingAdd> {
    if n == 0 then map[] else Picked(n - 1)[n - 1 := PendingAdd(Card(n - 1, n - 1), 1)]
  }

  lemma {:induction false} PickedCards(n: nat)
    ensures |Picked(n)| == n && forall o :: o in Picked(n) <==> 0 <= o < n
  {
    if n > 0 {
      PickedCards(n - 1);
      assert n - 1 !in Picked(n - 1);
    }
  }

  lemma {:induction false} PickingThem(n: nat)
    ensures var e := Session(Editor(map[], EMPTY_PENDING), Picks(n));
            e.server == map[] && e.pending == Pending(Picked(n), map[])
  {
    if n > 0 {
      PickingThem(n - 1);
      PickedCards(n - 1);
      var card := Card(n - 1, n - 1);
      FirstPick(Picked(n - 1), card);
      hide BumpAdd;
      SessionNext(Editor(map[], EMPTY_PENDING), Picks(n - 1), Pick(card));
      hide Session;
    }
  }

  lemma {:induction false} OnlyPicks(n: nat)
    ensures forall c :: c in Picks(n) ==> c.Pick? && c.card.oracle == c.card.printing && 0 <= c.card.oracle < n
  {
    if n > 0 {
      OnlyPicks(n - 1);
    }
  }

  lemma FirstPick(adds: map<Id, PendingAdd>, card: Card)
    requires card.oracle !in adds
    ensures BumpAdd(Pending(adds, map[]), card, 1) == Pending(adds[card.oracle := PendingAdd(card, 1)], map[])
  {
    var removes: map<Id, PendingRemove> := map[];
    assert removes - {card.oracle} == removes;
  }

  lemma SessionNext(e: Editor, clicks: seq<Click>, c: Click)
    ensures Session(e, clicks + [c]) == OnClick(Session(e, clicks), c)
  {
    assert (clicks + [c])[..|clicks|] == clicks;
  }

  /** Nothing counts a pending diff's lines: a careful session picks any number of cards, and can save a thousand. */
  lemma ThousandsOfPicks(catalogue: Catalogue, n: nat)
    requires n > 0 && forall o :: 0 <= o < n ==> CardOk(catalogue, Card(o, o))
    ensures var start := Editor(map[], EMPTY_PENDING);
            var e := Session(start, Picks(n));
            && (forall c :: c in Picks(n) ==> ClickOk(catalogue, c)) && CarefulSession(start, Picks(n))
            && |e.pending.adds| == n && Covered(e.server, e.pending)
            && (Savable(Cube(e.server, 0, []), OWNER, e.pending) <==> n <= 1000)
  {
    PickingThem(n);
    PickedCards(n);
    OnlyPicks(n);
    hide Session, Picks, Picked;
    assert 0 in Picked(n);
    forall i | 0 <= i < |Picks(n)| ensures Careful(Session(Editor(map[], EMPTY_PENDING), Picks(n)[..i]), Picks(n)[i]) {
      var c := Picks(n)[i];
      assert c in Picks(n);
    }
  }

  lemma TwoClicks(e: Editor, a: Click, b: Click)
    ensures Session(e, [a, b]) == OnClick(OnClick(e, a), b)
  {
    assert [a, b][..1] == [a] && [a][..0] == [];
    assert Session(e, [a]) == OnClick(Session(e, []), a);
  }

  // ---------------------------------------------------------------------
  // The preview's loops
  // ---------------------------------------------------------------------

  ghost predicate Counted(p: Pending) {
    && (forall o :: o in p.adds ==> p.adds[o].card.oracle == o && p.adds[o].quantity > 0)
    && (forall o :: o in p.removes ==> p.removes[o].quantity > 0)
  }

  /** Copy the server's list, take the pending removes away in one loop, put the pending adds in in another. */
  method PreviewEntries(server: State, p: Pending, addKeys: seq<Id>, removeKeys: seq<Id>) returns (byOracle: State)
    requires StateOk(server) && Counted(p) && Walks(addKeys, p.adds) && Walks(removeKeys, p.removes)
    ensures byOracle == Preview(server, p)
  {
    byOracle := server;
    TakeAll(removeKeys);
    TakeAll(addKeys);
    assert Taken(server, p, byOracle, []);
    hide Taken, Put, TakeOut, PutIn;
    for i := 0 to |removeKeys|
      invariant Taken(server, p, byOracle, removeKeys[..i])
    {
      var o := removeKeys[i];
      NextKey(removeKeys, p.removes, i);
      TakenNext(server, p, byOracle, removeKeys[..i], o);
      TakeOutIs(byOracle, p, o);
      if o in byOracle {
        var left := byOracle[o].quantity - p.removes[o].quantity;
        if left <= 0 {
          byOracle := byOracle - {o};
        } else {
          byOracle := byOracle[o := byOracle[o].(quantity := left)];
        }
      }
    }
    ghost var kept := byOracle;
    AllTaken(server, p, kept, removeKeys);
    PutNone(server, p, kept);
    for i := 0 to |addKeys|
      invariant Put(server, p, kept, byOracle, addKeys[..i])
    {
      var o := addKeys[i];
      NextKey(addKeys, p.adds, i);
      PutNext(server, p, kept, byOracle, addKeys[..i], o);
      PutInIs(byOracle, p, o);
      if o in byOracle {
        byOracle := byOracle[o := byOracle[o].(quantity := byOracle[o].quantity + p.adds[o].quantity)];
      } else {
        byOracle := byOracle[o := Entry(o, p.adds[o].card.printing, p.adds[o].quantity)];
      }
    }
    AllPut(server, p, kept, byOracle, addKeys);
  }

  /** The first loop part-way: the keys done are down to what is kept. */
  ghost predicate Taken(server: State, p: Pending, byOracle: State, done: seq<Id>) {
    forall o :: At(byOracle, o) == if o in done then KeptEntry(server, p, o) else At(server, o)
  }

  /** The second loop part-way: the keys done are as previewed. */
  ghost predicate Put(server: State, p: Pending, kept: State, byOracle: State, done: seq<Id>) {
    forall o :: At(byOracle, o) == if o in done then At(Preview(server, p), o) else At(kept, o)
  }

  ghost function TakeOut(m: State, p: Pending, o: Id): State
    requires o in p.removes
  {
    if o !in m then m
    else if m[o].quantity - p.removes[o].quantity <= 0 then m - {o}
    else m[o := m[o].(quantity := m[o].quantity - p.removes[o].quantity)]
  }

  ghost function PutIn(m: State, p: Pending, o: Id): State
    requires o in p.adds
  {
    if o in m then m[o := m[o].(quantity := m[o].quantity + p.adds[o].quantity)]
    else m[o := Entry(o, p.adds[o].card.printing, p.adds[o].quantity)]
  }

  lemma TakeOutIs(m: State, p: Pending, o: Id)
    requires o in p.removes
    ensures TakeOut(m, p, o) ==
            if o !in m then m
            else
              var left := m[o].quantity - p.removes[o].quantity;
              if left <= 0 then m - {o} else m[o := m[o].(quantity := left)]
  {
  }

  lemma PutInIs(m: State, p: Pending, o: Id)
    requires o in p.adds
    ensures PutIn(m, p, o) ==
            if o in m then m[o := m[o].(quantity := m[o].quantity + p.adds[o].quantity)]
            else m[o := Entry(o, p.adds[o].card.printing, p.adds[o].quantity)]
  {
  }

  lemma NextKey<T>(keys: seq<Id>, m: map<Id, T>, i: nat)
    requires Walks(keys, m) && i < |keys|
    ensures keys[i] in m && keys[i] !in keys[..i] && keys[..i + 1] == keys[..i] + [keys[i]]
  {
    var o := keys[i];
    assert o in keys;
  }

  lemma TakenNext(server: State, p: Pending, m: State, done: seq<Id>, o: Id)
    requires Taken(server, p, m, done) && o in p.removes && o !in done
    ensures Taken(server, p, TakeOut(m, p, o), done + [o])
  {
    assert At(m, o) == At(server, o);
  }

  lemma AllTaken(server: State, p: Pending, m: State, keys: seq<Id>)
    requires StateOk(server) && Walks(keys, p.removes) && Taken(server, p, m, keys)
    ensures forall o :: At(m, o) == KeptEntry(server, p, o)
  {
  }

  lemma PutNone(server: State, p: Pending, kept: State)
    ensures Put(server, p, kept, kept, [])
  {
  }

  lemma PutNext(server: State, p: Pending, kept: State, m: State, done: seq<Id>, o: Id)
    requires StateOk(server) && Counted(p) && (forall x :: At(kept, x) == KeptEntry(server, p, x))
    requires Put(server, p, kept, m, done) && o in p.adds && o !in done
    ensures Put(server, p, kept, PutIn(m, p, o), done + [o])
  {
    assert At(m, o) == KeptEntry(server, p, o);
    PreviewOfAdd(server, p, o);
    hide Preview, KeptEntry, StateOk, Counted;
  }

  lemma AllPut(server: State, p: Pending, kept: State, m: State, keys: seq<Id>)
    requires StateOk(server) && Walks(keys, p.adds) && (forall x :: At(kept, x) == KeptEntry(server, p, x))
    requires Put(server, p, kept, m, keys)
    ensures m == Preview(server, p)
  {
    forall o ensures At(m, o) == At(Preview(server, p), o) {
      if o !in p.adds {
        assert At(m, o) == KeptEntry(server, p, o);
      }
    }
    SameEverywhere(m, Preview(server, p));
  }

  ghost function KeptEntry(server: State, p: Pending, o: Id): Option<Entry> {
    if Kept(server, p, o) > 0 then Some(server[o].(quantity := Kept(server, p, o))) else None
  }

  lemma PreviewOfAdd(server: State, p: Pending, o: Id)
    requires StateOk(server) && Counted(p) && o in p.adds
    ensures At(Preview(server, p), o) ==
            var kept := KeptEntry(server, p, o);
            if kept.Some? then Some(kept.value.(quantity := kept.value.quantity + p.adds[o].quantity))
            else Some(AddLine(p, o))
  {
  }
}
