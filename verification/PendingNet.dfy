/**
 What each click does to the numbers: a card's pending adds and removes are one
 signed number, its net change, and the preview shows the list plus that.
 */
module PendingNet {
  import opened Wrappers
  import opened CubeReplay
  import opened CubeHistory
  import opened PendingDiff

  /** Copies of a card to be added, less those to be removed. */
  function Net(p: Pending, o: Id): int {
    (if o in p.adds then p.adds[o].quantity else 0) - (if o in p.removes then p.removes[o].quantity else 0)
  }

  function Max(a: int, b: int): int {
    if a > b then a else b
  }

  /** Nothing pending about any other card is touched. */
  ghost predicate OnlyCard(p: Pending, p': Pending, o: Id) {
    && (forall x :: x != o ==> (x in p'.adds <==> x in p.adds) && (x in p'.removes <==> x in p.removes))
    && (forall x :: x != o && x in p.adds ==> p'.adds[x] == p.adds[x])
    && (forall x :: x != o && x in p.removes ==> p'.removes[x] == p.removes[x])
  }

  lemma OnlyCardNet(p: Pending, p': Pending, o: Id)
    requires OnlyCard(p, p', o)
    ensures forall x :: x != o ==> Net(p', x) == Net(p, x)
  {
  }

  // ---------------------------------------------------------------------
  // The two counters
  // ---------------------------------------------------------------------

  /** Adding copies moves the net up by as many, to 99 at most; what is then to be added is the card just picked. */
  lemma AddingMovesNet(catalogue: Catalogue, p: Pending, card: Card, n: int)
    requires PendingOk(catalogue, p) && n > 0
    ensures var p' := BumpAdd(p, card, n);
            && Net(p', card.oracle) == Min(Net(p, card.oracle) + n, 99)
            && OnlyCard(p, p', card.oracle)
            && (card.oracle in p'.adds ==> p'.adds[card.oracle].card == card)
  {
  }

  /** Taking a copy away moves the net down by one, but never below taking every copy the row has. */
  lemma TakingMovesNet(catalogue: Catalogue, p: Pending, entry: Entry)
    requires PendingOk(catalogue, p) && entry.quantity > 0
    ensures var p' := BumpRemove(p, entry, 1);
            && Net(p', entry.oracle) == Max(Net(p, entry.oracle) - 1, -entry.quantity)
            && OnlyCard(p, p', entry.oracle)
            && (entry.oracle in p'.adds ==> p'.adds[entry.oracle].card == p.adds[entry.oracle].card)
  {
  }

  /** How many copies of a card an import carries. */
  function Copies(items: seq<(Card, int)>, o: Id): int {
    if items == [] then 0
    else
      var last := items[|items| - 1];
      Copies(items[..|items| - 1], o) + if last.0.oracle == o then last.1 else 0
  }

  /** The cap may bite in the middle of an import: the net is the same as if all its copies came at once. */
  lemma {:induction false} ImportMovesNet(catalogue: Catalogue, p: Pending, items: seq<(Card, int)>, o: Id)
    requires PendingOk(catalogue, p) && forall i :: i in items ==> CardOk(catalogue, i.0) && i.1 > 0
    ensures Net(BumpAll(p, items), o) == Min(Net(p, o) + Copies(items, o), 99)
    ensures Copies(items, o) >= 0
  {
    if items == [] {
      NetIsCapped(catalogue, p, o);
    } else {
      var n := |items| - 1;
      var last := items[n];
      assert forall i :: i in items[..n] ==> i in items;
      assert last in items;
      ImportMovesNet(catalogue, p, items[..n], o);
      BumpAllOk(catalogue, map[], p, items[..n]);
      AddingMovesNet(catalogue, BumpAll(p, items[..n]), last.0, last.1);
      OnlyCardNet(BumpAll(p, items[..n]), BumpAll(p, items), last.0.oracle);
      hide PendingOk, BumpAdd, Net, OnlyCard;
    }
  }

  lemma NetIsCapped(catalogue: Catalogue, p: Pending, o: Id)
    requires PendingOk(catalogue, p)
    ensures Net(p, o) <= 99
  {
    if o in p.adds {
      assert AddOk(catalogue, o, p.adds[o]);
    }
  }

  // ---------------------------------------------------------------------
  // Clicks
  // ---------------------------------------------------------------------

  /** The net change pending for a card after a click, from the net before and the row clicked on. */
  function NetAfter(e: Editor, c: Click, o: Id): int {
    var net := Net(e.pending, o);
    match c
    case Pick(card) => if card.oracle == o then Min(net + 1, 99) else net
    case Import(items) => Min(net + Copies(items, o), 99)
    case Plus(x) => if x == o && RowEntry(e, o).Some? then Min(net + 1, 99) else net
    case Minus(x) =>
      if x == o && RowEntry(e, o).Some? then Max(net - 1, -RowEntry(e, o).value.quantity) else net
    case Cross(x) => if x == o && RowEntry(e, o).Some? then -RowEntry(e, o).value.quantity else net
    case UndoAdd(x) => if x == o then Min(net, 0) else net
    case UndoRemove(x) => if x == o then Max(net, 0) else net
    case Revalidated(current) => Max(net, if o in current then -current[o].quantity else 0)
    case Discard => 0
    case Reloaded(_) => net
    case PickPrinting(_, _) => net
  }

  lemma PlusMovesNet(catalogue: Catalogue, e: Editor, x: Id, o: Id)
    requires EditorOk(catalogue, e)
    ensures Net(OnClick(e, Plus(x)).pending, o) == NetAfter(e, Plus(x), o)
  {
    if RowEntry(e, x).Some? {
      RowIsReal(catalogue, e, x);
      var card := Card(x, RowEntry(e, x).value.printing);
      AddingMovesNet(catalogue, e.pending, card, 1);
      OnlyCardNet(e.pending, BumpAdd(e.pending, card, 1), x);
    }
    hide BumpAdd, RowEntry, EditorOk, Net, OnlyCard;
  }

  lemma MinusMovesNet(catalogue: Catalogue, e: Editor, x: Id, o: Id)
    requires EditorOk(catalogue, e)
    ensures Net(OnClick(e, Minus(x)).pending, o) == NetAfter(e, Minus(x), o)
  {
    if RowEntry(e, x).Some? {
      RowIsReal(catalogue, e, x);
      TakingMovesNet(catalogue, e.pending, RowEntry(e, x).value);
      OnlyCardNet(e.pending, BumpRemove(e.pending, RowEntry(e, x).value, 1), x);
    }
    hide BumpRemove, RowEntry, EditorOk, Net, OnlyCard;
  }

  lemma CrossMovesNet(catalogue: Catalogue, e: Editor, x: Id, o: Id)
    requires EditorOk(catalogue, e)
    ensures Net(OnClick(e, Cross(x)).pending, o) == NetAfter(e, Cross(x), o)
  {
    if RowEntry(e, x).Some? {
      RowIsReal(catalogue, e, x);
    }
    hide RowEntry, EditorOk;
  }

  lemma PickMovesNet(catalogue: Catalogue, e: Editor, card: Card, o: Id)
    requires EditorOk(catalogue, e)
    ensures Net(OnClick(e, Pick(card)).pending, o) == NetAfter(e, Pick(card), o)
  {
    AddingMovesNet(catalogue, e.pending, card, 1);
    OnlyCardNet(e.pending, BumpAdd(e.pending, card, 1), card.oracle);
    hide BumpAdd, EditorOk, Net, OnlyCard;
  }

  /** Every click moves every card's net as the page says it does. */
  lemma ClickMovesNet(catalogue: Catalogue, e: Editor, c: Click, o: Id)
    requires EditorOk(catalogue, e) && ClickOk(catalogue, c)
    ensures Net(OnClick(e, c).pending, o) == NetAfter(e, c, o)
  {
    match c {
      case Pick(card) =>
        hide *;
        PickMovesNet(catalogue, e, card, o);
      case Import(items) =>
        ImportMovesNet(catalogue, e.pending, items, o);
        hide BumpAll, EditorOk, Net;
      case Plus(x) =>
        hide *;
        PlusMovesNet(catalogue, e, x, o);
      case Minus(x) =>
        hide *;
        MinusMovesNet(catalogue, e, x, o);
      case Cross(x) =>
        hide *;
        CrossMovesNet(catalogue, e, x, o);
      case Revalidated(current) =>
        RevalidatingMovesNet(catalogue, e.pending, current, o);
        hide Revalidate, EditorOk, Net;
      case Reloaded(_) =>
      case UndoAdd(_) =>
      case UndoRemove(_) =>
      case Discard =>
      case PickPrinting(_, _) =>
    }
  }

  lemma RevalidatingMovesNet(catalogue: Catalogue, p: Pending, current: State, o: Id)
    requires PendingOk(catalogue, p) && ServerOk(catalogue, current)
    ensures Net(Revalidate(p, current), o) == Max(Net(p, o), if o in current then -current[o].quantity else 0)
  {
    if o in p.adds {
      assert AddOk(catalogue, o, p.adds[o]);
    }
  }

  // ---------------------------------------------------------------------
  // Sessions and the preview
  // ---------------------------------------------------------------------

  /** Clicks that only add. */
  ghost predicate Adds(c: Click) {
    c.Pick? || c.Import?
  }

  /** How many copies of a card they carry between them. */
  function CopiesIn(clicks: seq<Click>, o: Id): int {
    if clicks == [] then 0
    else
      var last := clicks[|clicks| - 1];
      CopiesIn(clicks[..|clicks| - 1], o)
      + match last
        case Pick(card) => if card.oracle == o then 1 else 0
        case Import(items) => Copies(items, o)
        case _ => 0
  }

  lemma {:induction false} CopiesArePositive(items: seq<(Card, int)>, o: Id)
    requires forall i :: i in items ==> i.1 > 0
    ensures Copies(items, o) >= 0
  {
    if items != [] {
      var n := |items| - 1;
      var last := items[n];
      assert forall i :: i in items[..n] ==> i in items;
      assert last in items;
      CopiesArePositive(items[..n], o);
    }
  }

  /** Picking and importing, in any order and any portions, come to the same as adding all the copies at once. */
  lemma {:induction false} AddingSession(catalogue: Catalogue, e: Editor, clicks: seq<Click>, o: Id)
    requires EditorOk(catalogue, e) && forall c :: c in clicks ==> ClickOk(catalogue, c) && Adds(c)
    ensures Net(Session(e, clicks).pending, o) == Min(Net(e.pending, o) + CopiesIn(clicks, o), 99)
    ensures Session(e, clicks).server == e.server && CopiesIn(clicks, o) >= 0
  {
    if clicks == [] {
      NetIsCapped(catalogue, e.pending, o);
    } else {
      var n := |clicks| - 1;
      var last := clicks[n];
      var before := Session(e, clicks[..n]);
      assert forall c :: c in clicks[..n] ==> c in clicks;
      assert last in clicks;
      AddingSession(catalogue, e, clicks[..n], o);
      SessionKeepsOk(catalogue, e, clicks[..n]);
      ClickMovesNet(catalogue, before, last, o);
      if last.Import? {
        CopiesArePositive(last.items, o);
      }
      hide EditorOk, Net, BumpAdd, BumpAll;
    }
  }

  /** While the list covers the removes, the preview shows the list's copies plus the net. */
  lemma PreviewIsNet(catalogue: Catalogue, e: Editor, o: Id)
    requires EditorOk(catalogue, e) && Covered(e.server, e.pending)
    ensures PreviewQuantity(e.server, e.pending, o) == Quantity(e.server, o) + Net(e.pending, o)
    ensures Quantity(Preview(e.server, e.pending), o) == PreviewQuantity(e.server, e.pending, o)
  {
    if o in e.pending.adds {
      assert AddOk(catalogue, o, e.pending.adds[o]);
    }
  }

  /**
   One pick, below the cap, shows one copy more of that card; one minus on a
   row shows one less; a cross on the server's row shows none; and no other
   card's number changes.
   */
  lemma ClickShows(catalogue: Catalogue, e: Editor, c: Click, o: Id)
    requires EditorOk(catalogue, e) && ClickOk(catalogue, c) && Covered(e.server, e.pending) && Careful(e, c)
    requires c.Pick? || c.Minus? || c.Cross?
    ensures var before, after := Quantity(Preview(e.server, e.pending), o),
                                 Quantity(Preview(OnClick(e, c).server, OnClick(e, c).pending), o);
            match c
            case Pick(card) =>
              after == if card.oracle == o && Net(e.pending, o) < 99 then before + 1 else before
            case Minus(x) => after == if x == o && before > 0 then before - 1 else before
            case Cross(x) => after == if x == o then 0 else before
            case _ => true
  {
    ClickKeepsOk(catalogue, e, c);
    ClickKeepsCovered(catalogue, e, c);
    ClickMovesNet(catalogue, e, c, o);
    PreviewIsNet(catalogue, e, o);
    PreviewIsNet(catalogue, OnClick(e, c), o);
    NetIsCapped(catalogue, e.pending, o);
    RowIsShown(catalogue, e, o);
    hide EditorOk, Covered, Preview, PreviewQuantity, Net, BumpAdd, BumpRemove, RemoveAll, RowEntry;
  }

  lemma RowIsShown(catalogue: Catalogue, e: Editor, o: Id)
    requires EditorOk(catalogue, e) && Covered(e.server, e.pending)
    ensures RowEntry(e, o).None? ==> Quantity(Preview(e.server, e.pending), o) == 0
    ensures o in e.server ==> RowEntry(e, o) == Some(e.server[o]) && e.server[o].quantity > 0
    ensures Quantity(Preview(e.server, e.pending), o) >= 0
    ensures o !in e.server && RowEntry(e, o).Some? ==>
              o in e.pending.adds && RowEntry(e, o).value.quantity == Net(e.pending, o) > 0
  {
    if o in e.pending.adds {
      assert AddOk(catalogue, o, e.pending.adds[o]);
    }
    if o !in e.server && RowEntry(e, o).Some? {
      PendingOnlyRow(catalogue, e, o);
    }
  }

  /** Choosing a printing for a pending add changes that printing and nothing else. */
  lemma PrintingShown(catalogue: Catalogue, e: Editor, o: Id, printing: Id)
    requires EditorOk(catalogue, e) && o in e.pending.adds
    ensures var e' := OnClick(e, PickPrinting(o, printing));
            && e'.server == e.server && OnlyCard(e.pending, e'.pending, o) && Net(e'.pending, o) == Net(e.pending, o)
            && (Kept(e.server, e.pending, o) <= 0 ==>
                  At(Preview(e'.server, e'.pending), o) == Some(Entry(o, printing, Net(e.pending, o))))
  {
    assert AddOk(catalogue, o, e.pending.adds[o]);
  }
}
