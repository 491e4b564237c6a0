/** Every transaction on an event keeps its table in order and moves its rows only as allowed. */
module RegistrationSteps {
  import opened Wrappers
  import opened RegistrationRows
  import opened RegistrationInvariant

  ghost predicate HoldsMoney(r: Reg) {
    r.status == Paid || r.status == RefundRequested
  }

  /** How one row may change in one transaction. */
  ghost predicate RowEvolves(ev: Event, r: Reg, r': Reg) {
    && r'.user == r.user
    && (Waiting(r') ==> Waiting(r) && r'.waitlistPos == r.waitlistPos)
    && (r'.status == Paid && r.status != Paid ==> ev.status == Published)
    && (HoldsMoney(r) && HoldsMoney(r') && r.intent.Some? ==> r'.intent == r.intent)
  }

  /** Whoever newly takes a spot while others wait was waiting before all of them. */
  ghost predicate NoQueueJump(before: seq<Reg>, after: seq<Reg>) {
    forall i, w :: 0 <= i < |after| && 0 <= w < |after| && NewlyHolds(before, after, i) && Waiting(after[w])
      ==> i < |before| && Waiting(before[i]) && PosBefore(before[i], after[w])
  }

  ghost predicate NewlyHolds(before: seq<Reg>, after: seq<Reg>, i: nat)
    requires i < |after|
  {
    Holds(after[i]) && !(i < |before| && Holds(before[i]))
  }

  /** Rows only ever join a published event, at the end, and those waiting join behind the counter. */
  ghost predicate OnlyJoins(db: Db, db': Db) {
    && |db.regs| <= |db'.regs|
    && db.event.waitlistCounter <= db'.event.waitlistCounter
    && (|db'.regs| > |db.regs| ==> db.event.status == Published)
    && forall i :: |db.regs| <= i < |db'.regs| && Waiting(db'.regs[i]) ==>
         db'.regs[i].waitlistPos.Some? && db'.regs[i].waitlistPos.value > db.event.waitlistCounter
  }

  /** Registration is over: the event was started or called off. */
  ghost predicate Closed(ev: Event) {
    ev.status != Draft && ev.status != Published
  }

  /** The fee is fixed once the event has left draft; closing and calling off are for good. */
  ghost predicate SameTerms(db: Db, db': Db) {
    && (Closed(db.event) ==> Closed(db'.event))
    && (db.event.status != Draft ==> db'.event.feeCents == db.event.feeCents)
    && (db.event.status == CalledOff ==> db'.event.status == CalledOff)
  }

  ghost predicate Evolves(db: Db, db': Db) {
    && SameTerms(db, db')
    && OnlyJoins(db, db')
    && (forall i :: 0 <= i < |db.regs| ==> RowEvolves(db.event, db.regs[i], db'.regs[i]))
    && NoQueueJump(db.regs, db'.regs)
  }

  /** No row's session or intent is touched, and new rows have neither. */
  ghost predicate KeepsPayments(before: seq<Reg>, after: seq<Reg>) {
    && |before| <= |after|
    && (forall i :: 0 <= i < |before| ==> SamePayments(before[i], after[i]))
    && (forall i :: |before| <= i < |after| ==> after[i].session.None? && after[i].intent.None?)
  }

  ghost predicate SamePayments(r: Reg, r': Reg) {
    r'.session == r.session && r'.intent == r.intent && (Waiting(r') ==> Waiting(r))
  }

  /** A transaction that keeps the table in order and leaves payments alone. */
  ghost predicate Safe(db: Db, db': Db) {
    DbOk(db') && Evolves(db, db') && KeepsPayments(db.regs, db'.regs)
  }

  lemma NothingHappens(db: Db)
    requires DbOk(db)
    ensures Safe(db, db)
  {
  }

  // ---------------------------------------------------------------------
  // The two shapes most transactions have
  // ---------------------------------------------------------------------

  lemma FullMeansWaiting(db: Db)
    requires DbOk(db) && CountOccupied(db.regs) < db.event.maxParticipants
    ensures forall j :: 0 <= j < |db.regs| ==> !Waiting(db.regs[j])
  {
    NobodyWaits(db.regs);
  }

  /** One row changes and no spot is freed. */
  lemma OneRow(db: Db, db': Db, i: nat, r: Reg)
    requires DbOk(db) && LegalUpdate(db.event, db.regs, i, r) && RowEvolves(db.event, db.regs[i], r)
    requires db'.event == db.event && db'.regs == db.regs[i := r]
    requires Holds(db.regs[i]) ==> Holds(r)
    ensures DbOk(db') && Evolves(db, db')
    ensures SamePayments(db.regs[i], r) ==> Safe(db, db')
  {
    UpdateKeepsTable(db.event, db.regs, i, r);
    CountsAfterUpdate(db.regs, i, r);
    if Holds(r) && !Holds(db.regs[i]) {
      FullMeansWaiting(db);
    }
    OneRowNoJump(db, i, r);
    hide TableOk, RowEvolves, NoQueueJump, CountOccupied;
  }

  lemma OneRowNoJump(db: Db, i: nat, r: Reg)
    requires i < |db.regs| && (Waiting(r) ==> Waiting(db.regs[i]))
    requires Holds(r) && !Holds(db.regs[i]) ==> forall j :: 0 <= j < |db.regs| ==> !Waiting(db.regs[j])
    ensures NoQueueJump(db.regs, db.regs[i := r])
  {
  }

  lemma PromotedEvolves(ev: Event, before: seq<Reg>, now: int)
    requires TableOk(ev, before)
    ensures var after := Promote(ev, before, now);
            && |after| == |before|
            && (forall i :: 0 <= i < |before| ==>
                RowEvolves(ev, before[i], after[i]) && SamePayments(before[i], after[i]))
            && NoQueueJump(before, after)
  {
    PromoteExact(ev, before, now);
    var after := Promote(ev, before, now);
    forall i | 0 <= i < |before|
      ensures RowEvolves(ev, before[i], after[i]) && SamePayments(before[i], after[i])
    {
      assert RowOk(ev, before[i]);
    }
  }

  /** Rows only give up spots, then the waitlist is promoted. */
  lemma ReleaseThenPromote(db: Db, released: seq<Reg>, db': Db, now: int)
    requires DbOk(db) && TableOk(db.event, released) && |released| == |db.regs|
    requires forall i :: 0 <= i < |released| ==> Releases(db.event, db.regs[i], released[i])
    requires db'.event == db.event && db'.regs == Promote(db.event, released, now)
    ensures Safe(db, db')
  {
    PromoteKeepsTable(db.event, released, now);
    PromotedEvolves(db.event, released, now);
    hide TableOk, WaitsOnlyWhenFull, PosBefore;
    forall i | 0 <= i < |db.regs|
      ensures RowEvolves(db.event, db.regs[i], db'.regs[i]) && SamePayments(db.regs[i], db'.regs[i])
    {
      assert Releases(db.event, db.regs[i], released[i]);
      assert RowEvolves(db.event, released[i], db'.regs[i]) && SamePayments(released[i], db'.regs[i]);
    }
    ReleaseNoJump(db, released, db'.regs);
  }

  /** A row stays as it is, or leaves its spot or its place in the queue for good. */
  ghost predicate Releases(ev: Event, r: Reg, r': Reg) {
    r' == r || (!Holds(r') && !Waiting(r') && SamePayments(r, r') && RowEvolves(ev, r, r'))
  }

  lemma ReleaseNoJump(db: Db, released: seq<Reg>, after: seq<Reg>)
    requires |db.regs| == |released| == |after| && NoQueueJump(released, after)
    requires forall i :: 0 <= i < |released| ==> Releases(db.event, db.regs[i], released[i])
    requires forall i :: 0 <= i < |released| ==> RowEvolves(db.event, released[i], after[i])
    ensures NoQueueJump(db.regs, after)
  {
    hide PosBefore;
    forall i, w | 0 <= i < |after| && 0 <= w < |after| && NewlyHolds(db.regs, after, i) && Waiting(after[w])
      ensures Waiting(db.regs[i]) && PosBefore(db.regs[i], after[w])
    {
      assert Releases(db.event, db.regs[i], released[i]);
      assert NewlyHolds(released, after, i);
    }
  }

  /** One row gives up its spot or its place, and the waitlist is promoted. */
  lemma OneRowThenPromote(db: Db, db': Db, i: nat, r: Reg, now: int)
    requires DbOk(db) && LegalUpdate(db.event, db.regs, i, r)
    requires Releases(db.event, db.regs[i], r)
    requires db'.event == db.event && db'.regs == Promote(db.event, db.regs[i := r], now)
    ensures Safe(db, db')
  {
    UpdateKeepsTable(db.event, db.regs, i, r);
    ReleaseThenPromote(db, db.regs[i := r], db', now);
  }

  lemma TerminalIsLegal(db: Db, i: nat, status: RegStatus)
    requires DbOk(db) && i < |db.regs|
    requires status in {RefundRequested, Cancelled, Refunded, Expired, Removed}
    requires status == RefundRequested ==> Active(db.regs[i])
    ensures var r := SetTerminal(db.regs[i], status);
            && LegalUpdate(db.event, db.regs, i, r)
            && Releases(db.event, db.regs[i], r) && RowEvolves(db.event, db.regs[i], r) && SamePayments(db.regs[i], r)
            && !Holds(r) && !Waiting(r)
  {
    assert RowOk(db.event, db.regs[i]);
  }

  // ---------------------------------------------------------------------
  // Transaction by transaction
  // ---------------------------------------------------------------------

  lemma NoActiveMeansNone(regs: seq<Reg>, user: int)
    requires ActiveOf(regs, user).None?
    ensures NoOtherActive(regs, |regs|, user)
  {
    var matches := (r: Reg) => r.user == user && Active(r);
    assert First(regs, matches).None?;
    forall j | 0 <= j < |regs| && Active(regs[j]) ensures regs[j].user != user {
      assert !matches(regs[j]);
    }
  }

  lemma ActiveOfIs(regs: seq<Reg>, user: int)
    requires ActiveOf(regs, user).Some?
    ensures var id := ActiveOf(regs, user).value;
            id < |regs| && regs[id].user == user && Active(regs[id])
  {
    var matches := (r: Reg) => r.user == user && Active(r);
    assert First(regs, matches).Some?;
  }

  lemma JoiningIsSafe(db: Db, db': Db, r: Reg)
    requires DbOk(db) && DbOk(db') && db.event.status == Published
    requires db'.regs == db.regs + [r] && db'.event.waitlistCounter >= db.event.waitlistCounter
    requires db'.event.feeCents == db.event.feeCents
    requires r.session.None? && r.intent.None?
    requires Waiting(r) ==> r.waitlistPos.Some? && r.waitlistPos.value > db.event.waitlistCounter
    requires Holds(r) ==> CountOccupied(db.regs) < db.event.maxParticipants
    ensures Safe(db, db')
  {
    if Holds(r) {
      FullMeansWaiting(db);
    }
    JoinedRows(db, db', r);
    hide DbOk, NoQueueJump, RowEvolves, SamePayments;
  }

  lemma JoinedRows(db: Db, db': Db, r: Reg)
    requires db'.regs == db.regs + [r]
    requires Holds(r) ==> forall j :: 0 <= j < |db.regs| ==> !Waiting(db.regs[j])
    ensures NoQueueJump(db.regs, db'.regs)
    ensures forall i :: 0 <= i < |db.regs| ==>
              RowEvolves(db.event, db.regs[i], db'.regs[i]) && SamePayments(db.regs[i], db'.regs[i])
  {
  }

  lemma RegisterIsSafe(db: Db, user: int, now: int)
    requires DbOk(db)
    ensures Safe(db, Register(db, user, now).0)
  {
    var (db', result) := Register(db, user, now);
    if result.Ok? {
      var r := db'.regs[|db.regs|];
      NoActiveMeansNone(db.regs, user);
      AppendKeepsTable(db.event, db'.event, db.regs, r);
      CountsAfterAppend(db.regs, r);
      hide TableOk;
      JoiningIsSafe(db, db', r);
    } else {
      NothingHappens(db);
    }
  }

  lemma CancelRegistrationIsSafe(db: Db, user: int, now: int)
    requires DbOk(db)
    ensures Safe(db, CancelRegistration(db, user, now).0)
  {
    NothingHappens(db);
    var found := ActiveOf(db.regs, user);
    if found.Some? {
      ActiveOfIs(db.regs, user);
      var id := found.value;
      TerminalIsLegal(db, id, Cancelled);
      TerminalIsLegal(db, id, RefundRequested);
      hide DbOk, LegalUpdate, Safe, Releases, RowEvolves, SamePayments;
      var (db', _) := CancelRegistration(db, user, now);
      var r := SetTerminal(db.regs[id], Cancelled);
      if db'.regs == db.regs[id := r] && Waiting(db.regs[id]) {
        OneRow(db, db', id, r);
      } else if db'.regs == Promote(db.event, db.regs[id := r], now) {
        OneRowThenPromote(db, db', id, r, now);
      } else if db' != db {
        OneRowThenPromote(db, db', id, SetTerminal(db.regs[id], RefundRequested), now);
      }
    }
  }

  lemma FinalizeRefundIsSafe(db: Db, id: nat, now: int)
    requires DbOk(db)
    ensures Safe(db, FinalizeRefund(db, id, now))
  {
    NothingHappens(db);
    if id < |db.regs| {
      TerminalIsLegal(db, id, Refunded);
      hide DbOk, LegalUpdate, Safe, Releases, RowEvolves, SamePayments;
      var db' := FinalizeRefund(db, id, now);
      if db' != db {
        if Holds(db.regs[id]) {
          OneRowThenPromote(db, db', id, SetTerminal(db.regs[id], Refunded), now);
        } else {
          OneRow(db, db', id, SetTerminal(db.regs[id], Refunded));
        }
      }
    }
  }

  lemma FinalizeEventCancelIsSafe(db: Db, id: nat)
    requires DbOk(db) && db.event.status == CalledOff
    ensures Safe(db, FinalizeEventCancelRefund(db, id))
  {
    NothingHappens(db);
    if id < |db.regs| {
      TerminalIsLegal(db, id, Refunded);
      var r := SetTerminal(db.regs[id], Refunded);
      var db' := FinalizeEventCancelRefund(db, id);
      UpdateKeepsTable(db.event, db.regs, id, r);
      NoQueueUnlessPublished(db.event, db'.regs);
      hide TableOk, LegalUpdate;
      assert NoQueueJump(db.regs, db'.regs);
    }
  }

  lemma NoQueueUnlessPublished(ev: Event, regs: seq<Reg>)
    requires TableOk(ev, regs) && ev.status != Published
    ensures CountWaiting(regs) == 0
    ensures forall j :: 0 <= j < |regs| ==> !Waiting(regs[j]) && regs[j].status != PendingPayment
  {
    forall j | 0 <= j < |regs| ensures !Waiting(regs[j]) && regs[j].status != PendingPayment {
      assert RowOk(ev, regs[j]);
    }
    NobodyWaits(regs);
  }

  lemma RemoveIsSafe(db: Db, id: nat, keepPayment: bool, now: int)
    requires DbOk(db)
    ensures Safe(db, RemoveRegistration(db, id, keepPayment, now).0)
  {
    NothingHappens(db);
    var (db', result) := RemoveRegistration(db, id, keepPayment, now);
    if result.Ok? {
      TerminalIsLegal(db, id, Removed);
      OneRowThenPromote(db, db', id, SetTerminal(db.regs[id], Removed), now);
    }
  }

  lemma DenyIsSafe(db: Db, id: nat)
    requires DbOk(db)
    ensures Safe(db, DenyRefund(db, id).0)
  {
    NothingHappens(db);
    var (db', result) := DenyRefund(db, id);
    if result.Ok? {
      TerminalIsLegal(db, id, Cancelled);
      OneRow(db, db', id, SetTerminal(db.regs[id], Cancelled));
    }
  }

  // ---------------------------------------------------------------------
  // Whole-table rewrites
  // ---------------------------------------------------------------------

  /** A rewrite, under a possibly new event status, that only ever releases rows. */
  ghost predicate ReleasesRow(ev: Event, ev': Event, r: Reg, r': Reg) {
    && RowOk(ev', r')
    && (r' == r || (!Holds(r') && !Active(r') && SamePayments(r, r') && RowEvolves(ev, r, r')))
  }

  lemma {:induction false} RewriteCounts(regs: seq<Reg>, after: seq<Reg>)
    requires |after| == |regs| && forall i :: 0 <= i < |regs| ==> Holds(after[i]) ==> Holds(regs[i])
    ensures CountOccupied(after) <= CountOccupied(regs)
  {
    if regs != [] {
      var n := |regs| - 1;
      RewriteCounts(regs[..n], after[..n]);
      assert Holds(after[n]) ==> Holds(regs[n]);
    }
  }

  lemma RewriteKeepsTable(ev: Event, ev': Event, regs: seq<Reg>, after: seq<Reg>)
    requires TableOk(ev, regs) && |after| == |regs|
    requires ev'.maxParticipants == ev.maxParticipants && ev'.status != Draft
    requires forall i :: 0 <= i < |regs| ==> ReleasesRow(ev, ev', regs[i], after[i])
    ensures TableOk(ev', after)
  {
    forall i | 0 <= i < |regs|
      ensures RowOk(ev', after[i]) && (Holds(after[i]) ==> Holds(regs[i]))
        && (Active(after[i]) ==> after[i] == regs[i]) && (Waiting(after[i]) ==> after[i] == regs[i])
    {
      assert ReleasesRow(ev, ev', regs[i], after[i]);
    }
    RewriteCounts(regs, after);
    hide RowOk, ReleasesRow;
    assert RowsOk(ev', after);
  }

  lemma ExpiryKeepsTable(db: Db, now: int)
    requires DbOk(db)
    ensures var after := MapRows(db.regs, ExpireOverdue(now));
            && TableOk(db.event, after)
            && forall i :: 0 <= i < |after| ==> Releases(db.event, db.regs[i], after[i])
  {
    var rewrite := ExpireOverdue(now);
    var after := MapRows(db.regs, rewrite);
    forall i | 0 <= i < |db.regs|
      ensures ReleasesRow(db.event, db.event, db.regs[i], after[i]) && Releases(db.event, db.regs[i], after[i])
    {
      assert after[i] == rewrite(db.regs[i]);
      assert RowOk(db.event, db.regs[i]);
    }
    if db.regs == [] {
      assert after == db.regs;
    } else {
      RewriteKeepsTable(db.event, db.event, db.regs, after);
    }
  }

  lemma SweepIsSafe(db: Db, now: int)
    requires DbOk(db)
    ensures Safe(db, ExpireAndPromote(db, now))
  {
    ExpiryKeepsTable(db, now);
    hide DbOk, TableOk, Releases;
    ReleaseThenPromote(db, MapRows(db.regs, ExpireOverdue(now)), ExpireAndPromote(db, now), now);
  }

  /** A rewrite that moves the event on from publication leaves nobody waiting. */
  lemma LeavePublication(db: Db, db': Db)
    requires DbOk(db) && |db'.regs| == |db.regs| && db.event.status != Draft
    requires db'.event == db.event.(status := db'.event.status)
    requires db'.event.status != Published && db'.event.status != Draft
    requires db.event.status == CalledOff ==> db'.event.status == CalledOff
    requires forall i :: 0 <= i < |db.regs| ==> ReleasesRow(db.event, db'.event, db.regs[i], db'.regs[i])
    ensures Safe(db, db')
  {
    RewriteKeepsTable(db.event, db'.event, db.regs, db'.regs);
    NoQueueUnlessPublished(db'.event, db'.regs);
    hide TableOk, RowOk, PosBefore;
    forall i | 0 <= i < |db.regs|
      ensures RowEvolves(db.event, db.regs[i], db'.regs[i]) && SamePayments(db.regs[i], db'.regs[i])
    {
      assert ReleasesRow(db.event, db'.event, db.regs[i], db'.regs[i]);
    }
  }

  lemma CloseRowReleases(ev: Event, r: Reg)
    requires RowOk(ev, r)
    ensures ReleasesRow(ev, ev.(status := Started), r, CloseRow(r))
  {
  }

  lemma CancelRowReleases(ev: Event, r: Reg)
    requires RowOk(ev, r)
    ensures ReleasesRow(ev, ev.(status := CalledOff), r, CancelRow(r))
  {
  }

  lemma TransitionIsSafe(db: Db, action: LifecycleAction, stripeConfigured: bool, openRounds: nat)
    requires DbOk(db)
    ensures Safe(db, Transition(db, action, stripeConfigured, openRounds).0)
  {
    var (db', error) := Transition(db, action, stripeConfigured, openRounds);
    if error.Some? {
      NothingHappens(db);
    } else if action == Publish {
      assert db'.regs == [];
    } else {
      forall i | 0 <= i < |db.regs| ensures ReleasesRow(db.event, db'.event, db.regs[i], db'.regs[i]) {
        assert RowOk(db.event, db.regs[i]);
        CloseRowReleases(db.event, db.regs[i]);
        CancelRowReleases(db.event, db.regs[i]);
      }
      hide DbOk, ReleasesRow, RowOk, Safe;
      LeavePublication(db, db');
    }
  }

  lemma UpdateEventIsSafe(db: Db, fee: Option<nat>, max: Option<nat>, startsAt: Option<int>, deadline: Option<int>,
                          stripeConfigured: bool, scheduleValid: bool)
    requires DbOk(db)
    ensures Safe(db, UpdateEvent(db, fee, max, startsAt, deadline, stripeConfigured, scheduleValid).0)
  {
    var (db', error) := UpdateEvent(db, fee, max, startsAt, deadline, stripeConfigured, scheduleValid);
    forall i | 0 <= i < |db.regs| ensures RowOk(db'.event, db.regs[i]) {
      assert RowOk(db.event, db.regs[i]);
    }
  }

  // ---------------------------------------------------------------------
  // Webhooks
  // ---------------------------------------------------------------------

  lemma SeenIsSafe(db: Db, db': Db)
    requires DbOk(db) && db'.event == db.event && db'.regs == db.regs
    ensures Safe(db, db')
  {
  }

  lemma CheckoutExpiredIsSafe(db: Db, webhook: string, session: string, now: int)
    requires DbOk(db)
    ensures Safe(db, CheckoutExpired(db, webhook, session, now))
  {
    var db' := CheckoutExpired(db, webhook, session, now);
    var found := BySession(db.regs, session);
    if webhook in db.seen || found.None? || db.regs[found.value].status != PendingPayment {
      SeenIsSafe(db, db');
    } else {
      TerminalIsLegal(db, found.value, Expired);
      OneRowThenPromote(db, db', found.value, SetTerminal(db.regs[found.value], Expired), now);
    }
  }

  lemma ChargeRefundedIsSafe(db: Db, webhook: string, intent: string, now: int)
    requires DbOk(db)
    ensures Safe(db, ChargeRefunded(db, webhook, intent, now))
  {
    var db' := ChargeRefunded(db, webhook, intent, now);
    var db1 := db.(seen := db.seen + {webhook});
    SeenIsSafe(db, db1);
    if webhook !in db.seen && ByIntent(db.regs, intent).Some? {
      FinalizeRefundIsSafe(db1, ByIntent(db.regs, intent).value, now);
    } else {
      SeenIsSafe(db, db');
    }
  }

  /** Writing a session back to a row that is not waiting. */
  lemma PayWriteIsSafe(db: Db, id: nat, session: string, expiresAt: int)
    requires DbOk(db) && id < |db.regs| && !Waiting(db.regs[id])
    ensures DbOk(PayWrite(db, id, session, expiresAt)) && Evolves(db, PayWrite(db, id, session, expiresAt))
  {
    var r := SetSession(db.regs[id], session, Some(expiresAt));
    assert RowOk(db.event, db.regs[id]);
    OneRow(db, PayWrite(db, id, session, expiresAt), id, r);
  }

  /** A completion of a session made for a row that is not waiting, in an event that charges. */
  ghost predicate Completable(db: Db, session: string, intent: string, clientRef: Option<nat>) {
    && DbOk(db) && db.event.feeCents > 0 && intent != ""
    && clientRef.Some? && FindForCheckout(db.regs, session, clientRef) == clientRef
    && !Waiting(db.regs[clientRef.value])
  }

  /** What a completion may make of its row. */
  ghost predicate CompletedRow(db: Db, session: string, intent: string, id: nat, r: Reg)
    requires id < |db.regs|
  {
    var reg := db.regs[id];
    var recorded := RecordPayment(reg, session, intent);
    || (HoldsMoney(reg) && !DuplicateCharge(reg, intent) && r == recorded)
    || (reg.status == PendingPayment && r == MarkPaid(recorded, Some(intent)))
    || (!HoldsMoney(reg) && reg.status != PendingPayment && r == recorded)
    || (!HoldsMoney(reg) && reg.status != PendingPayment && r == MarkPaid(recorded, Some(intent))
        && db.event.status == Published && CountOccupied(db.regs[id := recorded]) < db.event.maxParticipants
        && ActiveOf(db.regs[id := recorded], reg.user).None?)
  }

  lemma CompletionRewritesOneRow(db: Db, webhook: string, session: string, intent: string, id: nat)
    requires FindForCheckout(db.regs, session, Some(id)) == Some(id)
    ensures var db' := CheckoutCompleted(db, webhook, session, intent, Some(id)).0;
            && db'.event == db.event
            && (db'.regs == db.regs
                || (db'.regs == db.regs[id := db'.regs[id]] && CompletedRow(db, session, intent, id, db'.regs[id])))
  {
    hide CountOccupied, ActiveOf, FindForCheckout;
  }

  /** A completed row's columns are in order, and it keeps the charge it holds money on. */
  lemma CompletedRowEvolves(db: Db, session: string, intent: string, id: nat, r: Reg)
    requires Completable(db, session, intent, Some(id)) && CompletedRow(db, session, intent, id, r)
    ensures RowOk(db.event, r) && RowEvolves(db.event, db.regs[id], r) && !Waiting(r)
    ensures Holds(db.regs[id]) ==> Holds(r)
    ensures Active(r) && !Active(db.regs[id]) ==> Holds(r) && !Holds(db.regs[id])
  {
    assert RowOk(db.event, db.regs[id]);
    hide CountOccupied, ActiveOf, FindForCheckout, OneActivePerUser, DistinctPositions;
  }

  /** A row that takes a spot by a completion finds one free and its user without another. */
  lemma CompletedRowHasRoom(db: Db, session: string, intent: string, id: nat, r: Reg)
    requires Completable(db, session, intent, Some(id)) && CompletedRow(db, session, intent, id, r)
    requires Holds(r) && !Holds(db.regs[id])
    ensures CountOccupied(db.regs) < db.event.maxParticipants && NoOtherActive(db.regs, id, r.user)
  {
    var recorded := RecordPayment(db.regs[id], session, intent);
    CountsAfterUpdate(db.regs, id, recorded);
    NoActiveMeansNone(db.regs[id := recorded], db.regs[id].user);
    hide CountOccupied, ActiveOf, FindForCheckout, DbOk;
    forall j | 0 <= j < |db.regs| && j != id && Active(db.regs[j]) ensures db.regs[j].user != r.user {
      assert db.regs[id := recorded][j] == db.regs[j];
    }
  }

  lemma CompletionIsSafe(db: Db, webhook: string, session: string, intent: string, id: nat)
    requires Completable(db, session, intent, Some(id))
    ensures var db' := CheckoutCompleted(db, webhook, session, intent, Some(id)).0;
            DbOk(db') && Evolves(db, db')
  {
    var db' := CheckoutCompleted(db, webhook, session, intent, Some(id)).0;
    CompletionRewritesOneRow(db, webhook, session, intent, id);
    hide CheckoutCompleted, CompletedRow, Evolves, RowOk, RowEvolves, CountOccupied;
    if db'.regs == db.regs {
      SeenIsSafe(db, db');
    } else {
      var r := db'.regs[id];
      CompletedRowEvolves(db, session, intent, id, r);
      if Holds(r) && !Holds(db.regs[id]) {
        CompletedRowHasRoom(db, session, intent, id, r);
      }
      hide DbOk, NoOtherActive, FindForCheckout;
      OneRow(db, db', id, r);
    }
  }
}
