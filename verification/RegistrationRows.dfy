/**
 The event row, its registration rows and the statements that change them.
 Registrations are never deleted, so the table is a sequence and a row's id is
 its index.
 */
module RegistrationRows {
  import opened Wrappers

  const PAYMENT_WINDOW: int := 24 * 60
  const STRIPE_MIN_SESSION_TTL: int := 30

  datatype EventStatus = Draft | Published | Started | Finished | CalledOff

  datatype RegStatus =
    | PendingPayment | Paid | Waitlisted | RefundRequested
    | Cancelled | Refunded | Expired | Removed

  datatype Event = Event(status: EventStatus, feeCents: nat, maxParticipants: nat,
                         startsAt: int, refundDeadline: Option<int>, waitlistCounter: nat)

  datatype Reg = Reg(user: int, status: RegStatus, expiresAt: Option<int>, waitlistPos: Option<nat>,
                     session: Option<string>, sessionExpiresAt: Option<int>, intent: Option<string>)

  /** What one transaction on an event can see: its row, its registrations, the recorded webhook ids. */
  datatype Db = Db(event: Event, regs: seq<Reg>, seen: set<string>)

  // ---------------------------------------------------------------------
  // Row updates
  // ---------------------------------------------------------------------

  function NewReg(user: int, status: RegStatus, expiresAt: Option<int>, waitlistPos: Option<nat>): Reg {
    Reg(user, status, expiresAt, waitlistPos, None, None, None)
  }

  function SetTerminal(r: Reg, status: RegStatus): Reg {
    r.(status := status, expiresAt := None, waitlistPos := None)
  }

  function MarkPaid(r: Reg, intent: Option<string>): Reg {
    r.(status := Paid, expiresAt := None, waitlistPos := None,
       intent := if intent.Some? then intent else r.intent)
  }

  function PromoteToPending(r: Reg, expiresAt: int): Reg {
    r.(status := PendingPayment, expiresAt := Some(expiresAt), waitlistPos := None)
  }

  function SetSession(r: Reg, session: string, expiresAt: Option<int>): Reg {
    r.(session := Some(session), sessionExpiresAt := expiresAt)
  }

  // ---------------------------------------------------------------------
  // Queries
  // ---------------------------------------------------------------------

  /** Occupies a spot. */
  predicate Holds(r: Reg) {
    r.status == PendingPayment || r.status == Paid
  }

  /** Blocks its user from registering again. */
  predicate Active(r: Reg) {
    Holds(r) || r.status == Waitlisted || r.status == RefundRequested
  }

  predicate Waiting(r: Reg) {
    r.status == Waitlisted
  }

  function CountOccupied(regs: seq<Reg>): nat {
    if regs == [] then 0
    else CountOccupied(regs[..|regs| - 1]) + if Holds(regs[|regs| - 1]) then 1 else 0
  }

  function CountWaiting(regs: seq<Reg>): nat {
    if regs == [] then 0
    else CountWaiting(regs[..|regs| - 1]) + if Waiting(regs[|regs| - 1]) then 1 else 0
  }

  /** The first row that matches. */
  function First(regs: seq<Reg>, matches: Reg -> bool): (r: Option<nat>)
    ensures r.Some? ==> r.value < |regs| && matches(regs[r.value])
    ensures r.None? ==> forall i :: 0 <= i < |regs| ==> !matches(regs[i])
  {
    if regs == [] then None
    else
      var before := First(regs[..|regs| - 1], matches);
      if before.Some? then before
      else if matches(regs[|regs| - 1]) then Some(|regs| - 1)
      else None
  }

  function ActiveOf(regs: seq<Reg>, user: int): Option<nat> {
    First(regs, (r: Reg) => r.user == user && Active(r))
  }

  function BySession(regs: seq<Reg>, session: string): Option<nat> {
    First(regs, (r: Reg) => r.session == Some(session))
  }

  function ByIntent(regs: seq<Reg>, intent: string): Option<nat> {
    First(regs, (r: Reg) => r.intent == Some(intent))
  }

  /** `order by waitlist_pos`: missing positions last. */
  predicate PosBefore(a: Reg, b: Reg) {
    a.waitlistPos.Some? && (b.waitlistPos.None? || a.waitlistPos.value < b.waitlistPos.value)
  }

  function NextWaitlisted(regs: seq<Reg>): (r: Option<nat>)
    ensures r.Some? ==> r.value < |regs| && Waiting(regs[r.value])
    ensures r.Some? ==> forall j :: 0 <= j < |regs| && Waiting(regs[j]) ==> !PosBefore(regs[j], regs[r.value])
    ensures r.None? ==> forall j :: 0 <= j < |regs| ==> !Waiting(regs[j])
  {
    if regs == [] then None
    else
      var n := |regs| - 1;
      var before := NextWaitlisted(regs[..n]);
      if Waiting(regs[n]) && (before.None? || PosBefore(regs[n], regs[before.value])) then Some(n)
      else before
  }

  // ---------------------------------------------------------------------
  // Counting across updates
  // ---------------------------------------------------------------------

  lemma {:induction false} CountsAfterUpdate(regs: seq<Reg>, i: nat, r: Reg)
    requires i < |regs|
    ensures CountOccupied(regs[i := r]) + (if Holds(regs[i]) then 1 else 0)
         == CountOccupied(regs) + if Holds(r) then 1 else 0
    ensures CountWaiting(regs[i := r]) + (if Waiting(regs[i]) then 1 else 0)
         == CountWaiting(regs) + if Waiting(r) then 1 else 0
  {
    var n := |regs| - 1;
    if i == n {
      assert regs[i := r][..n] == regs[..n];
    } else {
      assert regs[i := r][..n] == regs[..n][i := r];
      CountsAfterUpdate(regs[..n], i, r);
    }
  }

  lemma CountsAfterAppend(regs: seq<Reg>, r: Reg)
    ensures CountOccupied(regs + [r]) == CountOccupied(regs) + if Holds(r) then 1 else 0
    ensures CountWaiting(regs + [r]) == CountWaiting(regs) + if Waiting(r) then 1 else 0
  {
    assert (regs + [r])[..|regs|] == regs;
  }

  lemma {:induction false} NobodyWaits(regs: seq<Reg>)
    ensures CountWaiting(regs) == 0 <==> forall j :: 0 <= j < |regs| ==> !Waiting(regs[j])
  {
    if regs != [] {
      var front := regs[..|regs| - 1];
      NobodyWaits(front);
      assert forall j :: 0 <= j < |front| ==> front[j] == regs[j];
    }
  }

  // ---------------------------------------------------------------------
  // Promotion
  // ---------------------------------------------------------------------

  /** What promotion makes of a row: a 24-hour payment window, or paid outright when free. */
  function Promoted(event: Event, r: Reg, now: int): Reg {
    if event.feeCents > 0 then PromoteToPending(r, now + PAYMENT_WINDOW) else MarkPaid(r, None)
  }

  /** Fill free capacity from the front of the waitlist. */
  function Promote(event: Event, regs: seq<Reg>, now: int): (after: seq<Reg>)
    ensures |after| == |regs|
    decreases CountWaiting(regs)
  {
    if CountOccupied(regs) >= event.maxParticipants then regs
    else
      var next := NextWaitlisted(regs);
      if next.None? then regs
      else
        var r := Promoted(event, regs[next.value], now);
        CountsAfterUpdate(regs, next.value, r);
        Promote(event, regs[next.value := r], now)
  }

  // ---------------------------------------------------------------------
  // Transactions
  // ---------------------------------------------------------------------

  datatype Error =
    | EventNotFound | InvalidTransition | AlreadyRegistered | RegistrationNotFound | RegistrationNotPayable
    | RegistrationClosed | PaymentsUnconfigured | RoundOpen | RemovePaidNeedsDecision
    | EventLocked | InvalidSchedule

  function WithRegs(db: Db, regs: seq<Reg>): Db {
    db.(regs := regs)
  }

  function SetRow(db: Db, id: nat, r: Reg): Db
    requires id < |db.regs|
  {
    db.(regs := db.regs[id := r])
  }

  function PromoteDb(db: Db, now: int): Db {
    db.(regs := Promote(db.event, db.regs, now))
  }

  function Register(db: Db, user: int, now: int): (out: (Db, Result<nat, Error>))
    ensures out.0.seen == db.seen
  {
    var ev := db.event;
    if ev.status == Draft then (db, Err(EventNotFound))
    else if ev.status != Published then (db, Err(RegistrationClosed))
    else if ActiveOf(db.regs, user).Some? then (db, Err(AlreadyRegistered))
    else
      var id := |db.regs|;
      if CountOccupied(db.regs) >= ev.maxParticipants then
        var pos := ev.waitlistCounter + 1;
        (db.(event := ev.(waitlistCounter := pos),
             regs := db.regs + [NewReg(user, Waitlisted, None, Some(pos))]), Ok(id))
      else if ev.feeCents > 0 then
        (db.(regs := db.regs + [NewReg(user, PendingPayment, Some(now + PAYMENT_WINDOW), None)]), Ok(id))
      else
        (db.(regs := db.regs + [NewReg(user, Paid, None, None)]), Ok(id))
  }

  function RefundDeadline(ev: Event): int {
    ev.refundDeadline.GetOr(ev.startsAt)
  }

  /** Self-cancel; `Ok(Some((id, intent)))` asks for an automatic refund, to be finalised later. */
  function CancelRegistration(db: Db, user: int, now: int): (out: (Db, Result<Option<(nat, string)>, Error>))
    ensures out.0.seen == db.seen
  {
    if db.event.status == Draft then (db, Err(EventNotFound))
    else if db.event.status != Published then (db, Err(RegistrationClosed))
    else
      var found := ActiveOf(db.regs, user);
      if found.None? then (db, Err(RegistrationNotFound))
      else
        var id := found.value;
        var reg := db.regs[id];
        match reg.status
        case Waitlisted => (SetRow(db, id, SetTerminal(reg, Cancelled)), Ok(None))
        case PendingPayment => (PromoteDb(SetRow(db, id, SetTerminal(reg, Cancelled)), now), Ok(None))
        case Paid =>
          if reg.intent.None? then (PromoteDb(SetRow(db, id, SetTerminal(reg, Cancelled)), now), Ok(None))
          else if now < RefundDeadline(db.event) then (db, Ok(Some((id, reg.intent.value))))
          else (PromoteDb(SetRow(db, id, SetTerminal(reg, RefundRequested)), now), Ok(None))
        case _ => (db, Err(RegistrationNotFound))
  }

  /** The transaction after a successful Stripe refund call: whatever the row is by now, it ends refunded. */
  function FinalizeRefund(db: Db, id: nat, now: int): (db': Db)
    ensures db'.seen == db.seen
  {
    if id >= |db.regs| || db.regs[id].status == Refunded then db
    else
      var refunded := SetRow(db, id, SetTerminal(db.regs[id], Refunded));
      if Holds(db.regs[id]) then PromoteDb(refunded, now) else refunded
  }

  /** After a cancelled event's refund call the row is marked refunded, unconditionally. */
  function FinalizeEventCancelRefund(db: Db, id: nat): (db': Db)
    ensures db'.seen == db.seen
  {
    if id >= |db.regs| then db else SetRow(db, id, SetTerminal(db.regs[id], Refunded))
  }

  function OrganizerRefund(db: Db, id: nat): Result<string, Error> {
    if id >= |db.regs| then Err(RegistrationNotFound)
    else if db.regs[id].status != RefundRequested && db.regs[id].status != Paid then Err(InvalidTransition)
    else if db.regs[id].intent.None? then Err(InvalidTransition)
    else Ok(db.regs[id].intent.value)
  }

  function RemoveRegistration(db: Db, id: nat, keepPayment: bool, now: int): (out: (Db, Result<nat, Error>))
    ensures out.0.seen == db.seen
  {
    if id >= |db.regs| then (db, Err(RegistrationNotFound))
    else
      var reg := db.regs[id];
      if reg.status == Paid && reg.intent.Some? && !keepPayment then (db, Err(RemovePaidNeedsDecision))
      else if !Holds(reg) && !Waiting(reg) then (db, Err(InvalidTransition))
      else (PromoteDb(SetRow(db, id, SetTerminal(reg, Removed)), now), Ok(id))
  }

  function DenyRefund(db: Db, id: nat): (out: (Db, Result<nat, Error>))
    ensures out.0.seen == db.seen
  {
    if id >= |db.regs| then (db, Err(RegistrationNotFound))
    else if db.regs[id].status != RefundRequested then (db, Err(InvalidTransition))
    else (SetRow(db, id, SetTerminal(db.regs[id], Cancelled)), Ok(id))
  }

  /** Overdue, and its checkout session (if any) is no longer live. */
  predicate Overdue(r: Reg, now: int) {
    && r.status == PendingPayment
    && r.expiresAt.Some? && r.expiresAt.value <= now
    && (r.sessionExpiresAt.None? || r.sessionExpiresAt.value <= now)
  }

  /** Apply a row rewrite to the whole table. */
  function MapRows(regs: seq<Reg>, rewrite: Reg -> Reg): (r: seq<Reg>)
    ensures |r| == |regs| && forall i :: 0 <= i < |regs| ==> r[i] == rewrite(regs[i])
  {
    seq(|regs|, i requires 0 <= i < |regs| => rewrite(regs[i]))
  }

  function ExpireOverdue(now: int): Reg -> Reg {
    (r: Reg) => if Overdue(r, now) then SetTerminal(r, Expired) else r
  }

  function ExpireAndPromote(db: Db, now: int): (db': Db)
    ensures db'.seen == db.seen
  {
    PromoteDb(WithRegs(db, MapRows(db.regs, ExpireOverdue(now))), now)
  }

  /** Starting closes registration: pending rows expire and the waitlist is cancelled. */
  function CloseRow(r: Reg): Reg {
    match r.status
    case PendingPayment => SetTerminal(r, Expired)
    case Waitlisted => SetTerminal(r, Cancelled)
    case _ => r
  }

  /** Calling the event off keeps only rows that hold money, for the refunds after the commit. */
  predicate NeedsCancelRefund(r: Reg) {
    (r.status == Paid || r.status == RefundRequested) && r.intent.Some?
  }

  function CancelRow(r: Reg): Reg {
    if Active(r) && !NeedsCancelRefund(r) then SetTerminal(r, Cancelled) else r
  }

  datatype LifecycleAction = Publish | Start | Finish | CallOff

  predicate Legal(action: LifecycleAction, status: EventStatus) {
    match action
    case Publish => status == Draft
    case Start => status == Published
    case Finish => status == Started
    case CallOff => status == Published || status == Started || status == CalledOff
  }

  function Target(action: LifecycleAction): EventStatus {
    match action
    case Publish => Published
    case Start => Started
    case Finish => Finished
    case CallOff => CalledOff
  }

  function Transition(db: Db, action: LifecycleAction, stripeConfigured: bool,
                      openRounds: nat): (out: (Db, Option<Error>))
    ensures out.0.seen == db.seen
  {
    if !Legal(action, db.event.status) then (db, Some(InvalidTransition))
    else if action == Publish && db.event.feeCents > 0 && !stripeConfigured then (db, Some(PaymentsUnconfigured))
    else if action == Finish && openRounds > 0 then (db, Some(RoundOpen))
    else
      var regs :=
        match action
        case Start => MapRows(db.regs, CloseRow)
        case CallOff => MapRows(db.regs, CancelRow)
        case _ => db.regs;
      (db.(event := db.event.(status := Target(action)), regs := regs), None)
  }

  /** A draft may change its terms; from publication on, of these fields only the refund deadline. */
  function UpdateEvent(db: Db, feeCents: Option<nat>, maxParticipants: Option<nat>, startsAt: Option<int>,
                       refundDeadline: Option<int>, stripeConfigured: bool,
                       scheduleValid: bool): (out: (Db, Option<Error>))
    ensures out.0.seen == db.seen
  {
    var ev := db.event;
    if ev.status != Draft && (feeCents.Some? || maxParticipants.Some? || startsAt.Some?) then (db, Some(EventLocked))
    else if feeCents.GetOr(0) > 0 && !stripeConfigured then (db, Some(PaymentsUnconfigured))
    else if !scheduleValid then (db, Some(InvalidSchedule))
    else
      (db.(event := ev.(feeCents := feeCents.GetOr(ev.feeCents),
                        maxParticipants := maxParticipants.GetOr(ev.maxParticipants),
                        startsAt := startsAt.GetOr(ev.startsAt),
                        refundDeadline := if refundDeadline.Some? then refundDeadline else ev.refundDeadline)), None)
  }

  datatype PayDecision = Reuse | CreateSession(id: nat, expiresAt: int)

  /** The unlocked read at the start of Pay. */
  function PayRead(db: Db, user: int, now: int, stripeConfigured: bool): Result<PayDecision, Error> {
    if db.event.status == Draft then Err(EventNotFound)
    else
      var found := ActiveOf(db.regs, user);
      if found.None? then Err(RegistrationNotFound)
      else
        var reg := db.regs[found.value];
        if reg.status != PendingPayment || reg.expiresAt.None? || reg.expiresAt.value <= now then
            Err(RegistrationNotPayable)
        else if reg.session.Some? && reg.sessionExpiresAt.Some? && reg.sessionExpiresAt.value > now then Ok(Reuse)
        else if !stripeConfigured then Err(PaymentsUnconfigured)
        else
          var earliest := now + STRIPE_MIN_SESSION_TTL;
          Ok(CreateSession(found.value, if reg.expiresAt.value < earliest then earliest else reg.expiresAt.value))
  }

  /** The unlocked write at the end of Pay. */
  function PayWrite(db: Db, id: nat, session: string, expiresAt: int): (db': Db)
    ensures db'.seen == db.seen
  {
    if id >= |db.regs| then db else SetRow(db, id, SetSession(db.regs[id], session, Some(expiresAt)))
  }

  // ---------------------------------------------------------------------
  // Webhooks
  // ---------------------------------------------------------------------

  /** What is left to do once a completion's transaction has committed. */
  datatype Aftermath = Nothing | LateRefund(id: nat, intent: string) | DuplicateRefund(id: nat, intent: string)

  /** A different charge on a row that has already captured one. */
  predicate DuplicateCharge(r: Reg, intent: string) {
    && (r.status == Paid || r.status == RefundRequested)
    && intent != "" && r.intent.Some? && r.intent.value != intent
  }

  /** The session and intent pointers after a completion that is not a duplicate. */
  function RecordPayment(r: Reg, session: string, intent: string): Reg {
    var r1 := if r.session != Some(session) then SetSession(r, session, None) else r;
    if intent != "" then r1.(intent := Some(intent)) else r1
  }

  function FindForCheckout(regs: seq<Reg>, session: string, clientRef: Option<nat>): (id: Option<nat>)
    ensures id.Some? ==> id.value < |regs|
  {
    var stored := BySession(regs, session);
    if stored.Some? then stored
    else if clientRef.Some? && clientRef.value < |regs| then clientRef
    else None
  }

  function CheckoutCompleted(db: Db, webhook: string, session: string, intent: string,
                             clientRef: Option<nat>): (out: (Db, Aftermath))
    ensures out.0.seen == db.seen + {webhook}
  {
    if webhook in db.seen then (db, Nothing)
    else
      var db1 := db.(seen := db.seen + {webhook});
      var found := FindForCheckout(db.regs, session, clientRef);
      if found.None? then (db1, Nothing)
      else
        var id := found.value;
        var reg := db.regs[id];
        if DuplicateCharge(reg, intent) then (db1, DuplicateRefund(id, intent))
        else
          var recorded := RecordPayment(reg, session, intent);
          var db2 := SetRow(db1, id, recorded);
          match reg.status
          case PendingPayment => (SetRow(db1, id, MarkPaid(recorded, Some(intent))), Nothing)
          case Paid => (db2, Nothing)
          case RefundRequested => (db2, Nothing)
          case _ =>
            if db.event.status == Published && CountOccupied(db2.regs) < db.event.maxParticipants
               && ActiveOf(db2.regs, reg.user).None? && reg.status != Removed
            then (SetRow(db1, id, MarkPaid(recorded, Some(intent))), Nothing)
            else (db2, if intent != "" then LateRefund(id, intent) else Nothing)
  }

  function CheckoutExpired(db: Db, webhook: string, session: string, now: int): (db': Db)
    ensures db'.seen == db.seen + {webhook}
  {
    if webhook in db.seen then db
    else
      var db1 := db.(seen := db.seen + {webhook});
      var found := BySession(db.regs, session);
      if found.None? || db.regs[found.value].status != PendingPayment then db1
      else PromoteDb(SetRow(db1, found.value, SetTerminal(db.regs[found.value], Expired)), now)
  }

  function ChargeRefunded(db: Db, webhook: string, intent: string, now: int): (db': Db)
    ensures db'.seen == db.seen + {webhook}
  {
    if webhook in db.seen then db
    else
      var db1 := db.(seen := db.seen + {webhook});
      var found := ByIntent(db.regs, intent);
      if found.None? then db1 else FinalizeRefund(db1, found.value, now)
  }
}
