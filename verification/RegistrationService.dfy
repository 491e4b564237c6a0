/**
 The service methods that update an event and its registrations in place, each
 the body of one transaction under the event row's lock. Every method is tied
 to the transaction function whose runs are studied in RegistrationRuns.
 */
module RegistrationService {
  import opened Wrappers
  import opened RegistrationInvariant
  import opened RegistrationSteps
  import opened R = RegistrationRows

  class EventStore {
    var event: Event
    var regs: seq<Reg>
    var seen: set<string>

    ghost function Contents(): Db
      reads this
    {
      Db(event, regs, seen)
    }

    /** A new draft, with no registrations. */
    constructor (feeCents: nat, maxParticipants: nat, startsAt: int, refundDeadline: Option<int>)
      ensures Contents() == Db(Event(Draft, feeCents, maxParticipants, startsAt, refundDeadline, 0), [], {})
      ensures DbOk(Contents())
    {
      event := Event(Draft, feeCents, maxParticipants, startsAt, refundDeadline, 0);
      regs := [];
      seen := {};
    }

    method SetRegistrationTerminal(id: nat, status: RegStatus)
      requires id < |regs|
      modifies this`regs
      ensures regs == old(regs)[id := SetTerminal(old(regs[id]), status)]
    {
      regs := regs[id := SetTerminal(regs[id], status)];
    }

    method MarkRegistrationPaid(id: nat, intent: string)
      requires id < |regs|
      modifies this`regs
      ensures regs == old(regs)[id := MarkPaid(old(regs[id]), Some(intent))]
    {
      regs := regs[id := MarkPaid(regs[id], Some(intent))];
    }

    /** Fill free spots from the front of the waitlist until the event is full or nobody waits. */
    method PromoteLocked(now: int) returns (promoted: seq<nat>)
      modifies this`regs
      ensures regs == Promote(event, old(regs), now)
      ensures TableOk(event, old(regs)) ==>
                && WaitsOnlyWhenFull(event, regs) && FrontOfQueue(old(regs), regs)
                && |promoted| == Min(event.maxParticipants - CountOccupied(old(regs)), CountWaiting(old(regs)))
    {
      hide TableOk, WaitsOnlyWhenFull, FrontOfQueue, CountOccupied;
      promoted := [];
      while true
        invariant Promote(event, regs, now) == Promote(event, old(regs), now)
        invariant |promoted| + CountWaiting(regs) == CountWaiting(old(regs))
        decreases CountWaiting(regs)
      {
        if CountOccupied(regs) >= event.maxParticipants {
          break;
        }
        var next := NextWaitlisted(regs);
        if next.None? {
          break;
        }
        var id := next.value;
        CountsAfterUpdate(regs, id, Promoted(event, regs[id], now));
        if event.feeCents > 0 {
          regs := regs[id := PromoteToPending(regs[id], now + PAYMENT_WINDOW)];
        } else {
          regs := regs[id := MarkPaid(regs[id], None)];
        }
        promoted := promoted + [id];
      }
      if TableOk(event, old(regs)) {
        PromoteKeepsTable(event, old(regs), now);
        PromoteExact(event, old(regs), now);
      }
    }

    method Register(user: int, now: int) returns (r: Result<nat, Error>)
      modifies this
      ensures (Contents(), r) == R.Register(old(Contents()), user, now)
      ensures old(DbOk(Contents())) ==> Safe(old(Contents()), Contents())
    {
      if DbOk(Contents()) {
        RegisterIsSafe(Contents(), user, now);
      }
      match event.status {
        case Published =>
        case Draft => return Err(EventNotFound);
        case _ => return Err(RegistrationClosed);
      }
      if ActiveOf(regs, user).Some? {
        return Err(AlreadyRegistered);
      }
      r := Ok(|regs|);
      if CountOccupied(regs) >= event.maxParticipants {
        event := event.(waitlistCounter := event.waitlistCounter + 1);
        regs := regs + [NewReg(user, Waitlisted, None, Some(event.waitlistCounter))];
      } else if event.feeCents > 0 {
        regs := regs + [NewReg(user, PendingPayment, Some(now + PAYMENT_WINDOW), None)];
      } else {
        regs := regs + [NewReg(user, Paid, None, None)];
      }
    }

    method CancelRegistration(user: int, now: int) returns (r: Result<Option<(nat, string)>, Error>)
      modifies this`regs
      ensures (Contents(), r) == R.CancelRegistration(old(Contents()), user, now)
      ensures old(DbOk(Contents())) ==> Safe(old(Contents()), Contents())
    {
      if DbOk(Contents()) {
        CancelRegistrationIsSafe(Contents(), user, now);
      }
      if event.status == Draft {
        return Err(EventNotFound);
      }
      if event.status != Published {
        return Err(RegistrationClosed);
      }
      var found := ActiveOf(regs, user);
      if found.None? {
        return Err(RegistrationNotFound);
      }
      var id := found.value;
      match regs[id].status {
        case Waitlisted =>
          SetRegistrationTerminal(id, Cancelled);
          return Ok(None);
        case PendingPayment =>
          SetRegistrationTerminal(id, Cancelled);
        case Paid =>
          if regs[id].intent.None? {
            SetRegistrationTerminal(id, Cancelled);
          } else if now < RefundDeadline(event) {
            return Ok(Some((id, regs[id].intent.value)));
          } else {
            SetRegistrationTerminal(id, RefundRequested);
          }
        case _ =>
          return Err(RegistrationNotFound);
      }
      var _ := PromoteLocked(now);
      return Ok(None);
    }

    /** PATCH: a draft may change its terms, later only the refund deadline. */
    method Update(feeCents: Option<nat>, maxParticipants: Option<nat>, startsAt: Option<int>,
                  refundDeadline: Option<int>,
                  stripeConfigured: bool, scheduleValid: bool) returns (error: Option<Error>)
      modifies this`event
      ensures (Contents(), error)
           == UpdateEvent(old(Contents()), feeCents, maxParticipants, startsAt, refundDeadline, stripeConfigured,
                          scheduleValid)
      ensures old(DbOk(Contents())) ==> Safe(old(Contents()), Contents())
    {
      if DbOk(Contents()) {
        UpdateEventIsSafe(Contents(), feeCents, maxParticipants, startsAt, refundDeadline, stripeConfigured,
                          scheduleValid);
      }
      if event.status != Draft {
        if feeCents.Some? || maxParticipants.Some? || startsAt.Some? {
          return Some(EventLocked);
        }
      }
      if feeCents.Some? && feeCents.value > 0 && !stripeConfigured {
        return Some(PaymentsUnconfigured);
      }
      if !scheduleValid {
        return Some(InvalidSchedule);
      }
      event := event.(feeCents := feeCents.GetOr(event.feeCents),
                      maxParticipants := maxParticipants.GetOr(event.maxParticipants),
                      startsAt := startsAt.GetOr(event.startsAt),
                      refundDeadline := if refundDeadline.Some? then refundDeadline else event.refundDeadline);
      return None;
    }

    /** Pay's last statement: store the session it created, whatever the row is by now. */
    method SetRegistrationCheckoutSession(id: nat, session: string, expiresAt: int)
      modifies this`regs
      ensures Contents() == PayWrite(old(Contents()), id, session, expiresAt)
    {
      if id < |regs| {
        regs := regs[id := SetSession(regs[id], session, Some(expiresAt))];
      }
    }

    /** The transaction that follows a successful Stripe refund. */
    method FinalizeRefund(id: nat, now: int)
      modifies this`regs
      ensures Contents() == R.FinalizeRefund(old(Contents()), id, now)
      ensures old(DbOk(Contents())) ==> Safe(old(Contents()), Contents())
    {
      if DbOk(Contents()) {
        FinalizeRefundIsSafe(Contents(), id, now);
      }
      if id >= |regs| || regs[id].status == Refunded {
        return;
      }
      var wasHolding := regs[id].status == Paid || regs[id].status == PendingPayment;
      SetRegistrationTerminal(id, Refunded);
      if wasHolding {
        var _ := PromoteLocked(now);
      }
    }

    method RemoveRegistration(id: nat, keepPayment: bool, now: int) returns (r: Result<nat, Error>)
      modifies this`regs
      ensures (Contents(), r) == R.RemoveRegistration(old(Contents()), id, keepPayment, now)
      ensures old(DbOk(Contents())) ==> Safe(old(Contents()), Contents())
    {
      if DbOk(Contents()) {
        RemoveIsSafe(Contents(), id, keepPayment, now);
      }
      if id >= |regs| {
        return Err(RegistrationNotFound);
      }
      match regs[id].status {
        case PendingPayment =>
        case Waitlisted =>
        case Paid =>
          if regs[id].intent.Some? && !keepPayment {
            return Err(RemovePaidNeedsDecision);
          }
        case _ =>
          return Err(InvalidTransition);
      }
      SetRegistrationTerminal(id, Removed);
      var _ := PromoteLocked(now);
      return Ok(id);
    }

    method DenyRefund(id: nat) returns (r: Result<nat, Error>)
      modifies this`regs
      ensures (Contents(), r) == R.DenyRefund(old(Contents()), id)
      ensures old(DbOk(Contents())) ==> Safe(old(Contents()), Contents())
    {
      if DbOk(Contents()) {
        DenyIsSafe(Contents(), id);
      }
      if id >= |regs| {
        return Err(RegistrationNotFound);
      }
      if regs[id].status != RefundRequested {
        return Err(InvalidTransition);
      }
      SetRegistrationTerminal(id, Cancelled);
      return Ok(id);
    }

    /** The sweeper's body: expire what is overdue, then promote. */
    method ExpireAndPromote(now: int)
      modifies this`regs
      ensures Contents() == R.ExpireAndPromote(old(Contents()), now)
      ensures old(DbOk(Contents())) ==> Safe(old(Contents()), Contents())
    {
      if DbOk(Contents()) {
        SweepIsSafe(Contents(), now);
      }
      for i := 0 to |regs|
        invariant |regs| == |old(regs)|
        invariant forall j :: 0 <= j < i ==> regs[j] == ExpireOverdue(now)(old(regs)[j])
        invariant forall j :: i <= j < |regs| ==> regs[j] == old(regs)[j]
      {
        if Overdue(regs[i], now) {
          SetRegistrationTerminal(i, Expired);
        }
      }
      assert regs == MapRows(old(regs), ExpireOverdue(now));
      var _ := PromoteLocked(now);
    }

    method CloseRegistrationLocked()
      modifies this`regs
      ensures regs == MapRows(old(regs), CloseRow)
    {
      for i := 0 to |regs|
        invariant |regs| == |old(regs)|
        invariant forall j :: 0 <= j < i ==> regs[j] == CloseRow(old(regs)[j])
        invariant forall j :: i <= j < |regs| ==> regs[j] == old(regs)[j]
      {
        match regs[i].status {
          case PendingPayment => SetRegistrationTerminal(i, Expired);
          case Waitlisted => SetRegistrationTerminal(i, Cancelled);
          case _ => continue;
        }
      }
    }

    /** Rows without money are cancelled; the others are returned for refunding after the commit. */
    method CancelEventLocked() returns (refunds: seq<(nat, string)>)
      modifies this`regs
      ensures regs == MapRows(old(regs), CancelRow)
      ensures forall id: nat, intent: string :: (id, intent) in refunds <==>
                id < |old(regs)| && NeedsCancelRefund(old(regs)[id]) && old(regs)[id].intent == Some(intent)
    {
      refunds := [];
      for i := 0 to |regs|
        invariant |regs| == |old(regs)|
        invariant forall j :: 0 <= j < i ==> regs[j] == CancelRow(old(regs)[j])
        invariant forall j :: i <= j < |regs| ==> regs[j] == old(regs)[j]
        invariant forall id: nat, intent: string :: (id, intent) in refunds <==>
                    id < i && NeedsCancelRefund(old(regs)[id]) && old(regs)[id].intent == Some(intent)
      {
        if !Active(regs[i]) {
          continue;
        }
        if (regs[i].status == Paid || regs[i].status == RefundRequested) && regs[i].intent.Some? {
          refunds := refunds + [(i, regs[i].intent.value)];
          continue;
        }
        SetRegistrationTerminal(i, Cancelled);
      }
    }

    method Transition(action: LifecycleAction, stripeConfigured: bool, openRounds: nat)
      returns (error: Option<Error>, refunds: seq<(nat, string)>)
      modifies this
      ensures (Contents(), error) == R.Transition(old(Contents()), action, stripeConfigured, openRounds)
      ensures old(DbOk(Contents())) ==> Safe(old(Contents()), Contents())
      ensures forall id: nat, intent: string :: (id, intent) in refunds <==>
                && error.None? && action == CallOff
                && id < |old(regs)| && NeedsCancelRefund(old(regs)[id]) && old(regs)[id].intent == Some(intent)
    {
      if DbOk(Contents()) {
        TransitionIsSafe(Contents(), action, stripeConfigured, openRounds);
      }
      refunds := [];
      if !Legal(action, event.status) {
        return Some(InvalidTransition), refunds;
      }
      if action == Publish && event.feeCents > 0 && !stripeConfigured {
        return Some(PaymentsUnconfigured), refunds;
      }
      if action == Start {
        CloseRegistrationLocked();
      }
      if action == Finish && openRounds > 0 {
        return Some(RoundOpen), refunds;
      }
      if action == CallOff {
        refunds := CancelEventLocked();
      }
      event := event.(status := Target(action));
      error := None;
    }

    /** The paying session wins, and its charge stays traceable. */
    method RecordCheckout(id: nat, session: string, intent: string)
      requires id < |regs|
      modifies this`regs
      ensures regs == old(regs)[id := RecordPayment(old(regs[id]), session, intent)]
    {
      if regs[id].session != Some(session) {
        regs := regs[id := SetSession(regs[id], session, None)];
      }
      if intent != "" {
        regs := regs[id := regs[id].(intent := Some(intent))];
      }
    }

    /** Delivery of a completed checkout session. */
    method HandleCheckoutCompleted(webhook: string, session: string, intent: string, clientRef: Option<nat>)
      returns (aftermath: Aftermath)
      modifies this
      ensures (Contents(), aftermath) == R.CheckoutCompleted(old(Contents()), webhook, session, intent, clientRef)
      ensures old(Completable(Contents(), session, intent, clientRef)) ==>
                DbOk(Contents()) && Evolves(old(Contents()), Contents())
    {
      if Completable(Contents(), session, intent, clientRef) {
        CompletionIsSafe(Contents(), webhook, session, intent, clientRef.value);
      }
      aftermath := CompleteCheckout(webhook, session, intent, clientRef);
    }

    /** The transaction itself. */
    method CompleteCheckout(webhook: string, session: string, intent: string, clientRef: Option<nat>)
      returns (aftermath: Aftermath)
      modifies this
      ensures (Contents(), aftermath) == R.CheckoutCompleted(old(Contents()), webhook, session, intent, clientRef)
    {
      hide CountOccupied, ActiveOf, BySession, First;
      if webhook in seen {
        return Nothing;
      }
      seen := seen + {webhook};
      var found := FindForCheckout(regs, session, clientRef);
      if found.None? {
        return Nothing;
      }
      var id := found.value;
      var reg := regs[id];
      var duplicate := DuplicateCharge(reg, intent);
      if !duplicate {
        RecordCheckout(id, session, intent);
      }
      if reg.status == PendingPayment {
        MarkRegistrationPaid(id, intent);
        assert regs == old(regs)[id := MarkPaid(RecordPayment(reg, session, intent), Some(intent))];
        return Nothing;
      }
      if reg.status == Paid || reg.status == RefundRequested {
        return if duplicate then DuplicateRefund(id, intent) else Nothing;
      }
      var occupied := CountOccupied(regs);
      var hasOtherActive := ActiveOf(regs, reg.user).Some?;
      if event.status == Published && occupied < event.maxParticipants && !hasOtherActive && reg.status != Removed {
        MarkRegistrationPaid(id, intent);
        assert regs == old(regs)[id := MarkPaid(RecordPayment(reg, session, intent), Some(intent))];
        return Nothing;
      }
      return if intent != "" then LateRefund(id, intent) else Nothing;
    }

    /** Delivery of an expired checkout session: only the session a row still stores can expire it. */
    method HandleCheckoutExpired(webhook: string, session: string, now: int)
      modifies this
      ensures Contents() == R.CheckoutExpired(old(Contents()), webhook, session, now)
      ensures old(DbOk(Contents())) ==> Safe(old(Contents()), Contents())
    {
      if DbOk(Contents()) {
        CheckoutExpiredIsSafe(Contents(), webhook, session, now);
      }
      if webhook in seen {
        return;
      }
      seen := seen + {webhook};
      var found := BySession(regs, session);
      if found.None? || regs[found.value].status != PendingPayment {
        return;
      }
      SetRegistrationTerminal(found.value, Expired);
      var _ := PromoteLocked(now);
    }

    /** Delivery of a refund made on Stripe's side. */
    method HandleChargeRefunded(webhook: string, intent: string, now: int)
      modifies this
      ensures Contents() == R.ChargeRefunded(old(Contents()), webhook, intent, now)
      ensures old(DbOk(Contents())) ==> Safe(old(Contents()), Contents())
    {
      if DbOk(Contents()) {
        ChargeRefundedIsSafe(Contents(), webhook, intent, now);
      }
      if webhook in seen {
        return;
      }
      seen := seen + {webhook};
      var found := ByIntent(regs, intent);
      if found.None? || regs[found.value].status == Refunded {
        return;
      }
      var wasHolding := Holds(regs[found.value]);
      SetRegistrationTerminal(found.value, Refunded);
      if wasHolding {
        var _ := PromoteLocked(now);
      }
    }
  }
}
