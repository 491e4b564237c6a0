/** What a two-phase refund finds when it is finalised: the charge it sent back, or another one paid meanwhile. */
module RegistrationRefunds {
  import opened Wrappers
  import opened RegistrationRows
  import opened RegistrationInvariant
  import opened RegistrationSteps
  import opened RegistrationRuns

  // ---------------------------------------------------------------------
  // When a row's charge changes
  // ---------------------------------------------------------------------

  ghost predicate HasReg(s: System, i: nat) {
    i < |s.db.regs|
  }

  ghost predicate IntentIs(s: System, i: nat, intent: Option<string>)
    requires HasReg(s, i)
  {
    s.db.regs[i].intent == intent
  }

  /** The delivery of a completed session that Pay made for row `i`. */
  ghost predicate CompletesFor(s: System, a: Action, i: nat) {
    a.SessionCompleted? && a.session in s.sessions && s.sessions[a.session].reg == i
  }

  lemma PaymentsKept(s: System, a: Action, i: nat)
    requires HasReg(s, i) && KeepsPayments(s.db.regs, Step(s, a).db.regs)
    ensures HasReg(Step(s, a), i) && IntentIs(Step(s, a), i, s.db.regs[i].intent)
  {
    hide Step;
    assert SamePayments(s.db.regs[i], Step(s, a).db.regs[i]);
  }

  lemma OtherStepsKeepPayments(s: System, a: Action)
    requires SystemOk(s) && !a.SessionCompleted? && !a.DoPayWrite?
    ensures KeepsPayments(s.db.regs, Step(s, a).db.regs)
  {
    hide DbOk, SessionsOk, LinksOk, PayOk, RefundsOk, KeepsPayments, Evolves, Register, RemoveRegistration, DenyRefund,
         ExpireAndPromote, UpdateEvent, CheckoutExpired, ChargeRefunded, CancelRegistration, Transition, CancelJobs,
         FinalizeRefund, FinalizeEventCancelRefund, OrganizerRefund, PayRead, PayWrite, FreshSession;
    NothingHappens(s.db);
    match a {
      case DoRegister(user, now) => RegisterIsSafe(s.db, user, now);
      case DoSelfCancel(user, now) => CancelRegistrationIsSafe(s.db, user, now);
      case DoRemove(id, keepPayment, now) => RemoveIsSafe(s.db, id, keepPayment, now);
      case DoDeny(id) => DenyIsSafe(s.db, id);
      case DoSweep(now) => SweepIsSafe(s.db, now);
      case DoTransition(action, stripe, openRounds) => TransitionIsSafe(s.db, action, stripe, openRounds);
      case DoUpdate(fee, max, startsAt, deadline, stripe, valid) =>
        UpdateEventIsSafe(s.db, fee, max, startsAt, deadline, stripe, valid);
      case SessionExpired(webhook, session, now) => CheckoutExpiredIsSafe(s.db, webhook, session, now);
      case RefundReported(webhook, intent, now) => ChargeRefundedIsSafe(s.db, webhook, intent, now);
      case OtherWebhook(_) => SeenIsSafe(s.db, Step(s, a).db);
      case FinishRefund(job, now) =>
        FinalizeRefundIsSafe(s.db, job.reg, now);
        if job in s.called && job.kind == EventCancel {
          CalledOffJob(s, job);
          FinalizeEventCancelIsSafe(s.db, job.reg);
        }
      case _ =>
    }
  }

  lemma CalledOffJob(s: System, job: Job)
    requires SystemOk(s) && job in s.called && job.kind == EventCancel
    ensures s.db.event.status == CalledOff
  {
    assert JobOk(s.db, s.sessions, job);
  }

  /** Only a completion of a session made for the row changes its charge, and only while it holds no money on one. */
  lemma ChargeStep(s: System, a: Action, i: nat)
    requires SystemOk(s) && HasReg(s, i)
    ensures var s' := Step(s, a);
            && HasReg(s', i)
            && (IntentIs(s', i, s.db.regs[i].intent)
                || (CompletesFor(s, a, i) && IntentIs(s', i, Some(s.sessions[a.session].intent))
                    && (HoldsMoney(s.db.regs[i]) ==> s.db.regs[i].intent.None?)))
  {
    if a.SessionCompleted? {
      CompletionCharges(s, a, i);
    } else if a.DoPayWrite? {
      WriteKeepsCharge(s, a, i);
      hide Step, SystemOk;
    } else {
      hide SystemOk, Step, KeepsPayments;
      OtherStepsKeepPayments(s, a);
      PaymentsKept(s, a, i);
    }
  }

  lemma WriteKeepsCharge(s: System, a: Action, i: nat)
    requires HasReg(s, i) && a.DoPayWrite?
    ensures HasReg(Step(s, a), i) && IntentIs(Step(s, a), i, s.db.regs[i].intent)
  {
  }

  lemma CompletionCharges(s: System, a: Action, i: nat)
    requires SystemOk(s) && HasReg(s, i) && a.SessionCompleted?
    ensures var s' := Step(s, a);
            && HasReg(s', i)
            && (IntentIs(s', i, s.db.regs[i].intent)
                || (CompletesFor(s, a, i) && IntentIs(s', i, Some(s.sessions[a.session].intent))
                    && (HoldsMoney(s.db.regs[i]) ==> s.db.regs[i].intent.None?)))
  {
    hide HoldsMoney;
    if a.session in s.sessions {
      CompletionFindsItsRow(s, a.session);
      hide SystemOk, FindForCheckout, CheckoutCompleted, AfterCompletion;
      ChargeByCompletion(s.db, a.webhook, a.session, s.sessions[a.session].intent, s.sessions[a.session].reg, i);
    }
  }

  lemma ChargeByCompletion(db: Db, webhook: string, session: string, intent: string, id: nat, i: nat)
    requires FindForCheckout(db.regs, session, Some(id)) == Some(id) && i < |db.regs|
    ensures var regs' := CheckoutCompleted(db, webhook, session, intent, Some(id)).0.regs;
            && |regs'| == |db.regs|
            && (regs'[i].intent == db.regs[i].intent
                || (id == i && regs'[i].intent == Some(intent)
                    && (HoldsMoney(db.regs[i]) ==> db.regs[i].intent.None?)))
  {
    hide CountOccupied, ActiveOf, FindForCheckout;
  }

  // ---------------------------------------------------------------------
  // When a row comes to hold money
  // ---------------------------------------------------------------------

  /** No row of these starts to hold money. */
  ghost predicate NobodyPays(before: seq<Reg>, after: seq<Reg>) {
    && |before| <= |after|
    && forall i :: 0 <= i < |after| && HoldsMoney(after[i]) ==> i < |before| && HoldsMoney(before[i])
  }

  lemma {:induction false} PromotingIsNotPaying(ev: Event, regs: seq<Reg>, now: int)
    requires ev.feeCents > 0
    ensures |Promote(ev, regs, now)| == |regs| && NobodyPays(regs, Promote(ev, regs, now))
    decreases CountWaiting(regs)
  {
    if CountOccupied(regs) < ev.maxParticipants && NextWaitlisted(regs).Some? {
      var k := NextWaitlisted(regs).value;
      CountsAfterUpdate(regs, k, Promoted(ev, regs[k], now));
      PromotingIsNotPaying(ev, regs[k := Promoted(ev, regs[k], now)], now);
    }
  }

  lemma EndingThenPromoting(db: Db, id: nat, status: RegStatus, now: int)
    requires db.event.feeCents > 0 && id < |db.regs|
    requires status != Paid && (status == RefundRequested ==> HoldsMoney(db.regs[id]))
    ensures NobodyPays(db.regs, SetRow(db, id, SetTerminal(db.regs[id], status)).regs)
    ensures NobodyPays(db.regs, PromoteDb(SetRow(db, id, SetTerminal(db.regs[id], status)), now).regs)
  {
    PromotingIsNotPaying(db.event, db.regs[id := SetTerminal(db.regs[id], status)], now);
    hide Promote;
  }

  lemma CancelDoesNotPay(db: Db, user: int, now: int)
    requires db.event.feeCents > 0
    ensures NobodyPays(db.regs, CancelRegistration(db, user, now).0.regs)
  {
    hide Promote, First;
    var found := ActiveOf(db.regs, user);
    if found.Some? {
      EndingThenPromoting(db, found.value, Cancelled, now);
      if db.regs[found.value].status == Paid {
        EndingThenPromoting(db, found.value, RefundRequested, now);
      }
      hide PromoteDb, SetRow, SetTerminal, ActiveOf;
    }
  }

  lemma RemovalDoesNotPay(db: Db, id: nat, keepPayment: bool, now: int)
    requires db.event.feeCents > 0
    ensures NobodyPays(db.regs, RemoveRegistration(db, id, keepPayment, now).0.regs)
  {
    if id < |db.regs| {
      EndingThenPromoting(db, id, Removed, now);
      hide PromoteDb, SetRow, SetTerminal;
    }
  }

  lemma SweepDoesNotPay(db: Db, now: int)
    requires db.event.feeCents > 0
    ensures NobodyPays(db.regs, ExpireAndPromote(db, now).regs)
  {
    PromotingIsNotPaying(db.event, MapRows(db.regs, ExpireOverdue(now)), now);
    hide Promote;
  }

  lemma RegisteringDoesNotPay(db: Db, user: int, now: int)
    requires db.event.feeCents > 0
    ensures NobodyPays(db.regs, Register(db, user, now).0.regs)
  {
    hide ActiveOf, CountOccupied;
  }

  lemma CallsDoNotPay(s: System, a: Action)
    requires s.db.event.feeCents > 0
    requires a.DoRegister? || a.DoSelfCancel? || a.DoRemove? || a.DoDeny? || a.DoSweep?
    ensures NobodyPays(s.db.regs, Step(s, a).db.regs)
  {
    hide Register, CancelRegistration, RemoveRegistration, ExpireAndPromote, NobodyPays;
    match a {
      case DoRegister(user, now) => RegisteringDoesNotPay(s.db, user, now);
      case DoSelfCancel(user, now) => CancelDoesNotPay(s.db, user, now);
      case DoRemove(id, keepPayment, now) => RemovalDoesNotPay(s.db, id, keepPayment, now);
      case DoDeny(id) => DenialDoesNotPay(s.db, id);
      case DoSweep(now) => SweepDoesNotPay(s.db, now);
    }
  }

  lemma DenialDoesNotPay(db: Db, id: nat)
    ensures NobodyPays(db.regs, DenyRefund(db, id).0.regs)
  {
  }

  lemma LapseDoesNotPay(db: Db, webhook: string, session: string, now: int)
    requires db.event.feeCents > 0
    ensures NobodyPays(db.regs, CheckoutExpired(db, webhook, session, now).regs)
  {
    hide First;
    if BySession(db.regs, session).Some? {
      EndingThenPromoting(db.(seen := db.seen + {webhook}), BySession(db.regs, session).value, Expired, now);
      hide PromoteDb, SetRow, SetTerminal, BySession;
    }
  }

  lemma ReportedRefundDoesNotPay(db: Db, webhook: string, intent: string, now: int)
    requires db.event.feeCents > 0
    ensures NobodyPays(db.regs, ChargeRefunded(db, webhook, intent, now).regs)
  {
    hide First;
    if ByIntent(db.regs, intent).Some? {
      EndingThenPromoting(db.(seen := db.seen + {webhook}), ByIntent(db.regs, intent).value, Refunded, now);
      hide PromoteDb, SetRow, SetTerminal, ByIntent;
    }
  }

  lemma WebhooksDoNotPay(s: System, a: Action)
    requires s.db.event.feeCents > 0 && (a.SessionExpired? || a.RefundReported? || a.OtherWebhook?)
    ensures NobodyPays(s.db.regs, Step(s, a).db.regs)
  {
    hide CheckoutExpired, ChargeRefunded;
    match a {
      case SessionExpired(webhook, session, now) => LapseDoesNotPay(s.db, webhook, session, now);
      case RefundReported(webhook, intent, now) => ReportedRefundDoesNotPay(s.db, webhook, intent, now);
      case OtherWebhook(_) =>
    }
  }

  lemma FinishingDoesNotPay(s: System, job: Job, now: int)
    requires s.db.event.feeCents > 0
    ensures NobodyPays(s.db.regs, Step(s, FinishRefund(job, now)).db.regs)
  {
    hide Promote;
    if job.reg < |s.db.regs| {
      EndingThenPromoting(s.db, job.reg, Refunded, now);
      hide PromoteDb, SetRow, SetTerminal;
    }
  }

  lemma LifecycleDoesNotPay(db: Db, action: LifecycleAction, stripe: bool, openRounds: nat)
    ensures NobodyPays(db.regs, Transition(db, action, stripe, openRounds).0.regs)
  {
  }

  lemma RestDoesNotPay(s: System, a: Action)
    requires !a.DoRegister? && !a.DoSelfCancel? && !a.DoRemove? && !a.DoDeny? && !a.DoSweep? && !a.SessionCompleted?
    requires !a.SessionExpired? && !a.RefundReported? && !a.OtherWebhook? && !a.FinishRefund?
    ensures NobodyPays(s.db.regs, Step(s, a).db.regs)
  {
    if a.DoTransition? {
      LifecycleDoesNotPay(s.db, a.action, a.stripeConfigured, a.openRounds);
      hide Transition, CancelJobs, NobodyPays;
    } else if a.DoUpdate? {
      UpdateKeepsRows(s, a);
      hide Step;
    } else if a.DoPayWrite? {
      WriteDoesNotPay(s.db, a.id, a.session, a.expiresAt);
      hide PayWrite, NobodyPays;
    } else {
      StripeStepsKeepRows(s, a);
      hide Step;
    }
  }

  lemma UpdateKeepsRows(s: System, a: Action)
    requires a.DoUpdate?
    ensures Step(s, a).db.regs == s.db.regs
  {
  }

  lemma WriteDoesNotPay(db: Db, id: nat, session: string, expiresAt: int)
    ensures NobodyPays(db.regs, db.regs) && NobodyPays(db.regs, PayWrite(db, id, session, expiresAt).regs)
  {
  }

  lemma StripeStepsKeepRows(s: System, a: Action)
    requires a.DoOrganizerRefund? || a.DoPayRead? || a.DoPayCreate? || a.StripeRefunds? || a.StripeRefuses?
          || a.FinishFails?
    ensures Step(s, a).db == s.db
  {
    hide FreshSession, OrganizerRefund, PayRead, Register, CancelRegistration, RemoveRegistration, DenyRefund,
         ExpireAndPromote, Transition, UpdateEvent, PayWrite, CheckoutCompleted, CheckoutExpired, ChargeRefunded,
         FinalizeRefund, FinalizeEventCancelRefund;
  }

  /** Where a fee is charged, a row comes to hold money only by a completed session for it, on that session's charge. */
  lemma PayingStep(s: System, a: Action, i: nat)
    requires SystemOk(s) && s.db.event.feeCents > 0 && HasReg(s, i) && HasReg(Step(s, a), i)
    requires !HoldsMoney(s.db.regs[i]) && HoldsMoney(Step(s, a).db.regs[i])
    ensures CompletesFor(s, a, i) && IntentIs(Step(s, a), i, Some(s.sessions[a.session].intent))
  {
    if a.SessionCompleted? {
      if a.session in s.sessions {
        CompletionFindsItsRow(s, a.session);
        hide SystemOk;
        PaidByCompletion(s.db, a.webhook, a.session, s.sessions[a.session].intent, s.sessions[a.session].reg, i);
        hide CheckoutCompleted;
      }
    } else {
      hide SystemOk, Step;
      if a.DoRegister? || a.DoSelfCancel? || a.DoRemove? || a.DoDeny? || a.DoSweep? {
        CallsDoNotPay(s, a);
      } else if a.SessionExpired? || a.RefundReported? || a.OtherWebhook? {
        WebhooksDoNotPay(s, a);
      } else if a.FinishRefund? {
        FinishingDoesNotPay(s, a.job, a.now);
      } else {
        RestDoesNotPay(s, a);
      }
    }
  }

  lemma PaidByCompletion(db: Db, webhook: string, session: string, intent: string, id: nat, i: nat)
    requires FindForCheckout(db.regs, session, Some(id)) == Some(id) && i < |db.regs|
    ensures var regs' := CheckoutCompleted(db, webhook, session, intent, Some(id)).0.regs;
            && |regs'| == |db.regs|
            && (HoldsMoney(regs'[i]) && !HoldsMoney(db.regs[i]) ==> id == i && regs'[i].intent == Some(intent))
  {
    hide CountOccupied, ActiveOf, FindForCheckout;
  }

  // ---------------------------------------------------------------------
  // Over runs
  // ---------------------------------------------------------------------

  ghost predicate Holding(s: System, i: nat) {
    HasReg(s, i) && HoldsMoney(s.db.regs[i])
  }

  /** A completed session pays row `i`, which held no money, and the row then names that session's charge. */
  ghost predicate Pays(s: System, a: Action, i: nat, charge: string) {
    && HasReg(s, i) && !Holding(s, i)
    && CompletesFor(s, a, i) && s.sessions[a.session].intent == charge
    && Holding(Step(s, a), i) && IntentIs(Step(s, a), i, Some(charge))
  }

  ghost predicate PaidDuring(s: System, actions: seq<Action>, i: nat, charge: string) {
    exists n :: 0 <= n < |actions| && Pays(Run(s, actions[..n]), actions[n], i, charge)
  }

  /** A completed session made for a row that holds no money replaces the charge it names by its own. */
  ghost predicate Replaces(s: System, a: Action, i: nat, charge: string) {
    && HasReg(s, i) && !Holding(s, i) && IntentIs(s, i, Some(charge))
    && CompletesFor(s, a, i) && s.sessions[a.session].intent != charge
  }

  ghost predicate ReplacedDuring(s: System, actions: seq<Action>, i: nat, charge: string) {
    exists n :: 0 <= n < |actions| && Replaces(Run(s, actions[..n]), actions[n], i, charge)
  }

  lemma DuringLonger(s: System, actions: seq<Action>, i: nat, charge: string)
    requires actions != []
    ensures ReplacedDuring(s, actions[..|actions| - 1], i, charge) ==> ReplacedDuring(s, actions, i, charge)
    ensures PaidDuring(s, actions[..|actions| - 1], i, charge) ==> PaidDuring(s, actions, i, charge)
  {
    var front := actions[..|actions| - 1];
    assert forall n :: 0 <= n < |front| ==> front[..n] == actions[..n] && front[n] == actions[n];
    hide Pays, Replaces;
    if ReplacedDuring(s, front, i, charge) {
      var n :| 0 <= n < |front| && Replaces(Run(s, front[..n]), front[n], i, charge);
      assert Replaces(Run(s, actions[..n]), actions[n], i, charge);
    }
    if PaidDuring(s, front, i, charge) {
      var n :| 0 <= n < |front| && Pays(Run(s, front[..n]), front[n], i, charge);
      assert Pays(Run(s, actions[..n]), actions[n], i, charge);
    }
  }

  lemma DuringLast(s: System, actions: seq<Action>, i: nat, charge: string)
    requires actions != []
    ensures var before, last := Run(s, actions[..|actions| - 1]), actions[|actions| - 1];
            && (Replaces(before, last, i, charge) ==> ReplacedDuring(s, actions, i, charge))
            && (Pays(before, last, i, charge) ==> PaidDuring(s, actions, i, charge))
  {
    hide Pays, Replaces, Run;
  }

  lemma ReplacedOrKept(s: System, a: Action, i: nat, charge: string)
    requires SystemOk(s) && HasReg(s, i) && IntentIs(s, i, Some(charge))
    ensures HasReg(Step(s, a), i) && (IntentIs(Step(s, a), i, Some(charge)) || Replaces(s, a, i, charge))
  {
    hide SystemOk, Step;
    ChargeStep(s, a, i);
  }

  /** A row's charge is only ever replaced by a session made for the row, completed while the row holds no money. */
  lemma {:induction false} ChargeRun(s: System, actions: seq<Action>, i: nat, charge: string)
    requires SystemOk(s) && HasReg(s, i) && IntentIs(s, i, Some(charge))
    ensures HasReg(Run(s, actions), i)
    ensures IntentIs(Run(s, actions), i, Some(charge)) || ReplacedDuring(s, actions, i, charge)
  {
    hide SystemOk, Step, Replaces, ReplacedDuring, PaidDuring, Pays, IntentIs;
    if actions != [] {
      var n := |actions| - 1;
      ChargeRun(s, actions[..n], i, charge);
      RunKeepsInvariant(s, actions[..n]);
      RowsRemain(s, actions, i);
      DuringLonger(s, actions, i, charge);
      DuringLast(s, actions, i, charge);
      if IntentIs(Run(s, actions[..n]), i, Some(charge)) {
        ReplacedOrKept(Run(s, actions[..n]), actions[n], i, charge);
      }
    }
  }

  lemma {:induction false} RowsRemain(s: System, actions: seq<Action>, i: nat)
    requires SystemOk(s) && HasReg(s, i)
    ensures SystemOk(Run(s, actions)) && HasReg(Run(s, actions), i)
  {
    if actions != [] {
      var front := actions[..|actions| - 1];
      RowsRemain(s, front, i);
      StepKeepsInvariant(Run(s, front), actions[|actions| - 1]);
      hide Step;
    }
  }

  /** With rows the event is out of draft, and the fee is settled. */
  lemma {:induction false} FeeStays(s: System, actions: seq<Action>, i: nat)
    requires SystemOk(s) && s.db.event.feeCents > 0 && HasReg(s, i)
    ensures Run(s, actions).db.event.feeCents > 0
  {
    if actions != [] {
      var front := actions[..|actions| - 1];
      FeeStays(s, front, i);
      RowsRemain(s, front, i);
      StepKeepsInvariant(Run(s, front), actions[|actions| - 1]);
      hide Step;
    }
  }

  /** While a row holds money, a step keeps its charge. */
  lemma HeldChargeStays(s: System, a: Action, i: nat)
    requires SystemOk(s) && s.db.event.feeCents > 0 && Holding(s, i) && Holding(Step(s, a), i)
    requires s.db.regs[i].intent.Some?
    ensures IntentIs(Step(s, a), i, s.db.regs[i].intent)
  {
    StepKeepsInvariant(s, a);
    hide SystemOk, Step;
    assert RowEvolves(s.db.event, s.db.regs[i], Step(s, a).db.regs[i]);
  }

  /** A row without money at some point of a run and with some at its end was paid by a completed session for it. */
  lemma {:induction false} PaidRun(s: System, actions: seq<Action>, i: nat, from: nat)
    requires SystemOk(s) && s.db.event.feeCents > 0 && HasReg(s, i) && from <= |actions|
    requires !Holding(Run(s, actions[..from]), i) && Holding(Run(s, actions), i)
    ensures Run(s, actions).db.regs[i].intent.Some?
    ensures PaidDuring(s, actions, i, Run(s, actions).db.regs[i].intent.value)
  {
    hide Run, SystemOk, Step, HoldsMoney, Pays, Replaces, ReplacedDuring, PaidDuring;
    assert actions[..|actions|] == actions;
    var n := |actions| - 1;
    var front := actions[..n];
    assert front[..from] == actions[..from];
    RowsRemain(s, front, i);
    FeeStays(s, front, i);
    RunLast(s, actions);
    PaidLast(s, actions, i, Run(s, front), actions[n]);
    if Holding(Run(s, front), i) {
      PaidRun(s, front, i, from);
    }
  }

  lemma RunLast(s: System, actions: seq<Action>)
    requires actions != []
    ensures Run(s, actions) == Step(Run(s, actions[..|actions| - 1]), actions[|actions| - 1])
  {
  }

  /** The last step either pays the row or keeps the charge it was paid on. */
  lemma PaidLast(s: System, actions: seq<Action>, i: nat, before: System, last: Action)
    requires actions != [] && before == Run(s, actions[..|actions| - 1]) && last == actions[|actions| - 1]
    requires SystemOk(before) && before.db.event.feeCents > 0 && HasReg(before, i) && Holding(Step(before, last), i)
    ensures var after := Step(before, last);
            if Holding(before, i) then
              before.db.regs[i].intent.Some? ==>
                && after.db.regs[i].intent == before.db.regs[i].intent
                && (PaidDuring(s, actions[..|actions| - 1], i, before.db.regs[i].intent.value)
                    ==> PaidDuring(s, actions, i, before.db.regs[i].intent.value))
            else after.db.regs[i].intent.Some? && PaidDuring(s, actions, i, after.db.regs[i].intent.value)
  {
    hide Run, SystemOk, Step, HoldsMoney, Pays, Replaces, ReplacedDuring, PaidDuring;
    if !Holding(before, i) {
      PaysNow(before, last, i);
      DuringLast(s, actions, i, Step(before, last).db.regs[i].intent.value);
    } else if before.db.regs[i].intent.Some? {
      HeldChargeStays(before, last, i);
      DuringLonger(s, actions, i, before.db.regs[i].intent.value);
    }
  }

  lemma PaysNow(s: System, a: Action, i: nat)
    requires SystemOk(s) && s.db.event.feeCents > 0 && HasReg(s, i) && !Holding(s, i) && Holding(Step(s, a), i)
    ensures Step(s, a).db.regs[i].intent.Some? && Pays(s, a, i, Step(s, a).db.regs[i].intent.value)
  {
    hide SystemOk, Step;
    PayingStep(s, a, i);
  }

  // ---------------------------------------------------------------------
  // The late end of a refund
  // ---------------------------------------------------------------------

  lemma OthersQueueNothing(s: System, a: Action, job: Job)
    requires !a.DoSelfCancel? && !a.DoOrganizerRefund? && !a.DoTransition? && !a.SessionCompleted?
    ensures Step(s, a).queued[job] <= s.queued[job]
  {
    hide Register, RemoveRegistration, DenyRefund, ExpireAndPromote, UpdateEvent, PayRead, PayWrite, FreshSession,
         CheckoutExpired, ChargeRefunded, FinalizeRefund, FinalizeEventCancelRefund;
  }

  /** A refund of one registration is asked for on the charge its row names. */
  lemma RefundNamesTheCharge(s: System, a: Action, job: Job)
    requires SystemOk(s) && job.kind == Single && Step(s, a).queued[job] > s.queued[job]
    ensures HasReg(Step(s, a), job.reg) && IntentIs(Step(s, a), job.reg, Some(job.intent))
  {
    hide SystemOk;
    if a.DoSelfCancel? {
      CancelNamesIt(s.db, a.user, a.now);
      hide CancelRegistration;
    } else if a.SessionCompleted? {
      if a.session in s.sessions {
        LateRefundNamesIt(s.db, a.webhook, a.session, s.sessions[a.session].intent, s.sessions[a.session].reg);
        hide CheckoutCompleted;
      }
    } else if a.DoTransition? {
      NoSingleJobs(s.db.regs, job);
      hide Transition, CancelJobs;
    } else if !a.DoOrganizerRefund? {
      OthersQueueNothing(s, a, job);
      hide Step;
    }
  }

  lemma {:induction false} NoSingleJobs(regs: seq<Reg>, job: Job)
    requires job.kind == Single
    ensures CancelJobs(regs)[job] == 0
  {
    if regs != [] {
      NoSingleJobs(regs[..|regs| - 1], job);
    }
  }

  lemma CancelNamesIt(db: Db, user: int, now: int)
    ensures var (db', r) := CancelRegistration(db, user, now);
            r.Ok? && r.value.Some? ==>
              r.value.value.0 < |db'.regs| && db'.regs[r.value.value.0].intent == Some(r.value.value.1)
  {
    hide Promote, First;
  }

  lemma LateRefundNamesIt(db: Db, webhook: string, session: string, intent: string, id: nat)
    ensures var (db', aftermath) := CheckoutCompleted(db, webhook, session, intent, Some(id));
            aftermath.LateRefund? ==>
              aftermath.id < |db'.regs| && db'.regs[aftermath.id].intent == Some(aftermath.intent)
  {
    hide CountOccupied, ActiveOf, FindForCheckout;
  }

  /**
   Finishing a refund marks the row refunded whatever it is by then. If the row
   holds money on another charge, then since the refund was asked for a session
   made for that row was completed while the row held no money, and so came to
   be paid on that other charge; there is no other way.
   */
  lemma RefundedOnAnotherCharge(s: System, a: Action, job: Job, actions: seq<Action>, now: int)
    requires SystemOk(s) && job.kind == Single && Step(s, a).queued[job] > s.queued[job]
    requires Step(s, a).db.event.feeCents > 0
    requires var s' := Run(Step(s, a), actions); job in s'.called && Holding(s', job.reg)
    ensures var s1 := Step(s, a);
            var s' := Run(s1, actions);
            var finished := Step(s', FinishRefund(job, now));
            && HasReg(finished, job.reg) && finished.db.regs[job.reg].status == Refunded
            && IntentIs(finished, job.reg, s'.db.regs[job.reg].intent)
            && (!IntentIs(s', job.reg, Some(job.intent)) ==>
                  && s'.db.regs[job.reg].intent.Some?
                  && ReplacedDuring(s1, actions, job.reg, job.intent)
                  && PaidDuring(s1, actions, job.reg, s'.db.regs[job.reg].intent.value))
  {
    var s1 := Step(s, a);
    var s' := Run(s1, actions);
    StepKeepsInvariant(s, a);
    RefundNamesTheCharge(s, a, job);
    RowsRemain(s1, actions, job.reg);
    FinishedIsRefunded(s', job, now);
    ChargeRun(s1, actions, job.reg, job.intent);
    hide SystemOk, Step, HoldsMoney, Run;
    if !IntentIs(s', job.reg, Some(job.intent)) {
      var n :| 0 <= n < |actions| && Replaces(Run(s1, actions[..n]), actions[n], job.reg, job.intent);
      PaidRun(s1, actions, job.reg, n);
    }
  }

  lemma FinishedIsRefunded(s: System, job: Job, now: int)
    requires SystemOk(s) && job in s.called && job.kind == Single && Holding(s, job.reg)
    ensures var s' := Step(s, FinishRefund(job, now));
            && HasReg(s', job.reg) && s'.db.regs[job.reg].status == Refunded
            && IntentIs(s', job.reg, s.db.regs[job.reg].intent)
  {
    hide SystemOk;
    PromoteSparesOthers(s.db.event, s.db.regs[job.reg := SetTerminal(s.db.regs[job.reg], Refunded)], now, job.reg);
    hide Promote;
  }

  // ---------------------------------------------------------------------
  // That it happens: a run
  // ---------------------------------------------------------------------

  const OPEN := Event(Published, 10, 1, 1000, None, 0)
  const UNPAID := Reg(7, PendingPayment, Some(1440), None, None, None, None)
  const GAVE_UP := Reg(7, Cancelled, None, None, None, None, None)
  const PAID_LATE := Reg(7, Cancelled, None, None, Some("first"), None, Some("ch"))
  const RECLAIMED := Reg(7, Paid, None, None, Some("second"), None, Some("ch2"))
  const LATE_REFUND := Job(Single, 0, "ch")

  const FIRST_OPEN: map<string, Session> := map["first" := Session(0, "ch")]
  const BOTH_OPEN: map<string, Session> := map["first" := Session(0, "ch"), "second" := Session(0, "ch2")]

  const ONE_WRITE: multiset<(nat, string, int)> := multiset{(0, "first", 1440)}
  const TWO_WRITES: multiset<(nat, string, int)> := multiset{(0, "first", 1440), (0, "second", 1440)}

  /** One place, one fee: pay twice in a race, give up, register again, and have both payments arrive late. */
  const LATE_RUN: seq<Action> :=
    [DoTransition(Publish, true, 0), DoRegister(7, 0), DoPayRead(7, 0, true), DoPayRead(7, 0, true),
     DoPayCreate(0, 1440, "first", "ch"), DoPayCreate(0, 1440, "second", "ch2"), DoSelfCancel(7, 0), DoRegister(7, 0),
     SessionCompleted("evt", "first"), StripeRefunds(LATE_REFUND), DoSelfCancel(7, 0),
     SessionCompleted("evt2", "second")]

  /** Nothing read, written or asked for yet. */
  function Quiet(ev: Event, regs: seq<Reg>): System {
    System(Db(ev, regs, {}), map[], multiset{}, multiset{}, multiset{}, multiset{}, [])
  }

  /** After both sessions were made. */
  function Opened(regs: seq<Reg>, seen: set<string>, queued: multiset<Job>, called: multiset<Job>,
                  calls: seq<Job>): System {
    System(Db(OPEN, regs, seen), BOTH_OPEN, multiset{}, TWO_WRITES, queued, called, calls)
  }

  lemma Counts(a: Reg, b: Reg)
    ensures CountOccupied([]) == 0 && CountOccupied([a]) == (if Holds(a) then 1 else 0)
    ensures CountOccupied([a, b]) == (if Holds(a) then 1 else 0) + (if Holds(b) then 1 else 0)
  {
    assert [a][..0] == [] && [a, b][..1] == [a];
    assert CountOccupied([a]) == CountOccupied([a][..0]) + (if Holds(a) then 1 else 0);
  }

  lemma NobodyToPromote(ev: Event, regs: seq<Reg>, now: int)
    requires forall i :: 0 <= i < |regs| ==> !Waiting(regs[i])
    ensures Promote(ev, regs, now) == regs
  {
  }

  lemma Steps1To4()
    ensures var draft := Event(Draft, 10, 1, 1000, None, 0);
            && Step(Quiet(draft, []), DoTransition(Publish, true, 0)) == Quiet(OPEN, [])
            && Step(Quiet(OPEN, []), DoRegister(7, 0)) == Quiet(OPEN, [UNPAID])
            && Step(Quiet(OPEN, [UNPAID]), DoPayRead(7, 0, true))
               == Quiet(OPEN, [UNPAID]).(payReads := multiset{(0, 1440)})
            && Step(Quiet(OPEN, [UNPAID]).(payReads := multiset{(0, 1440)}), DoPayRead(7, 0, true))
               == Quiet(OPEN, [UNPAID]).(payReads := multiset{(0, 1440), (0, 1440)})
  {
    Counts(UNPAID, UNPAID);
    assert [UNPAID][..0] == [];
    assert CancelJobs([]) == multiset{};
  }

  lemma Steps5To6()
    ensures var s4 := Quiet(OPEN, [UNPAID]).(payReads := multiset{(0, 1440), (0, 1440)});
            var s5 := Quiet(OPEN, [UNPAID]).(sessions := FIRST_OPEN, payReads := multiset{(0, 1440)},
                                             payWrites := ONE_WRITE);
            && Step(s4, DoPayCreate(0, 1440, "first", "ch")) == s5
            && Step(s5, DoPayCreate(0, 1440, "second", "ch2")) == Opened([UNPAID], {}, multiset{}, multiset{}, [])
  {
    assert |"first"| == 5 && |"second"| == 6 && |"ch"| == 2 && |"ch2"| == 3;
  }

  lemma Step7()
    ensures Step(Opened([UNPAID], {}, multiset{}, multiset{}, []), DoSelfCancel(7, 0))
         == Opened([GAVE_UP], {}, multiset{}, multiset{}, [])
  {
    NobodyToPromote(OPEN, [GAVE_UP], 0);
    hide Promote, First;
    assert Active([UNPAID][0]);
    assert [UNPAID][0 := GAVE_UP] == [GAVE_UP];
  }

  lemma Step8()
    ensures Step(Opened([GAVE_UP], {}, multiset{}, multiset{}, []), DoRegister(7, 0))
         == Opened([GAVE_UP, UNPAID], {}, multiset{}, multiset{}, [])
  {
    Counts(GAVE_UP, UNPAID);
    hide CountOccupied, First;
  }

  lemma LateCompletion()
    ensures CheckoutCompleted(Db(OPEN, [GAVE_UP, UNPAID], {}), "evt", "first", "ch", Some(0))
         == (Db(OPEN, [PAID_LATE, UNPAID], {"evt"}), LateRefund(0, "ch"))
  {
    NoSessionYet();
    AnotherIsActive();
    hide First, CountOccupied, BySession, ActiveOf;
    assert |"ch"| == 2 && RecordPayment(GAVE_UP, "first", "ch") == PAID_LATE;
    assert {} + {"evt"} == {"evt"};
    assert [GAVE_UP, UNPAID][0 := PAID_LATE] == [PAID_LATE, UNPAID];
  }

  lemma NoSessionYet()
    ensures BySession([GAVE_UP, UNPAID], "first").None?
  {
    hide First;
  }

  lemma AnotherIsActive()
    ensures ActiveOf([PAID_LATE, UNPAID], 7) == Some(1)
  {
    hide First;
    assert Active([PAID_LATE, UNPAID][1]);
  }

  lemma GivesUpAgain()
    ensures CancelRegistration(Db(OPEN, [PAID_LATE, UNPAID], {"evt"}), 7, 0)
         == (Db(OPEN, [PAID_LATE, GAVE_UP], {"evt"}), Ok(None))
  {
    NobodyToPromote(OPEN, [PAID_LATE, GAVE_UP], 0);
    AnotherIsActive();
    hide Promote, ActiveOf;
    assert [PAID_LATE, UNPAID][1 := GAVE_UP] == [PAID_LATE, GAVE_UP];
  }

  lemma NotStored()
    ensures BySession([PAID_LATE, GAVE_UP], "second").None?
  {
    assert |"first"| == 5 && |"second"| == 6;
    hide First;
  }

  lemma Reclaiming()
    ensures CheckoutCompleted(Db(OPEN, [PAID_LATE, GAVE_UP], {"evt"}), "evt2", "second", "ch2", Some(0))
         == (Db(OPEN, [RECLAIMED, GAVE_UP], {"evt", "evt2"}), Nothing)
  {
    NotStored();
    assert |"first"| == 5 && |"second"| == 6 && |"evt"| == 3 && |"evt2"| == 4;
    var recorded := RecordPayment(PAID_LATE, "second", "ch2");
    Counts(recorded, GAVE_UP);
    hide First, CountOccupied, BySession;
    assert [PAID_LATE, GAVE_UP][0 := recorded] == [recorded, GAVE_UP];
    assert [PAID_LATE, GAVE_UP][0 := RECLAIMED] == [RECLAIMED, GAVE_UP];
    assert {"evt"} + {"evt2"} == {"evt", "evt2"};
  }

  const SENT_BACK: seq<Job> := [LATE_REFUND]

  lemma Steps9To10()
    ensures Step(Opened([GAVE_UP, UNPAID], {}, multiset{}, multiset{}, []), SessionCompleted("evt", "first"))
         == Opened([PAID_LATE, UNPAID], {"evt"}, multiset{LATE_REFUND}, multiset{}, [])
    ensures Step(Opened([PAID_LATE, UNPAID], {"evt"}, multiset{LATE_REFUND}, multiset{}, []),
                 StripeRefunds(LATE_REFUND))
         == Opened([PAID_LATE, UNPAID], {"evt"}, multiset{}, multiset{LATE_REFUND}, SENT_BACK)
  {
    LateCompletion();
    hide CheckoutCompleted;
    assert |"first"| == 5 && |"second"| == 6;
  }

  lemma Steps11To12()
    ensures Step(Opened([PAID_LATE, UNPAID], {"evt"}, multiset{}, multiset{LATE_REFUND}, SENT_BACK), DoSelfCancel(7, 0))
         == Opened([PAID_LATE, GAVE_UP], {"evt"}, multiset{}, multiset{LATE_REFUND}, SENT_BACK)
    ensures Step(Opened([PAID_LATE, GAVE_UP], {"evt"}, multiset{}, multiset{LATE_REFUND}, SENT_BACK),
                 SessionCompleted("evt2", "second"))
         == Opened([RECLAIMED, GAVE_UP], {"evt", "evt2"}, multiset{}, multiset{LATE_REFUND}, SENT_BACK)
  {
    GivesUpAgain();
    Reclaiming();
    hide CheckoutCompleted, CancelRegistration;
    assert |"first"| == 5 && |"second"| == 6;
  }

  /** A run, state by state. */
  lemma {:induction false} RunThrough(states: seq<System>, actions: seq<Action>)
    requires |states| == |actions| + 1
    requires forall i :: 0 <= i < |actions| ==> Step(states[i], actions[i]) == states[i + 1]
    ensures Run(states[0], actions) == states[|actions|]
  {
    hide Step;
    if actions != [] {
      var n := |actions| - 1;
      RunThrough(states[..n + 1], actions[..n]);
    }
  }

  const LATE_STATES: seq<System> :=
    [Quiet(Event(Draft, 10, 1, 1000, None, 0), []),
     Quiet(OPEN, []),
     Quiet(OPEN, [UNPAID]),
     Quiet(OPEN, [UNPAID]).(payReads := multiset{(0, 1440)}),
     Quiet(OPEN, [UNPAID]).(payReads := multiset{(0, 1440), (0, 1440)}),
     Quiet(OPEN, [UNPAID]).(sessions := FIRST_OPEN, payReads := multiset{(0, 1440)}, payWrites := ONE_WRITE),
     Opened([UNPAID], {}, multiset{}, multiset{}, []),
     Opened([GAVE_UP], {}, multiset{}, multiset{}, []),
     Opened([GAVE_UP, UNPAID], {}, multiset{}, multiset{}, []),
     Opened([PAID_LATE, UNPAID], {"evt"}, multiset{LATE_REFUND}, multiset{}, []),
     Opened([PAID_LATE, UNPAID], {"evt"}, multiset{}, multiset{LATE_REFUND}, SENT_BACK),
     Opened([PAID_LATE, GAVE_UP], {"evt"}, multiset{}, multiset{LATE_REFUND}, SENT_BACK),
     Opened([RECLAIMED, GAVE_UP], {"evt", "evt2"}, multiset{}, multiset{LATE_REFUND}, SENT_BACK)]

  lemma LateRunEnds()
    ensures Run(LATE_STATES[0], LATE_RUN) == LATE_STATES[12]
  {
    hide Step, Run;
    Steps1To4();
    Steps5To6();
    Step7();
    Step8();
    Steps9To10();
    Steps11To12();
    hide Quiet, Opened;
    forall i | 0 <= i < |LATE_RUN| ensures Step(LATE_STATES[i], LATE_RUN[i]) == LATE_STATES[i + 1] {
    }
    RunThrough(LATE_STATES, LATE_RUN);
  }

  /** From a fresh event, finishing the first payment's late refund marks a row refunded that is paid on the second. */
  lemma RefundTakesThePaidPlace(now: int)
    ensures var s0 := Quiet(Event(Draft, 10, 1, 1000, None, 0), []);
            var s := Run(s0, LATE_RUN);
            var finished := Step(s, FinishRefund(LATE_REFUND, now));
            && Initial(s0) && LATE_REFUND in s.called && HasReg(s, 0)
            && s.db.regs[0].status == Paid && IntentIs(s, 0, Some("ch2")) && LATE_REFUND.intent != "ch2"
            && HasReg(finished, 0) && finished.db.regs[0].status == Refunded && IntentIs(finished, 0, Some("ch2"))
            && forall i :: 0 <= i < |finished.refundCalls| ==> finished.refundCalls[i].intent != "ch2"
  {
    LateRunEnds();
    hide Run;
    var s := Opened([RECLAIMED, GAVE_UP], {"evt", "evt2"}, multiset{}, multiset{LATE_REFUND}, SENT_BACK);
    assert |"ch"| == 2 && |"ch2"| == 3;
    PromoteSparesOthers(OPEN, [RECLAIMED, GAVE_UP][0 := SetTerminal(RECLAIMED, Refunded)], now, 0);
    hide Promote;
  }
}
