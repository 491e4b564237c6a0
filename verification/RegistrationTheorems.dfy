/** What holds of one event in every state any interleaving can reach. */
module RegistrationTheorems {
  import opened Wrappers
  import opened RegistrationRows
  import opened RegistrationInvariant
  import opened RegistrationSteps
  import opened RegistrationRuns

  lemma InitialOk(s: System)
    requires Initial(s)
    ensures SystemOk(s)
  {
  }

  lemma Reachable(s0: System, actions: seq<Action>)
    requires Initial(s0)
    ensures SystemOk(Run(s0, actions))
  {
    InitialOk(s0);
    RunKeepsInvariant(s0, actions);
  }

  /** An event never overbooks, and people wait only for a published event without a free spot. */
  lemma NeverOverbooked(s0: System, actions: seq<Action>)
    requires Initial(s0)
    ensures var db := Run(s0, actions).db;
            && CountOccupied(db.regs) <= db.event.maxParticipants
            && (forall i :: 0 <= i < |db.regs| && Waiting(db.regs[i]) ==>
                  db.event.status == Published && CountOccupied(db.regs) == db.event.maxParticipants)
  {
    Reachable(s0, actions);
    var db := Run(s0, actions).db;
    NobodyWaits(db.regs);
    forall i | 0 <= i < |db.regs| && Waiting(db.regs[i])
      ensures db.event.status == Published && CountOccupied(db.regs) == db.event.maxParticipants
    {
      assert RowOk(db.event, db.regs[i]);
    }
  }

  /** Nullable columns, statuses and users agree in every reachable state. */
  lemma RowsConsistent(s0: System, actions: seq<Action>)
    requires Initial(s0)
    ensures var db := Run(s0, actions).db;
            && OneActivePerUser(db.regs) && DistinctPositions(db.regs)
            && forall i :: 0 <= i < |db.regs| ==>
                 var r := db.regs[i];
                 && (r.status == PendingPayment <==> r.expiresAt.Some?)
                 && (r.status == Waitlisted <==> r.waitlistPos.Some?)
                 && (r.waitlistPos.Some? ==> r.waitlistPos.value <= db.event.waitlistCounter)
                 && (r.status == PendingPayment || r.status == Waitlisted ==> db.event.status == Published)
  {
    Reachable(s0, actions);
    var db := Run(s0, actions).db;
    forall i | 0 <= i < |db.regs| ensures RowOk(db.event, db.regs[i]) {
    }
  }

  /** Money follows the fee, and a charge names one row only, so a dashboard refund finds the right one. */
  lemma MoneyConsistent(s0: System, actions: seq<Action>)
    requires Initial(s0)
    ensures var s := Run(s0, actions);
            var regs := s.db.regs;
            && (s.db.event.feeCents > 0 ==>
                  forall i :: 0 <= i < |regs| && regs[i].status == Paid ==>
                    regs[i].intent.Some? && IntentBelongs(s.sessions, i, regs[i].intent.value))
            && (s.db.event.feeCents == 0 ==>
                  forall i :: 0 <= i < |regs| ==> regs[i].status != PendingPayment && regs[i].intent.None?)
            && (forall i, j :: 0 <= i < j < |regs| && regs[i].intent.Some? ==> regs[i].intent != regs[j].intent)
  {
    Reachable(s0, actions);
    var s := Run(s0, actions);
    var regs := s.db.regs;
    forall i | 0 <= i < |regs| ensures RowOk(s.db.event, regs[i]) && RowLinks(regs[i], i, s.sessions) {
    }
    forall i, j | 0 <= i < j < |regs| && regs[i].intent.Some? && regs[j].intent.Some?
      ensures regs[i].intent != regs[j].intent
    {
      var k :| k in s.sessions && s.sessions[k] == Session(i, regs[i].intent.value);
      var l :| l in s.sessions && s.sessions[l] == Session(j, regs[j].intent.value);
      assert k != l;
    }
  }

  /** Every refund call sends back a charge that was made for the very registration it is about. */
  lemma RefundsOnlyOwnCharges(s0: System, actions: seq<Action>)
    requires Initial(s0)
    ensures var s := Run(s0, actions);
            forall i :: 0 <= i < |s.refundCalls| ==>
              var job := s.refundCalls[i];
              job.reg < |s.db.regs| && IntentBelongs(s.sessions, job.reg, job.intent)
  {
    Reachable(s0, actions);
    var s := Run(s0, actions);
    forall i | 0 <= i < |s.refundCalls|
      ensures s.refundCalls[i].reg < |s.db.regs|
              && IntentBelongs(s.sessions, s.refundCalls[i].reg, s.refundCalls[i].intent)
    {
      var job := s.refundCalls[i];
      assert IntentBelongs(s.sessions, job.reg, job.intent);
      var k :| k in s.sessions && s.sessions[k] == Session(job.reg, job.intent);
      assert Payable(s.db, s.sessions[k].reg);
    }
  }

  lemma {:induction false} RunAppend(s: System, xs: seq<Action>, ys: seq<Action>)
    ensures Run(s, xs + ys) == Run(Run(s, xs), ys)
  {
    if ys == [] {
      assert xs + ys == xs;
    } else {
      var n := |ys| - 1;
      RunAppend(s, xs, ys[..n]);
      assert (xs + ys)[..|xs + ys| - 1] == xs + ys[..n];
    }
  }

  // ---------------------------------------------------------------------
  // First come, first served, over whole runs
  // ---------------------------------------------------------------------

  /** Row `b` left the queue from position `pos` for a spot only after everyone before it had left too. */
  ghost predicate TurnKept(db: Db, b: nat, pos: nat) {
    && b < |db.regs| && pos <= db.event.waitlistCounter
    && (Waiting(db.regs[b]) ==> db.regs[b].waitlistPos == Some(pos))
    && (Holds(db.regs[b]) ==> AllBehind(db.regs, pos))
  }

  ghost predicate AllBehind(regs: seq<Reg>, pos: nat) {
    forall i :: 0 <= i < |regs| && Waiting(regs[i]) ==> regs[i].waitlistPos.Some? && regs[i].waitlistPos.value > pos
  }

  lemma StaysBehind(db: Db, db': Db, pos: nat)
    requires Evolves(db, db') && AllBehind(db.regs, pos) && pos <= db.event.waitlistCounter
    ensures AllBehind(db'.regs, pos)
  {
    hide NoQueueJump, SameTerms;
    forall i | 0 <= i < |db'.regs| && Waiting(db'.regs[i])
      ensures db'.regs[i].waitlistPos.Some? && db'.regs[i].waitlistPos.value > pos
    {
      if i < |db.regs| {
        assert RowEvolves(db.event, db.regs[i], db'.regs[i]);
      }
    }
  }

  lemma TurnStep(db: Db, db': Db, b: nat, pos: nat)
    requires DbOk(db') && Evolves(db, db') && TurnKept(db, b, pos)
    ensures TurnKept(db', b, pos)
  {
    assert RowEvolves(db.event, db.regs[b], db'.regs[b]);
    if Holds(db'.regs[b]) {
      if Holds(db.regs[b]) {
        StaysBehind(db, db', pos);
      } else {
        assert NewlyHolds(db.regs, db'.regs, b);
        forall i | 0 <= i < |db'.regs| && Waiting(db'.regs[i])
          ensures db'.regs[i].waitlistPos.Some? && db'.regs[i].waitlistPos.value > pos
        {
          assert RowOk(db'.event, db'.regs[i]);
          assert PosBefore(db.regs[b], db'.regs[i]);
        }
      }
    }
  }

  lemma {:induction false} TurnRun(s: System, actions: seq<Action>, b: nat, pos: nat)
    requires SystemOk(s) && TurnKept(s.db, b, pos)
    ensures TurnKept(Run(s, actions).db, b, pos)
  {
    if actions != [] {
      var front := actions[..|actions| - 1];
      RunKeepsInvariant(s, front);
      TurnRun(s, front, b, pos);
      StepKeepsInvariant(Run(s, front), actions[|actions| - 1]);
      hide TurnKept, Evolves, DbOk;
      TurnStep(Run(s, front).db, Run(s, actions).db, b, pos);
    }
  }

  /**
   Once someone who waited at `pos` holds a spot, however many steps later,
   nobody who joined the queue before them is still waiting in it.
   */
  lemma FirstComeFirstServed(s0: System, before: seq<Action>, between: seq<Action>, b: nat, w: nat)
    requires Initial(s0)
    requires var regs := Run(s0, before).db.regs; b < |regs| && Waiting(regs[b])
    requires var regs' := Run(s0, before + between).db.regs;
             w < |regs'| && b < |regs'| && Waiting(regs'[w]) && Holds(regs'[b])
    ensures PosBefore(Run(s0, before).db.regs[b], Run(s0, before + between).db.regs[w])
  {
    var s := Run(s0, before);
    Reachable(s0, before);
    RunAppend(s0, before, between);
    assert RowOk(s.db.event, s.db.regs[b]);
    TurnRun(s, between, b, s.db.regs[b].waitlistPos.value);
  }

  // ---------------------------------------------------------------------
  // After registration has closed
  // ---------------------------------------------------------------------

  /** Nobody becomes paid, and nobody joins, once the event was started or called off. */
  lemma {:induction false} PaidRosterOnlyShrinks(s: System, actions: seq<Action>)
    requires SystemOk(s) && Closed(s.db.event)
    ensures var regs := s.db.regs;
            var regs' := Run(s, actions).db.regs;
            && Closed(Run(s, actions).db.event) && |regs'| == |regs|
            && forall i :: 0 <= i < |regs| && regs'[i].status == Paid ==> regs[i].status == Paid
  {
    if actions != [] {
      var front := actions[..|actions| - 1];
      var middle := Run(s, front);
      RunKeepsInvariant(s, front);
      PaidRosterOnlyShrinks(s, front);
      StepKeepsInvariant(middle, actions[|actions| - 1]);
      var regs' := Run(s, actions).db.regs;
      hide SystemOk, Step, NoQueueJump;
      forall i | 0 <= i < |s.db.regs| && regs'[i].status == Paid ensures s.db.regs[i].status == Paid {
        assert RowEvolves(middle.db.event, middle.db.regs[i], regs'[i]);
      }
    }
  }

  // ---------------------------------------------------------------------
  // Charges and webhooks
  // ---------------------------------------------------------------------

  lemma ChargeStays(db: Db, db': Db, i: nat)
    requires Evolves(db, db') && i < |db.regs| && i < |db'.regs|
    requires HoldsMoney(db.regs[i]) && HoldsMoney(db'.regs[i]) && db.regs[i].intent.Some?
    ensures db'.regs[i].intent == db.regs[i].intent
  {
    assert RowEvolves(db.event, db.regs[i], db'.regs[i]);
  }

  /** While a row keeps holding money, step after step, the charge it names is never replaced. */
  lemma {:induction false} ChargeNeverReplaced(s: System, actions: seq<Action>, i: nat)
    requires SystemOk(s) && i < |s.db.regs| && s.db.regs[i].intent.Some?
    requires forall n :: 0 <= n <= |actions| ==>
               var regs := Run(s, actions[..n]).db.regs; i < |regs| && HoldsMoney(regs[i])
    ensures i < |Run(s, actions).db.regs| && Run(s, actions).db.regs[i].intent == s.db.regs[i].intent
  {
    assert actions[..|actions|] == actions;
    if actions != [] {
      var front := actions[..|actions| - 1];
      forall n | 0 <= n <= |front|
        ensures var regs := Run(s, front[..n]).db.regs; i < |regs| && HoldsMoney(regs[i])
      {
        assert front[..n] == actions[..n];
      }
      ChargeNeverReplaced(s, front, i);
      RunKeepsInvariant(s, front);
      StepKeepsInvariant(Run(s, front), actions[|actions| - 1]);
      var middle := Run(s, front).db;
      assert front == actions[..|actions| - 1];
      assert HoldsMoney(middle.regs[i]);
      hide SystemOk, Step, Evolves, HoldsMoney, Run;
      ChargeStays(middle, Run(s, actions).db, i);
    }
  }

  /**
   Once a duplicate charge is to be sent back, the registration it duplicates
   keeps another charge, and in no later step of any run does it come to name
   the duplicate while it still holds money.
   */
  lemma DuplicateRefundSparesTheRow(s: System, webhook: string, session: string, actions: seq<Action>)
    requires SystemOk(s) && session in s.sessions
    requires var paid := s.sessions[session];
             CheckoutCompleted(s.db, webhook, session, paid.intent, Some(paid.reg)).1.DuplicateRefund?
    requires var s1 := Step(s, SessionCompleted(webhook, session));
             forall n :: 0 <= n <= |actions| ==>
               var regs := Run(s1, actions[..n]).db.regs;
               s.sessions[session].reg < |regs| && HoldsMoney(regs[s.sessions[session].reg])
    ensures var paid := s.sessions[session];
            var s1 := Step(s, SessionCompleted(webhook, session));
            var regs' := Run(s1, actions).db.regs;
            && s1.queued == s.queued + multiset{Job(Duplicate, paid.reg, paid.intent)} && s1.db.regs == s.db.regs
            && paid.reg < |s.db.regs| && paid.reg < |regs'|
            && regs'[paid.reg].intent == s.db.regs[paid.reg].intent
            && regs'[paid.reg].intent.Some? && regs'[paid.reg].intent.value != paid.intent
  {
    StepKeepsInvariant(s, SessionCompleted(webhook, session));
    DuplicateStep(s, webhook, session);
    hide SystemOk, Step, CheckoutCompleted, HoldsMoney, Evolves;
    assert actions[..0] == [];
    ChargeNeverReplaced(Step(s, SessionCompleted(webhook, session)), actions, s.sessions[session].reg);
  }

  lemma DuplicateStep(s: System, webhook: string, session: string)
    requires SystemOk(s) && session in s.sessions
    requires var paid := s.sessions[session];
             CheckoutCompleted(s.db, webhook, session, paid.intent, Some(paid.reg)).1.DuplicateRefund?
    ensures var paid := s.sessions[session];
            var s1 := Step(s, SessionCompleted(webhook, session));
            && s1.queued == s.queued + multiset{Job(Duplicate, paid.reg, paid.intent)} && s1.db.regs == s.db.regs
            && paid.reg < |s.db.regs|
            && s.db.regs[paid.reg].intent.Some? && s.db.regs[paid.reg].intent.value != paid.intent
  {
    var paid := s.sessions[session];
    CompletionFindsItsRow(s, session);
    CompletedStep(s, webhook, session);
    hide SystemOk, Step;
    DuplicateIsAnother(s.db, webhook, session, paid.intent, paid.reg);
    hide CheckoutCompleted;
  }

  lemma DuplicateIsAnother(db: Db, webhook: string, session: string, intent: string, id: nat)
    requires FindForCheckout(db.regs, session, Some(id)) == Some(id)
    requires CheckoutCompleted(db, webhook, session, intent, Some(id)).1.DuplicateRefund?
    ensures var (db', aftermath) := CheckoutCompleted(db, webhook, session, intent, Some(id));
            && aftermath == DuplicateRefund(id, intent) && db'.regs == db.regs
            && db.regs[id].intent.Some? && db.regs[id].intent.value != intent
  {
  }

  function WebhookOf(a: Action): Option<string> {
    match a
    case SessionCompleted(w, _) => Some(w)
    case SessionExpired(w, _, _) => Some(w)
    case RefundReported(w, _, _) => Some(w)
    case OtherWebhook(w) => Some(w)
    case _ => None
  }

  lemma SeenGrows(s: System, a: Action)
    ensures s.db.seen <= Step(s, a).db.seen
  {
    hide Register, CancelRegistration, OrganizerRefund, RemoveRegistration, DenyRefund, ExpireAndPromote, Transition,
         UpdateEvent, PayRead, PayWrite, FinalizeRefund, FinalizeEventCancelRefund, CheckoutCompleted, CheckoutExpired,
         ChargeRefunded, CancelJobs, FreshSession;
  }

  lemma {:induction false} SeenGrowsOverRuns(s: System, actions: seq<Action>)
    ensures s.db.seen <= Run(s, actions).db.seen
  {
    if actions != [] {
      SeenGrowsOverRuns(s, actions[..|actions| - 1]);
      SeenGrows(Run(s, actions[..|actions| - 1]), actions[|actions| - 1]);
    }
  }

  /** Redelivering a webhook, at any later time, changes no row and asks for no refund. */
  lemma RedeliveryIsSilent(s: System, a: Action, between: seq<Action>, again: Action)
    requires WebhookOf(a).Some? && WebhookOf(again) == WebhookOf(a)
    requires a.SessionCompleted? ==> a.session in s.sessions
    requires a.SessionExpired? ==> a.session in s.sessions
    ensures var later := Run(Step(s, a), between);
            Step(later, again) == later
  {
    var w := WebhookOf(a).value;
    assert w in Step(s, a).db.seen;
    SeenGrowsOverRuns(Step(s, a), between);
    var later := Run(Step(s, a), between);
    assert later.db.seen + {w} == later.db.seen;
  }
}
