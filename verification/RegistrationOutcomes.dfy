/**
 What each call does for the row it is about: who gets in, who gets money back,
 and which rows are left alone. Everything here is read off the rows and the
 event's own columns.
 */
module RegistrationOutcomes {
  import opened Wrappers
  import opened RegistrationRows
  import opened RegistrationInvariant
  import opened RegistrationSteps
  import opened RegistrationRuns
  import opened RegistrationRefunds

  // ---------------------------------------------------------------------
  // Reading the table
  // ---------------------------------------------------------------------

  /** How many rows hold a spot. */
  ghost function SpotsTaken(regs: seq<Reg>): nat {
    |HoldersOf(regs)|
  }

  ghost function HoldersOf(regs: seq<Reg>): set<nat> {
    set i: nat | i < |regs| && (regs[i].status == PendingPayment || regs[i].status == Paid)
  }

  lemma {:induction false} SpotsAreCounted(regs: seq<Reg>)
    ensures CountOccupied(regs) == SpotsTaken(regs)
  {
    if regs == [] {
      assert HoldersOf(regs) == {};
    } else {
      var n := |regs| - 1;
      SpotsAreCounted(regs[..n]);
      assert HoldersOf(regs) == HoldersOf(regs[..n]) + if Holds(regs[n]) then {n} else {};
    }
  }

  /** A row that counts against its user: held, waiting, or waiting for a refund decision. */
  ghost predicate Blocks(r: Reg, user: int) {
    r.user == user
    && (r.status == PendingPayment || r.status == Paid || r.status == Waitlisted || r.status == RefundRequested)
  }

  /** Some row other than `i` counts against the user. */
  ghost predicate BlockedBesides(regs: seq<Reg>, i: nat, user: int) {
    exists j :: 0 <= j < |regs| && j != i && Blocks(regs[j], user)
  }

  lemma ActiveMeansBlocked(regs: seq<Reg>, user: int)
    ensures ActiveOf(regs, user).Some? <==> BlockedBesides(regs, |regs|, user)
  {
    if ActiveOf(regs, user).Some? {
      ActiveOfIs(regs, user);
      assert Blocks(regs[ActiveOf(regs, user).value], user);
    } else {
      NoActiveMeansNone(regs, user);
    }
  }

  /** A user's one active row is the one a look-up finds. */
  lemma FindsTheActiveRow(regs: seq<Reg>, i: nat, user: int)
    requires OneActivePerUser(regs) && i < |regs| && Blocks(regs[i], user)
    ensures ActiveOf(regs, user) == Some(i)
  {
    if ActiveOf(regs, user).Some? {
      ActiveOfIs(regs, user);
    } else {
      NoActiveMeansNone(regs, user);
    }
  }

  // ---------------------------------------------------------------------
  // What may happen to the other rows
  // ---------------------------------------------------------------------

  /** Moved up from the waitlist: with a day to pay, or paid at once where nothing is charged. */
  ghost predicate MovesUp(ev: Event, r: Reg, r': Reg, now: int) {
    && r.status == Waitlisted
    && r' == (if ev.feeCents > 0
              then r.(status := PendingPayment, expiresAt := Some(now + 24 * 60), waitlistPos := None)
              else r.(status := Paid, expiresAt := None, waitlistPos := None))
  }

  ghost predicate StaysOrMovesUp(ev: Event, r: Reg, r': Reg, now: int) {
    r' == r || MovesUp(ev, r, r', now)
  }

  /** Every row but `i` stays, unless it moves up from the waitlist. */
  ghost predicate OthersOnlyMoveUp(ev: Event, before: seq<Reg>, after: seq<Reg>, i: nat, now: int) {
    && |after| == |before|
    && forall j :: 0 <= j < |before| && j != i ==> StaysOrMovesUp(ev, before[j], after[j], now)
  }

  /** Ended, with user, session and charge kept. */
  ghost predicate EndsAs(r: Reg, r': Reg, status: RegStatus) {
    && r'.status == status && r'.expiresAt.None? && r'.waitlistPos.None?
    && r'.user == r.user && r'.session == r.session && r'.intent == r.intent
  }

  lemma PromotionMovesUp(ev: Event, regs: seq<Reg>, i: nat, now: int)
    requires TableOk(ev, regs)
    ensures OthersOnlyMoveUp(ev, regs, Promote(ev, regs, now), i, now)
  {
    PromoteKeepsTable(ev, regs, now);
    hide TableOk, Promote;
  }

  /** A row ends and the waitlist moves up. */
  lemma EndsThenMovesUp(db: Db, i: nat, status: RegStatus, now: int)
    requires DbOk(db) && i < |db.regs|
    requires status in {RefundRequested, Cancelled, Refunded, Expired, Removed}
    requires status == RefundRequested ==> Active(db.regs[i])
    ensures var after := Promote(db.event, db.regs[i := SetTerminal(db.regs[i], status)], now);
            && OthersOnlyMoveUp(db.event, db.regs, after, i, now)
            && EndsAs(db.regs[i], after[i], status)
  {
    var r := SetTerminal(db.regs[i], status);
    TerminalIsLegal(db, i, status);
    UpdateKeepsTable(db.event, db.regs, i, r);
    PromotionMovesUp(db.event, db.regs[i := r], i, now);
    PromoteSparesOthers(db.event, db.regs[i := r], now, i);
    hide TableOk, Promote, LegalUpdate, StaysOrMovesUp;
    var after := Promote(db.event, db.regs[i := r], now);
    forall j | 0 <= j < |db.regs| && j != i ensures StaysOrMovesUp(db.event, db.regs[j], after[j], now) {
      assert db.regs[i := r][j] == db.regs[j];
    }
  }

  // ---------------------------------------------------------------------
  // Registering
  // ---------------------------------------------------------------------

  /** What a new registrant gets. */
  ghost predicate Joins(db: Db, r: Reg, user: int, now: int) {
    && r.user == user && r.session.None? && r.intent.None?
    && (if SpotsTaken(db.regs) >= db.event.maxParticipants then
          && r.status == Waitlisted && r.expiresAt.None? && r.waitlistPos.Some?
          && forall j :: 0 <= j < |db.regs| && db.regs[j].waitlistPos.Some? ==>
               db.regs[j].waitlistPos.value < r.waitlistPos.value
        else
          && r.waitlistPos.None?
          && (if db.event.feeCents > 0 then r.status == PendingPayment && r.expiresAt == Some(now + 24 * 60)
              else r.status == Paid && r.expiresAt.None?))
  }

  /**
   Whoever has no row in a published event gets one, at the end: a spot while
   there is one, with a day to pay if there is a fee, and otherwise the last
   place of the queue. Nobody else gets anything, and no other row changes.
   */
  lemma RegisterOutcome(db: Db, user: int, now: int)
    requires DbOk(db)
    ensures var (db', result) := Register(db, user, now);
            && (result.Ok? <==> db.event.status == Published && !BlockedBesides(db.regs, |db.regs|, user))
            && (result.Ok? ==> result.value == |db.regs| && |db'.regs| == |db.regs| + 1
                               && db'.regs[..|db.regs|] == db.regs && Joins(db, db'.regs[|db.regs|], user, now))
            && (result.Err? ==>
                  db' == db && result.error == (if db.event.status == Draft then EventNotFound
                                                else if db.event.status != Published then RegistrationClosed
                                                else AlreadyRegistered))
  {
    SpotsAreCounted(db.regs);
    ActiveMeansBlocked(db.regs, user);
    forall j | 0 <= j < |db.regs| && db.regs[j].waitlistPos.Some?
      ensures db.regs[j].waitlistPos.value < db.event.waitlistCounter + 1
    {
      assert RowOk(db.event, db.regs[j]);
    }
    hide DbOk, ActiveOf, CountOccupied, SpotsTaken, BlockedBesides;
  }

  // ---------------------------------------------------------------------
  // Cancelling
  // ---------------------------------------------------------------------

  /** Until when a paid place is refunded without asking: the deadline if one is set, else the start. */
  ghost predicate InRefundWindow(ev: Event, now: int) {
    now < if ev.refundDeadline.Some? then ev.refundDeadline.value else ev.startsAt
  }

  /** What cancelling their active row `i` does for its user. */
  lemma CancelOutcome(db: Db, i: nat, user: int, now: int)
    requires DbOk(db) && db.event.status == Published && i < |db.regs| && Blocks(db.regs[i], user)
    ensures var (db', result) := CancelRegistration(db, user, now);
            var r := db.regs[i];
            && |db'.regs| == |db.regs| && db'.event == db.event
            && OthersOnlyMoveUp(db.event, db.regs, db'.regs, i, now)
            && (r.status == Waitlisted || r.status == PendingPayment || (r.status == Paid && r.intent.None?) ==>
                  EndsAs(r, db'.regs[i], Cancelled) && result == Ok(None))
            && (r.status == Paid && r.intent.Some? && InRefundWindow(db.event, now) ==>
                  db' == db && result == Ok(Some((i, r.intent.value))))
            && (r.status == Paid && r.intent.Some? && !InRefundWindow(db.event, now) ==>
                  EndsAs(r, db'.regs[i], RefundRequested) && result == Ok(None))
            && (r.status == RefundRequested ==> db' == db && result == Err(RegistrationNotFound))
  {
    FindsTheActiveRow(db.regs, i, user);
    EndsThenMovesUp(db, i, Cancelled, now);
    EndsThenMovesUp(db, i, RefundRequested, now);
    hide DbOk, ActiveOf, Promote;
  }

  lemma NothingToCancel(db: Db, user: int, now: int)
    requires db.event.status != Published || !BlockedBesides(db.regs, |db.regs|, user)
    ensures CancelRegistration(db, user, now)
         == (db, Err(if db.event.status == Draft then EventNotFound
                     else if db.event.status != Published then RegistrationClosed
                     else RegistrationNotFound))
  {
    ActiveMeansBlocked(db.regs, user);
    hide ActiveOf, BlockedBesides;
  }

  /**
   Whoever cancels in time gets exactly one refund, of the charge their row
   names, and keeps the row until it went through; later it is the organizer's
   decision, and nothing is sent back. Without a charge the row just ends.
   */
  lemma SelfCancelOutcome(s: System, i: nat, user: int, now: int)
    requires SystemOk(s) && s.db.event.status == Published && i < |s.db.regs| && Blocks(s.db.regs[i], user)
    ensures var s' := Step(s, DoSelfCancel(user, now));
            var r := s.db.regs[i];
            && |s'.db.regs| == |s.db.regs| && OthersOnlyMoveUp(s.db.event, s.db.regs, s'.db.regs, i, now)
            && (r.status == Waitlisted || r.status == PendingPayment || (r.status == Paid && r.intent.None?) ==>
                  s'.db.regs[i].status == Cancelled && s'.queued == s.queued)
            && (r.status == Paid && r.intent.Some? && InRefundWindow(s.db.event, now) ==>
                  s' == s.(queued := s.queued + multiset{Job(Single, i, r.intent.value)}))
            && (r.status == Paid && r.intent.Some? && !InRefundWindow(s.db.event, now) ==>
                  s'.db.regs[i].status == RefundRequested && s'.queued == s.queued)
            && (r.status == RefundRequested ==> s' == s)
  {
    CancelOutcome(s.db, i, user, now);
    CancelStep(s, user, now);
    assert s.queued + multiset{} == s.queued;
    hide SystemOk, DbOk, CancelRegistration, OthersOnlyMoveUp, InRefundWindow, Step, Blocks;
  }

  lemma CancelStep(s: System, user: int, now: int)
    ensures var (db', r) := CancelRegistration(s.db, user, now);
            Step(s, DoSelfCancel(user, now))
            == s.(db := db',
                  queued := s.queued
                            + if r.Ok? && r.value.Some? then multiset{Job(Single, r.value.value.0, r.value.value.1)}
                              else multiset{})
  {
    hide CancelRegistration;
  }

  // ---------------------------------------------------------------------
  // The organizer's calls
  // ---------------------------------------------------------------------

  lemma NobodyMoves(ev: Event, regs: seq<Reg>, i: nat, now: int)
    ensures OthersOnlyMoveUp(ev, regs, regs, i, now)
  {
  }

  /**
   A removal goes through for exactly the rows that hold or wait for a spot,
   and where a charge was captured only if it is to be kept. It sends no money
   back.
   */
  lemma RemoveOutcome(s: System, i: nat, keepPayment: bool, now: int)
    requires SystemOk(s) && i < |s.db.regs|
    ensures var s' := Step(s, DoRemove(i, keepPayment, now));
            var r := s.db.regs[i];
            && |s'.db.regs| == |s.db.regs| && s'.queued == s.queued
            && OthersOnlyMoveUp(s.db.event, s.db.regs, s'.db.regs, i, now)
            && (if r.status == PendingPayment || r.status == Waitlisted
                   || (r.status == Paid && (r.intent.Some? ==> keepPayment))
                then EndsAs(r, s'.db.regs[i], Removed)
                else s' == s)
  {
    RemovalOutcome(s.db, i, keepPayment, now);
    hide SystemOk, DbOk, RemoveRegistration, OthersOnlyMoveUp, EndsAs;
  }

  lemma RemovalOutcome(db: Db, i: nat, keepPayment: bool, now: int)
    requires DbOk(db) && i < |db.regs|
    ensures var (db', result) := RemoveRegistration(db, i, keepPayment, now);
            var r := db.regs[i];
            && |db'.regs| == |db.regs|
            && OthersOnlyMoveUp(db.event, db.regs, db'.regs, i, now)
            && (if r.status == PendingPayment || r.status == Waitlisted
                   || (r.status == Paid && (r.intent.Some? ==> keepPayment))
                then EndsAs(r, db'.regs[i], Removed) && result == Ok(i)
                else db' == db
                     && result == Err(if r.status == Paid then RemovePaidNeedsDecision else InvalidTransition))
  {
    EndsThenMovesUp(db, i, Removed, now);
    NobodyMoves(db.event, db.regs, i, now);
    hide DbOk, Promote, OthersOnlyMoveUp, EndsAs, SetTerminal;
  }

  /** Denying ends a row of the refund queue, without its money; a refund needs captured money and is queued once. */
  lemma RefundDecision(s: System, i: nat)
    requires SystemOk(s) && i < |s.db.regs|
    ensures var r := s.db.regs[i];
            var denied := Step(s, DoDeny(i));
            && |denied.db.regs| == |s.db.regs| && denied.queued == s.queued
            && (forall j :: 0 <= j < |s.db.regs| && j != i ==> denied.db.regs[j] == s.db.regs[j])
            && (if r.status == RefundRequested then EndsAs(r, denied.db.regs[i], Cancelled) else denied == s)
            && Step(s, DoOrganizerRefund(i))
               == (if (r.status == Paid || r.status == RefundRequested) && r.intent.Some?
                   then s.(queued := s.queued + multiset{Job(Single, i, r.intent.value)}) else s)
  {
    hide SystemOk;
  }

  /**
   A draft's terms can be edited freely, later only the refund deadline; what
   is not given stays, and a refused edit changes nothing.
   */
  lemma EditOutcome(db: Db, fee: Option<nat>, max: Option<nat>, startsAt: Option<int>, deadline: Option<int>,
                    stripe: bool, valid: bool)
    ensures var (db', error) := UpdateEvent(db, fee, max, startsAt, deadline, stripe, valid);
            var ev, ev' := db.event, db'.event;
            && (error.None?
                <==> && (ev.status != Draft ==> fee.None? && max.None? && startsAt.None?)
                     && (fee.Some? && fee.value > 0 ==> stripe) && valid)
            && db' == db.(event := ev') && ev'.status == ev.status && ev'.waitlistCounter == ev.waitlistCounter
            && (ev'.feeCents != ev.feeCents ==> fee == Some(ev'.feeCents))
            && (ev'.maxParticipants != ev.maxParticipants ==> max == Some(ev'.maxParticipants))
            && (ev'.startsAt != ev.startsAt ==> startsAt == Some(ev'.startsAt))
            && (ev'.refundDeadline != ev.refundDeadline ==> ev'.refundDeadline == deadline)
            && (error.None? ==>
                  && (fee.Some? ==> ev'.feeCents == fee.value) && (max.Some? ==> ev'.maxParticipants == max.value)
                  && (startsAt.Some? ==> ev'.startsAt == startsAt.value)
                  && (deadline.Some? ==> ev'.refundDeadline == deadline))
            && (error.Some? ==> db' == db)
  {
  }

  /** Publishing needs payments set up if there is a fee, and finishing needs every round completed. */
  lemma LifecycleOutcome(s: System, action: LifecycleAction, stripe: bool, openRounds: nat)
    requires action == Publish || action == Finish
    ensures var s' := Step(s, DoTransition(action, stripe, openRounds));
            var ev := s.db.event;
            if action == Publish && ev.status == Draft && (ev.feeCents > 0 ==> stripe) then
              s' == s.(db := s.db.(event := ev.(status := Published)))
            else if action == Finish && ev.status == Started && openRounds == 0 then
              s' == s.(db := s.db.(event := ev.(status := Finished)))
            else s' == s
  {
    hide CancelJobs;
    assert s.queued + multiset{} == s.queued;
  }

  /** Starting ends every row that holds no money; calling off too, and asks for one refund of each charge held. */
  lemma StartOutcome(s: System, stripe: bool, openRounds: nat)
    requires s.db.event.status == Published
    ensures var s' := Step(s, DoTransition(Start, stripe, openRounds));
            && s'.db.event.status == Started && s'.queued == s.queued && |s'.db.regs| == |s.db.regs|
            && forall i :: 0 <= i < |s.db.regs| ==>
                 var r, r' := s.db.regs[i], s'.db.regs[i];
                 if r.status == PendingPayment then EndsAs(r, r', Expired)
                 else if r.status == Waitlisted then EndsAs(r, r', Cancelled)
                 else r' == r
  {
    hide CancelJobs;
    assert s.queued + multiset{} == s.queued;
  }

  /** The refund a called-off event owes. */
  ghost predicate Owed(regs: seq<Reg>, job: Job) {
    && job.kind == EventCancel && job.reg < |regs|
    && (regs[job.reg].status == Paid || regs[job.reg].status == RefundRequested)
    && regs[job.reg].intent == Some(job.intent)
  }

  lemma {:induction false} OneJobEach(regs: seq<Reg>, job: Job)
    ensures CancelJobs(regs)[job] == if Owed(regs, job) then 1 else 0
  {
    if regs != [] {
      OneJobEach(regs[..|regs| - 1], job);
    }
  }

  lemma CallOffOutcome(s: System, stripe: bool, openRounds: nat, job: Job)
    requires s.db.event.status == Published || s.db.event.status == Started || s.db.event.status == CalledOff
    ensures var s' := Step(s, DoTransition(CallOff, stripe, openRounds));
            && s'.db.event.status == CalledOff && |s'.db.regs| == |s.db.regs|
            && s'.queued[job] == s.queued[job] + (if Owed(s.db.regs, job) then 1 else 0)
            && forall i :: 0 <= i < |s.db.regs| ==>
                 var r, r' := s.db.regs[i], s'.db.regs[i];
                 if Blocks(r, r.user) && !((r.status == Paid || r.status == RefundRequested) && r.intent.Some?)
                 then EndsAs(r, r', Cancelled)
                 else r' == r
  {
    OneJobEach(s.db.regs, job);
    hide CancelJobs;
  }

  // ---------------------------------------------------------------------
  // Paying in time
  // ---------------------------------------------------------------------

  /** Its time is up, and no checkout session is still open. */
  ghost predicate Lapses(r: Reg, now: int) {
    && r.expiresAt.Some? && r.expiresAt.value <= now
    && !(r.sessionExpiresAt.Some? && now < r.sessionExpiresAt.value)
  }

  /** The sweep expires exactly the pending rows that lapse; an open session holds it off. */
  lemma SweepOutcome(db: Db, now: int, i: nat)
    requires DbOk(db) && i < |db.regs|
    ensures var db' := ExpireAndPromote(db, now);
            var r := db.regs[i];
            && |db'.regs| == |db.regs| && db'.event == db.event
            && (if r.status == PendingPayment && Lapses(r, now) then EndsAs(r, db'.regs[i], Expired)
                else StaysOrMovesUp(db.event, r, db'.regs[i], now))
  {
    var rewrite := ExpireOverdue(now);
    var after := MapRows(db.regs, rewrite);
    ExpiryKeepsTable(db, now);
    assert after[i] == rewrite(db.regs[i]);
    PromotionMovesUp(db.event, after, |after|, now);
    if !Waiting(after[i]) {
      PromoteSparesOthers(db.event, after, now, i);
    }
    hide Promote, DbOk, TableOk, MapRows;
  }

  /**
   Pay opens a session exactly for the caller's own pending row, while its time
   is not up and no session is open; the session lasts as long as the row, and
   at least as long as Stripe asks for.
   */
  lemma PayOutcome(s: System, i: nat, user: int, now: int, stripe: bool)
    requires SystemOk(s) && s.db.event.status != Draft && i < |s.db.regs| && Blocks(s.db.regs[i], user)
    ensures var r := s.db.regs[i];
            var s' := Step(s, DoPayRead(user, now, stripe));
            if r.status == PendingPayment && r.expiresAt.Some? && now < r.expiresAt.value && stripe
               && !(r.session.Some? && r.sessionExpiresAt.Some? && now < r.sessionExpiresAt.value)
            then exists until: int ::
                 && r.expiresAt.value <= until && now + 30 <= until && (until == r.expiresAt.value || until == now + 30)
                 && s' == s.(payReads := s.payReads + multiset{(i, until)})
            else s' == s
  {
    FindsTheActiveRow(s.db.regs, i, user);
    PayDecides(s.db, i, user, now, stripe);
    PayReadMoves(s, user, now, stripe);
    assert s.payReads + multiset{} == s.payReads;
    hide SystemOk, ActiveOf, Blocks, PayRead, Step;
  }

  lemma PayDecides(db: Db, i: nat, user: int, now: int, stripe: bool)
    requires db.event.status != Draft && i < |db.regs| && ActiveOf(db.regs, user) == Some(i)
    ensures var r := db.regs[i];
            var decision := PayRead(db, user, now, stripe);
            if r.status == PendingPayment && r.expiresAt.Some? && now < r.expiresAt.value && stripe
               && !(r.session.Some? && r.sessionExpiresAt.Some? && now < r.sessionExpiresAt.value)
            then decision == Ok(CreateSession(i, if r.expiresAt.value < now + 30 then now + 30 else r.expiresAt.value))
            else decision.Err? || decision.value.Reuse?
  {
    hide ActiveOf;
  }

  /** Once Pay has stored its session, no sweep expires the row while that session is open. */
  lemma OpenSessionHoldsOff(s: System, i: nat, session: string, until: int, now: int)
    requires SystemOk(s) && (i, session, until) in s.payWrites && now < until
    ensures i < |s.db.regs|
    ensures var r := s.db.regs[i];
            var s1 := Step(s, DoPayWrite(i, session, until));
            var s2 := Step(s1, DoSweep(now));
            && |s1.db.regs| == |s.db.regs| && OthersStay(s.db.regs, s1.db.regs, i)
            && s1.db.regs[i] == r.(session := Some(session), sessionExpiresAt := Some(until))
            && |s2.db.regs| == |s.db.regs| && s2.db.regs[i] == s1.db.regs[i]
  {
    assert Payable(s.db, s.sessions[session].reg);
    var a := DoPayWrite(i, session, until);
    PayWriteIs(s, i, session, until);
    StepKeepsInvariant(s, a);
    assert DbOk(Step(s, a).db);
    SweepOutcome(Step(s, a).db, now, i);
    SweepIs(Step(s, a), now);
    hide SystemOk, DbOk, Step, ExpireAndPromote;
  }

  lemma PayWriteIs(s: System, i: nat, session: string, until: int)
    requires (i, session, until) in s.payWrites && i < |s.db.regs|
    ensures Step(s, DoPayWrite(i, session, until)).db.regs
         == s.db.regs[i := s.db.regs[i].(session := Some(session), sessionExpiresAt := Some(until))]
  {
  }

  lemma SweepIs(s: System, now: int)
    ensures Step(s, DoSweep(now)).db == ExpireAndPromote(s.db, now)
  {
    hide ExpireAndPromote;
  }

  // ---------------------------------------------------------------------
  // Completed, expired and refunded sessions
  // ---------------------------------------------------------------------

  ghost predicate PaidOn(r: Reg, r': Reg, session: string, intent: string) {
    && r'.status == Paid && Records(r', session, intent)
    && r'.user == r.user && r'.expiresAt.None? && r'.waitlistPos.None?
  }

  /** The row names the session and the charge, so a later refund of it is found. */
  ghost predicate Records(r: Reg, session: string, intent: string) {
    r.session == Some(session) && r.intent == Some(intent)
  }

  /** A lapsed row may have its spot back: nobody removed it, there is one, and its user has no other row by now. */
  ghost predicate GetsSpotBack(db: Db, i: nat)
    requires i < |db.regs|
  {
    && db.regs[i].status != Removed
    && db.event.status == Published
    && SpotsTaken(db.regs) < db.event.maxParticipants
    && !BlockedBesides(db.regs, i, db.regs[i].user)
  }

  ghost predicate OthersStay(before: seq<Reg>, after: seq<Reg>, i: nat) {
    |after| == |before| && forall j :: 0 <= j < |before| && j != i ==> after[j] == before[j]
  }

  /** Recording the payment on a row that counts for nobody changes neither the spots taken nor who has a row. */
  lemma RecordingChangesNoCount(regs: seq<Reg>, i: nat, r: Reg)
    requires i < |regs| && r.user == regs[i].user && r.status == regs[i].status && !Active(r)
    ensures CountOccupied(regs[i := r]) == SpotsTaken(regs)
    ensures ActiveOf(regs[i := r], r.user).None? <==> !BlockedBesides(regs, i, r.user)
  {
    CountsAfterUpdate(regs, i, r);
    SpotsAreCounted(regs);
    ActiveMeansBlocked(regs[i := r], r.user);
    hide CountOccupied, ActiveOf, SpotsTaken;
    if BlockedBesides(regs, i, r.user) {
      var j :| 0 <= j < |regs| && j != i && Blocks(regs[j], r.user);
      assert Blocks(regs[i := r][j], r.user);
    }
  }

  lemma CompletionOutcome(db: Db, webhook: string, session: string, intent: string, i: nat)
    requires webhook !in db.seen && intent != "" && FindForCheckout(db.regs, session, Some(i)) == Some(i)
    ensures var (db', aftermath) := CheckoutCompleted(db, webhook, session, intent, Some(i));
            var r := db.regs[i];
            && OthersStay(db.regs, db'.regs, i) && db'.event == db.event
            && (if r.status == PendingPayment then PaidOn(r, db'.regs[i], session, intent) && aftermath == Nothing
                else if HoldsMoney(r) then
                  && db'.regs[i].status == r.status
                  && (if r.intent.Some? && r.intent.value != intent
                      then db'.regs[i] == r && aftermath == DuplicateRefund(i, intent)
                      else Records(db'.regs[i], session, intent) && aftermath == Nothing)
                else if Waiting(r) then true
                else if GetsSpotBack(db, i) then PaidOn(r, db'.regs[i], session, intent) && aftermath == Nothing
                else db'.regs[i].status == r.status && Records(db'.regs[i], session, intent)
                     && aftermath == LateRefund(i, intent))
  {
    var r := db.regs[i];
    if !Active(r) {
      RecordingChangesNoCount(db.regs, i, RecordPayment(r, session, intent));
    }
    hide CountOccupied, ActiveOf, FindForCheckout, SpotsTaken, BlockedBesides;
  }

  /**
   A first delivery of a payment, whatever happened to its row since Pay: a
   pending row is paid on that charge; a lapsed row has its spot back if and
   only if it may, and otherwise stays as it is with the charge sent back, once;
   a row that holds money stays, and another charge than its own is sent back,
   once.
   */
  lemma PaymentOutcome(s: System, webhook: string, session: string)
    requires SystemOk(s) && session in s.sessions && webhook !in s.db.seen
    ensures var i := s.sessions[session].reg;
            var charge := s.sessions[session].intent;
            var s' := Step(s, SessionCompleted(webhook, session));
            && i < |s.db.regs| && OthersStay(s.db.regs, s'.db.regs, i)
            && var r, r' := s.db.regs[i], s'.db.regs[i];
               && (r.status == PendingPayment ==> PaidOn(r, r', session, charge) && s'.queued == s.queued)
               && (r.status != PendingPayment && !HoldsMoney(r) ==>
                     && (r'.status == Paid <==> GetsSpotBack(s.db, i))
                     && Records(r', session, charge)
                     && (r'.status != Paid ==> r'.status == r.status)
                     && s'.queued == s.queued + (if GetsSpotBack(s.db, i) then multiset{}
                                                 else multiset{Job(Single, i, charge)}))
               && (HoldsMoney(r) ==>
                     && r'.status == r.status
                     && s'.queued == s.queued + (if r.intent.Some? && r.intent.value != charge
                                                 then multiset{Job(Duplicate, i, charge)} else multiset{}))
  {
    var i := s.sessions[session].reg;
    CompletionFindsItsRow(s, session);
    CompletionOutcome(s.db, webhook, session, s.sessions[session].intent, i);
    assert s.queued + multiset{} == s.queued;
    CompletedStep(s, webhook, session);
    hide SystemOk, Step, CheckoutCompleted, FindForCheckout, GetsSpotBack, OthersStay, DuplicateCharge;
  }

  /** An expired session ends exactly the row that still stores it, if that row still waits for the payment. */
  lemma ExpiryOutcome(s: System, webhook: string, session: string, now: int)
    requires SystemOk(s) && session in s.sessions && webhook !in s.db.seen
    ensures var i := s.sessions[session].reg;
            var s' := Step(s, SessionExpired(webhook, session, now));
            && i < |s.db.regs| && |s'.db.regs| == |s.db.regs| && s'.queued == s.queued
            && (if s.db.regs[i].session == Some(session) && s.db.regs[i].status == PendingPayment
                then EndsAs(s.db.regs[i], s'.db.regs[i], Expired)
                     && OthersOnlyMoveUp(s.db.event, s.db.regs, s'.db.regs, i, now)
                else s'.db.regs == s.db.regs)
  {
    var i := s.sessions[session].reg;
    assert Payable(s.db, i);
    StoredOnItsRow(s, session);
    SessionEndsItsRow(s.db, webhook, session, now, i);
    ExpiredStep(s, webhook, session, now);
    hide SystemOk, DbOk, CheckoutExpired, BySession, OthersOnlyMoveUp, EndsAs, Step, Payable;
  }

  lemma ExpiredStep(s: System, webhook: string, session: string, now: int)
    requires session in s.sessions
    ensures Step(s, SessionExpired(webhook, session, now)) == s.(db := CheckoutExpired(s.db, webhook, session, now))
  {
    hide CheckoutExpired;
  }

  lemma SessionEndsItsRow(db: Db, webhook: string, session: string, now: int, i: nat)
    requires DbOk(db) && i < |db.regs| && webhook !in db.seen
    requires BySession(db.regs, session) == (if db.regs[i].session == Some(session) then Some(i) else None)
    ensures var regs' := CheckoutExpired(db, webhook, session, now).regs;
            if db.regs[i].session == Some(session) && db.regs[i].status == PendingPayment
            then EndsAs(db.regs[i], regs'[i], Expired) && OthersOnlyMoveUp(db.event, db.regs, regs', i, now)
            else regs' == db.regs
  {
    EndsThenMovesUp(db, i, Expired, now);
    hide DbOk, BySession, Promote, OthersOnlyMoveUp, EndsAs, SetTerminal;
  }

  lemma StoredOnItsRow(s: System, session: string)
    requires SystemOk(s) && session in s.sessions
    ensures var i := s.sessions[session].reg;
            && i < |s.db.regs|
            && BySession(s.db.regs, session)
               == (if s.db.regs[i].session == Some(session) then Some(i) else None)
  {
    var i := s.sessions[session].reg;
    assert Payable(s.db, i);
    var matches := (r: Reg) => r.session == Some(session);
    var stored := First(s.db.regs, matches);
    assert !matches(s.db.regs[i]) || stored.Some?;
    if stored.Some? {
      assert RowLinks(s.db.regs[stored.value], stored.value, s.sessions);
    }
  }

  lemma ChargeOnOneRow(s: System, i: nat, intent: string)
    requires SystemOk(s) && i < |s.db.regs| && s.db.regs[i].intent == Some(intent)
    ensures ByIntent(s.db.regs, intent) == Some(i)
  {
    var matches := (r: Reg) => r.intent == Some(intent);
    var stored := First(s.db.regs, matches);
    assert !matches(s.db.regs[i]) || stored.Some?;
    RowIntentBelongs(s, i);
    RowIntentBelongs(s, stored.value);
    var k :| k in s.sessions && s.sessions[k] == Session(i, intent);
    var l :| l in s.sessions && s.sessions[l] == Session(stored.value, intent);
    assert k == l;
  }

  /** The second phase of a refund ends the row it is about, whatever it is by then, and hands its spot on. */
  lemma FinalizeOutcome(db: Db, i: nat, now: int)
    requires DbOk(db) && i < |db.regs|
    ensures var db' := FinalizeRefund(db, i, now);
            OthersOnlyMoveUp(db.event, db.regs, db'.regs, i, now) && EndsAs(db.regs[i], db'.regs[i], Refunded)
  {
    assert RowOk(db.event, db.regs[i]);
    EndsThenMovesUp(db, i, Refunded, now);
    NobodyMoves(db.event, db.regs, i, now);
    hide DbOk, Promote, StaysOrMovesUp;
  }

  lemma FinishOutcome(s: System, job: Job, now: int)
    requires SystemOk(s) && job in s.called
    ensures var s' := Step(s, FinishRefund(job, now));
            && job.reg < |s.db.regs| && |s'.db.regs| == |s.db.regs| && s'.queued == s.queued
            && EndsAs(s.db.regs[job.reg], s'.db.regs[job.reg], Refunded)
            && OthersOnlyMoveUp(s.db.event, s.db.regs, s'.db.regs, job.reg, now)
  {
    JobIntentBelongs(s.db, s.sessions, job);
    var k :| k in s.sessions && s.sessions[k] == Session(job.reg, job.intent);
    assert Payable(s.db, s.sessions[k].reg);
    FinalizeOutcome(s.db, job.reg, now);
    EventRefundOutcome(s.db, job.reg, now);
    hide SystemOk, DbOk, FinalizeRefund, FinalizeEventCancelRefund, IntentBelongs, EndsAs, OthersOnlyMoveUp;
  }

  lemma EventRefundOutcome(db: Db, i: nat, now: int)
    requires i < |db.regs|
    ensures var db' := FinalizeEventCancelRefund(db, i);
            OthersOnlyMoveUp(db.event, db.regs, db'.regs, i, now) && EndsAs(db.regs[i], db'.regs[i], Refunded)
  {
  }

  /** A refund made on Stripe's side ends exactly the row that names the charge. */
  lemma RefundReportedOutcome(s: System, webhook: string, intent: string, now: int, i: nat)
    requires SystemOk(s) && webhook !in s.db.seen && i < |s.db.regs|
    ensures var s' := Step(s, RefundReported(webhook, intent, now));
            && |s'.db.regs| == |s.db.regs| && s'.queued == s.queued
            && (if s.db.regs[i].intent == Some(intent) then EndsAs(s.db.regs[i], s'.db.regs[i], Refunded)
                else StaysOrMovesUp(s.db.event, s.db.regs[i], s'.db.regs[i], now))
  {
    var found := ByIntent(s.db.regs, intent);
    if s.db.regs[i].intent == Some(intent) {
      ChargeOnOneRow(s, i, intent);
    }
    if found.Some? {
      FoundByIntent(s.db.regs, intent);
      var db1 := s.db.(seen := s.db.seen + {webhook});
      assert DbOk(db1);
      FinalizeOutcome(db1, found.value, now);
    }
    hide SystemOk, DbOk, FinalizeRefund, ByIntent, EndsAs, StaysOrMovesUp;
  }

  lemma FoundByIntent(regs: seq<Reg>, intent: string)
    requires ByIntent(regs, intent).Some?
    ensures var i := ByIntent(regs, intent).value; i < |regs| && regs[i].intent == Some(intent)
  {
  }

  // ---------------------------------------------------------------------
  // The life of a row
  // ---------------------------------------------------------------------

  /** Where one step may take a row. */
  predicate MayBecome(r: RegStatus, r': RegStatus) {
    || r' == r || r' == Refunded
    || match r
       case Waitlisted => r' == PendingPayment || r' == Paid || r' == Cancelled || r' == Removed
       case PendingPayment => r' == Paid || r' == Cancelled || r' == Expired || r' == Removed
       case Paid => r' == RefundRequested || r' == Cancelled || r' == Removed
       case RefundRequested => r' == Cancelled
       case Cancelled => r' == Paid
       case Expired => r' == Paid
       case Refunded => r' == Paid
       case Removed => false
  }

  ghost predicate GoesOn(before: seq<Reg>, after: seq<Reg>, i: nat) {
    i < |before| && i < |after| && MayBecome(before[i].status, after[i].status)
  }

  lemma MovesUpGoesOn(ev: Event, before: seq<Reg>, after: seq<Reg>, i: nat, other: nat, now: int)
    requires i < |before| && i != other && OthersOnlyMoveUp(ev, before, after, other, now)
    ensures GoesOn(before, after, i)
  {
  }

  lemma RegisterGoesOn(db: Db, user: int, now: int, i: nat)
    requires DbOk(db) && i < |db.regs|
    ensures GoesOn(db.regs, Register(db, user, now).0.regs, i)
  {
    RegisterOutcome(db, user, now);
    hide Register, DbOk, BlockedBesides, Joins;
    var regs' := Register(db, user, now).0.regs;
    assert regs' == db.regs || regs'[..|db.regs|][i] == db.regs[i];
  }

  lemma SweepGoesOn(db: Db, now: int, i: nat)
    requires DbOk(db) && i < |db.regs|
    ensures GoesOn(db.regs, ExpireAndPromote(db, now).regs, i)
  {
    SweepOutcome(db, now, i);
    hide ExpireAndPromote, DbOk, Lapses;
  }

  lemma JoinsAndSweepsGoOn(s: System, a: Action, i: nat)
    requires SystemOk(s) && i < |s.db.regs| && (a.DoRegister? || a.DoSweep?)
    ensures GoesOn(s.db.regs, Step(s, a).db.regs, i)
  {
    if a.DoRegister? {
      RegisterGoesOn(s.db, a.user, a.now, i);
    } else {
      SweepGoesOn(s.db, a.now, i);
    }
    hide SystemOk, Register, ExpireAndPromote, GoesOn;
  }

  lemma RemoveGoesOn(s: System, id: nat, keepPayment: bool, now: int, i: nat)
    requires SystemOk(s) && i < |s.db.regs|
    ensures GoesOn(s.db.regs, Step(s, DoRemove(id, keepPayment, now)).db.regs, i)
  {
    if id >= |s.db.regs| {
      NoSuchRow(s, DoRemove(id, keepPayment, now));
    } else {
      hide SystemOk, Step, OthersOnlyMoveUp;
      RemoveOutcome(s, id, keepPayment, now);
      if id != i {
        MovesUpGoesOn(s.db.event, s.db.regs, Step(s, DoRemove(id, keepPayment, now)).db.regs, i, id, now);
      }
    }
  }

  lemma DenyGoesOn(s: System, id: nat, i: nat)
    requires SystemOk(s) && i < |s.db.regs|
    ensures GoesOn(s.db.regs, Step(s, DoDeny(id)).db.regs, i)
  {
    hide SystemOk;
    if id < |s.db.regs| {
      hide Step;
      RefundDecision(s, id);
    }
  }

  lemma NoSuchRow(s: System, a: Action)
    requires a.DoRemove? && a.id >= |s.db.regs|
    ensures Step(s, a) == s
  {
  }

  lemma CancelGoesOn(s: System, user: int, now: int, i: nat)
    requires SystemOk(s) && i < |s.db.regs|
    ensures GoesOn(s.db.regs, Step(s, DoSelfCancel(user, now)).db.regs, i)
  {
    hide OthersOnlyMoveUp, InRefundWindow;
    if s.db.event.status == Published && BlockedBesides(s.db.regs, |s.db.regs|, user) {
      var k :| 0 <= k < |s.db.regs| && Blocks(s.db.regs[k], user);
      hide SystemOk, Step;
      SelfCancelOutcome(s, k, user, now);
      if k != i {
        MovesUpGoesOn(s.db.event, s.db.regs, Step(s, DoSelfCancel(user, now)).db.regs, i, k, now);
      }
    } else {
      NothingToCancel(s.db, user, now);
      hide CancelRegistration, BlockedBesides;
    }
  }

  lemma PaymentGoesOn(s: System, webhook: string, session: string, i: nat)
    requires SystemOk(s) && session in s.sessions && webhook !in s.db.seen && i < |s.db.regs|
    ensures GoesOn(s.db.regs, Step(s, SessionCompleted(webhook, session)).db.regs, i)
  {
    hide SystemOk, Step;
    PaymentOutcome(s, webhook, session);
    if GetsSpotBack(s.db, s.sessions[session].reg) {
      hide SpotsTaken, BlockedBesides;
      assert s.db.regs[s.sessions[session].reg].status != Removed;
    }
    hide GetsSpotBack;
  }

  lemma ExpiryGoesOn(s: System, webhook: string, session: string, now: int, i: nat)
    requires SystemOk(s) && session in s.sessions && webhook !in s.db.seen && i < |s.db.regs|
    ensures GoesOn(s.db.regs, Step(s, SessionExpired(webhook, session, now)).db.regs, i)
  {
    hide SystemOk, Step, OthersOnlyMoveUp;
    ExpiryOutcome(s, webhook, session, now);
    var regs' := Step(s, SessionExpired(webhook, session, now)).db.regs;
    if s.sessions[session].reg != i && regs' != s.db.regs {
      MovesUpGoesOn(s.db.event, s.db.regs, regs', i, s.sessions[session].reg, now);
    }
  }

  lemma ReportGoesOn(s: System, webhook: string, intent: string, now: int, i: nat)
    requires SystemOk(s) && webhook !in s.db.seen && i < |s.db.regs|
    ensures GoesOn(s.db.regs, Step(s, RefundReported(webhook, intent, now)).db.regs, i)
  {
    hide SystemOk, Step;
    RefundReportedOutcome(s, webhook, intent, now, i);
  }

  lemma WebhooksGoOn(s: System, a: Action, i: nat)
    requires SystemOk(s) && i < |s.db.regs| && (a.SessionCompleted? || a.SessionExpired? || a.RefundReported?)
    ensures GoesOn(s.db.regs, Step(s, a).db.regs, i)
  {
    hide SystemOk, GoesOn;
    if a.webhook in s.db.seen || (!a.RefundReported? && a.session !in s.sessions) {
      SilentWebhook(s, a);
      hide Step;
      StaysGoesOn(s.db.regs, i);
    } else {
      hide Step;
      match a {
        case SessionCompleted(webhook, session) => PaymentGoesOn(s, webhook, session, i);
        case SessionExpired(webhook, session, now) => ExpiryGoesOn(s, webhook, session, now, i);
        case RefundReported(webhook, intent, now) => ReportGoesOn(s, webhook, intent, now, i);
      }
    }
  }

  lemma StaysGoesOn(regs: seq<Reg>, i: nat)
    requires i < |regs|
    ensures GoesOn(regs, regs, i)
  {
  }

  lemma SilentWebhook(s: System, a: Action)
    requires a.SessionCompleted? || a.SessionExpired? || a.RefundReported?
    requires a.webhook in s.db.seen || (!a.RefundReported? && a.session !in s.sessions)
    ensures Step(s, a).db.regs == s.db.regs
  {
    hide FindForCheckout, BySession, ByIntent, Promote, CountOccupied, ActiveOf, FinalizeRefund;
  }

  lemma LifecycleGoesOn(db: Db, action: LifecycleAction, stripe: bool, openRounds: nat, i: nat)
    requires i < |db.regs|
    ensures GoesOn(db.regs, Transition(db, action, stripe, openRounds).0.regs, i)
  {
  }

  lemma WriteGoesOn(db: Db, id: nat, session: string, expiresAt: int, i: nat)
    requires i < |db.regs|
    ensures GoesOn(db.regs, PayWrite(db, id, session, expiresAt).regs, i)
  {
  }

  /** No row goes anywhere else, whoever acts. A removed row, in particular, stays removed or ends refunded. */
  lemma RowLife(s: System, a: Action, i: nat)
    requires SystemOk(s) && i < |s.db.regs|
    ensures GoesOn(s.db.regs, Step(s, a).db.regs, i)
  {
    hide SystemOk, Step, GoesOn;
    if a.DoRegister? || a.DoSweep? {
      JoinsAndSweepsGoOn(s, a, i);
    } else if a.DoRemove? {
      RemoveGoesOn(s, a.id, a.keepPayment, a.now, i);
    } else if a.DoDeny? {
      DenyGoesOn(s, a.id, i);
    } else if a.DoSelfCancel? {
      CancelGoesOn(s, a.user, a.now, i);
    } else if a.SessionCompleted? || a.SessionExpired? || a.RefundReported? {
      WebhooksGoOn(s, a, i);
    } else {
      RestGoesOn(s, a, i);
    }
  }

  lemma RestGoesOn(s: System, a: Action, i: nat)
    requires SystemOk(s) && i < |s.db.regs|
    requires !a.DoRegister? && !a.DoSelfCancel? && !a.DoRemove? && !a.DoDeny? && !a.DoSweep? && !a.SessionCompleted?
    requires !a.SessionExpired? && !a.RefundReported?
    ensures GoesOn(s.db.regs, Step(s, a).db.regs, i)
  {
    hide SystemOk;
    if a.FinishRefund? {
      if a.job in s.called {
        FinishOutcome(s, a.job, a.now);
        hide Step, OthersOnlyMoveUp;
        if a.job.reg != i {
          MovesUpGoesOn(s.db.event, s.db.regs, Step(s, a).db.regs, i, a.job.reg, a.now);
        }
      } else {
        hide FinalizeRefund, FinalizeEventCancelRefund;
      }
    } else if a.DoTransition? {
      LifecycleGoesOn(s.db, a.action, a.stripeConfigured, a.openRounds, i);
      hide Transition, CancelJobs, GoesOn;
    } else if a.DoUpdate? {
      UpdateKeepsRows(s, a);
      hide Step;
    } else if a.DoPayWrite? {
      WriteGoesOn(s.db, a.id, a.session, a.expiresAt, i);
      hide PayWrite;
    } else if a.OtherWebhook? {
    } else {
      StripeStepsKeepRows(s, a);
      hide Step;
    }
  }

  ghost predicate StatusIs(s: System, i: nat, status: RegStatus) {
    i < |s.db.regs| && s.db.regs[i].status == status
  }

  ghost predicate RefundedDuring(s: System, actions: seq<Action>, i: nat) {
    exists n :: 0 <= n <= |actions| && StatusIs(Run(s, actions[..n]), i, Refunded)
  }

  lemma RefundedLonger(s: System, actions: seq<Action>, i: nat)
    requires actions != [] && RefundedDuring(s, actions[..|actions| - 1], i)
    ensures RefundedDuring(s, actions, i)
  {
    hide StatusIs, Run;
    var front := actions[..|actions| - 1];
    var n :| 0 <= n <= |front| && StatusIs(Run(s, front[..n]), i, Refunded);
    assert front[..n] == actions[..n];
  }

  lemma RemovedStep(s: System, a: Action, i: nat)
    requires SystemOk(s) && StatusIs(s, i, Removed)
    ensures StatusIs(Step(s, a), i, Removed) || StatusIs(Step(s, a), i, Refunded)
  {
    hide SystemOk, Step;
    RowLife(s, a, i);
  }

  /** A removed row stays removed over any run, unless a refund has ended it in between. */
  lemma {:induction false} RemovedForGood(s: System, actions: seq<Action>, i: nat)
    requires SystemOk(s) && StatusIs(s, i, Removed)
    ensures StatusIs(Run(s, actions), i, Removed) || RefundedDuring(s, actions, i)
  {
    if actions != [] {
      var front := actions[..|actions| - 1];
      RemovedForGood(s, front, i);
      RunKeepsInvariant(s, front);
      RunLast(s, actions);
      hide SystemOk, Step, Run, StatusIs, RefundedDuring;
      if RefundedDuring(s, front, i) {
        RefundedLonger(s, actions, i);
      } else {
        RemovedStep(Run(s, front), actions[|actions| - 1], i);
        RefundedNow(s, actions, i);
      }
    }
  }

  lemma RefundedNow(s: System, actions: seq<Action>, i: nat)
    ensures StatusIs(Run(s, actions), i, Refunded) ==> RefundedDuring(s, actions, i)
  {
    hide StatusIs, Run;
    assert actions[..|actions|] == actions;
  }

  // ---------------------------------------------------------------------
  // Removed, refunded, and back: a run
  // ---------------------------------------------------------------------

  const EJECTED := Reg(7, Removed, None, None, None, None, None)
  const EJECTED_PAID := Reg(7, Removed, None, None, Some("first"), None, Some("ch"))
  const EJECTED_REFUNDED := Reg(7, Refunded, None, None, Some("first"), None, Some("ch"))

  /** Pay twice in a race, be removed, have the first payment sent back, and then the second arrives. */
  const BACK_RUN: seq<Action> :=
    [DoTransition(Publish, true, 0), DoRegister(7, 0), DoPayRead(7, 0, true), DoPayRead(7, 0, true),
     DoPayCreate(0, 1440, "first", "ch"), DoPayCreate(0, 1440, "second", "ch2"), DoRemove(0, false, 0),
     SessionCompleted("evt", "first"), StripeRefunds(LATE_REFUND), FinishRefund(LATE_REFUND, 0),
     SessionCompleted("evt2", "second")]

  const BACK_STATES: seq<System> :=
    [Quiet(Event(Draft, 10, 1, 1000, None, 0), []),
     Quiet(OPEN, []),
     Quiet(OPEN, [UNPAID]),
     Quiet(OPEN, [UNPAID]).(payReads := multiset{(0, 1440)}),
     Quiet(OPEN, [UNPAID]).(payReads := multiset{(0, 1440), (0, 1440)}),
     Quiet(OPEN, [UNPAID]).(sessions := FIRST_OPEN, payReads := multiset{(0, 1440)}, payWrites := ONE_WRITE),
     Opened([UNPAID], {}, multiset{}, multiset{}, []),
     Opened([EJECTED], {}, multiset{}, multiset{}, []),
     Opened([EJECTED_PAID], {"evt"}, multiset{LATE_REFUND}, multiset{}, []),
     Opened([EJECTED_PAID], {"evt"}, multiset{}, multiset{LATE_REFUND}, SENT_BACK),
     Opened([EJECTED_REFUNDED], {"evt"}, multiset{}, multiset{}, SENT_BACK),
     Opened([RECLAIMED], {"evt", "evt2"}, multiset{}, multiset{}, SENT_BACK)]

  lemma Ejecting()
    ensures Step(Opened([UNPAID], {}, multiset{}, multiset{}, []), DoRemove(0, false, 0))
         == Opened([EJECTED], {}, multiset{}, multiset{}, [])
  {
    NobodyToPromote(OPEN, [EJECTED], 0);
    hide Promote;
    assert [UNPAID][0 := EJECTED] == [EJECTED];
  }

  lemma PaidAfterRemoval()
    ensures CheckoutCompleted(Db(OPEN, [EJECTED], {}), "evt", "first", "ch", Some(0))
         == (Db(OPEN, [EJECTED_PAID], {"evt"}), LateRefund(0, "ch"))
  {
    assert BySession([EJECTED], "first").None? by {
      hide First;
    }
    hide First, CountOccupied, BySession, ActiveOf;
    assert |"ch"| == 2 && RecordPayment(EJECTED, "first", "ch") == EJECTED_PAID;
    assert {} + {"evt"} == {"evt"};
    assert [EJECTED][0 := EJECTED_PAID] == [EJECTED_PAID];
  }

  lemma SentBack()
    ensures Step(Opened([EJECTED], {}, multiset{}, multiset{}, []), SessionCompleted("evt", "first"))
         == Opened([EJECTED_PAID], {"evt"}, multiset{LATE_REFUND}, multiset{}, [])
    ensures Step(Opened([EJECTED_PAID], {"evt"}, multiset{LATE_REFUND}, multiset{}, []), StripeRefunds(LATE_REFUND))
         == Opened([EJECTED_PAID], {"evt"}, multiset{}, multiset{LATE_REFUND}, SENT_BACK)
    ensures Step(Opened([EJECTED_PAID], {"evt"}, multiset{}, multiset{LATE_REFUND}, SENT_BACK),
                 FinishRefund(LATE_REFUND, 0))
         == Opened([EJECTED_REFUNDED], {"evt"}, multiset{}, multiset{}, SENT_BACK)
  {
    PaidAfterRemoval();
    hide CheckoutCompleted, Promote;
    assert |"first"| == 5 && |"second"| == 6;
    assert [EJECTED_PAID][0 := EJECTED_REFUNDED] == [EJECTED_REFUNDED];
  }

  lemma ReclaimedAfterRefund()
    ensures CheckoutCompleted(Db(OPEN, [EJECTED_REFUNDED], {"evt"}), "evt2", "second", "ch2", Some(0))
         == (Db(OPEN, [RECLAIMED], {"evt", "evt2"}), Nothing)
  {
    assert |"first"| == 5 && |"second"| == 6 && |"evt"| == 3 && |"evt2"| == 4;
    assert BySession([EJECTED_REFUNDED], "second").None? by {
      hide First;
    }
    var recorded := RecordPayment(EJECTED_REFUNDED, "second", "ch2");
    Counts(recorded, recorded);
    assert ActiveOf([recorded], 7).None? by {
      hide First;
    }
    hide First, CountOccupied, BySession, ActiveOf;
    assert [EJECTED_REFUNDED][0 := recorded] == [recorded];
    assert [EJECTED_REFUNDED][0 := RECLAIMED] == [RECLAIMED];
    assert {"evt"} + {"evt2"} == {"evt", "evt2"};
  }

  lemma BackAgain()
    ensures Step(Opened([EJECTED_REFUNDED], {"evt"}, multiset{}, multiset{}, SENT_BACK),
                 SessionCompleted("evt2", "second"))
         == Opened([RECLAIMED], {"evt", "evt2"}, multiset{}, multiset{}, SENT_BACK)
  {
    ReclaimedAfterRefund();
    hide CheckoutCompleted;
    assert |"first"| == 5 && |"second"| == 6;
  }

  lemma BackSteps()
    ensures forall i :: 0 <= i < |BACK_RUN| ==> Step(BACK_STATES[i], BACK_RUN[i]) == BACK_STATES[i + 1]
  {
    hide Step;
    Steps1To4();
    Steps5To6();
    Ejecting();
    SentBack();
    BackAgain();
    hide Quiet, Opened;
    forall i | 0 <= i < |BACK_RUN| ensures Step(BACK_STATES[i], BACK_RUN[i]) == BACK_STATES[i + 1] {
    }
  }

  lemma {:induction false} BackPrefix(n: nat)
    requires n <= 11
    ensures Run(BACK_STATES[0], BACK_RUN[..n]) == BACK_STATES[n]
  {
    BackSteps();
    hide Step, Run, Quiet, Opened;
    RunThrough(BACK_STATES[..n + 1], BACK_RUN[..n]);
  }

  /** From a fresh event, a removed participant whose first payment was sent back is reinstated by a second one. */
  lemma RemovedAndReinstated()
    ensures var s0 := Quiet(Event(Draft, 10, 1, 1000, None, 0), []);
            && Initial(s0)
            && StatusIs(Run(s0, BACK_RUN[..7]), 0, Removed)
            && StatusIs(Run(s0, BACK_RUN[..10]), 0, Refunded)
            && StatusIs(Run(s0, BACK_RUN[..11]), 0, Paid) && BACK_RUN[..11] == BACK_RUN
  {
    BackPrefix(7);
    BackPrefix(10);
    BackPrefix(11);
    hide Run;
  }
}
