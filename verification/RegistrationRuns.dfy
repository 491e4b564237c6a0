/**
 The whole protocol around one event: transactions, Pay's unlocked read and
 write, two-phase refunds and Stripe's webhooks, interleaved in any order.
 */
module RegistrationRuns {
  import opened Wrappers
  import opened RegistrationRows
  import opened RegistrationInvariant
  import opened RegistrationSteps

  /** A checkout session Pay created: the registration it names and the charge it makes. */
  datatype Session = Session(reg: nat, intent: string)

  /** Why a refund call is made, which decides what happens after it. */
  datatype RefundKind = Single | EventCancel | Duplicate

  datatype Job = Job(kind: RefundKind, reg: nat, intent: string)

  /** The database, Stripe's side, and every service call that is between two of its steps. */
  datatype System = System(
    db: Db,
    sessions: map<string, Session>,
    payReads: multiset<(nat, int)>,
    payWrites: multiset<(nat, string, int)>,
    queued: multiset<Job>,
    called: multiset<Job>,
    refundCalls: seq<Job>)

  datatype Action =
    | DoRegister(user: int, now: int)
    | DoSelfCancel(user: int, now: int)
    | DoOrganizerRefund(id: nat)
    | DoRemove(id: nat, keepPayment: bool, now: int)
    | DoDeny(id: nat)
    | DoSweep(now: int)
    | DoTransition(action: LifecycleAction, stripeConfigured: bool, openRounds: nat)
    | DoUpdate(fee: Option<nat>, max: Option<nat>, startsAt: Option<int>, deadline: Option<int>,
               stripeConfigured: bool, scheduleValid: bool)
    | DoPayRead(user: int, now: int, stripeConfigured: bool)
    | DoPayCreate(id: nat, expiresAt: int, session: string, intent: string)
    | DoPayWrite(id: nat, session: string, expiresAt: int)
    | StripeRefunds(job: Job)
    | StripeRefuses(job: Job)
    | FinishRefund(job: Job, now: int)
    | FinishFails(job: Job)
    | SessionCompleted(webhook: string, session: string)
    | SessionExpired(webhook: string, session: string, now: int)
    | RefundReported(webhook: string, intent: string, now: int)
    | OtherWebhook(webhook: string)

  /** One refund per row that still holds money when the event is called off. */
  function CancelJobs(regs: seq<Reg>): multiset<Job> {
    if regs == [] then multiset{}
    else
      var n := |regs| - 1;
      CancelJobs(regs[..n])
      + if NeedsCancelRefund(regs[n]) then multiset{Job(EventCancel, n, regs[n].intent.value)} else multiset{}
  }

  function AfterCompletion(id: Aftermath): multiset<Job> {
    match id
    case Nothing => multiset{}
    case LateRefund(reg, intent) => multiset{Job(Single, reg, intent)}
    case DuplicateRefund(reg, intent) => multiset{Job(Duplicate, reg, intent)}
  }

  /** A step that is not enabled changes nothing. */
  function Step(s: System, a: Action): System {
    match a
    case DoRegister(user, now) => s.(db := Register(s.db, user, now).0)
    case DoSelfCancel(user, now) =>
      var (db', r) := CancelRegistration(s.db, user, now);
      s.(db := db',
         queued := s.queued
                   + if r.Ok? && r.value.Some? then multiset{Job(Single, r.value.value.0, r.value.value.1)}
                     else multiset{})
    case DoOrganizerRefund(id) =>
      var r := OrganizerRefund(s.db, id);
      s.(queued := s.queued + if r.Ok? then multiset{Job(Single, id, r.value)} else multiset{})
    case DoRemove(id, keepPayment, now) => s.(db := RemoveRegistration(s.db, id, keepPayment, now).0)
    case DoDeny(id) => s.(db := DenyRefund(s.db, id).0)
    case DoSweep(now) => s.(db := ExpireAndPromote(s.db, now))
    case DoTransition(action, stripeConfigured, openRounds) =>
      var (db', e) := Transition(s.db, action, stripeConfigured, openRounds);
      s.(db := db', queued := s.queued + if e.None? && action == CallOff then CancelJobs(s.db.regs) else multiset{})
    case DoUpdate(fee, max, startsAt, deadline, stripeConfigured, scheduleValid) =>
      s.(db := UpdateEvent(s.db, fee, max, startsAt, deadline, stripeConfigured, scheduleValid).0)
    case DoPayRead(user, now, stripeConfigured) =>
      var r := PayRead(s.db, user, now, stripeConfigured);
      s.(payReads := s.payReads
                     + if r.Ok? && r.value.CreateSession? then multiset{(r.value.id, r.value.expiresAt)}
                       else multiset{})
    case DoPayCreate(id, expiresAt, session, intent) =>
      if (id, expiresAt) in s.payReads && FreshSession(s.sessions, session, intent) then
        s.(sessions := s.sessions[session := Session(id, intent)],
           payReads := s.payReads - multiset{(id, expiresAt)},
           payWrites := s.payWrites + multiset{(id, session, expiresAt)})
      else s
    case DoPayWrite(id, session, expiresAt) =>
      if (id, session, expiresAt) in s.payWrites then
        s.(db := PayWrite(s.db, id, session, expiresAt), payWrites := s.payWrites - multiset{(id, session, expiresAt)})
      else s
    case StripeRefunds(job) =>
      if job in s.queued then
        s.(queued := s.queued - multiset{job},
           called := s.called + if job.kind == Duplicate then multiset{} else multiset{job},
           refundCalls := s.refundCalls + [job])
      else s
    case StripeRefuses(job) => s.(queued := s.queued - multiset{job})
    case FinishRefund(job, now) =>
      if job in s.called then
        s.(called := s.called - multiset{job},
           db := if job.kind == EventCancel then FinalizeEventCancelRefund(s.db, job.reg)
               else FinalizeRefund(s.db, job.reg, now))
      else s
    case FinishFails(job) => s.(called := s.called - multiset{job})
    case SessionCompleted(webhook, session) =>
      if session in s.sessions then
        var paid := s.sessions[session];
        var (db', aftermath) := CheckoutCompleted(s.db, webhook, session, paid.intent, Some(paid.reg));
        s.(db := db', queued := s.queued + AfterCompletion(aftermath))
      else s
    case SessionExpired(webhook, session, now) =>
      if session in s.sessions then s.(db := CheckoutExpired(s.db, webhook, session, now)) else s
    case RefundReported(webhook, intent, now) => s.(db := ChargeRefunded(s.db, webhook, intent, now))
    case OtherWebhook(webhook) => s.(db := s.db.(seen := s.db.seen + {webhook}))
  }

  /** Stripe hands out session and charge ids once. */
  predicate FreshSession(sessions: map<string, Session>, session: string, intent: string) {
    session !in sessions && intent != "" && forall k :: k in sessions ==> sessions[k].intent != intent
  }

  function Run(s: System, actions: seq<Action>): System {
    if actions == [] then s
    else Step(Run(s, actions[..|actions| - 1]), actions[|actions| - 1])
  }

  /** A newly created draft. */
  ghost predicate Initial(s: System) {
    && s.db.event.status == Draft && s.db.regs == []
    && s.sessions == map[] && s.payReads == multiset{} && s.payWrites == multiset{}
    && s.queued == multiset{} && s.called == multiset{} && s.refundCalls == []
  }

  // ---------------------------------------------------------------------
  // Stripe's side of the invariant
  // ---------------------------------------------------------------------

  /** A row someone once started to pay for: it exists, is not waiting, and the event charges. */
  ghost predicate Payable(db: Db, id: nat) {
    id < |db.regs| && !Waiting(db.regs[id]) && db.event.feeCents > 0
  }

  ghost predicate IntentBelongs(sessions: map<string, Session>, id: nat, intent: string) {
    exists k :: k in sessions && sessions[k] == Session(id, intent)
  }

  ghost predicate SessionsOk(db: Db, sessions: map<string, Session>) {
    && (forall k :: k in sessions ==> Payable(db, sessions[k].reg) && sessions[k].intent != "")
    && (forall k, l :: k in sessions && l in sessions && sessions[k].intent == sessions[l].intent ==> k == l)
  }

  /** A row's session and charge are ones Pay created for that very row. */
  ghost predicate RowLinks(r: Reg, id: nat, sessions: map<string, Session>) {
    && (r.session.Some? ==> r.session.value in sessions && sessions[r.session.value].reg == id)
    && (r.intent.Some? ==> IntentBelongs(sessions, id, r.intent.value))
  }

  ghost predicate LinksOk(regs: seq<Reg>, sessions: map<string, Session>) {
    forall i :: 0 <= i < |regs| ==> RowLinks(regs[i], i, sessions)
  }

  ghost predicate PayOk(db: Db, sessions: map<string, Session>, begun: multiset<(nat, int)>,
                        writes: multiset<(nat, string, int)>) {
    && (forall p :: p in begun ==> Payable(db, p.0))
    && (forall p :: p in writes ==> p.1 in sessions && sessions[p.1].reg == p.0)
  }

  /** Money is only ever sent back for a charge made for the very row the refund is about. */
  ghost predicate JobOk(db: Db, sessions: map<string, Session>, job: Job) {
    && IntentBelongs(sessions, job.reg, job.intent)
    && (job.kind == EventCancel ==> db.event.status == CalledOff)
  }

  ghost predicate RefundsOk(db: Db, sessions: map<string, Session>, queued: multiset<Job>, called: multiset<Job>,
                            refundCalls: seq<Job>) {
    && (forall j :: j in queued || j in called ==> JobOk(db, sessions, j))
    && (forall i :: 0 <= i < |refundCalls| ==> IntentBelongs(sessions, refundCalls[i].reg, refundCalls[i].intent))
  }

  ghost predicate SystemOk(s: System) {
    && DbOk(s.db)
    && SessionsOk(s.db, s.sessions)
    && LinksOk(s.db.regs, s.sessions)
    && PayOk(s.db, s.sessions, s.payReads, s.payWrites)
    && RefundsOk(s.db, s.sessions, s.queued, s.called, s.refundCalls)
  }

  // ---------------------------------------------------------------------
  // Frames
  // ---------------------------------------------------------------------

  lemma PayableStays(db: Db, db': Db, id: nat)
    requires DbOk(db) && Evolves(db, db') && Payable(db, id)
    ensures Payable(db', id)
  {
    assert RowEvolves(db.event, db.regs[id], db'.regs[id]);
  }

  lemma LinksStay(before: seq<Reg>, after: seq<Reg>, sessions: map<string, Session>)
    requires LinksOk(before, sessions) && KeepsPayments(before, after)
    ensures LinksOk(after, sessions)
  {
    forall i | 0 <= i < |after| ensures RowLinks(after[i], i, sessions) {
      if i < |before| {
        assert RowLinks(before[i], i, sessions) && SamePayments(before[i], after[i]);
      }
    }
  }

  /** The database moves on while Stripe's side and the calls in flight stay, but for newly queued refunds. */
  lemma DbMoves(s: System, s': System)
    requires SystemOk(s) && DbOk(s'.db) && Evolves(s.db, s'.db)
    requires LinksOk(s'.db.regs, s.sessions)
    requires s'.sessions == s.sessions && s'.payReads == s.payReads && s'.payWrites <= s.payWrites
    requires s'.called <= s.called && s'.refundCalls == s.refundCalls
    requires forall j :: j in s'.queued ==> j in s.queued || JobOk(s'.db, s'.sessions, j)
    ensures SystemOk(s')
  {
    hide DbOk, Evolves, LinksOk, IntentBelongs;
    forall k | k in s.sessions ensures Payable(s'.db, s.sessions[k].reg) {
      PayableStays(s.db, s'.db, s.sessions[k].reg);
    }
    forall p | p in s.payReads ensures Payable(s'.db, p.0) {
      PayableStays(s.db, s'.db, p.0);
    }
    forall j | j in s'.queued || j in s'.called ensures JobOk(s'.db, s'.sessions, j) {
      if !(j in s'.queued && JobOk(s'.db, s'.sessions, j)) {
        assert j in s.queued || j in s.called;
        assert JobOk(s.db, s.sessions, j);
        CalledOffStays(s.db, s'.db);
      }
    }
  }

  lemma CalledOffStays(db: Db, db': Db)
    requires Evolves(db, db')
    ensures db.event.status == CalledOff ==> db'.event.status == CalledOff
  {
  }

  // ---------------------------------------------------------------------
  // Steps
  // ---------------------------------------------------------------------

  /** One transaction that leaves payment data and the calls in flight alone. */
  lemma PlainStep(s: System, s': System)
    requires SystemOk(s) && Safe(s.db, s'.db)
    requires s' == s.(db := s'.db, called := s'.called) && s'.called <= s.called
    ensures SystemOk(s') && Evolves(s.db, s'.db)
  {
    LinksStay(s.db.regs, s'.db.regs, s.sessions);
    hide DbOk, Evolves, LinksOk, SessionsOk, PayOk, JobOk;
    DbMoves(s, s');
  }

  lemma FinishStep(s: System, job: Job, now: int)
    requires SystemOk(s)
    ensures var s' := Step(s, FinishRefund(job, now)); SystemOk(s') && Evolves(s.db, s'.db)
  {
    var s' := Step(s, FinishRefund(job, now));
    FinishIs(s, job, now);
    NothingHappens(s.db);
    FinalizeRefundIsSafe(s.db, job.reg, now);
    if job in s.called && job.kind == EventCancel {
      assert JobOk(s.db, s.sessions, job);
      FinalizeEventCancelIsSafe(s.db, job.reg);
    }
    hide SystemOk, Safe, Evolves, DbOk, FinalizeRefund, FinalizeEventCancelRefund, Step;
    PlainStep(s, s');
  }

  lemma FinishIs(s: System, job: Job, now: int)
    ensures Step(s, FinishRefund(job, now)) ==
            if job in s.called then
              s.(called := s.called - multiset{job},
                 db := if job.kind == EventCancel then FinalizeEventCancelRefund(s.db, job.reg)
                       else FinalizeRefund(s.db, job.reg, now))
            else s
  {
    hide FinalizeRefund, FinalizeEventCancelRefund;
  }

  /** One transaction, and the refunds it asks for. */
  lemma QueueStep(s: System, s': System, extra: multiset<Job>)
    requires SystemOk(s) && DbOk(s'.db) && Evolves(s.db, s'.db) && LinksOk(s'.db.regs, s.sessions)
    requires s' == s.(db := s'.db, queued := s.queued + extra)
    requires forall j :: j in extra ==> JobOk(s'.db, s.sessions, j)
    ensures SystemOk(s')
  {
    hide DbOk, Evolves, LinksOk, SessionsOk, PayOk, JobOk;
    DbMoves(s, s');
  }

  lemma RowIntentBelongs(s: System, id: nat)
    requires SystemOk(s) && id < |s.db.regs| && s.db.regs[id].intent.Some?
    ensures IntentBelongs(s.sessions, id, s.db.regs[id].intent.value)
  {
    assert RowLinks(s.db.regs[id], id, s.sessions);
  }

  lemma {:induction false} CancelJobsAre(regs: seq<Reg>, j: Job)
    requires j in CancelJobs(regs)
    ensures j.reg < |regs| && NeedsCancelRefund(regs[j.reg])
    ensures j == Job(EventCancel, j.reg, regs[j.reg].intent.value)
  {
    var n := |regs| - 1;
    if j in CancelJobs(regs[..n]) {
      CancelJobsAre(regs[..n], j);
    }
  }

  lemma SelfCancelStep(s: System, user: int, now: int)
    requires SystemOk(s)
    ensures var s' := Step(s, DoSelfCancel(user, now)); SystemOk(s') && Evolves(s.db, s'.db)
  {
    CancelRegistrationIsSafe(s.db, user, now);
    var (db', r) := CancelRegistration(s.db, user, now);
    var extra := multiset{};
    if r.Ok? && r.value.Some? {
      RefundsItsOwnIntent(s.db, user, now);
      RowIntentBelongs(s, r.value.value.0);
      extra := multiset{Job(Single, r.value.value.0, r.value.value.1)};
    }
    LinksStay(s.db.regs, Step(s, DoSelfCancel(user, now)).db.regs, s.sessions);
    hide SystemOk, DbOk, Evolves, LinksOk, JobOk, CancelRegistration;
    QueueStep(s, Step(s, DoSelfCancel(user, now)), extra);
  }

  lemma RefundsItsOwnIntent(db: Db, user: int, now: int)
    requires var r := CancelRegistration(db, user, now).1; r.Ok? && r.value.Some?
    ensures var (id, intent) := CancelRegistration(db, user, now).1.value.value;
            id < |db.regs| && db.regs[id].intent == Some(intent)
  {
  }

  lemma OrganizerRefundStep(s: System, id: nat)
    requires SystemOk(s)
    ensures var s' := Step(s, DoOrganizerRefund(id)); SystemOk(s') && Evolves(s.db, s'.db)
  {
    NothingHappens(s.db);
    if OrganizerRefund(s.db, id).Ok? {
      RowIntentBelongs(s, id);
    }
    hide DbOk, Evolves, LinksOk, IntentBelongs, SessionsOk, PayOk;
    DbMoves(s, Step(s, DoOrganizerRefund(id)));
  }

  lemma TransitionStep(s: System, action: LifecycleAction, stripe: bool, openRounds: nat)
    requires SystemOk(s)
    ensures var s' := Step(s, DoTransition(action, stripe, openRounds)); SystemOk(s') && Evolves(s.db, s'.db)
  {
    var a := DoTransition(action, stripe, openRounds);
    var s' := Step(s, a);
    TransitionIsSafe(s.db, action, stripe, openRounds);
    var extra := if Transition(s.db, action, stripe, openRounds).1.None? && action == CallOff
                 then CancelJobs(s.db.regs) else multiset{};
    CancelJobsOk(s, action, stripe, openRounds);
    LinksStay(s.db.regs, s'.db.regs, s.sessions);
    hide SystemOk, DbOk, Evolves, LinksOk, Transition, CancelJobs, JobOk;
    QueueStep(s, s', extra);
  }

  lemma CancelJobsOk(s: System, action: LifecycleAction, stripe: bool, openRounds: nat)
    requires SystemOk(s)
    ensures var (db', e) := Transition(s.db, action, stripe, openRounds);
            e.None? && action == CallOff ==> forall j :: j in CancelJobs(s.db.regs) ==> JobOk(db', s.sessions, j)
  {
    forall j | j in CancelJobs(s.db.regs) ensures j.kind == EventCancel && IntentBelongs(s.sessions, j.reg, j.intent) {
      CancelJobsAre(s.db.regs, j);
      RowIntentBelongs(s, j.reg);
    }
  }

  lemma PayReadFindsPayable(db: Db, user: int, now: int, stripe: bool)
    requires DbOk(db) && PayRead(db, user, now, stripe).Ok? && PayRead(db, user, now, stripe).value.CreateSession?
    ensures Payable(db, PayRead(db, user, now, stripe).value.id)
  {
    ActiveOfIs(db.regs, user);
    assert RowOk(db.event, db.regs[ActiveOf(db.regs, user).value]);
  }

  lemma PayReadStep(s: System, user: int, now: int, stripe: bool)
    requires SystemOk(s)
    ensures var s' := Step(s, DoPayRead(user, now, stripe)); SystemOk(s') && Evolves(s.db, s'.db)
  {
    NothingHappens(s.db);
    var r := PayRead(s.db, user, now, stripe);
    if r.Ok? && r.value.CreateSession? {
      PayReadFindsPayable(s.db, user, now, stripe);
      OneReadMore(s.db, s.sessions, s.payReads, s.payWrites, (r.value.id, r.value.expiresAt));
    }
    hide DbOk, Evolves, LinksOk, SessionsOk, RefundsOk, PayOk, PayRead, Payable;
    assert s.payReads + multiset{} == s.payReads;
    PayReadMoves(s, user, now, stripe);
    hide Step;
  }

  lemma PayReadMoves(s: System, user: int, now: int, stripe: bool)
    ensures var r := PayRead(s.db, user, now, stripe);
            Step(s, DoPayRead(user, now, stripe))
            == s.(payReads := s.payReads + if r.Ok? && r.value.CreateSession?
                                           then multiset{(r.value.id, r.value.expiresAt)} else multiset{})
  {
    hide PayRead;
  }

  lemma OneReadMore(db: Db, sessions: map<string, Session>, begun: multiset<(nat, int)>,
                    writes: multiset<(nat, string, int)>, read: (nat, int))
    requires PayOk(db, sessions, begun, writes) && Payable(db, read.0)
    ensures PayOk(db, sessions, begun + multiset{read}, writes)
  {
    hide Payable;
  }

  /** A new session only adds to what is known. */
  lemma PayCreateStep(s: System, id: nat, expiresAt: int, session: string, intent: string)
    requires SystemOk(s)
    ensures var s' := Step(s, DoPayCreate(id, expiresAt, session, intent)); SystemOk(s') && Evolves(s.db, s'.db)
  {
    NothingHappens(s.db);
    var s' := Step(s, DoPayCreate(id, expiresAt, session, intent));
    if s' != s {
      assert Payable(s.db, id) by { assert (id, expiresAt) in s.payReads; }
      NewSessionOk(s.db, s.sessions, session, Session(id, intent));
      NewSessionKeepsLinks(s.db.regs, s.sessions, session, Session(id, intent));
      NewSessionKeepsRefunds(s, session, Session(id, intent));
      PayAfterCreate(s.db, s.sessions, s.payReads, s.payWrites, (id, expiresAt), (id, session, expiresAt),
                     Session(id, intent));
    }
  }

  lemma NewSessionKeepsLinks(regs: seq<Reg>, sessions: map<string, Session>, key: string, session: Session)
    requires LinksOk(regs, sessions) && key !in sessions
    ensures LinksOk(regs, sessions[key := session])
  {
    forall i | 0 <= i < |regs| ensures RowLinks(regs[i], i, sessions[key := session]) {
      assert RowLinks(regs[i], i, sessions);
      if regs[i].intent.Some? {
        var k :| k in sessions && sessions[k] == Session(i, regs[i].intent.value);
        assert sessions[key := session][k] == sessions[k];
      }
    }
  }

  lemma NewSessionKeepsRefunds(s: System, key: string, session: Session)
    requires RefundsOk(s.db, s.sessions, s.queued, s.called, s.refundCalls) && key !in s.sessions
    ensures RefundsOk(s.db, s.sessions[key := session], s.queued, s.called, s.refundCalls)
  {
    var sessions' := s.sessions[key := session];
    forall id, intent | IntentBelongs(s.sessions, id, intent) ensures IntentBelongs(sessions', id, intent) {
      var k :| k in s.sessions && s.sessions[k] == Session(id, intent);
      assert sessions'[k] == Session(id, intent);
    }
    hide IntentBelongs;
    forall j | j in s.queued || j in s.called ensures JobOk(s.db, sessions', j) {
      assert JobOk(s.db, s.sessions, j);
    }
  }

  lemma NewSessionOk(db: Db, sessions: map<string, Session>, key: string, session: Session)
    requires SessionsOk(db, sessions) && FreshSession(sessions, key, session.intent) && Payable(db, session.reg)
    ensures SessionsOk(db, sessions[key := session])
  {
  }

  lemma PayAfterCreate(db: Db, sessions: map<string, Session>, begun: multiset<(nat, int)>,
                       writes: multiset<(nat, string, int)>, read: (nat, int), write: (nat, string, int),
                       session: Session)
    requires PayOk(db, sessions, begun, writes) && write.1 !in sessions && write.0 == session.reg
    ensures PayOk(db, sessions[write.1 := session], begun - multiset{read}, writes + multiset{write})
  {
    assert forall p :: p in writes + multiset{write} ==> p in writes || p == write;
  }

  lemma PayWriteKeepsLinks(db: Db, sessions: map<string, Session>, id: nat, session: string, expiresAt: int)
    requires LinksOk(db.regs, sessions) && session in sessions && sessions[session].reg == id
    ensures LinksOk(PayWrite(db, id, session, expiresAt).regs, sessions)
  {
    var after := PayWrite(db, id, session, expiresAt).regs;
    forall i | 0 <= i < |after| ensures RowLinks(after[i], i, sessions) {
      assert RowLinks(db.regs[i], i, sessions);
    }
  }

  lemma PayWriteStep(s: System, id: nat, session: string, expiresAt: int)
    requires SystemOk(s)
    ensures var s' := Step(s, DoPayWrite(id, session, expiresAt)); SystemOk(s') && Evolves(s.db, s'.db)
  {
    NothingHappens(s.db);
    var s' := Step(s, DoPayWrite(id, session, expiresAt));
    if (id, session, expiresAt) in s.payWrites {
      assert session in s.sessions && s.sessions[session].reg == id;
      assert Payable(s.db, id);
      PayWriteIsSafe(s.db, id, session, expiresAt);
      PayWriteKeepsLinks(s.db, s.sessions, id, session, expiresAt);
      hide DbOk, Evolves, LinksOk, SessionsOk, PayOk, RefundsOk, PayWrite;
      DbMoves(s, s');
    }
  }

  lemma StripeStep(s: System, a: Action)
    requires SystemOk(s)
    requires a.StripeRefunds? || a.StripeRefuses? || a.FinishFails?
    ensures SystemOk(Step(s, a)) && Evolves(s.db, Step(s, a).db)
  {
    NothingHappens(s.db);
    RefundsMove(s, a.job);
    hide DbOk, Evolves, LinksOk, SessionsOk, PayOk, RefundsOk;
    assert s.called + multiset{} == s.called;
    StripeMoves(s, a);
    hide Step;
  }

  /** Stripe's answer only moves a job along. */
  lemma StripeMoves(s: System, a: Action)
    requires a.StripeRefunds? || a.StripeRefuses? || a.FinishFails?
    ensures var s', job := Step(s, a), a.job;
            || s' == s
            || s' == s.(queued := s.queued - multiset{job})
            || s' == s.(called := s.called - multiset{job})
            || (job in s.queued
                && s' == s.(queued := s.queued - multiset{job}, called := s.called + multiset{job},
                            refundCalls := s.refundCalls + [job]))
            || (job in s.queued
                && s' == s.(queued := s.queued - multiset{job}, called := s.called + multiset{},
                            refundCalls := s.refundCalls + [job]))
  {
    hide Register, CancelRegistration, OrganizerRefund, RemoveRegistration, DenyRefund, ExpireAndPromote, Transition,
         UpdateEvent, PayRead, PayWrite, FinalizeRefund, FinalizeEventCancelRefund, CheckoutCompleted, CheckoutExpired,
         ChargeRefunded, CancelJobs, FreshSession;
  }

  /** A job may move from one phase to the next, or be dropped. */
  lemma RefundsMove(s: System, job: Job)
    requires RefundsOk(s.db, s.sessions, s.queued, s.called, s.refundCalls)
    ensures RefundsOk(s.db, s.sessions, s.queued - multiset{job}, s.called, s.refundCalls)
    ensures RefundsOk(s.db, s.sessions, s.queued, s.called - multiset{job}, s.refundCalls)
    ensures job in s.queued ==>
              var calls := s.refundCalls + [job];
              && RefundsOk(s.db, s.sessions, s.queued - multiset{job}, s.called + multiset{job}, calls)
              && RefundsOk(s.db, s.sessions, s.queued - multiset{job}, s.called + multiset{}, calls)
  {
    hide JobOk, IntentBelongs;
    if job in s.queued {
      assert JobOk(s.db, s.sessions, job);
      JobIntentBelongs(s.db, s.sessions, job);
    }
  }

  lemma JobIntentBelongs(db: Db, sessions: map<string, Session>, job: Job)
    requires JobOk(db, sessions, job)
    ensures IntentBelongs(sessions, job.reg, job.intent)
  {
  }

  /** The row a session's completion is applied to is the row Pay created it for. */
  lemma CompletionFindsItsRow(s: System, session: string)
    requires SystemOk(s) && session in s.sessions
    ensures var id := s.sessions[session].reg;
            FindForCheckout(s.db.regs, session, Some(id)) == Some(id) && Payable(s.db, id)
  {
    var id := s.sessions[session].reg;
    assert Payable(s.db, id);
    var matches := (r: Reg) => r.session == Some(session);
    var stored := First(s.db.regs, matches);
    if stored.Some? {
      assert RowLinks(s.db.regs[stored.value], stored.value, s.sessions);
    }
  }

  lemma CompletionKeepsLinks(s: System, webhook: string, session: string)
    requires SystemOk(s) && session in s.sessions
    ensures var paid := s.sessions[session];
            LinksOk(CheckoutCompleted(s.db, webhook, session, paid.intent, Some(paid.reg)).0.regs, s.sessions)
  {
    var paid := s.sessions[session];
    CompletionFindsItsRow(s, session);
    CompletionRewritesOneRow(s.db, webhook, session, paid.intent, paid.reg);
    var db' := CheckoutCompleted(s.db, webhook, session, paid.intent, Some(paid.reg)).0;
    hide CheckoutCompleted, FindForCheckout, CompletedRow;
    if db'.regs != s.db.regs {
      CompletedLinks(s, session, db'.regs[paid.reg]);
      hide RowLinks;
    }
  }

  /** A completion points its row at the session and at nothing else. */
  lemma CompletedLinks(s: System, session: string, r: Reg)
    requires SystemOk(s) && session in s.sessions && s.sessions[session].reg < |s.db.regs|
    requires CompletedRow(s.db, session, s.sessions[session].intent, s.sessions[session].reg, r)
    ensures RowLinks(r, s.sessions[session].reg, s.sessions)
  {
    var paid := s.sessions[session];
    assert RowLinks(s.db.regs[paid.reg], paid.reg, s.sessions);
    assert IntentBelongs(s.sessions, paid.reg, paid.intent);
    hide SystemOk, CountOccupied, ActiveOf, IntentBelongs;
  }

  /** A completion only ever asks for refunds of the charge it reports. */
  lemma CompletionQueues(s: System, webhook: string, session: string)
    requires SystemOk(s) && session in s.sessions
    ensures var paid := s.sessions[session];
            var (db', aftermath) := CheckoutCompleted(s.db, webhook, session, paid.intent, Some(paid.reg));
            forall j :: j in AfterCompletion(aftermath) ==> JobOk(db', s.sessions, j)
  {
    var paid := s.sessions[session];
    CompletionFindsItsRow(s, session);
    assert IntentBelongs(s.sessions, paid.reg, paid.intent);
  }

  lemma CompletedStep(s: System, webhook: string, session: string)
    requires session in s.sessions
    ensures var paid := s.sessions[session];
            var (db', aftermath) := CheckoutCompleted(s.db, webhook, session, paid.intent, Some(paid.reg));
            Step(s, SessionCompleted(webhook, session))
            == s.(db := db', queued := s.queued + AfterCompletion(aftermath))
  {
    hide CheckoutCompleted;
  }

  lemma CompletionStep(s: System, webhook: string, session: string)
    requires SystemOk(s)
    ensures var s' := Step(s, SessionCompleted(webhook, session)); SystemOk(s') && Evolves(s.db, s'.db)
  {
    NothingHappens(s.db);
    var s' := Step(s, SessionCompleted(webhook, session));
    if session in s.sessions {
      var paid := s.sessions[session];
      CompletionFindsItsRow(s, session);
      CompletionIsSafe(s.db, webhook, session, paid.intent, paid.reg);
      CompletionKeepsLinks(s, webhook, session);
      CompletionQueues(s, webhook, session);
      hide SystemOk, DbOk, Evolves, LinksOk, JobOk, CheckoutCompleted, AfterCompletion;
      QueueStep(s, s', AfterCompletion(CheckoutCompleted(s.db, webhook, session, paid.intent, Some(paid.reg)).1));
    }
  }

  lemma TransactionStep(s: System, a: Action)
    requires SystemOk(s)
    requires a.DoRegister? || a.DoRemove? || a.DoDeny? || a.DoSweep? || a.DoUpdate? || a.SessionExpired?
          || a.RefundReported? || a.OtherWebhook?
    ensures SystemOk(Step(s, a)) && Evolves(s.db, Step(s, a).db)
  {
    hide DbOk, SessionsOk, LinksOk, PayOk, RefundsOk, Safe, Evolves, Register, RemoveRegistration, DenyRefund,
         ExpireAndPromote, UpdateEvent, CheckoutExpired, ChargeRefunded;
    NothingHappens(s.db);
    match a {
      case DoRegister(user, now) => RegisterIsSafe(s.db, user, now);
      case DoRemove(id, keepPayment, now) => RemoveIsSafe(s.db, id, keepPayment, now);
      case DoDeny(id) => DenyIsSafe(s.db, id);
      case DoSweep(now) => SweepIsSafe(s.db, now);
      case DoUpdate(fee, max, startsAt, deadline, stripe, valid) =>
        UpdateEventIsSafe(s.db, fee, max, startsAt, deadline, stripe, valid);
      case SessionExpired(webhook, session, now) => CheckoutExpiredIsSafe(s.db, webhook, session, now);
      case RefundReported(webhook, intent, now) => ChargeRefundedIsSafe(s.db, webhook, intent, now);
      case OtherWebhook(_) => SeenIsSafe(s.db, Step(s, a).db);
    }
    PlainStep(s, Step(s, a));
  }

  /** Every step of every participant keeps the whole invariant and moves rows only as allowed. */
  lemma StepKeepsInvariant(s: System, a: Action)
    requires SystemOk(s)
    ensures SystemOk(Step(s, a)) && Evolves(s.db, Step(s, a).db)
  {
    hide SystemOk, Evolves, Step;
    match a {
      case DoSelfCancel(user, now) => SelfCancelStep(s, user, now);
      case DoOrganizerRefund(id) => OrganizerRefundStep(s, id);
      case DoTransition(action, stripe, openRounds) => TransitionStep(s, action, stripe, openRounds);
      case DoPayRead(user, now, stripe) => PayReadStep(s, user, now, stripe);
      case DoPayCreate(id, expiresAt, session, intent) => PayCreateStep(s, id, expiresAt, session, intent);
      case DoPayWrite(id, session, expiresAt) => PayWriteStep(s, id, session, expiresAt);
      case StripeRefunds(_) => StripeStep(s, a);
      case StripeRefuses(_) => StripeStep(s, a);
      case FinishFails(_) => StripeStep(s, a);
      case SessionCompleted(webhook, session) => CompletionStep(s, webhook, session);
      case FinishRefund(job, now) => FinishStep(s, job, now);
      case _ => TransactionStep(s, a);
    }
  }

  lemma {:induction false} RunKeepsInvariant(s: System, actions: seq<Action>)
    requires SystemOk(s)
    ensures SystemOk(Run(s, actions))
  {
    if actions != [] {
      RunKeepsInvariant(s, actions[..|actions| - 1]);
      StepKeepsInvariant(Run(s, actions[..|actions| - 1]), actions[|actions| - 1]);
    }
  }
}
