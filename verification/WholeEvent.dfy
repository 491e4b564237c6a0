/**
 One event with both of its services at work: registrations, payments and
 webhooks interleaved with the tournament. The two share the event row's
 status, the roster snapshot, the finish guard and the drop that a removal makes.
 */
module WholeEvent {
  import opened Wrappers
  import opened SwissTypes
  import R = RegistrationRows
  import opened RegistrationInvariant
  import opened RegistrationSteps
  import S = RegistrationRuns
  import opened T = TournamentRounds
  import opened TournamentInvariant
  import TR = TournamentRuns

  datatype Whole = Whole(system: S.System, tournament: Option<Tournament>)

  datatype Move = Registering(step: S.Action) | Playing(action: TR.Action)

  /** What the tournament service sees. */
  function View(w: Whole): State {
    State(w.system.db.event.status, w.tournament)
  }

  /** ListPaidRegistrationUsers. */
  function PaidUsers(regs: seq<R.Reg>): seq<Id> {
    if regs == [] then []
    else
      var last := regs[|regs| - 1];
      PaidUsers(regs[..|regs| - 1]) + if last.status == R.Paid then [last.user] else []
  }

  function Users(players: seq<Entrant>): seq<Id> {
    seq(|players|, i requires 0 <= i < |players| => players[i].user)
  }

  /** The paid registrants, in any order, each with a new player id and not dropped. */
  ghost predicate Snapshot(regs: seq<R.Reg>, roster: seq<Entrant>) {
    && multiset(Users(roster)) == multiset(PaidUsers(regs))
    && FreshRoster(roster)
    && forall i :: 0 <= i < |roster| ==> roster[i].droppedAt.None?
  }

  /** Whether the action is one of the tournament service's own calls, with the roster read from the database. */
  ghost predicate OwnCall(w: Whole, a: TR.Action) {
    && !a.DoTransition? && !a.DoRemoveUser?
    && (a.DoUpsert? || a.DoPairNext? ==> Snapshot(w.system.db.regs, a.roster))
  }

  /** Finishing counts the open rounds. */
  function WithOpenRounds(w: Whole, a: S.Action): S.Action {
    if a.DoTransition? then a.(openRounds := CountOpen(View(w))) else a
  }

  /** A removal that goes through also drops the player. */
  function AfterRemoval(w: Whole, a: S.Action): Option<Tournament> {
    if a.DoRemove? && R.RemoveRegistration(w.system.db, a.id, a.keepPayment, a.now).1.Ok? then
      DropByUser(View(w), w.system.db.regs[a.id].user, a.now).tournament
    else w.tournament
  }

  ghost function Next(w: Whole, m: Move): Whole {
    match m
    case Registering(a) => Whole(S.Step(w.system, WithOpenRounds(w, a)), AfterRemoval(w, a))
    case Playing(a) => if OwnCall(w, a) then w.(tournament := TR.Step(View(w), a).tournament) else w
  }

  ghost function Run(w: Whole, moves: seq<Move>): Whole {
    if moves == [] then w else Next(Run(w, moves[..|moves| - 1]), moves[|moves| - 1])
  }

  // ---------------------------------------------------------------------
  // The event row under the registration service
  // ---------------------------------------------------------------------

  /** Only lifecycle transitions move the status, and capacity is fixed once the event has left draft. */
  lemma EventRow(s: S.System, a: S.Action)
    ensures var ev, ev' := s.db.event, S.Step(s, a).db.event;
            && (if a.DoTransition? then ev' == R.Transition(s.db, a.action, a.stripeConfigured, a.openRounds).0.event
                else ev'.status == ev.status)
            && (ev.status != R.EventStatus.Draft ==> ev'.maxParticipants == ev.maxParticipants)
  {
    if a.DoRegister? || a.DoSelfCancel? || a.DoRemove? || a.DoDeny? || a.DoSweep? {
      EventRowInCalls(s, a);
    } else if a.SessionCompleted? || a.SessionExpired? || a.RefundReported? || a.OtherWebhook? {
      EventRowInWebhooks(s, a);
    } else if a.DoTransition? || a.DoUpdate? {
      EventRowInUpdates(s, a);
    } else {
      EventRowInRefunds(s, a);
    }
  }

  ghost predicate RowKept(ev: R.Event, ev': R.Event) {
    ev' == ev.(waitlistCounter := ev'.waitlistCounter)
  }

  lemma EventRowInCalls(s: S.System, a: S.Action)
    requires a.DoRegister? || a.DoSelfCancel? || a.DoRemove? || a.DoDeny? || a.DoSweep?
    ensures RowKept(s.db.event, S.Step(s, a).db.event)
  {
    hide R.Promote, R.CountOccupied, R.MapRows, R.ActiveOf;
  }

  lemma CompletionKeepsEvent(db: R.Db, webhook: string, session: string, intent: string, ref: Option<nat>)
    ensures R.CheckoutCompleted(db, webhook, session, intent, ref).0.event == db.event
  {
    hide R.CountOccupied, R.ActiveOf, R.BySession;
  }

  lemma ExpiryKeepsEvent(db: R.Db, webhook: string, session: string, now: int)
    ensures R.CheckoutExpired(db, webhook, session, now).event == db.event
  {
    hide R.Promote, R.BySession;
  }

  lemma RefundKeepsEvent(db: R.Db, webhook: string, intent: string, now: int)
    ensures R.ChargeRefunded(db, webhook, intent, now).event == db.event
  {
    hide R.Promote, R.ByIntent;
  }

  lemma EventRowInWebhooks(s: S.System, a: S.Action)
    requires a.SessionCompleted? || a.SessionExpired? || a.RefundReported? || a.OtherWebhook?
    ensures S.Step(s, a).db.event == s.db.event
  {
    hide R.CheckoutCompleted, R.CheckoutExpired, R.ChargeRefunded, S.AfterCompletion;
    match a {
      case SessionCompleted(webhook, session) =>
        if session in s.sessions {
          CompletionKeepsEvent(s.db, webhook, session, s.sessions[session].intent, Some(s.sessions[session].reg));
        }
      case SessionExpired(webhook, session, now) => ExpiryKeepsEvent(s.db, webhook, session, now);
      case RefundReported(webhook, intent, now) => RefundKeepsEvent(s.db, webhook, intent, now);
      case OtherWebhook(_) =>
    }
  }

  lemma EventRowInUpdates(s: S.System, a: S.Action)
    requires a.DoTransition? || a.DoUpdate?
    ensures var ev, ev' := s.db.event, S.Step(s, a).db.event;
            && (if a.DoTransition? then ev' == R.Transition(s.db, a.action, a.stripeConfigured, a.openRounds).0.event
                else ev'.status == ev.status)
            && (ev.status != R.EventStatus.Draft ==> ev'.maxParticipants == ev.maxParticipants)
  {
    hide R.MapRows, S.CancelJobs;
  }

  lemma EventRowInRefunds(s: S.System, a: S.Action)
    requires !(a.DoRegister? || a.DoSelfCancel? || a.DoRemove? || a.DoDeny? || a.DoSweep?)
    requires !(a.SessionCompleted? || a.SessionExpired? || a.RefundReported? || a.OtherWebhook?)
    requires !(a.DoTransition? || a.DoUpdate?)
    ensures S.Step(s, a).db.event == s.db.event
  {
    hide R.Promote, S.FreshSession, R.ActiveOf, R.Register, R.CancelRegistration, R.RemoveRegistration, R.DenyRefund,
         R.ExpireAndPromote, R.Transition, R.UpdateEvent, R.CheckoutCompleted, R.CheckoutExpired, R.ChargeRefunded,
         S.CancelJobs, S.AfterCompletion;
  }

  /** The lifecycle goes one way, and calling off can come at any time before the end. */
  ghost predicate NextStatus(status: R.EventStatus, status': R.EventStatus) {
    || (status == R.EventStatus.Published && status' == R.EventStatus.Started)
    || (status == R.EventStatus.Started && status' == R.EventStatus.Finished)
    || ((status == R.EventStatus.Published || status == R.EventStatus.Started) && status' == R.EventStatus.CalledOff)
  }

  /**
   From publication on the terms stand, whoever acts: capacity, fee and start
   never change, the refund deadline only to what an edit sets, and the status
   only forward.
   */
  lemma TermsFixed(s: S.System, a: S.Action)
    requires s.db.event.status != R.EventStatus.Draft
    ensures var ev, ev' := s.db.event, S.Step(s, a).db.event;
            && ev'.maxParticipants == ev.maxParticipants && ev'.feeCents == ev.feeCents && ev'.startsAt == ev.startsAt
            && (ev'.refundDeadline != ev.refundDeadline ==>
                  a.DoUpdate? && a.scheduleValid && a.deadline.Some? && ev'.refundDeadline == a.deadline)
            && (ev'.status != ev.status ==> a.DoTransition? && NextStatus(ev.status, ev'.status))
  {
    if a.DoRegister? || a.DoSelfCancel? || a.DoRemove? || a.DoDeny? || a.DoSweep? {
      EventRowInCalls(s, a);
    } else if a.SessionCompleted? || a.SessionExpired? || a.RefundReported? || a.OtherWebhook? {
      EventRowInWebhooks(s, a);
    } else if a.DoTransition? || a.DoUpdate? {
      TermsInUpdates(s, a);
    } else {
      EventRowInRefunds(s, a);
    }
    hide S.Step;
  }

  lemma TermsInUpdates(s: S.System, a: S.Action)
    requires (a.DoTransition? || a.DoUpdate?) && s.db.event.status != R.EventStatus.Draft
    ensures var ev, ev' := s.db.event, S.Step(s, a).db.event;
            && ev'.maxParticipants == ev.maxParticipants && ev'.feeCents == ev.feeCents && ev'.startsAt == ev.startsAt
            && (ev'.refundDeadline != ev.refundDeadline ==>
                  a.DoUpdate? && a.scheduleValid && a.deadline.Some? && ev'.refundDeadline == a.deadline)
            && (ev'.status != ev.status ==> a.DoTransition? && NextStatus(ev.status, ev'.status))
  {
    hide R.MapRows, S.CancelJobs;
  }

  /** The tournament's state after a registration step is one it could have moved to by itself. */
  lemma ViewFollows(w: Whole, a: S.Action)
    ensures var v := View(Next(w, Registering(a)));
            || v == View(w)
            || (a.DoTransition? && v == TR.Step(View(w), TR.DoTransition(a.action)))
            || (a.DoRemove? && a.id < |w.system.db.regs|
                && v == TR.Step(View(w), TR.DoRemoveUser(w.system.db.regs[a.id].user, a.now)))
  {
    EventRow(w.system, WithOpenRounds(w, a));
    hide S.Step, R.Promote;
  }

  // ---------------------------------------------------------------------
  // The snapshot
  // ---------------------------------------------------------------------

  ghost predicate Registered(regs: seq<R.Reg>, user: Id) {
    exists i :: 0 <= i < |regs| && regs[i].user == user
  }

  ghost predicate PaidRow(regs: seq<R.Reg>, user: Id) {
    exists i :: 0 <= i < |regs| && regs[i].user == user && regs[i].status == R.Paid
  }

  lemma {:induction false} PaidUsersHavePaid(regs: seq<R.Reg>, user: Id)
    ensures user in PaidUsers(regs) <==> PaidRow(regs, user)
  {
    if regs != [] {
      var front, last := regs[..|regs| - 1], regs[|regs| - 1];
      PaidUsersHavePaid(front, user);
      if PaidRow(front, user) {
        var i :| 0 <= i < |front| && front[i].user == user && front[i].status == R.Paid;
        assert regs[i] == front[i];
      }
    }
  }

  lemma {:induction false} PaidWithinSpots(regs: seq<R.Reg>)
    ensures |PaidUsers(regs)| <= R.CountOccupied(regs)
  {
    if regs != [] {
      PaidWithinSpots(regs[..|regs| - 1]);
    }
  }

  /** At most one active row a user, so at most one paid one. */
  lemma {:induction false} PaidOnce(regs: seq<R.Reg>)
    requires OneActivePerUser(regs)
    ensures NoDuplicates(PaidUsers(regs))
  {
    if regs != [] {
      var front, last := regs[..|regs| - 1], regs[|regs| - 1];
      PaidOnce(front);
      PaidUsersHavePaid(front, last.user);
      hide PaidUsers;
      assert R.Active(last) ==> !PaidRow(front, last.user);
      OneMore(PaidUsers(front), last.user);
    }
  }

  lemma OneMore(ids: seq<Id>, id: Id)
    requires NoDuplicates(ids)
    ensures id !in ids ==> NoDuplicates(ids + [id])
  {
    assert id !in ids ==> id !in multiset(ids);
  }

  /** Nobody is on the roster twice, everyone on it registered, and they fit the event. */
  ghost predicate Seeded(w: Whole) {
    w.tournament.Some? ==>
      var players := w.tournament.value.players;
      && NoDuplicates(Users(players))
      && (forall i :: 0 <= i < |players| ==> Registered(w.system.db.regs, players[i].user))
      && |players| <= w.system.db.event.maxParticipants
  }

  ghost predicate WholeOk(w: Whole) {
    S.SystemOk(w.system) && StateOk(View(w)) && Seeded(w)
  }

  lemma SnapshotIsSeeded(w: Whole, t: Tournament)
    requires S.SystemOk(w.system) && Snapshot(w.system.db.regs, t.players)
    ensures Seeded(w.(tournament := Some(t)))
  {
    var regs := w.system.db.regs;
    PaidOnce(regs);
    PaidWithinSpots(regs);
    assert |Users(t.players)| == |multiset(Users(t.players))| == |multiset(PaidUsers(regs))| == |PaidUsers(regs)|;
    hide PaidUsers, S.SystemOk;
    assert NoDuplicates(Users(t.players));
    forall i | 0 <= i < |t.players| ensures Registered(regs, t.players[i].user) {
      assert Users(t.players)[i] in multiset(Users(t.players));
      assert t.players[i].user in PaidUsers(regs);
      PaidUsersHavePaid(regs, t.players[i].user);
    }
  }

  /** A roster only ever changes in who has dropped; rows and capacity stay. */
  lemma StaysSeeded(w: Whole, w': Whole)
    requires Seeded(w) && w.tournament.Some? && w'.tournament.Some?
    requires SameRoster(w.tournament.value.players, w'.tournament.value.players)
    requires w'.system.db.event.maxParticipants == w.system.db.event.maxParticipants
    requires |w.system.db.regs| <= |w'.system.db.regs|
    requires forall i :: 0 <= i < |w.system.db.regs| ==> w'.system.db.regs[i].user == w.system.db.regs[i].user
    ensures Seeded(w')
  {
    var players, players' := w.tournament.value.players, w'.tournament.value.players;
    assert Users(players') == Users(players);
    forall i | 0 <= i < |players'| ensures Registered(w'.system.db.regs, players'[i].user) {
      assert Registered(w.system.db.regs, players[i].user);
    }
  }

  lemma ViewKeeps(w: Whole, a: S.Action)
    requires StateOk(View(w))
    ensures var w' := Next(w, Registering(a));
            StateOk(View(w')) && TournamentInvariant.Evolves(View(w), View(w'))
  {
    var w' := Next(w, Registering(a));
    ViewFollows(w, a);
    hide StateOk, TR.Step, Next, TournamentInvariant.Evolves;
    if View(w') == View(w) {
      TR.RunKeepsInvariant(View(w), []);
      assert TR.Run(View(w), []) == View(w);
    } else if a.DoTransition? {
      TR.StepKeepsInvariant(View(w), TR.DoTransition(a.action));
    } else {
      TR.StepKeepsInvariant(View(w), TR.DoRemoveUser(w.system.db.regs[a.id].user, a.now));
    }
  }

  lemma RegisteringKeeps(w: Whole, a: S.Action)
    requires WholeOk(w)
    ensures WholeOk(Next(w, Registering(a)))
  {
    var w' := Next(w, Registering(a));
    var b := WithOpenRounds(w, a);
    ViewKeeps(w, a);
    S.StepKeepsInvariant(w.system, b);
    EventRow(w.system, b);
    RowsStay(w.system.db, w'.system.db);
    assert w.tournament.Some? <==> w'.tournament.Some?;
    hide S.SystemOk, S.Step, Seeded, TournamentOk, RoundsExtend, SameRoster, RegistrationSteps.Evolves;
    if w.tournament.Some? {
      StaysSeeded(w, w');
    } else {
      NotYetSeeded(w');
    }
  }

  lemma NotYetSeeded(w: Whole)
    requires w.tournament.None?
    ensures Seeded(w)
  {
  }

  lemma RowsStay(db: R.Db, db': R.Db)
    requires RegistrationSteps.Evolves(db, db')
    ensures |db.regs| <= |db'.regs| && forall i :: 0 <= i < |db.regs| ==> db'.regs[i].user == db.regs[i].user
  {
    forall i | 0 <= i < |db.regs| ensures db'.regs[i].user == db.regs[i].user {
      assert RowEvolves(db.event, db.regs[i], db'.regs[i]);
    }
  }

  /** A tournament appears only as a snapshot of the roster. */
  lemma CreatedFromRoster(s: State, a: TR.Action)
    requires s.tournament.None? && TR.Step(s, a).tournament.Some?
    ensures a.DoUpsert? || a.DoPairNext?
    ensures TR.Step(s, a).tournament.value.players == a.roster
  {
    hide TR.Enabled;
  }

  lemma PlayingKeeps(w: Whole, a: TR.Action)
    requires WholeOk(w)
    ensures WholeOk(Next(w, Playing(a)))
  {
    if OwnCall(w, a) {
      var w' := Next(w, Playing(a));
      TR.StepKeepsInvariant(View(w), a);
      SameEvent(View(w), a);
      hide S.SystemOk, TR.Step, Seeded, TournamentOk, RoundsExtend, SameRoster, Snapshot;
      if w.tournament.Some? {
        StaysSeeded(w, w');
      } else if w'.tournament.Some? {
        CreatedFromRoster(View(w), a);
        SnapshotIsSeeded(w, w'.tournament.value);
      } else {
        NotYetSeeded(w');
      }
    }
  }

  lemma SameEvent(s: State, a: TR.Action)
    requires !a.DoTransition?
    ensures TR.Step(s, a).event == s.event
  {
    hide TR.Enabled;
  }

  ghost predicate Initial(w: Whole) {
    S.Initial(w.system) && w.tournament.None?
  }

  /** Both services' invariants, and the snapshot's, hold along every joint run. */
  lemma {:induction false} WholeRunKeeps(w: Whole, moves: seq<Move>)
    requires Initial(w)
    ensures WholeOk(Run(w, moves))
  {
    if moves != [] {
      var before := Run(w, moves[..|moves| - 1]);
      WholeRunKeeps(w, moves[..|moves| - 1]);
      hide WholeOk, Next;
      match moves[|moves| - 1]
      case Registering(a) => RegisteringKeeps(before, a);
      case Playing(a) => PlayingKeeps(before, a);
    }
  }

  /** The tournament seats only people who registered, each once, and never more than the event has spots. */
  lemma RosterFitsTheEvent(w: Whole, moves: seq<Move>)
    requires Initial(w) && Run(w, moves).tournament.Some?
    ensures var w' := Run(w, moves);
            var players := w'.tournament.value.players;
            && |players| <= w'.system.db.event.maxParticipants
            && NoDuplicates(Users(players))
            && forall i :: 0 <= i < |players| ==> Registered(w'.system.db.regs, players[i].user)
  {
    WholeRunKeeps(w, moves);
  }

  /** A finished event has no open round, whatever both services did before. */
  lemma FinishedMeansPlayedOut(w: Whole, moves: seq<Move>)
    requires Initial(w) && Run(w, moves).system.db.event.status == R.Finished
    ensures CountOpen(View(Run(w, moves))) == 0
  {
    WholeRunKeeps(w, moves);
  }

  /** Once a removal has gone through, that user is out of the pairings. */
  lemma RemovedIsDropped(w: Whole, a: S.Action, i: nat)
    requires a.DoRemove? && R.RemoveRegistration(w.system.db, a.id, a.keepPayment, a.now).1.Ok?
    requires w.tournament.Some? && i < |w.tournament.value.players|
    requires w.tournament.value.players[i].user == w.system.db.regs[a.id].user
    ensures var w' := Next(w, Registering(a));
            && w'.tournament.Some? && i < |w'.tournament.value.players|
            && w'.tournament.value.players[i].droppedAt.Some?
            && a.id < |w'.system.db.regs| && w'.system.db.regs[a.id].status == R.Removed
  {
    var db := w.system.db;
    PromoteSparesOthers(db.event, db.regs[a.id := R.SetTerminal(db.regs[a.id], R.Removed)], a.now, a.id);
    hide R.Promote;
  }
}
