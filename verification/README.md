# cube-planner, verified

cube-planner keeps Magic cube lists, sells places at events with a waitlist, and
runs Swiss tournaments at those events. This project models the parts of it that
are algorithms or protocols and proves what they promise:

- **Swiss pairing** (`SwissTypes`, `SwissPair`, `Sorting`): the backtracking search for a
  pairing with the fewest rematches, its budget loop, and the choice of the bye.
- **Standings** (`SwissStandings`): tallies, floored tiebreaks, order and competition ranks.
- **Tournament rounds** (`TournamentRounds`, `TournamentInvariant`, `TournamentRuns`,
  `TournamentDrops`, `TournamentTheorems`, `TournamentOutcomes`, `TournamentService`): draft, published
  and completed rounds, swaps, rerolls, byes, results, drops, and the guard on finishing an event.
- **Registrations and payments** (`RegistrationRows`, `RegistrationInvariant`,
  `RegistrationSteps`, `RegistrationRuns`, `RegistrationTheorems`, `RegistrationRefunds`, `RegistrationOutcomes`,
  `RegistrationService`): registering, the waitlist, expiry, cancelling, two-phase refunds, removal, event start and
  cancellation, and three Stripe webhooks, interleaved in any order.
- **Both services on one event** (`WholeEvent`): the shared status, the roster snapshot, the
  finish guard, and the drop a removal makes.
- **Cube changelog** (`CubeReplay`, `CubeHistory`, `CubeService`, `PendingDiff`, `PendingNet`): diffs, the
  statements a commit runs, rebuilding past versions, and the browser's pending diff and preview.
- **Side pieces**: the rate limiter (`RateLimit`), the annotated card list's printer and parser
  (`CardList`), and iCalendar escaping, folding and files (`Calendar`). `Strings` holds what the two
  text formats share.

Code that updates rows or maps in place is modelled by classes and methods with loops
(`RegistrationService.EventStore`, `TournamentService.TournamentStore`,
`CubeService.CubeStore`, `RateLimit.RateLimiter`, and the loops of the engine, the standings,
the replay, the parser and the folder). Each such method is proved equal to a function on
values, and the laws are proved about runs of those functions. The laws are of two kinds: what every
step of every run keeps, and (`RegistrationOutcomes`, `TournamentOutcomes`, `PendingNet`) what each
call does for whom it is about, read off the rows before and after it.

Five properties one might expect fail; each has its inputs and its exact condition:

- **The owner can always save a pending diff.** Not in four ways: after a cross on a card that is
  only a pending add (`CrossOnPendingOnlyCard`), when a refetched list no longer has the copies
  pending removal and nothing revalidates against it (`RemoveOutlivesItsCopies`), after a cross on a
  row of a hundred or more copies (`CrossOnHundredCopies`), and with more than a thousand lines a
  side, which nothing in the editor counts (`ThousandsOfPicks`). `SavingGivesThePreview` says exactly
  when saving goes through, for every session, everything that happened to the cube meanwhile and
  every caller, owner or not (the route asks only for sign-in); `ClickKeepsCovered` says exactly
  which clicks leave the removes covered by the list.
- **A player who is active in a draft has a seat in it.** Drop, reroll, undrop leaves one without
  (`BackWithoutASeat`). In every run from a fresh event a round seats exactly those who were in when
  it was last drawn (`SeatsAreTheLastDraw`), so an active player has a seat if and only if they were
  in at the last draw (`SeatedIffInAtLastDraw`).
- **An undrop is refused once a round was paired after the drop.** The code compares the round's
  time, which is when its transaction began, with the drop's; a drop committed while a pairing waits
  for the lock is before the pairing but after its time (`PairedWhileWaiting`). An undrop is possible
  exactly while no round bears a later time than the drop (`UndropByCreationTimes`), and that is
  exactly while no round was paired since, if the clock has moved on (`UndropUntilNextRound`).
- **Finishing a refund ends a registration on the charge that was sent back.** The second phase
  marks the row refunded whatever it is by then; `RefundTakesThePaidPlace` is a run in which a late
  refund ends a place paid on another charge. That happens exactly when the row holds money and names
  another charge than the refund, which could be compared at that point, and it comes about only by
  another session's completion, after the refund was asked for, on a row that held no money
  (`RefundedOnAnotherCharge`).

- **A removed participant is never reinstated by a late payment**, as the comment at
  backend/internal/events/service.go:1239-1241 says. The guard holds while the row is removed: then a
  payment is sent back (`PaymentOutcome`). But sending it back ends the row as refunded, and a refunded
  row may have its spot back, so a second payment of a race reinstates them (`RemovedAndReinstated`).
  In any run a row that was removed stays removed unless a refund has ended it in between
  (`RemovedForGood`).

The rate limiter, too, lets a first call through at a limit below 1 (`FirstCallGetsThrough`); its
bounds hold if and only if the limit is at least 1 (`LimitKeptFromOneUp`). The program itself only
builds it with a limit of 20 (backend/internal/platform/httpapi/ratelimit.go:15), so it never meets
that input.

## Model

| member | source | states |
|---|---|---|
| SwissPair.TryPair | backend/internal/tournaments/swiss/pair.go:132-154 | Succeeds exactly when a perfect pairing with at most `budget` rematches exists (symmetric history, duplicate-free order); the result is such a pairing and the nearest-first one: each top player gets the nearest opponent that leaves the rest feasible. |
| SwissPair.NearestFirstUnique | backend/internal/tournaments/swiss/pair.go:139-152 | For a given order, history and budget there is at most one nearest-first pairing, so the search is deterministic. |
| SwissPair.FirstPlayersCouple | backend/internal/tournaments/swiss/pair.go:136-147 | Any perfect pairing seats the first player with some later player, and without that couple is a perfect pairing of the rest: trying every opponent loses nothing. |
| SwissPair.NoOpponentNoPairing | backend/internal/tournaments/swiss/pair.go:139-153 | If no opponent of the first player leaves a feasible rest, no pairing fits the budget. |
| SwissPair.OpponentFound | backend/internal/tournaments/swiss/pair.go:139-151 | Prepending the nearest opponent that leaves the rest feasible to the rest's nearest-first pairing gives the whole's, within the budget. |
| SwissPair.EvenIsFeasible | backend/internal/tournaments/swiss/pair.go:83-88 | Every even number of players has a perfect pairing with at most half as many rematches, so the budget loop ends. |
| SwissPair.SmallestBudgetIsMinimum | backend/internal/tournaments/swiss/pair.go:83-88 | The first budget that works is the number of rematches of the result and no perfect pairing has fewer. |
| SwissPair.FewestRematchPairing | backend/internal/tournaments/swiss/pair.go:83-88 | The budget loop terminates, at a budget of at most half the players, with a pairing whose rematches are minimal over all perfect pairings. |
| SwissPair.TallyHistory | backend/internal/tournaments/swiss/pair.go:18-46 | Points, earlier byes and met pairs are exactly those of the history. |
| SwissPair.GroupPlayers | backend/internal/tournaments/swiss/pair.go:104-112 | The score groups partition the active players by points, each in roster order. |
| SwissPair.PickBye | backend/internal/tournaments/swiss/pair.go:103-127 | The bye is the generator's choice among the lowest score of those without a bye, or of all when everyone has had one. |
| SwissPair.DrawnByeIsChoice | backend/internal/tournaments/swiss/pair.go:100-127 | Whoever is drawn has the fewest points among those without a bye, or the fewest overall when all have had one. |
| SwissPair.DrawnByeUnique | backend/internal/tournaments/swiss/pair.go:103-127 | The generator's answer names one player only. |
| SwissPair.ShuffledOrder | backend/internal/tournaments/swiss/pair.go:61-77 | The order is everyone active but the bye, once each, sorted by points descending and then by the keys drawn in roster order. |
| SwissPair.SameOrder | backend/internal/tournaments/swiss/pair.go:61-77 | When no two keys collide there is one such order only. |
| SwissPair.KeysDecide | backend/internal/tournaments/swiss/pair.go:61-77 | Whoever is ahead in the order has more points, or as many and no larger a float, drawn in roster order without the bye. |
| SwissPair.Tables | backend/internal/tournaments/swiss/pair.go:89-93 | Tables are numbered from 1 in pairing order, one couple each. |
| SwissPair.SeatsOfTables | backend/internal/tournaments/swiss/pair.go:89-93 | Such tables seat exactly the couples' players and nobody else. |
| SwissPair.Pair | backend/internal/tournaments/swiss/pair.go:15-98 | For every roster with distinct ids, every history and every answer of the generator: each active player sits exactly once, one bye exactly when the count is odd and by the bye rule, tables are numbered, and the couples are a fewest-rematch pairing of the order the generator gives. |
| SwissPair.PairIsDeterministic | backend/internal/tournaments/swiss/pair.go:10-16 | Deterministic per seed: for the same roster, history and generator answers all rounds are the same, as long as no two keys collide. |
| SwissStandings.TallyResults | backend/internal/tournaments/swiss/standings.go:44-73 | Each listed player's tally is the one `TallyMeans` reads off the score sheet; unlisted players and unreported matches count for nothing. |
| SwissStandings.OpponentSums | backend/internal/tournaments/swiss/standings.go:99-103 | The tiebreak sums are those of the opponents' floored percentages. |
| SwissStandings.AssignRanks | backend/internal/tournaments/swiss/standings.go:131-141 | Each rank is the 1-based position of the first row of its run of ties; nothing else changes. |
| SwissStandings.ComputeStandings | backend/internal/tournaments/swiss/standings.go:39-143 | One row per roster entry with that player's own tallies and tiebreaks (`OwnGames`, `OpponentsMatches`, `OpponentsGames`), sorted, ranked. |
| SwissStandings.AboveIsTotal | backend/internal/tournaments/swiss/standings.go:115-130 | The row order compares any two rows and is transitive. |
| SwissStandings.PointsAgree | backend/internal/tournaments/swiss/standings.go:44-73 | For every history over the roster the pairing engine and the standings give everyone the same match points. |
| SwissStandings.PercentageBounds | backend/internal/tournaments/swiss/standings.go:81-113 | OMW% and OGW% are 0 without opponents and otherwise between 100/3 and 100; GW% is between 0 and 100. |
| SwissStandings.PointsConserved | backend/internal/tournaments/swiss/standings.go:44-73 | The roster's match points add up to 3 per counted bye or decisive match and 2 per counted draw. |
| SwissStandings.TallyMeans | backend/internal/tournaments/swiss/standings.go:24-79 | Read off the score columns by seat: game points are 3 a game won and 1 a game drawn, games are all games won, lost and drawn, matches count byes, and everyone met is an opponent as often as met. |
| SwissStandings.OwnGames | backend/internal/tournaments/swiss/standings.go:91-110 | GW% is the player's share of the game points of their own games: 100 for winning every game of every counted match, 0 for winning and drawing none. |
| SwissStandings.OpponentsMatches | backend/internal/tournaments/swiss/standings.go:82-110 | OMW% is about the opponents' matches: 100 if each won all of theirs, a third if none won any. |
| SwissStandings.OpponentsGames | backend/internal/tournaments/swiss/standings.go:97-110 | OGW% is about the opponents' games: 100 if each won all of theirs, a third if none won any. |
| SwissStandings.TableReads | backend/internal/tournaments/swiss/standings.go:114-141 | Down the table match points never rise, equals are in order of OMW%, GW%, OGW% and name, and whoever has more match points has the better rank. |
| SwissStandings.SharedRank | backend/internal/tournaments/swiss/standings.go:131-141 | Neighbours share a rank if and only if they agree in match points and, within 1e-9, in all three percentages. |
| RegistrationRows.CountsAfterUpdate | backend/internal/db/events.sql.go:16-20 | How one row update changes the counts of occupied spots and of waiting rows. |
| RegistrationRows.NextWaitlisted | backend/internal/db/events.sql.go:776-781 | The next row is a waiting row no other waiting row precedes, and there is one exactly when somebody waits. |
| RegistrationInvariant.UpdateKeepsTable | backend/internal/db/events.sql.go:741-747 | A legal single-row update keeps capacity, null columns, one active row per user and distinct positions. |
| RegistrationInvariant.AppendKeepsTable | backend/internal/events/service.go:482-516 | A legal insertion keeps them too. |
| RegistrationInvariant.PromoteExact | backend/internal/events/service.go:528-567 | Promotion ends having moved exactly min(free spots, queue length) rows, those with the smallest positions, from the waitlist to a spot, and touched no other row. |
| RegistrationSteps.RegisterIsSafe | backend/internal/events/service.go:456-523 | Registering keeps capacity, null columns, one active row per user and the queue, and overtakes nobody who waits. |
| RegistrationSteps.CancelRegistrationIsSafe | backend/internal/events/service.go:696-773 | Cancelling, with the promotion it causes, keeps capacity, null columns, one active row per user and the queue, and overtakes nobody who waits. |
| RegistrationSteps.FinalizeRefundIsSafe | backend/internal/events/service.go:779-832 | The second phase of a refund, whatever happened since the first, keeps capacity, null columns, one active row per user and the queue, and overtakes nobody who waits. |
| RegistrationSteps.FinalizeEventCancelIsSafe | backend/internal/events/service.go:1024-1049 | The second phase of a called-off event's refunds keeps capacity, null columns, one active row per user and the queue, and overtakes nobody who waits. |
| RegistrationSteps.RemoveIsSafe | backend/internal/events/service.go:857-953 | Removing a participant keeps capacity, null columns, one active row per user and the queue, and overtakes nobody who waits. |
| RegistrationSteps.DenyIsSafe | backend/internal/events/service.go:957-993 | Denying a refund keeps capacity, null columns, one active row per user and the queue, and overtakes nobody who waits. |
| RegistrationSteps.SweepIsSafe | backend/internal/events/service.go:571-592 | The sweeper's expiry and promotion keeps capacity, null columns, one active row per user and the queue, and overtakes nobody who waits. |
| RegistrationSteps.TransitionIsSafe | backend/internal/events/service.go:215-276 | Every lifecycle transition, with what starting and calling off do to the rows, keeps capacity, null columns, one active row per user and the queue, and overtakes nobody who waits. |
| RegistrationSteps.UpdateEventIsSafe | backend/internal/events/service.go:154-202 | Editing the event keeps capacity, null columns, one active row per user and the queue, and overtakes nobody who waits. |
| RegistrationSteps.PayWriteIsSafe | backend/internal/events/service.go:598-655 | The late write of a checkout session, made without the event lock, keeps capacity, null columns, one active row per user and the queue, and overtakes nobody who waits. |
| RegistrationSteps.CompletionIsSafe | backend/internal/events/service.go:1146-1279 | A completed checkout (payment, duplicate charge, reclaim of a lapsed row, or late refund) keeps capacity, null columns, one active row per user and the queue, and overtakes nobody who waits. |
| RegistrationSteps.CheckoutExpiredIsSafe | backend/internal/events/service.go:1281-1331 | An expired checkout keeps capacity, null columns, one active row per user and the queue, and overtakes nobody who waits. |
| RegistrationSteps.ChargeRefundedIsSafe | backend/internal/events/service.go:1338-1387 | A refund made on Stripe's side keeps capacity, null columns, one active row per user and the queue, and overtakes nobody who waits. |
| RegistrationRuns.CompletionFindsItsRow | backend/internal/events/service.go:1113-1133 | In every reachable state a completed session is matched to the row it was created for. |
| RegistrationRuns.StepKeepsInvariant | backend/internal/events/service.go:456-1387 | Every step of every participant keeps the joint invariant of rows, sessions, unfinished calls and refunds, and moves rows only as allowed. |
| RegistrationRuns.RunKeepsInvariant | backend/internal/events/service.go:456-1387 | Every run of any length keeps that joint invariant. |
| RegistrationTheorems.NeverOverbooked | backend/internal/events/service.go:482-516 | In every reachable state occupied spots stay within capacity, and somebody waits only for a published event that is completely full. |
| RegistrationTheorems.RowsConsistent | backend/internal/db/events.sql.go:913-918 | In every reachable state each user has at most one active row; pending means an expiry is set and waitlisted a position, both only while published; positions are distinct and bounded by the counter. |
| RegistrationTheorems.MoneyConsistent | backend/internal/events/service.go:1178-1220 | In a fee event every paid row names a charge made for that very row; in a free event nothing is pending or charged; no two rows name the same charge. |
| RegistrationTheorems.RefundsOnlyOwnCharges | backend/internal/events/service.go:779-800 | In every reachable state every refund call, whatever asked for it, names a charge that was made for the very registration it is about. |
| RegistrationTheorems.FirstComeFirstServed | backend/internal/events/service.go:528-567 | Over any run, once someone has moved from the waitlist to a spot nobody who queued before them is still waiting. |
| RegistrationTheorems.PaidRosterOnlyShrinks | backend/internal/events/service.go:660-682 | After registration closes no row is added and none becomes paid, in any run. |
| RegistrationTheorems.ChargeNeverReplaced | backend/internal/events/service.go:1178-1220 | While a row stays paid or refund-requested, the charge it names never changes. |
| RegistrationTheorems.DuplicateRefundSparesTheRow | backend/internal/events/service.go:1172-1220 | A second charge for a row is queued to be sent back without touching the row, and over any run afterwards the row keeps its own, different charge for as long as it holds money. |
| RegistrationTheorems.RedeliveryIsSilent | backend/internal/events/service.go:1093-1104 | A webhook id delivered again, at any later time and with any content, changes nothing. |
| RegistrationRefunds.ChargeStep | backend/internal/events/service.go:1178-1200 | Only the completion of a session made for a row changes its charge, and only while the row holds no money on one. |
| RegistrationRefunds.PayingStep | backend/internal/events/service.go:1205-1253 | In an event that charges, a row comes to hold money only by the completion of a session made for it, on that session's charge. |
| RegistrationRefunds.RefundNamesTheCharge | backend/internal/events/service.go:779-800 | A refund of one registration is asked for on the very charge its row names at that moment. |
| RegistrationRefunds.RefundedOnAnotherCharge | backend/internal/events/service.go:779-832 | In any run, finishing a refund marks the row refunded; if the row then held money on another charge, a completed session for that row replaced the refunded charge while it held no money, and another paid it, since the refund was asked for. |
| RegistrationRefunds.RefundTakesThePaidPlace | backend/internal/events/service.go:1254-1269 | A run from a fresh event in which finishing a late refund marks a row refunded that is paid on a second charge, which is not sent back. |
| RegistrationOutcomes.RegisterOutcome | backend/internal/events/service.go:456-523 | Registering goes through if and only if the event is published and the user has no row that counts against them; the new row comes last, with a spot while one is free (24 hours to pay if there is a fee) and otherwise behind everyone who waits; nothing else changes. |
| RegistrationOutcomes.CancelOutcome | backend/internal/events/service.go:685-773 | What the transaction of cancelling does to the caller's active row, whichever it is, and that other rows only move up from the waitlist. |
| RegistrationOutcomes.SelfCancelOutcome | backend/internal/events/service.go:696-773 | In every reachable state of a published event: a waiting, pending or uncharged row ends cancelled; a charged one before the refund deadline (the start, if none is set) stays and exactly one refund of its charge is queued; later it waits for the organizer's decision and nothing is queued. |
| RegistrationOutcomes.RemoveOutcome | backend/internal/events/service.go:876-901 | A removal goes through for exactly the pending, waiting and paid rows, the charged ones only if the payment is kept; session and charge stay on the row, and nothing is refunded. |
| RegistrationOutcomes.RefundDecision | backend/internal/events/service.go:836-993 | Denying ends exactly a row in the refund queue, without its money; an organizer's refund is queued once, for exactly the rows that hold money on a charge. |
| RegistrationOutcomes.EditOutcome | backend/internal/events/service.go:154-202 | An edit goes through if and only if an event out of draft is given no more than a refund deadline, a fee finds payments set up, and the schedule is valid; each column given is set, the others stay, and a refused edit changes nothing. |
| RegistrationOutcomes.LifecycleOutcome | backend/internal/events/service.go:243-258 | Publishing needs payments set up if there is a fee, finishing needs no open round; neither touches a row. |
| RegistrationOutcomes.StartOutcome | backend/internal/events/service.go:657-682 | Starting expires the pending rows, cancels the waiting ones and leaves the others. |
| RegistrationOutcomes.CallOffOutcome | backend/internal/events/service.go:995-1049 | Calling off, also again, queues exactly one refund for each row that still holds money on a charge, leaves those rows, and cancels the other active ones. |
| RegistrationOutcomes.SweepOutcome | backend/internal/db/events.sql.go:137-144 | The sweep expires a pending row if and only if its time is up and no checkout session of it is open; every other row stays or moves up from the waitlist, with 24 hours to pay if there is a fee. |
| RegistrationOutcomes.PayOutcome | backend/internal/events/service.go:593-648 | Pay opens a session if and only if the caller's row is pending, in time, and has no open session; the session lasts as long as the row, and at least half an hour. |
| RegistrationOutcomes.OpenSessionHoldsOff | backend/internal/events/service.go:634-653 | Once Pay has stored its session, no sweep while it is open expires the row. |
| RegistrationOutcomes.CompletionOutcome | backend/internal/events/service.go:1135-1258 | What the transaction of a completed checkout makes of its row, and that it touches no other. |
| RegistrationOutcomes.PaymentOutcome | backend/internal/events/service.go:1201-1257 | In every reachable state, at the first delivery of a payment: a pending row is paid on that charge; a row without money becomes paid if and only if it was not removed, the event is published, fewer than the maximum hold a spot and its user has no other active row, and otherwise keeps its status with exactly one refund of the charge queued; a row that holds money keeps its status, and another charge than its own is queued once to be sent back. |
| RegistrationOutcomes.ExpiryOutcome | backend/internal/events/service.go:1281-1331 | An expired session ends its row if and only if the row still stores that session and is pending. |
| RegistrationOutcomes.FinishOutcome | backend/internal/events/service.go:779-832 | The second phase of a refund ends its row as refunded, charge kept, and other rows only move up from the waitlist. |
| RegistrationOutcomes.RefundReportedOutcome | backend/internal/events/service.go:1338-1387 | In every reachable state a refund made on Stripe's side ends exactly the row that names the charge. |
| RegistrationOutcomes.RowLife | backend/internal/events/service.go:456-1387 | Where any step by anyone may take a row: nobody starts to wait, only the waiting become pending, and a removed row stays removed or ends refunded. |
| RegistrationOutcomes.RemovedForGood | backend/internal/events/service.go:1239-1243 | Over any run a removed row stays removed unless a refund has ended it in between. |
| RegistrationOutcomes.RemovedAndReinstated | backend/internal/events/service.go:1239-1253 | A run from a fresh event in which a removed participant whose first payment was sent back is reinstated by a second one. |
| RegistrationService.EventStore.PromoteLocked | backend/internal/events/service.go:528-567 | The loop ends; the rows are those of the promotion function; as many rows as min(free, waiting) were promoted, from the front. |
| RegistrationService.EventStore.SetRegistrationCheckoutSession | backend/internal/db/events.sql.go:870-876 | Exactly the named row's session pointer and its expiry are replaced. |
| RegistrationService.EventStore.Register | backend/internal/events/service.go:456-523 | The in-place transaction of registering equals its transaction function on the whole stored state and is safe. |
| RegistrationService.EventStore.CancelRegistration | backend/internal/events/service.go:696-773 | The in-place transaction of cancelling, with the refund it asks for, equals its transaction function on the whole stored state (what that does for the caller is `SelfCancelOutcome`) and is safe. |
| RegistrationService.EventStore.FinalizeRefund | backend/internal/events/service.go:779-832 | The in-place transaction finalising a refund equals its transaction function on the whole stored state and is safe. |
| RegistrationService.EventStore.RemoveRegistration | backend/internal/events/service.go:857-935 | The in-place transaction removing a participant equals its transaction function on the whole stored state and is safe. |
| RegistrationService.EventStore.ExpireAndPromote | backend/internal/events/service.go:571-592 | The in-place transaction of the sweep equals its transaction function on the whole stored state and is safe. |
| RegistrationService.EventStore.CloseRegistrationLocked | backend/internal/events/service.go:660-682 | Closing rewrites exactly the pending and waiting rows. |
| RegistrationService.EventStore.CancelEventLocked | backend/internal/events/service.go:998-1019 | Calling off rewrites the rows and lists exactly those that still hold money. |
| RegistrationService.EventStore.Transition | backend/internal/events/service.go:215-276 | The in-place transaction of a lifecycle change equals its transaction function on the whole stored state and is safe. |
| RegistrationService.EventStore.HandleCheckoutCompleted | backend/internal/events/service.go:1146-1279 | The in-place transaction equals its transaction function on the whole stored state, with the refund it asks for (what that does for the row is `PaymentOutcome`); for a session made for that row it keeps the table invariant and overtakes nobody. |
| RegistrationService.EventStore.HandleCheckoutExpired | backend/internal/events/service.go:1281-1331 | The in-place transaction of an expired checkout equals its transaction function on the whole stored state and is safe. |
| RegistrationService.EventStore.HandleChargeRefunded | backend/internal/events/service.go:1338-1387 | The in-place transaction of a refund notice equals its transaction function on the whole stored state and is safe. |
| TournamentInvariant.SwapSucceeds | backend/internal/tournaments/service.go:554-602 | The self-pair guards never fire in a round that seats nobody twice: a swap succeeds exactly for two different occupied slots. |
| TournamentInvariant.SwapTransposes | backend/internal/tournaments/service.go:638-668 | A swap exchanges exactly the two named slots and changes no other seat, table or result. |
| TournamentInvariant.SwapKeepsSeats | backend/internal/tournaments/service.go:638-668 | The seated players and the number of byes stay the same. |
| TournamentInvariant.SwapTwice | backend/internal/tournaments/service.go:638-668 | Repeating a swap restores the match rows. |
| TournamentInvariant.NewPairingsOk | backend/internal/tournaments/service.go:437-447 | Inserted pairings seat exactly the active players, once each, with one bye when their number is odd, and no results. |
| TournamentInvariant.UpsertKeeps | backend/internal/tournaments/service.go:377-405 | Creating a tournament or changing its planned rounds keeps the invariant and every round. |
| TournamentInvariant.PairKeeps | backend/internal/tournaments/service.go:452-499 | Pairing the next round keeps the invariant and only appends. |
| TournamentInvariant.RerollKeeps | backend/internal/tournaments/service.go:519-545 | Rerolling keeps it and touches only the draft. |
| TournamentInvariant.SwapKeeps | backend/internal/tournaments/service.go:614-670 | Swapping keeps it and touches only the draft. |
| TournamentInvariant.PublishKeeps | backend/internal/tournaments/service.go:674-707 | Publishing keeps it: byes become 2-0, seats stay. |
| TournamentInvariant.CompleteKeeps | backend/internal/tournaments/service.go:710-746 | Completing keeps it: only a fully reported round completes. |
| TournamentInvariant.ReportKeeps | backend/internal/tournaments/service.go:765-833 | Reporting keeps it: only a valid score, never on a bye or a draft, only in the latest round. |
| TournamentRuns.StepKeepsInvariant | backend/internal/tournaments/service.go:377-905 | Every mutation, successful or rolled back, keeps the tournament invariant and moves everything only forward. |
| TournamentRuns.RunKeepsInvariant | backend/internal/tournaments/service.go:377-905 | Every run keeps the tournament invariant, and everything in it has only moved forward. |
| TournamentRuns.RoundsInOrder | backend/internal/tournaments/service.go:465-476 | From a fresh event, in every run: rounds are numbered 1..n, all but the last completed, n at most planned, completed rounds fully and validly reported, byes 2-0, drafts without results. |
| TournamentRuns.EarlierRoundsFrozen | backend/internal/tournaments/service.go:804-807 | Once the next round exists a round never changes again, in any run. |
| TournamentRuns.PublishedSeatsFixed | backend/internal/tournaments/service.go:501-516 | Seats of a round out of draft never change, and a result once there is never withdrawn. |
| TournamentRuns.RerollSameHistory | backend/internal/tournaments/service.go:408-435 | Every reroll of a draft, however much later, shows the engine the history the first pairing was made from, and the same roster up to drops. |
| TournamentRuns.FinishedIsFinal | backend/internal/events/service.go:250-258 | A finished event stays finished, has no open round, and its rounds never change again. |
| TournamentRuns.FindMatch | backend/internal/db/queries/tournaments.sql:102-107 | A match id leads to its match and no other. |
| TournamentRuns.OrganizerHasTheLastWord | backend/internal/tournaments/service.go:791-799 | After an organizer's report a match row changes only when an organizer reports that match again, in any run. |
| TournamentRuns.SwapsKeepSeats | backend/internal/tournaments/service.go:614-670 | Any number of swap attempts leaves the seated players a permutation of the original, with as many byes. |
| TournamentRuns.SwapAlwaysPossible | backend/internal/tournaments/service.go:614-670 | In every reachable draft a swap succeeds exactly for two different references to occupied seats of that round. |
| TournamentRuns.SwapUndoesItself | backend/internal/tournaments/service.go:614-670 | Repeating a successful swap restores the whole state. |
| TournamentRuns.UndropUntilNextRound | backend/internal/tournaments/service.go:890-902 | With the clock moving on, a drop can be taken back exactly while the event is started and no further round has been paired. |
| TournamentDrops.SeatsAreTheLastDraw | backend/internal/tournaments/service.go:437-447 | In every run from a fresh event every round seats exactly those who were in when it was last drawn, by pairing or by reroll. |
| TournamentDrops.SeatedIffInAtLastDraw | backend/internal/tournaments/service.go:519-545 | So a player has a seat in a round if and only if they were in at its last draw. |
| TournamentDrops.UndroppedUnlessRedrawn | backend/internal/tournaments/service.go:875-905 | After a drop, any run without an undrop of that player, and a successful undrop, the player is active; in any round of the time of the drop they have a seat if and only if they had one and the round was not redrawn since. No clock is assumed. |
| TournamentDrops.BackWithoutASeat | backend/internal/tournaments/service.go:519-545 | A run from a fresh event, pair, drop, reroll, undrop, that ends with an active player who has no seat in the draft. |
| TournamentDrops.RerollUnseats | backend/internal/tournaments/service.go:519-545 | A reroll takes the seat of a dropped player in the redrawn round and touches no other round. |
| TournamentDrops.UndropByCreationTimes | backend/internal/tournaments/service.go:890-902 | Whatever the clock, a drop can be taken back exactly while the event is started and no round bears a later time than the drop. |
| TournamentDrops.PairedWhileWaiting | backend/migrations/00008_tournaments.sql:33 | A player dropped while a pairing waits for the lock has no seat in the paired round and can come back all the same. |
| TournamentTheorems.DefaultRoundsIsLog | backend/internal/tournaments/service.go:339-344 | The recommended rounds are the least r of at least 1 with 2^r at least the number of players. |
| TournamentTheorems.StandingsMatchPairing | backend/internal/tournaments/service.go:262-304 | In every reachable state the standings and the engine agree on match points, nobody has more than 3 a round, and the points on the table are those the reported matches awarded. |
| TournamentTheorems.ThreePointsPerRound | backend/internal/tournaments/service.go:408-435 | Nobody can have more than three match points a round. |
| TournamentTheorems.BestOfThree | backend/internal/tournaments/service.go:754-760 | A score is valid if and only if nobody has fewer than 0 or more than 2 wins, no draws are negative and there are at most three games: the other bounds follow. |
| TournamentTheorems.WhoMayReport | backend/internal/tournaments/service.go:765-833 | In every reachable state a report goes through if and only if the score is valid, the match is no bye and is in the latest round out of draft, and the caller is an organizer or sits at that match while the round is published and unruled. |
| TournamentTheorems.CanAlwaysFinish | backend/internal/tournaments/service.go:674-746 | From every reachable started state the organizer alone can bring the event to its end. |
| TournamentOutcomes.ReportOutcome | backend/internal/tournaments/service.go:821-832 | In every reachable state a report that goes through leaves exactly the reported score in that row, ruled if and only if it was or an organizer reported, and every other row, round, entrant, the plan and the event's status as they were. |
| TournamentOutcomes.ReportPoints | backend/internal/tournaments/swiss/pair.go:24-46 | A first report gives the side with more games three match points and the other none, one each when level, and nobody else any; a later one replaces what the earlier was worth. |
| TournamentOutcomes.PublishOutcome | backend/internal/tournaments/service.go:674-707 | Publishing goes through for exactly a draft; its bye is 2-0, no other row changes. |
| TournamentOutcomes.CompleteOutcome | backend/internal/tournaments/service.go:710-746 | Completing goes through for exactly a published round with a result in every row, and changes its status alone. |
| TournamentOutcomes.PairOutcome | backend/internal/tournaments/service.go:452-499 | The next round can be paired if and only if the event is started, all rounds are completed, more are planned and two players are left; it comes last, a draft of the engine's pairings, and nothing before it changes. |
| TournamentOutcomes.RerollOutcome | backend/internal/tournaments/service.go:519-545 | A redraw goes through for exactly a draft, replaces its rows by the engine's new pairings and changes nothing else. |
| TournamentOutcomes.DropOutcome | backend/internal/tournaments/service.go:836-873 | A drop goes through if and only if the event is started, the caller is that player or an organizer and the player is in; it stamps that player and nobody else. |
| TournamentOutcomes.UndropOutcome | backend/internal/tournaments/service.go:836-905 | An undrop goes through if and only if the event is started, the caller is that player or an organizer, the player is out and no round bears a later time; nobody else is touched. |
| TournamentOutcomes.OnlyTheRoster | backend/internal/tournaments/service.go:836-850 | Nobody who is not on the roster can be dropped or taken back, not even by an organizer. |
| TournamentOutcomes.RemovalOutcome | backend/internal/db/queries/tournaments.sql:163-170 | A removal stamps the removed user's player if still in, and leaves everybody else, earlier drops included, and the rounds. |
| TournamentOutcomes.UpsertOutcome | backend/internal/tournaments/service.go:339-405 | A tournament starts with the roster and the rounds asked for, or the least that leave one undefeated; a plan needs at least one round and no fewer than there are, and changes nothing else. |
| TournamentOutcomes.PointsMove | backend/internal/tournaments/swiss/pair.go:18-46 | Match points come from reports and published byes alone: any other step, and any attempt that fails, leaves everybody's points as they are. |
| TournamentService.TournamentStore.Upsert | backend/internal/tournaments/service.go:347-405 | Equals its function on the whole state, leaves nothing behind on error and keeps the invariant; creates the roster or changes the plan. |
| TournamentService.TournamentStore.PairingInputs | backend/internal/tournaments/service.go:408-435 | The loops collect exactly the roster and the matches of every round but drafts. |
| TournamentService.TournamentStore.PairNextRound | backend/internal/tournaments/service.go:452-499 | Equals its function on the whole state, leaves nothing behind on error and keeps the invariant; the pairings are a valid round for that history, and a failure after the roster was created is rolled back. |
| TournamentService.TournamentStore.Reroll | backend/internal/tournaments/service.go:519-545 | Equals its function on the whole state, leaves nothing behind on error and keeps the invariant; pairs from the same history after the draft's matches are deleted. |
| TournamentService.TournamentStore.Swap | backend/internal/tournaments/service.go:614-670 | Equals its function on the whole state, leaves nothing behind on error and keeps the invariant; the two writes happen in sequence. |
| TournamentService.TournamentStore.Publish | backend/internal/tournaments/service.go:674-707 | Equals its function on the whole state, leaves nothing behind on error and keeps the invariant; the loop fills the byes. |
| TournamentService.TournamentStore.Complete | backend/internal/tournaments/service.go:710-746 | Equals its function on the whole state, leaves nothing behind on error and keeps the invariant; the loop looks for an unreported match. |
| TournamentService.TournamentStore.ReportResult | backend/internal/tournaments/service.go:765-833 | Equals its function on the whole state, leaves nothing behind on error and keeps the invariant; every guard in the source's order (what is stored is `ReportOutcome`). |
| TournamentService.TournamentStore.Drop | backend/internal/tournaments/service.go:853-873 | Equals its function on the whole state, leaves nothing behind on error and keeps the invariant; only the player or an organizer may. |
| TournamentService.TournamentStore.Undrop | backend/internal/tournaments/service.go:877-905 | Equals its function on the whole state, leaves nothing behind on error and keeps the invariant; the loop compares every round's creation with the drop. |
| TournamentService.TournamentStore.DropTournamentPlayerByEventUser | backend/internal/db/queries/tournaments.sql:163-170 | Exactly the user's undropped players are dropped. |
| TournamentService.TournamentStore.Transition | backend/internal/events/service.go:250-258 | Finishing is refused while a round is open. |
| WholeEvent.PaidOnce | backend/internal/tournaments/service.go:347-371 | The paid roster names nobody twice. |
| WholeEvent.ViewFollows | backend/internal/events/service.go:909-921 | A registration step moves the tournament only as a lifecycle transition or a drop of the removed user would. |
| WholeEvent.WholeRunKeeps | backend/internal/tournaments/service.go:310-335 | Both services' invariants hold along every joint run. |
| WholeEvent.RosterFitsTheEvent | backend/internal/tournaments/service.go:347-371 | In every joint run the roster names only registered users, each once, and no more of them than the event has spots. |
| WholeEvent.FinishedMeansPlayedOut | backend/internal/events/service.go:250-258 | In every joint run a finished event has no open round. |
| WholeEvent.RemovedIsDropped | backend/internal/events/service.go:903-921 | Once a removal went through, the row is removed, not re-promoted, and the user's player is dropped. |
| WholeEvent.TermsFixed | backend/internal/events/service.go:154-276 | From publication on, whatever the step: capacity, fee and start never change, the refund deadline only to what an edit sets, and the status only forward. |
| CubeReplay.ValidateDiff | backend/internal/cubes/replay.go:44-74 | Accepts exactly the valid diffs; a rejection names the rule that is broken and, but for the empty diff, the card that breaks it. |
| CubeReplay.ApplyDiff | backend/internal/cubes/replay.go:79-99 | The loops return the sorted list of the applied state. |
| CubeReplay.ReplayBackwards | backend/internal/cubes/replay.go:105-130 | The loops return the sorted list of the replayed state. |
| CubeReplay.Sorted | backend/internal/cubes/replay.go:140-149 | The list of a state is sorted and holds exactly its entries. |
| CubeReplay.SortedListUnique | backend/internal/cubes/replay.go:140-149 | Two sorted lists with the same entries are the same list. |
| CubeReplay.InvertUndoesApply | backend/internal/cubes/replay.go:113-127 | Undoing a valid change right after applying it restores the state, printings included. |
| CubeReplay.ApplyKeepsState | backend/internal/cubes/replay.go:79-99 | Applying positive lines keeps every quantity positive and every entry under its own oracle id. |
| CubeReplay.ApplyCounts | backend/internal/cubes/replay.go:79-99 | A valid diff moves every card's number by exactly its lines; a card that was there keeps its printing, a new one has its line's. |
| CubeReplay.ApplyOrderIrrelevant | backend/internal/cubes/replay.go:79-99 | The order of lines within a diff does not matter. |
| CubeReplay.ReplayOrderIrrelevant | backend/internal/cubes/replay.go:105-130 | The order of lines within the changes does not matter in replay. |
| CubeReplay.ReplaySameQuantities | backend/internal/cubes/replay.go:105-130 | Replay from lists with equal quantities gives equal quantities, whatever the printings. |
| CubeReplay.ReplayInStages | backend/internal/cubes/replay.go:105-130 | Replaying to a version in between and on from there equals replaying at once. |
| CubeHistory.StepKeepsCube | backend/internal/cubes/service.go:293-465 | Every action keeps the cube's state and log in order and moves the version by at most one. |
| CubeHistory.CommitStep | backend/internal/cubes/service.go:293-465 | A commit can be undone exactly: its log entry inverts what it did. |
| CubeHistory.SwapOutcome | backend/internal/cubes/service.go:472-498 | A swap changes the printing of a card that is there to another of its printings, and nothing else. |
| CubeHistory.ReplayRecoversPast | backend/internal/cubes/service.go:174-252 | From any consistent cube, over any run of commits and printing swaps, replaying back gives its quantities, and with no swap since exactly its state. |
| CubeHistory.HistoryIsRecoverable | backend/internal/cubes/service.go:174-252 | The same for every past version of a cube that started empty. |
| CubeHistory.NoDoubleCommit | backend/internal/cubes/service.go:328-330 | Two commits with the same expected version never both succeed. |
| CubeHistory.GroupListing | backend/internal/cubes/service.go:273-288 | Grouping the item rows of a descending listing gives back the changes, one group each. |
| CubeHistory.ReplayOfGroupedRows | backend/internal/cubes/service.go:273-288 | Replaying the grouped rows equals replaying the log. |
| CubeHistory.GroupChanges | backend/internal/cubes/service.go:273-288 | The in-place grouping loop equals the grouping function. |
| CubeService.PurgeOnce | backend/internal/db/cubes.sql.go:95-97 | Subtracting in SQL and purging once at the end equals subtracting entry by entry. |
| CubeService.StatementsRefineApply | backend/internal/cubes/service.go:365-381 | The statements a commit runs leave exactly the applied state, for every valid diff and every order of its lines. |
| CubeService.NeverNegative | backend/internal/cubes/service.go:372-378 | No quantity is negative at any point between the statements. |
| CubeService.CubeStore.RunStatements | backend/internal/cubes/service.go:365-381 | The statement loops leave the applied state in the table. |
| CubeService.CubeStore.ApplyChange | backend/internal/cubes/service.go:293-465 | The in-place transaction commits exactly when the diff is acceptable at the expected version, and then equals a commit; otherwise nothing changes. |
| CubeService.CubeStore.ChangePrinting | backend/internal/cubes/service.go:472-498 | Checked and written with nothing in between, swaps one card's printing and nothing else, or nothing at all. |
| CubeService.CubeStore.CheckPrinting | backend/internal/cubes/service.go:473-494 | The read half lets exactly the swaps of a card in the cube to another of its printings through, for the owner. |
| CubeService.CubeStore.SetCubeCardPrinting | backend/internal/db/cubes.sql.go:705-708 | The write half, whatever came between, is a swap at the moment of the write: the row may be gone or have the printing already. |
| CubeService.CubeStore.ListCards | backend/internal/db/cubes.sql.go:230-236 | The stored rows, each once, in no promised order. |
| CubeService.CubeStore.GetCards | backend/internal/cubes/service.go:174-252 | The current list holds exactly the stored rows; the list of an earlier version is the replay of the log, in oracle order. |
| CubeService.ServedListIsThePast | backend/internal/cubes/service.go:174-252 | What is served for an earlier version has exactly the cards and numbers the cube had then, the very entries it listed then when no printing was swapped since, and is the same list as any other in oracle order. |
| CubeService.RowsAfterList | backend/internal/db/cubes.sql.go:423-430 | The item rows after a version list exactly the later changes. |
| CubeService.ReplayChangesAfter | backend/internal/cubes/service.go:207-221 | Replaying only the changes after a version equals replaying the whole log. |
| PendingDiff.ClickKeepsOk | frontend/src/features/cubes/lib/pendingDiff.ts:82-149 | Every click and every list the page is handed keeps the sides disjoint, quantities positive and adds at most 99 (by how much a click moves them is `PendingNet.ClickMovesNet`). |
| PendingDiff.ClickKeepsCovered | frontend/src/features/cubes/lib/pendingDiff.ts:82-149 | The removes stay covered by the page's list if and only if the click is no cross on a card that is only a pending add and no new list that lacks copies pending removal. |
| PendingDiff.RevalidationCovers | frontend/src/features/cubes/lib/pendingDiff.ts:118-132 | Revalidating against the page's list covers the removes again, whatever they were. |
| PendingDiff.CrossOnPendingOnlyCard | frontend/src/features/cubes/lib/pendingDiff.ts:92-107 | Two clicks after which saving is refused: a pending remove of a card the server does not have. |
| PendingDiff.RemoveOutlivesItsCopies | frontend/src/features/cubes/components/CubeEditorPage.tsx:124-145 | A cross and a refetch after which saving at the new version is refused: a remove of copies the new list lacks. |
| PendingDiff.CrossOnHundredCopies | backend/internal/platform/httpapi/cubes.go:78-81 | A cross on a row of a hundred copies: covered, and refused by the endpoint's bound. |
| PendingDiff.ThousandsOfPicks | backend/internal/platform/httpapi/cubes.go:224-225 | A careful session can pick any number of cards, and the owner can save them if and only if they are at most a thousand. |
| PendingDiff.SessionKeepsOk | frontend/src/features/cubes/lib/pendingDiff.ts:82-149 | Every session of clicks and refetches keeps the sides disjoint, positive and within the cap. |
| PendingDiff.SessionKeepsCovered | frontend/src/features/cubes/lib/pendingDiff.ts:82-149 | Every session of such careful steps ends with its removes covered. |
| PendingDiff.LinesAreValid | frontend/src/features/cubes/lib/pendingDiff.ts:151-165 | The resolved lines pass the server's validation if and only if there are any and the removes are covered. |
| PendingDiff.PreviewIsApply | frontend/src/features/cubes/components/CubeEditorPage.tsx:33-63 | The preview equals what the server will make of the diff, although it applies the sides in the other order. |
| PendingDiff.SavingIsAccepted | backend/internal/platform/httpapi/cubes.go:219-227 | Against any cube and for any caller, the endpoint and the service let the diff through if and only if the caller is the owner, the version is the expected one, the diff is not empty, has at most 1000 lines a side and at most 99 copies a remove, and its removes are covered; the cube then has what the preview shows. |
| PendingDiff.SameVersionSameNumbers | backend/internal/cubes/service.go:467-471 | While the version stands still, in any run, only printings change. |
| PendingDiff.SavingGivesThePreview | frontend/src/features/cubes/components/CubeEditorPage.tsx:33-63 | For every session, every caller and every run of the cube since the page's list was fetched, saving goes through if and only if nobody has committed since and the diff is savable by that caller against that list; the cube then has the numbers the preview showed, with the same printings unless some were swapped. |
| PendingDiff.CarefulSessionsSave | frontend/src/features/cubes/components/CubeEditorPage.tsx:124-146 | After a careful session on rows of at most 99 copies the owner can save any non-empty diff of at most 1000 lines a side. |
| PendingDiff.PreviewEntries | frontend/src/features/cubes/components/CubeEditorPage.tsx:33-63 | The two loops compute the preview, in whatever order the maps are walked. |
| PendingNet.AddingMovesNet | frontend/src/features/cubes/lib/pendingDiff.ts:42-60 | With net the copies pending to be added less those to be removed: adding n copies of a card makes it min(net + n, 99), the card last picked is the one to be added, and no other card is touched. |
| PendingNet.TakingMovesNet | frontend/src/features/cubes/lib/pendingDiff.ts:62-80 | Taking a copy away makes the net max(net - 1, -quantity of the row), keeps the printing of what is still to be added, and touches no other card. |
| PendingNet.ImportMovesNet | frontend/src/features/cubes/lib/pendingDiff.ts:86-87 | An import, whatever its order and wherever the cap bites, is the same as adding all its copies of a card at once. |
| PendingNet.ClickMovesNet | frontend/src/features/cubes/lib/pendingDiff.ts:82-149 | What every click does to every card's net: a cross takes all copies of the row, an undo clears its side, a revalidation caps removes at the new list, a discard clears both. |
| PendingNet.AddingSession | frontend/src/features/cubes/lib/pendingDiff.ts:82-89 | Any session of picks and imports adds up: the net is the starting one plus all copies carried, at most 99. |
| PendingNet.PreviewIsNet | frontend/src/features/cubes/components/CubeEditorPage.tsx:33-63 | While the list covers the removes, the preview shows the list's copies plus the net. |
| PendingNet.ClickShows | frontend/src/features/cubes/components/CubeEditorPage.tsx:33-63 | Below the cap one pick shows one copy more of that card, one minus one less, a cross none; no other card's number changes. |
| PendingNet.PrintingShown | frontend/src/features/cubes/lib/pendingDiff.ts:135-148 | Choosing a printing for a pending add changes that printing and nothing else. |
| RateLimit.RateLimiter.Allow | backend/internal/platform/httpapi/ratelimit.go:45-68 | The in-place call, pruning loop included, equals the counting function on the pruned table. |
| RateLimit.PruningUnobservable | backend/internal/platform/httpapi/ratelimit.go:47-54 | With a clock that does not go back, every answer is that of a limiter that never prunes. |
| RateLimit.WindowsOk | backend/internal/platform/httpapi/ratelimit.go:55-67 | A key's counter is the number of calls let through since its window opened. |
| RateLimit.AtMostLimitPerWindow | backend/internal/platform/httpapi/ratelimit.go:55-67 | At most the limit (and at most one for a limit below 1) is let through in a window. |
| RateLimit.AtMostTwiceTheLimit | backend/internal/platform/httpapi/ratelimit.go:55-67 | At most twice that in any half-open interval as long as the window. |
| RateLimit.WhoGetsThrough | backend/internal/platform/httpapi/ratelimit.go:57-67 | A call gets through if and only if its key has no open window or fewer calls than the limit got through since it opened: nobody is turned away below the limit, and other keys do not matter. |
| RateLimit.FirstCallGetsThrough | backend/internal/platform/httpapi/ratelimit.go:58-62 | With a limit below 1, one call goes through a window: more than the limit. |
| RateLimit.LimitKeptFromOneUp | backend/internal/platform/httpapi/ratelimit.go:55-67 | No window ever exceeds the limit, and no stretch of its length twice the limit, if and only if the limit is at least 1. |
| CardList.ParseImportText | backend/internal/cards/list.go:43-56 | The loop parses every non-blank line, with its line number, or refuses more than 500 of them. |
| CardList.ParsedLineSound | backend/internal/cards/list.go:110-148 | An accepted line has a quantity from 1 to 999, a name, a set code of 2 to 5 characters or none, and a collector number only with a set code. |
| CardList.SelectorsRead | backend/internal/cards/list.go:67-84 | The selectors are split off a printed line's name, whatever the name contains. |
| CardList.LineReads | backend/internal/cards/list.go:110-148 | A printed line is read back field by field. |
| CardList.RoundTrip | frontend/src/features/collection/lib/cardmarket.ts:15-26 | Parsing a printed list of at most 500 well-formed items returns every quantity and name with lowercased selectors. |
| CardList.CountedLine | backend/internal/cards/list.go:110-138 | A count in front, with or without an x, is the quantity from 1 to 999; a year-shaped or 64-bit-overflowing number belongs to the name; any other makes the line unreadable. |
| CardList.BareName | backend/internal/cards/list.go:120-124 | A line that starts with neither digit nor sign is a name, once. |
| CardList.SetOnly | backend/internal/cards/list.go:79-83 | A trailing set code without a collector number is read, in lower case. |
| CardList.NoSelectors | backend/internal/cards/list.go:67-84 | A text that ends in neither a set code nor a set code and a collector number is a name as it stands. |
| CardList.EveryLineOnce | backend/internal/cards/list.go:43-56 | Exactly the non-blank lines are read, once each, in order, under their position with blank lines counted. |
| Calendar.EscapeRoundTrip | frontend/src/features/events/lib/calendar.ts:42-48 | Unescaping escaped text (section 3.3.11 of RFC 5545) returns it with CRLF read as LF. |
| Calendar.NoLineFeedLeft | frontend/src/features/events/lib/calendar.ts:42-48 | Escaped text has no line feed left. |
| Calendar.FoldIcsLine | frontend/src/features/events/lib/calendar.ts:53-71 | The loop cuts a line into the longest pieces that fit. |
| Calendar.UnfoldFolded | frontend/src/features/events/lib/calendar.ts:53-71 | Unfolding (section 3.1 of RFC 5545) a folded line gives it back. |
| Calendar.ChunksConcat | frontend/src/features/events/lib/calendar.ts:53-71 | The pieces put together are the line: no character is split, lost or doubled. |
| Calendar.FoldedFits | frontend/src/features/events/lib/calendar.ts:53-71 | No physical line is longer than 75 octets. |
| Calendar.BuildIcs | frontend/src/features/events/lib/calendar.ts:73-90 | The file is the folded content lines, each ended by CRLF. |
| Calendar.FileReads | frontend/src/features/events/lib/calendar.ts:73-90 | A reader that unfolds the file and splits it gets exactly the content lines, and under UID, DTSTAMP, DTSTART and DTEND the event's own id and stamps, under SUMMARY its name, and under DESCRIPTION and LOCATION its texts, which are absent if and only if they are empty. |

## Left out

- HTTP handlers, JSON, sign-in, mail, the Scryfall client, React components, translations: plumbing around the modelled parts.
- Fuzzy search, Unicode normalisation and the card look-ups of `ResolveList`: database and library behaviour the repository does not show.
- Stripe's side: a session, a charge and a refund are just ids; a refused refund call is a step that does nothing. Disputes are not modelled.
- Isolation below the transaction: `DenyRefund` and the row updates after an event is called off run without the event lock and are treated as one atomic update each.
- Calendar.BuildIcs: takes the start and end stamps as given; making them from a date is the browser's Date.
- Clocks: time is an integer (minutes for the payment windows), and the limiter assumes a clock that does not go back. `UndropUntilNextRound` assumes one past the drop at every later step; that can fail without any skew, because a round's time is the start of its transaction and a drop's is read under the lock, so `UndropByCreationTimes` and `PairedWhileWaiting` say what holds without it.
- Columns nothing else depends on: paid-at and published-at times, checkout URLs, seeds, result reporters, emails.
- SwissStandings.ComputeStandings: uses reals for the floating-point percentages, so rounding within the comparison tolerance is not modelled.
- SwissPair.PairIsDeterministic: takes the generator's answers as given and its keys as distinct; how a seed makes them, and how the library sort breaks a collision of keys, is not modelled.
- Integers are unbounded: overflow of 32-bit quantities and counters is not modelled.
- Map iteration order: the pending diff's maps are walked in an arbitrary order given as a parameter.
- The catalogue of printings does not change during a run of commits, and a printing belongs to one oracle card.
- CubeService.CubeStore.ApplyChange: takes any number of lines and any positive quantities; the endpoint's bounds are stated where diffs are made, in `PendingDiff.InRange`.
- PendingDiff.SavingIsAccepted: assumes the caller is signed in, the cube still exists and the note has at most 500 characters, which the note's field enforces.
- CubeService.CubeStore.GetCards: the current list's order by card name, since rows here carry no names.
- Schedule validation when an event is edited: its verdict is a parameter.
- Cube links of an event, the read side of a tournament (dispute flags and report history), collections, pagination: queries without a protocol behind them.
- Lone UTF-16 surrogates in calendar text: characters are Unicode scalar values.
- Order of the roster by display name: the roster is a sequence in any order.
