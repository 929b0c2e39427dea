# A model of the payment-recovery agent's decision engine

The repository decides what to do about failed payments: it collects webhook events, folds them into a
verdict, lets two bounded agent loops gather evidence and word a message, and puts every proposal before a
gate that derives everything again. This project models the deterministic part of that engine and the runs
around it, and proves what it keeps.

The files follow the program:

- `Banking.dfy`, `BankingDays.dfy`: day numbers with a civil calendar behind them, banking days, deadlines; which
  civil dates are closed.
- `Common.dfy`, `Events.dfy`, `Claims.dfy`, `ClaimTheorems.dfy`, `Verdicts.dfy`: shared types, observations and
  their store, customer claims and how they are judged, the tables.
- `Fold.dfy`, `PaymentTheorems.dfy`, `FoldTheorems.dfy`, `EvidenceTheorems.dfy`, `VerdictTheorems.dfy`: the
  reduction of events to payments, the rule ladder, what they guarantee, what each kind of evidence can do, and
  when each verdict is given.
- `Gate.dfy`, `GateTheorems.dfy`, `CallTheorems.dfy`, `VetoTheorems.dfy`, `Digest.dfy`: the vetoes and when each is
  given, what an allowed action implies, and the texts that the evidence digest and the idempotency key hash.
- `SettledTheorems.dfy`, `SmallStreams.dfy`, `SmallLinks.dfy`, `WaitingTheorems.dfy`, `ClaimOrder.dfy`: which
  streams stay settled; streams of one and two events worked out, and on them the exact conditions of properties
  of the fold and the gate that can fail.
- `Pipeline.dfy`, `Executor.dfy`, `Scheduler.dfy`, `Worker.dfy`, `WorkerTheorems.dfy`, `WorkerDecisions.dfy`,
  `WorkerOutcomes.dfy`: one worker process as a transition system that interleaves at every await; what its state
  keeps, what its decisions rest on, and what stands behind its outcomes.
- `SmallRuns.dfy`, `TickProgress.dfy`, `StaleTick.dfy`, `RepeatedCall.dfy`: runs put together move by move, on which
  the tick gets through its batch, sends a link on stale rows, and a failed call is made again.
- `Ingress.dfy`, `IngressLog.dfy`: dedupe, append and publish, with concurrent requests; what a run announces and
  counts.
- `Resolver.dfy`, `ResolverEvidence.dfy`, `Strategist.dfy`, `Breaker.dfy`, `Scanner.dfy`: the two agent loops against
  a model that may answer anything and what they gather, the circuit breaker, and the JSON scanner.

What the source updates in place is a class here (`PaymentState`, `OrderState`, the store, the executor, the
scheduler, the dedupe map, the breaker, the ingress), each method proved equal to a function on values; the
theorems are about those functions, over all inputs, all runs or all reachable states.

Conventions. A confidence is an integer in ten-thousandths (`_degrade` rounds to four places). Times are epoch
seconds and a date is a day number; the breaker's monotonic clock is real-valued. Money is a natural number of
paise, as the source's validator demands. An error source, step or reason, a payment status and a template are
the enumerations the code compares them with, plus one case for every other text. A veto is its rule tag. A
recheck, a clock reading, a model reply, a probe result and an answer of a remote service are arguments.

`FoldConfig.Valid()` says that `next_banking_day` raises on no date of the calendar in use. On other calendars
`fold` itself raises where it needs a deadline; `Banking.NextBankingDayLoop` and `Banking.AddBankingDays` model
that error. `Banking.FewHolidaysUsable` shows that fewer than forty holidays are enough, and
`Banking.ShippedCalendarUsable` that the shipped calendar is one of those.

Some claims turned out to hold only under a condition, or to need one the code does not check. Where the
condition is exact, the theorem is an if-and-only-if:

- No implicit-consent link is licensed by waiting exactly when the settlement horizon has three days or more,
  whatever the calendar and the TAT window (`WaitingTheorems.NeverLicensedIff`). With two or less, an attempt
  whose response was lost and a retry that the customer cancelled earn a link on the third midnight.
- A capture is recorded under the payment of the gate's idempotency key exactly when nothing on the order failed
  and the order's first payment is the authorised one (`Pipeline.CaptureKeyedOnTargetIff`): `_target_payment` and
  the gate pick the payment by different rules. `Pipeline.CaptureKeyedOnFailure` is a stream on which they differ.
- The stores of all runs of a set of webhook bodies converge exactly when every body that can be stored carries
  its own time (`Ingress.StoresConvergeIffTimed`). Without it even the verdicts diverge
  (`Ingress.UntimedVerdictsDiverge`).
- No resolver probe runs twice, whatever the model and the fold answer, exactly when every wired probe that is
  not skipped reports under its own name (`Resolver.NeverTwiceIffNamed`); one that does not runs in every round
  (`Resolver.MisnamedProbeRunsAgain`).
- The strategist stops after three turns when its probes report under their own names
  (`Strategist.NamedProbesTakeThreeTurns`). For probes that find the same whenever they run, the exact condition
  is `Strategist.ThreeTurnsIff`: a misnamed downtime probe spends every turn of some model, and so does a misnamed
  history probe, unless its finding is taken for a bank-wide outage, which ends the loop
  (`Strategist.BankWideHistoryEndsTheLoop`).
- Over a set of event ids without colons, the digest's text tells the streams of clean events apart exactly when
  no id of the set is another of them with digits in front; when no stream holds an id twice, as the store
  guarantees, there must be a third id besides for two streams to share a text (`Digest.TextTellsStreamsIff`). Ids
  that start with no digit and ids of one fixed length meet the condition. Without it times that have all the same
  number of digits are enough (`Digest.VersionIsItsText`). A colon in an id or an event type makes two events share
  a text whatever the ids (`Digest.ColonsRunTogether`).
- A usable customer claim restricts, so that the verdict moves to DUPLICATE_RISK only and otherwise gets no surer,
  exactly when a usable claim stands before it or the first one after it does not say that money has left
  (`ClaimOrder.ClaimsRestrictIff`). It gives no permission at the gate exactly when a usable claim stands before it,
  the first one after it cannot confirm any payment, or some probe was unavailable
  (`ClaimOrder.ClaimsRemovePermissionsIff`): otherwise a complaint put in front brings back a link that a confirmed
  debit had taken away. The resolver appends its claims, but `services/pipeline.py:144` puts a caller's
  `seed_evidence` behind the resolver's evidence, so the claim the resolver reads does stand in front of a seeded
  one and can hide it.
- `tick_scheduler` loads an order's rows before it takes the order's lock. Under the lock, until it records its
  decision, what it decides on covers the rows of the order's last decision exactly when that decision rests on no
  row stored after the load (`WorkerDecisions.TickSeesAllIff`). `StaleTick.TickCanDecideOnStaleRows` is a run on
  which it does not and the tick says CONFIRMED_FAILED after a handler's ORDER_SETTLED, and
  `StaleTick.TickCanSendStaleLink` goes on to the link it then sends although a capture is stored. Handlers load
  under the lock and always see all (`WorkerDecisions.HandlersSeeAll`). The other theorems hold all the same.
- One act per key counts the outcomes that the executor remembers, and it does not remember a call that failed. So
  one key can call outside again, though only after calls that failed
  (`WorkerOutcomes.CallsRepeatOnlyAfterFailures`) and never twice at once (`WorkerOutcomes.OneCallInFlightPerKey`);
  outside a dry run it does (`RepeatedCall.FailedCallIsRepeated`). A WhatsApp send can fail after its link was
  created, so the run model lets such a link open its order too.
- An order stays settled under every later event, evidence and time exactly when a `settlement.processed` or an
  `order.paid` is stored (`SettledTheorems.StaysSettledIff`): a larger amount due outgrows a capture.

Assumptions of the run theorems. One process and no crash. An event id belongs to one order. Every payment made
on an order that a link created comes with a stored event carrying the `source_order` stamp, and a created order
is new (`Worker.Plausible`, `Worker.Enabled`). `consume` handles one message at a time; the model allows any number
of handlers at once.

## Model

| member | source | states |
|---|---|---|
| Banking.CivilOfOrdinal | core/banking.py:52-58 | day numbers and civil dates are in bijection: counting days from the epoch undoes the closed Gregorian formula for every date |
| Banking.OrdinalOfCivil | core/banking.py:52-58 | and the formula undoes the counting |
| Banking.NthWeekdayCounts | core/banking.py:61-67 | `nth_weekday_of_month` is the number of dates of the month up to the date that share its weekday |
| BankingDays.ClosedIff | core/banking.py:61-76 | for every civil date: without holidays it is closed exactly on a Sunday, and on a Saturday of days 8 to 14 or 22 to 28, that is when the Saturdays of the month up to it number two or four |
| BankingDays.HolidaysClose | core/banking.py:70-76 | a holiday closes its own date and no other |
| Banking.NextBankingDayLoop | core/banking.py:79-86 | the search returns the least banking day after the date, and raises exactly when the next sixty dates hold none |
| Banking.AddBankingDays | core/banking.py:89-102 | raises on a negative count, otherwise lands on the n-fold next banking day or raises where that search does |
| Banking.NextExists | core/banking.py:79-86 | by pigeonhole, fewer than forty holidays among sixty dates leave a banking day |
| Banking.FewHolidaysUsable | core/banking.py:79-86 | on a calendar of fewer than forty holidays the search never raises, for any date |
| Banking.ShippedCalendarUsable | core/banking.py:34-86 | the shipped calendar never raises |
| BankingDays.SecondSaturdayIsSkipped | core/banking.py:70-122 | a failure at any time of Friday 9 January 2026 IST has its T+1 deadline at the end of Monday the twelfth, in epoch seconds |
| BankingDays.HolidayWeekendIsSkipped | core/banking.py:89-102 | the documented weekend: one banking day after Friday 23 January 2026 is Tuesday the twenty-seventh |
| Banking.AdvanceUnique | core/banking.py:89-136 | the date reached is the only banking day at which the count of elapsed banking days is n |
| Banking.AdvanceComposes | core/banking.py:89-102 | advancing m and then n banking days is advancing m + n |
| Banking.AdvanceMonotone | core/banking.py:89-102 | a later start and a larger n never end sooner |
| Banking.BankingDaysBetween | core/banking.py:125-136 | the loop counts the banking days of the half-open span, zero on a negative span |
| Banking.BetweenAdditive | core/banking.py:125-136 | counting is additive over adjacent spans |
| Banking.CountUndoesAdvance | core/banking.py:105-136 | from a moment to its deadline of n banking days there are n banking days |
| Banking.DeadlineMonotone | core/banking.py:114-122 | the deadline is monotone in both arguments |
| Banking.DeadlineNeverEarly | core/banking.py:114-155 | the banking deadline is never before n times 24 hours |
| Banking.WindowByElapsedDays | core/banking.py:125-146 | fewer than n elapsed banking days means inside the window, more means outside, and on exactly n the window is open on the deadline's own date only |
| Events.CanonicalOrderSorts | core/events.py:260-266 | the canonical order is sorted by event time and id and is a permutation of the observations |
| Events.CanonicalByTimeThenId | core/events.py:260-266 | by time first and at one time by id, compared as text |
| Events.InMemoryStore.Append | core/events.py:196-202 | appends unless the pair of order and event id is stored, says which, and keeps the pairs unique |
| Events.InMemoryStore.Load | core/events.py:204-205 | returns the order's rows in their order |
| Events.RowsOfJoin | core/events.py:204-205 | the rows of an order are found row by row and keep their order |
| Events.RowsOfOne | core/events.py:204-205 | a row is among them exactly when its order id is the one asked for |
| Common.LexLeIff | core/events.py:260-266 | ids are compared as texts: a prefix first, otherwise by the first character that differs |
| Claims.AssessClaimLoop | core/claims.py:125-175 | a claim confirms exactly when a debit is claimed and the quoted digits, or failing any quoted, some reference in the text, are digits the payment carries |
| Claims.StandaloneReferenceFound | core/claims.py:87-108 | a reference of 9 to 22 digits that stands alone in a text is always found |
| Claims.MissedExtractionStillConfirms | core/claims.py:143-149 | when the model misses the reference but the text carries the RRN, the claim still confirms |
| ClaimTheorems.DigitsJoin | core/claims.py:97-98 | the digits of a text are those of its parts, one after the other |
| ClaimTheorems.DigitsOfOne | core/claims.py:97-98 | one character stays exactly when it is a digit |
| ClaimTheorems.ReferencesJoin | core/claims.py:87-108 | where no run of digits crosses, the references of a text are those of its parts |
| ClaimTheorems.ReferencesOfRun | core/claims.py:87-108 | a run of digits gives nothing below nine, itself up to twenty-two, and its first twenty-two and what the rest gives beyond |
| ClaimTheorems.AssessmentIff | core/claims.py:125-175 | exactly when a claim confirms, contradicts and is not judged, on RRN and UPI id: quoted digits decide, and without them only a reference of the payment in the text confirms |
| Fold.PaymentState.Apply | core/fold.py:91-131 | updates a payment object in place to the value that the theorems on payments characterise |
| Fold.OrderState.Observe | core/fold.py:224-235 | one turn of the reduction updates totals, flags and the payment named, and no other payment's value |
| Fold.BuildState | core/fold.py:221-244 | builds the state of the canonically ordered stream in fresh objects |
| Fold.FirstFailure | core/fold.py:242-243 | the least of the payments' failure times, None exactly when none failed |
| Fold.LatestFailureIsFirst | core/fold.py:364 | the failure judged is a failed payment whose failure time no other exceeds, and of several such the first, as `max` returns |
| Fold.FailureLadder | core/fold.py:364-450 | the early-return ladder that appends to the rules fired computes the ruling on the latest failure |
| Fold.FoldLadder | core/fold.py:270-450 | the imperative fold computes the pure fold of the stream |
| PaymentTheorems.PaymentPerId | core/fold.py:231-235 | a payment is on the order exactly when some observation names it |
| PaymentTheorems.FailureIsTheLatest | core/fold.py:106-113 | failure time and error detail are those of the payment's last `payment.failed`, whatever followed it |
| PaymentTheorems.MarkedAtTheLatest | core/fold.py:105-118 | failure, authorisation and capture times are those of the payment's last such events |
| PaymentTheorems.StatusIsTheLatest | core/fold.py:105-122 | the status is what the payment's last status event set |
| PaymentTheorems.StatusIsTheFirstReported | core/fold.py:126-131 | without a status event the first recognised reported status stands |
| PaymentTheorems.RefundsAreRemembered | core/fold.py:120-125 | the refund flags say exactly whether such an event was ever seen |
| PaymentTheorems.FirstReferenceStays | core/fold.py:101-103 | rail, RRN and UPI id are the first that any observation of the payment carried |
| PaymentTheorems.FirstAmountStays | core/fold.py:100 | the amount is the first that is not zero |
| PaymentTheorems.TotalsAreTheGreatest | core/fold.py:225-230 | order flags say whether the event was seen; due and paid are the greatest reported |
| PaymentTheorems.AmountDueIs | core/fold.py:224-241 | the amount due is the greatest reported, and only when none is reported the greatest amount of an attempt |
| FoldTheorems.FoldIsSetFunction | core/fold.py:221-450 | any two streams with the same elements, in any order and multiplicity, give the same result, when time and id identify an observation |
| FoldTheorems.FoldIgnoresDelivery | core/fold.py:221-450 | also when they were received at different times |
| FoldTheorems.CaptureSettles | core/fold.py:209-322 | with one common amount, a payment whose last status event is its capture makes the verdict ORDER_SETTLED, whatever else failed, in any order and under any evidence |
| FoldTheorems.LastWriteLosesTheCapture | core/fold.py:498-510 | on the stream of scenario A the last write in arrival order says FAILED while the fold says ORDER_SETTLED |
| VerdictTheorems.VerdictIff | core/fold.py:308-450 | exactly when each verdict is given, on every stream, evidence, time and configuration, by conditions that do not depend on the order in which rules are tried |
| VerdictTheorems.OrderRuleIff | core/fold.py:308-362 | exactly when each rule on the order as a whole decides, R1 to R8 |
| VerdictTheorems.FailureRuleIff | core/fold.py:364-450 | exactly when each rule on the failure judged fires, R9 to R15 |
| VerdictTheorems.LastRuleDecides | core/fold.py:254-450 | verdict and confidence are those of the last rule fired, less 0.12 for each unanswered probe and 0.30 at most; only a mismatched reference or the expired window stands before it |
| VerdictTheorems.ResultSays | core/fold.py:286-306 | the action proposed by each verdict, the totals, the sibling flag and the order id of the result |
| VerdictTheorems.FlippableIff | core/fold.py:134-181 | an attempt can still move exactly when it is neither captured, refunded nor failed as a fact, and a dated failure is within the settlement horizon |
| VerdictTheorems.AuthorizedRecheck | core/fold.py:334-342 | UNCAPTURED_AUTH is looked at again at the earliest of the authorised attempts' settlement deadlines |
| EvidenceTheorems.SilentAnswerChangesNothing | core/fold.py:308-495 | an available answer that is no usable claim, no outage on the rail of a failed payment and no settlement of a payment of the order leaves the whole result and every veto as they were, wherever it stands |
| EvidenceTheorems.OutageElsewhereChangesNothing | core/fold.py:480-495 | so an outage on a rail that no failed payment is on, all those rails being known, changes neither fold nor gate |
| EvidenceTheorems.OutageSealsFailure | core/fold.py:134-181 | an outage without a method, or on the payment's own rail, makes a failure before any debit unflippable at every time |
| EvidenceTheorems.OutageConfirmsFailure | core/fold.py:375-395 | and when that failure is the one judged, and no rule before it fires, it is R10 |
| EvidenceTheorems.OwnRailDecides | core/fold.py:480-495 | inside the TAT window a netbanking failure waits under a UPI outage and is CONFIRMED_FAILED under one of its own rail |
| EvidenceTheorems.SettlementReportSettles | core/fold.py:308-318 | a settlement report of a payment of the order settles it |
| EvidenceTheorems.UnansweredOnlyCosts | core/fold.py:254-268 | a probe without an answer costs confidence and does nothing else: the result is that of the answers alone, less the penalty |
| FoldTheorems.VerdictOverTime | core/fold.py:419-440 | as time passes the verdict changes only from PENDING_TAT to UNRESOLVED or CONFIRMED_FAILED, just past the deadline, and no attempt becomes flippable again |
| FoldTheorems.RecheckLeavesPendingTat | core/fold.py:419-425 | folding at or after the recheck time is not PENDING_TAT, and that time is ahead |
| SettledTheorems.StaysSettledIff | core/fold.py:221-322 | a stream stays ORDER_SETTLED under every extension, evidence and time exactly when it holds a `settlement.processed` or an `order.paid` |
| FoldTheorems.ClaimOnlyRestricts | core/fold.py:408-440 | a usable claim anywhere among the evidence, unless in front of one that says money has left, changes the verdict only to DUPLICATE_RISK and only on a reference match with the latest failure; otherwise confidence does not rise |
| FoldTheorems.LaterClaimIsIgnored | core/fold.py:408-418 | a claim behind another usable claim leaves the whole result as it was |
| ClaimOrder.EarlierClaimHidesLater | core/fold.py:408-418 | a claim put in front of a confirming one hides it: alone it makes DUPLICATE_RISK, behind a complaint without a debit it does not |
| ClaimOrder.ClaimsRestrictIff | core/fold.py:408-440 | at a place among the evidence every usable claim restricts, on every stream at every time, exactly when a usable claim stands before that place or the first one after it claims no debit |
| Gate.EvidenceVersionLoop | services/gate/rules.py:113-118 | the hash absorbs the triples of the canonically ordered events |
| Gate.RecoverySourceIsLatestStamp | services/gate/rules.py:121-135 | the source order reported is the stamp of the latest stamped observation, and of the first of those when several are as late |
| Gate.Accumulate | services/gate/rules.py:225-387 | one append per check, made when that check fires, leaves the list that the theorems on the gate are about: no check dropped, reordered or guarded differently |
| Gate.AppendLongVariables | services/gate/rules.py:325-335 | the loop over the variables appends one veto for each variable that is too long |
| Gate.Evaluate | services/gate/rules.py:165-400 | the gate's decision is a function of the stream, the evidence and the intent: the verdict and state are derived again |
| GateTheorems.LinkAllowedIff | services/gate/rules.py:225-378 | a link is allowed exactly when no sibling can flip, the order is not paid, the verdict is not settled or duplicate, the key is new, both confidences reach the floor and the message is clear |
| GateTheorems.MessageClearIff | services/gate/rules.py:300-378 | the message checks pass exactly under the listed compliance conditions, with the registered rails, destinations, 72 hours, five variables and thirty characters written out |
| VetoTheorems.VetoedIff | services/gate/rules.py:225-387 | exactly which vetoes are given: each tag by its own condition, on every proposal, stream, evidence, time and customer |
| VetoTheorems.KeyIsOfJudged | services/gate/rules.py:189-223 | the key names the failure judged, or the first payment of an order without one, the proposed action and the version |
| CallTheorems.CallAllowedIff | services/gate/rules.py:284-387 | a voice call is allowed exactly when its confidence is at least 0.85, the message is clear, consent is at most seven days old and the clock of India shows nine to twenty-one |
| CallTheorems.QuietActionAllowedIff | services/gate/rules.py:284-296 | of the other actions that move no money only a notification has a floor |
| GateTheorems.AllowedLinkIsConfirmedFailed | services/gate/rules.py:231-296 | an allowed link rests on CONFIRMED_FAILED with no unavailable evidence and an observed payment, for any intent |
| GateTheorems.AllowedRefund | services/gate/rules.py:270-296 | an allowed refund has no unavailable evidence and money to refund |
| GateTheorems.AllowedCapture | services/gate/rules.py:264-296 | an allowed capture has an authorised payment, no captured one and at most one unavailable probe |
| GateTheorems.NoLinkLicensedByWaiting | services/gate/rules.py:227-318 | with a horizon of at least three days, an allowed implicit-consent link means every payment's fate is sealed independently of time |
| WaitingTheorems.ShortHorizonLicensesWaiting | services/gate/rules.py:227-318 | on every calendar and TAT window, with a horizon of at most two days, there is a stream that earns a link though one payment's fate is open |
| WaitingTheorems.NeverLicensedIff | services/gate/rules.py:227-318 | so no link is ever licensed by waiting exactly when the horizon is at least three days |
| GateTheorems.AllowedLinkRules | core/fold.py:344-440 | then the verdict came from one of the five rules that establish a fact, never from a wait that ran out |
| GateTheorems.CaptureBarsEveryLink | services/gate/rules.py:240-244 | a stream on which a capture settles allows no link |
| GateTheorems.ClaimsOnlyRemovePermissions | services/gate/rules.py:240-296 | whatever is allowed with a usable claim among the evidence is allowed without it, when a usable claim stands before it, the first one after it can confirm no payment, or a probe was unavailable |
| ClaimOrder.ClaimsRemovePermissionsIff | services/gate/rules.py:240-296 | and that condition is exact: otherwise a claim of no debit makes the gate allow a link that it refused |
| GateTheorems.AllowedLinkIsUnstamped | services/gate/rules.py:348-354 | an allowed link needs an observed payment and no stamp anywhere in the stream |
| Digest.Absorb | services/gate/rules.py:115-118 | the loop absorbs the concatenated event texts |
| Digest.VersionTellsEventsApart | services/gate/rules.py:113-118 | the concatenated text determines the events when no id starts with a digit, no id or event type holds a colon and times are not negative |
| Digest.EqualLengthsTellEventsApart | services/gate/rules.py:113-118 | ids may start with a digit when all times have the same number of digits, still without colons and negative times |
| Digest.VersionIsItsText | services/gate/rules.py:113-118 | two clean streams have the same version exactly when they have the same text, when their ids do not run together or their times have all the same number of digits |
| Digest.TextTellsStreamsIff | services/gate/rules.py:113-118 | over a set of ids without colons all clean streams have texts of their own exactly when no id is another with digits in front; for streams that hold no id twice, when no such pair has a third id beside it |
| Digest.DigitsRunTogether | services/gate/rules.py:117 | a digit at the start of an id reads as the last digit of the time before: two different canonical pairs of events share a text |
| Digest.ColonsRunTogether | services/gate/rules.py:117 | with a colon in an id or an event type, two different events share a text |
| Digest.SameKeySameEvents | services/gate/rules.py:102-118 | decisions with one key have one action and the same events: new evidence makes a new key |
| Digest.KeyTellsApart | services/gate/rules.py:102-110 | the key's text determines payment, action and version, whatever a payment id contains |
| Pipeline.ModelChoosesNoAction | services/pipeline.py:183-304 | money moves only by the verdict's own proposal and never with more confidence than the fold's, a refund is never proposed, a link only on CONFIRMED_FAILED |
| Pipeline.VerdictProposes | services/pipeline.py:287-302 | where neither a link nor a call is proposed the intent is the verdict's own action, as sure as the verdict, without a message |
| CallTheorems.CallProposedIff | services/strategist/voice.py:90-118 | a call is proposed exactly for UNRESOLVED or DUPLICATE_RISK, with consent of at most seven days and a reference to ask about |
| CallTheorems.PipelineCallPassesIff | services/pipeline.py:243-286 | and passes the gate exactly by day in India, for a customer off the full block list who opted out of nothing, on no link's order, with a number or with nothing known |
| Pipeline.MessageIsReply | services/strategist/graph.py:391-424 | template, variables and rail are the model's reply, no surer than the verdict; without one the plain retry over SMS |
| Pipeline.ChosenChannelDelivers | services/pipeline.py:325-377 | if some registered channel reaches the customer, the chosen one is registered and reaches them |
| Pipeline.ChannelIsPreferred | services/pipeline.py:325-377 | the rail is the engaged one if it delivers, otherwise the first of WhatsApp, SMS and email that does, otherwise unchanged |
| Pipeline.ReachableIff | services/gate/rules.py:138-162 | which rails reach a customer of whom something is known |
| Pipeline.CapturePassesIff | services/pipeline.py:287-302 | the pipeline's capture passes the gate exactly with at most one unavailable probe and a new key |
| Pipeline.CaptureKeyedOnTargetIff | services/pipeline.py:305-322 | the payment captured is the payment of the idempotency key exactly when nothing failed and the first payment is the authorised one |
| Pipeline.CaptureKeyedOnFailure | services/pipeline.py:305-322 | after a failed and an authorised attempt the capture of the second carries the key of the first |
| Executor.Executor.Record | services/executor/main.py:138-142 | appends the outcome and remembers its key when it acted |
| Executor.Executor.Execute | services/executor/main.py:144-271 | each call appends one outcome: VETOED when not allowed, SKIPPED for a key that acted, the service's answer for a remote call, and for a local action its status with a queue entry when a human has to work it |
| Executor.CallsIff | services/executor/main.py:177-236 | exactly what goes to an outside service, and nothing in a dry run |
| Executor.BeginRecorded | services/executor/main.py:154-259 | what is recorded without a call: VETOED, SKIPPED, STUBBED or EXECUTED by the three tests, and exactly the escalations, holds and calls carried out are queued for a human |
| Executor.BeginKeeps | services/executor/main.py:156-259 | up to its await, `execute` keeps one act per key, the executed keys exact and one queue entry per act for a human |
| Executor.ResumeKeeps | services/executor/main.py:187-271 | and after its await, as long as the key was not recorded meanwhile |
| Scheduler.InMemoryScheduler.Schedule | services/scheduler/main.py:34-38 | the earliest deadline wins |
| Scheduler.InMemoryScheduler.Due | services/scheduler/main.py:40-44 | returns every due order once, by due time, and removes exactly those |
| WorkerTheorems.NextKeepsInv | services/worker.py:118-178 | every step of every task keeps the invariant of store, locks, ledger, timers, batch and links |
| WorkerTheorems.RunKeepsInv | services/worker.py:118-178 | so does every run |
| WorkerTheorems.EachKeyActsOnce | services/worker.py:132-144 | over every interleaving each idempotency key acts at most once, `executed` is exactly the keys that acted, and the human queue holds one entry per act that needs one |
| WorkerTheorems.SameEventsSameKey | services/gate/rules.py:102-118 | decisions of one action on one set of events carry one key |
| WorkerTheorems.LinksNeverChain | services/executor/main.py:304-314 | over all runs no order that a link created is the source of a link, and no link is even attempted for such an order |
| WorkerTheorems.OpenedOrdersGetNoLink | services/executor/main.py:304-314 | once a link has opened an order, no link is ever attempted for it however the run goes on |
| WorkerTheorems.NoLockIsLost | services/worker.py:132-144 | in every reachable state each lock belongs to a living task at work on that order |
| WorkerTheorems.RecheckNeverForgotten | services/pipeline.py:163-166 | in every reachable state an order whose last decision asks for a recheck, PENDING_TAT or UNCAPTURED_AUTH, has a timer no later than that or is in the batch being ticked |
| WorkerTheorems.TickTakesUpTheDue | services/worker.py:165-176 | a tick at or after the recheck takes the order up and its timer is gone |
| TickProgress.TickDrainsBatch | services/worker.py:165-176 | from every state with the due orders unlocked the tick can decide its whole batch, each order on all its rows at the tick's time |
| Worker.LatestEventIsFirst | services/worker.py:135-141 | triage looks at the first of the latest events |
| WorkerDecisions.HandlersPassTriage | services/worker.py:135-144 | in every run no handler is past triage on rows whose latest event is outside the payment lifecycle |
| WorkerTheorems.WaitingAgainNeedsNewerFailure | core/fold.py:419-425 | of two folds of an order, the later at or after the recheck of the earlier, both wait only when the later saw a newer failure |
| WorkerDecisions.NextKeepsMade | services/worker.py:118-178 | every step keeps: each verdict of a task and each last decision is the fold of stored rows of its order, each once, on its evidence at its time; the tick decides at its own time; each outcome is keyed on stored rows |
| WorkerDecisions.DecisionsAreFolds | services/pipeline.py:113-166 | in every reachable state the last decision on an order is the fold of stored rows of that order, on its evidence and at its time |
| WorkerDecisions.SameEventsActOnce | services/executor/main.py:144-160 | on the ledger of every run, two outcomes that acted with one action are keyed on different sets of stored events |
| WorkerDecisions.TickEndsTheWait | services/worker.py:165-176 | in every run, what the tick decides of an order whose recheck has come by the tick's time is not PENDING_TAT, unless a later `payment.failed` of the order is stored |
| WorkerDecisions.TickReplacesTheWait | services/worker.py:165-176 | and that is what the step that records the tick's decision leaves as the order's last decision |
| WorkerDecisions.HandlersSeeAll | services/worker.py:118-144 | in every run a handler decides on every row that the last decision on its order rested on |
| WorkerDecisions.TickSeesAllIff | services/worker.py:165-176 | from the lock until it records its decision, the tick decides on all rows the last decision on the order rested on exactly when that decision rests on no row stored after the tick loaded, in particular when nothing was decided on the order between the load and the lock |
| StaleTick.TickCanDecideOnStaleRows | services/worker.py:165-176 | on every configuration some run has the tick decide CONFIRMED_FAILED, under the lock, on rows older than those of a last decision ORDER_SETTLED |
| StaleTick.TickCanSendStaleLink | services/worker.py:165-176 | and outside a dry run its link then passes the gate and is sent, with a capture of the order stored |
| WorkerOutcomes.NextKeepsPassed | services/executor/main.py:144-271 | every step keeps: no outside call is recorded after an act under its key, whatever moves money passed the gate on stored rows under its key, and a call under way passed it on its task's rows, time and evidence |
| WorkerOutcomes.CallsRepeatOnlyAfterFailures | services/executor/main.py:138-160 | over every interleaving, of two outside calls under one key the earlier is FAILED |
| WorkerOutcomes.OneCallInFlightPerKey | services/worker.py:132-144 | no two calls under way carry one key, nor a key that has acted |
| RepeatedCall.FailedCallIsRepeated | services/executor/main.py:138-160 | outside a dry run some run has two calls under one key, the first FAILED and the second with either answer |
| WorkerOutcomes.OutcomesAreJustified | services/gate/rules.py:165-400 | over every interleaving, whatever was done or tried passed the gate on stored rows of its order, was aimed at the payment they call for, and is justified: a link by CONFIRMED_FAILED with no unavailable evidence and no stamp, and with every fate sealed on implicit consent under a horizon of three days; a refund by money to refund; a capture by an authorised payment, its target, and none captured; a call by a clear message, fresh consent and daytime |
| WorkerOutcomes.ProposalsAreJustified | services/gate/rules.py:165-400 | at every step of every run, the same of what a proposal does at once or calls for, on its task's own rows, time and evidence |
| WorkerOutcomes.DryRunCallsNobody | services/executor/main.py:177-236 | in a dry run no reachable state has a call under way or recorded |
| WorkerOutcomes.CallsAreJustified | services/gate/rules.py:165-400 | the same of each call under way, on the rows, time and evidence of its own task |
| Ingress.InMemoryDedupe.Claim | core/infra.py:33-39 | a claim wins exactly when none is alive, and a win sets its expiry |
| Ingress.Ingress.Webhook | services/ingress/main.py:62-121 | 400 only for an unsigned or unnamed request; otherwise 200, and of claim, append, counters, greatest skew and publish exactly those of its branch: duplicate, unparseable, orphan or stored |
| IngressLog.FinishedAreAnnounced | services/ingress/main.py:79-121 | over every run the published keys are those of the finished requests, in order: one order id per completed append and one `_orphan` per parsed body without an order; every stored row's order has been published |
| IngressLog.NothingIsLost | services/ingress/main.py:62-121 | what was taken on is finished or pending, and each delivery was taken on, rejected or a duplicate |
| IngressLog.ClaimsLastAWeek | core/infra.py:33-39 | a won claim can be won again from seven days later on, and no other claim changes |
| IngressLog.SkewIsGreatest | services/ingress/main.py:97-104 | over every run `max_skew` is the greatest skew of what was stored, or zero |
| Ingress.RunKeeps | services/ingress/main.py:79-101 | whatever requests interleave and repeat, what was claimed is stored or on its way and nothing else is |
| Ingress.StoreIsDeterminedByEvents | services/ingress/main.py:79-101 | once requests are answered the store holds one row for each delivered event with an order, and no other |
| Ingress.RunsConverge | services/ingress/main.py:79-101 | two runs that delivered the same events, reordered, repeated or after an expired claim, fold alike for every order |
| Ingress.StoresConvergeIffTimed | core/events.py:84-104 | all runs that deliver the same of these bodies leave the same store exactly when every body that can be stored carries its own time |
| Ingress.UntimedVerdictsDiverge | core/events.py:84-104 | two runs that deliver one untimed failure at different times are UNRESOLVED and PENDING_TAT at one and the same moment |
| Scanner.ExtractJson | core/llm.py:205-236 | returns the shortest slice from the first brace at which the depth returns to zero, and fails exactly when there is none |
| Scanner.ScannerInvertsPrinter | core/llm.py:205-236 | for every object value and any surroundings without an earlier brace, the scanner returns the printed object, through nesting, braces in strings and escapes (sections 4 and 7 of RFC 8259) |
| Scanner.ValueIsQuiet | core/llm.py:219-235 | inside an object every printed value is read without moving the depth or closing the object |
| Scanner.EscapedPairIsSkipped | core/llm.py:219-235 | a backslash and the character behind it are read as if they were not there, inside a string or outside |
| Resolver.Attempted | services/resolver/graph.py:222-237 | the loop collects exactly the sources named by the fetch steps |
| Resolver.ChosenAreUntried | services/resolver/graph.py:266-308 | whatever the model asks for, the chosen probes are wired and untried, and there are none exactly when none is left |
| Resolver.ResolverEnds | services/resolver/graph.py:545-616 | at most 14 nodes, three rounds and seven requests to the model, four when no customer wrote, for every model and probe behaviour |
| Resolver.PrecheckAsksNoModel | services/resolver/graph.py:545-552 | a confident verdict ends the run at its first node without a request to the model |
| Resolver.PrecheckSettlesAllBut | services/resolver/graph.py:545-552 | the precheck passes an order on exactly when the rules say UNRESOLVED, PENDING_TAT or an unclassified customer reason |
| Resolver.CaptureAsksNoModel | services/resolver/graph.py:241-258 | an order whose capture settles it never reaches the model |
| Resolver.NoProbeRunsTwice | services/resolver/graph.py:266-308 | no probe runs twice in a run when the probes that can run report under their own names |
| Resolver.RunCountsIffNamed | services/resolver/graph.py:222-237 | a probe that ran alone counts as attempted exactly when it reported under its own name, and is chosen again for a model that asks exactly when it did not |
| Resolver.MisnamedProbeRunsAgain | services/resolver/graph.py:222-308 | under a fold that stays UNRESOLVED, a misnamed probe that the model keeps asking for is what each of the k rounds runs |
| Resolver.NeverTwiceIffNamed | services/resolver/graph.py:222-308 | no run of any model under any fold repeats a probe exactly when every probe that can run reports under its own name |
| Resolver.EndsAreJustified | services/resolver/graph.py:395-417 | the verdict is always the fold of the evidence, and UNRESOLVED is final only in the third round or with every wired probe attempted |
| ResolverEvidence.VerdictIsFoldOfReports | services/resolver/graph.py:341-440 | over every run the final evidence is, round by round, the report of each probe that ran and then the claim the model read with its words, if the customer wrote, and nothing else; the verdict is the fold of just that |
| ResolverEvidence.RoundRuns | services/resolver/graph.py:341-376 | in a round each chosen probe that is not skipped runs once, chosen for that round's plan |
| ResolverEvidence.UntriedJoin | services/resolver/graph.py:266-308 | the probes still to try are found name by name and keep the order asked for |
| ResolverEvidence.UntriedOne | services/resolver/graph.py:218-238 | a probe is still to try exactly when it is wired and no fetch step names its source |
| ResolverEvidence.ChosenIs | services/resolver/graph.py:266-308 | the first three untried probes the model names, otherwise the fixed priorities, otherwise what is left three at a time |
| ResolverEvidence.GoesOnWhileUnresolved | services/resolver/graph.py:554-590 | another round or a narrative only while the verdict is UNRESOLVED |
| ResolverEvidence.RoutesIff | services/resolver/graph.py:545-590 | where a run goes past the precheck and after a round, exactly |
| ResolverEvidence.ModelCallsAre | services/resolver/graph.py:266-545 | exactly how often a finished run has asked the model and been answered: per plan, per reading once the customer wrote, and per narrative |
| ResolverEvidence.SkippedIff | services/resolver/graph.py:348-360 | exactly the shipped probes for the payment, its attempts and downtime are skipped, and only without an API client |
| ResolverEvidence.SkippedNeverRun | services/resolver/graph.py:348-360 | without an API client the shipped payment, attempts and downtime probes never run |
| Resolver.OutageTriesEverything | services/resolver/graph.py:272-339 | without a model an order left unresolved has had every wired probe attempted |
| Strategist.StrategistComposes | services/strategist/graph.py:428-507 | an intent is composed within 2 * MAX_TURNS nodes for every model, probe and budget, so the recursion limit is never met |
| Strategist.RunTellsTurns | services/strategist/graph.py:428-507 | over every run each probe answers the model's request of its turn within budget, the evidence is what they found in turn, probing ends for one of the listed reasons, and the intent is made of the reply to the composing node |
| Strategist.BankWideIff | services/strategist/graph.py:448-460 | an outage counts as bank-wide exactly when the first dictionary of a downtime probe reports one without a method |
| Strategist.IntentNeverSurerThanVerdict | services/strategist/graph.py:391-424 | the intent is a service-implicit link no surer than the verdict |
| Strategist.NamedProbesTakeThreeTurns | services/strategist/graph.py:443-461 | at most three turns and six nodes when probes report under their own names |
| Strategist.MisnamedProbeUsesEveryTurn | services/strategist/graph.py:428-461 | a misnamed downtime probe, or a misnamed history probe that reports no bank-wide outage, spends all six turns of a model that keeps asking for it |
| Strategist.BankWideHistoryEndsTheLoop | services/strategist/graph.py:448-460 | a misnamed history probe that reports a bank-wide outage runs once and the loop ends within two turns |
| Strategist.ThreeTurnsIff | services/strategist/graph.py:428-461 | for probes that find the same whenever they run, every model stays within three turns exactly when neither of those loops is open |
| Strategist.BankWideSkipsHistory | services/strategist/graph.py:448-460 | once a bank-wide outage is known no later finding hides it and history is never probed again |
| Breaker.CircuitBreaker.IsOpen | services/resolver/fetchers/__init__.py:56-63 | refuses while the cooldown runs and resets once it has passed |
| Breaker.CircuitBreaker.Record | services/resolver/fetchers/__init__.py:65-72 | a success resets, a failure counts and opens at the threshold |
| Breaker.CircuitBreaker.Guarded | services/resolver/fetchers/__init__.py:75-98 | the upstream is called exactly when the circuit does not refuse |
| Breaker.RunsKeepCircuitConsistent | services/resolver/fetchers/__init__.py:49-72 | in every run `opened_at` is set exactly when the failures have reached the threshold |
| Breaker.FailingUpstreamIsSpared | services/resolver/fetchers/__init__.py:42-98 | any stretch of T seconds in which every upstream call fails sees at most threshold * (floor(T / cooldown) + 1) of them, however the circuit was used before |
| Breaker.BurstReachesThreshold | services/resolver/fetchers/__init__.py:65-72 | the bound is met: of n failing calls at one moment exactly the threshold's number get through |
| Breaker.BurstAfterCooldown | services/resolver/fetchers/__init__.py:56-72 | after the cooldown a burst gets exactly as far again |
| Breaker.SuccessForgives | services/resolver/fetchers/__init__.py:65-68 | a success forgives all earlier failures |
| Breaker.NoCooldownNoProtection | services/resolver/fetchers/__init__.py:56-63 | with a cooldown of zero or less the circuit never refuses |

## Left out

- Calendars on which `next_banking_day` raises are outside the fold's model; the raise itself is modelled in Banking. Python's year range 1 to 9999 is not modelled. A negative `tat_banking_days` or `settle_horizon_days`, on which the fold raises, is excluded by the type.
- A settlement probe whose value is a dictionary: `fold` puts such values in a set and raises. The repository's own probe reports an id or None.
- Float rounding of confidences, beyond the four places that `_degrade` keeps.
- `str.isdigit` and `\d` on digits outside ASCII.
- sha256 itself, and the truncation of the evidence digest to sixteen hexadecimal digits, are taken to be injective; `Digest` proves when the hashed text is.
- The parsing of webhook bodies field by field, signature checking, and which sources an order id comes from; `Ingress` takes the parsed observation.
- The gate's audit fields (`derived`, `rendered`, reason texts) and template rendering.
- The text of requests to the payment provider and to WhatsApp; a remote call is an answer that succeeds or fails.
- Crash and restart: the executor's keys are in memory and a claim precedes its append, so a crash between them loses the event. Checkpoints, Redis, Postgres and Kafka are not modelled.
- The veto rows and the pending voice brief that concurrent decisions share on the pipeline object, and the outcome rows written to the analytics store.
- Triage: only its answer IGNORE on events outside the payment lifecycle is kept, in `Worker.Ignored`.
- The prompts, schemas, token accounting and the fallback chain of model clients. The strategist's budget checks are one arbitrary flag.
- The evidence that a caller of the pipeline seeds besides the resolver's is not told apart from it.
- Scheduler.InMemoryScheduler.Due: leaves the order of equal due times open, because Python keeps the dictionary's insertion order there, which a map does not have.
- WorkerTheorems.RecheckNeverForgotten: a recheck time of 0 is excluded, because `process` schedules a truthy time only.
- Breaker.FailingUpstreamIsSpared: is about calls one after another; calls in flight together can exceed the bound by their number.
- "One link per order" is not claimed: new evidence makes a new key.
