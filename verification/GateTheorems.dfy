/** What follows from the gate's checks together with the fold, the floors and the calendar. */
module GateTheorems {
  import opened Common
  import opened Banking
  import opened Events
  import opened Verdicts
  import opened Fold
  import opened FoldTheorems
  import PaymentTheorems
  import opened Gate

  predicate Allowed(intent: RecoveryIntent, obs: seq<Observation>, now: int, customer: CustomerContext,
                    seenKeys: set<Key>, cfg: FoldConfig, evidence: seq<Evidence>)
    requires cfg.Valid()
  {
    DecisionOf(intent, obs, now, customer, seenKeys, cfg, evidence).allowed
  }

  lemma {:induction false} NoLongVariable(variables: seq<string>)
    ensures LongVariableVetoes(variables) == [] <==> forall v :: v in variables ==> |v| <= MAX_VARIABLE_LEN
  {
    if variables != [] {
      assert variables == [variables[0]] + variables[1..];
      NoLongVariable(variables[1..]);
    }
  }

  /** Implicit consent lasts three times 24 hours from the order's first failure. */
  predicate FailedLongAgo(st: Order, now: int) {
    st.firstFailureAt.Some? && st.firstFailureAt.value != 0 && now - st.firstFailureAt.value > 259_200
  }

  /** Every template is registered for SMS and WhatsApp, and the plain retry for email besides. */
  predicate Registered(t: Option<TemplateId>, c: Option<Channel>) {
    t.Some? && (c == Some(Sms) || c == Some(Whatsapp) || (c == Some(Email) && t == Some(RcvRetry)))
  }

  /** Something is known to send the message to, or nothing at all is known of the customer. */
  predicate HasDestination(c: Channel, customer: CustomerContext) {
    || (customer.contact.None? && customer.email.None?)
    || (c == Email && Truthy(customer.email))
    || ((c == Sms || c == Voice || (c == Whatsapp && customer.whatsappReady)) && Truthy(customer.contact))
  }

  /** A message is clear to send, all of TCCCPR, DLT, reachability and opt-out considered. */
  predicate MessageClear(intent: RecoveryIntent, st: Order, obs: seq<Observation>, now: int,
                         customer: CustomerContext) {
    && intent.category != Promotional
    && (customer.dnd == FullyBlocked ==> intent.category == ServiceImplicit)
    && (intent.category == ServiceImplicit ==> !FailedLongAgo(st, now))
    && (intent.channel == Some(Voice) || Registered(intent.templateId, intent.channel))
    && |intent.variables| <= 5 && (forall v :: v in intent.variables ==> |v| <= 30)
    && (forall o :: o in obs ==> o.sourceOrder == "")
    && (intent.channel.Some? ==> HasDestination(intent.channel.value, customer))
    && customer.optedOutChannels == {}
  }

  lemma MessageClearIff(intent: RecoveryIntent, st: Order, obs: seq<Observation>, now: int, customer: CustomerContext)
    ensures MessageVetoes(intent, st, obs, now, customer) == [] <==> MessageClear(intent, st, obs, now, customer)
  {
    NoLongVariable(intent.variables);
    var m := MessageVetoes(intent, st, obs, now, customer);
    var long := LongVariableVetoes(intent.variables);
    assert |m| >= |long|;
  }

  /** Exactly when the gate allows a recovery link. The TAT check adds nothing to I3. */
  lemma LinkAllowedIff(intent: RecoveryIntent, obs: seq<Observation>, now: int, customer: CustomerContext,
                       seenKeys: set<Key>, cfg: FoldConfig, evidence: seq<Evidence>)
    requires cfg.Valid() && intent.action == SendRecoveryLink
    ensures Allowed(intent, obs, now, customer, seenKeys, cfg, evidence) <==>
            var truth, st := FoldOf(obs, now, "", evidence, cfg), StateOf(obs);
            && !truth.anySiblingNonTerminal
            && !(st.amountDue != 0 && AmountPaid(st) >= st.amountDue)
            && truth.verdict != OrderSettled && truth.verdict != DuplicateRisk
            && IdempotencyKey(intent, obs) !in seenKeys
            && intent.confidence >= 9_000 && truth.confidence >= 9_000
            && MessageClear(intent, st, obs, now, customer)
  {
    LinkVetoedOn(intent, StateOf(obs), FoldOf(obs, now, "", evidence, cfg), obs, now, customer,
                 IdempotencyKey(intent, obs) in seenKeys, cfg, evidence);
  }

  /** The same on a state and a verdict already derived. */
  lemma LinkVetoedOn(intent: RecoveryIntent, st: Order, truth: VerdictResult, obs: seq<Observation>, now: int,
                     customer: CustomerContext, seen: bool, cfg: FoldConfig, evidence: seq<Evidence>)
    requires cfg.Valid() && intent.action == SendRecoveryLink
    ensures VetoesOn(intent, st, truth, obs, now, customer, seen, cfg, evidence) == [] <==>
            && !AnyFlippable(st, now, cfg, evidence)
            && !(st.amountDue != 0 && AmountPaid(st) >= st.amountDue)
            && truth.verdict != OrderSettled && truth.verdict != DuplicateRisk
            && !seen && intent.confidence >= 9_000 && truth.confidence >= 9_000
            && MessageClear(intent, st, obs, now, customer)
  {
    var link, floor, message := LinkVetoesAre(intent, st, truth, obs, now, customer, seen, cfg, evidence);
    AllEmpty(link, floor, message);
  }

  /** A link's vetoes are those of its three groups of checks. */
  lemma LinkVetoesAre(intent: RecoveryIntent, st: Order, truth: VerdictResult, obs: seq<Observation>, now: int,
                      customer: CustomerContext, seen: bool, cfg: FoldConfig, evidence: seq<Evidence>)
    returns (link: seq<Veto>, floor: seq<Veto>, message: seq<Veto>)
    requires cfg.Valid() && intent.action == SendRecoveryLink
    ensures VetoesOn(intent, st, truth, obs, now, customer, seen, cfg, evidence) == link + floor + message
    ensures link == [] <==>
            && !AnyFlippable(st, now, cfg, evidence)
            && !(st.amountDue != 0 && AmountPaid(st) >= st.amountDue)
            && truth.verdict != OrderSettled && truth.verdict != DuplicateRisk
    ensures floor == [] <==> !seen && intent.confidence >= 9_000 && truth.confidence >= 9_000
    ensures message == [] <==> MessageClear(intent, st, obs, now, customer)
  {
    link := LinkVetoes(st, truth, now, cfg, evidence);
    floor := FloorVetoes(intent, truth, seen);
    message := MessageVetoes(intent, st, obs, now, customer);
    LinkVetoesIff(st, truth, now, cfg, evidence);
    FloorVetoesIff(intent, truth, seen);
    MessageClearIff(intent, st, obs, now, customer);
    ThreeGroups(intent, st, truth, obs, now, customer, seen, cfg, evidence);
  }

  lemma ThreeGroups(intent: RecoveryIntent, st: Order, truth: VerdictResult, obs: seq<Observation>, now: int,
                    customer: CustomerContext, seen: bool, cfg: FoldConfig, evidence: seq<Evidence>)
    requires cfg.Valid() && intent.action == SendRecoveryLink
    ensures VetoesOn(intent, st, truth, obs, now, customer, seen, cfg, evidence)
            == LinkVetoes(st, truth, now, cfg, evidence) + FloorVetoes(intent, truth, seen)
               + MessageVetoes(intent, st, obs, now, customer)
  {
  }

  lemma FloorVetoesIff(intent: RecoveryIntent, truth: VerdictResult, seen: bool)
    requires intent.action == SendRecoveryLink
    ensures FloorVetoes(intent, truth, seen) == [] <==>
            !seen && intent.confidence >= 9_000 && truth.confidence >= 9_000
  {
  }

  lemma AllEmpty<T>(a: seq<T>, b: seq<T>, c: seq<T>)
    ensures a + b + c == [] <==> a == [] && b == [] && c == []
  {
    assert |a + b + c| == |a| + |b| + |c|;
  }

  lemma LinkVetoesIff(st: Order, truth: VerdictResult, now: int, cfg: FoldConfig, evidence: seq<Evidence>)
    requires cfg.Valid()
    ensures LinkVetoes(st, truth, now, cfg, evidence) == [] <==>
            && !AnyFlippable(st, now, cfg, evidence)
            && !(st.amountDue != 0 && AmountPaid(st) >= st.amountDue)
            && truth.verdict != OrderSettled && truth.verdict != DuplicateRisk
  {
    if LatestInFlight(st, now, cfg, evidence) {
      assert LatestFailure(WithStatus(st.payments, Failed)) in st.payments;
    }
  }

  // -------------------------------------------------------- verdicts behind an action

  lemma DegradeBounds(confidence: nat, evidence: seq<Evidence>)
    requires confidence <= 9_900
    ensures Missing(evidence) == 0 ==> Degrade(confidence, evidence) == confidence
    ensures Missing(evidence) >= 1 ==> Degrade(confidence, evidence) <= 8_700
    ensures Missing(evidence) >= 2 ==> Degrade(confidence, evidence) <= 7_500
  {
  }

  lemma ConfidenceByVerdict(st: Order, now: int, evidence: seq<Evidence>, cfg: FoldConfig)
    requires cfg.Valid()
    ensures var r := Judge(st, now, evidence, cfg);
            && r.confidence <= 9_900
            && (r.confidence >= 9_000 ==> r.verdict != PendingTat && r.verdict != Unresolved)
            && (r.verdict == UncapturedAuth ==> WithStatus(st.payments, Authorized) != [])
            && (r.confidence >= 9_500 ==> r.verdict == OrderSettled || r.verdict == ConfirmedFailed)
            && (r.verdict == ConfirmedFailed ==> st.payments != [])
  {
    var byOrder := JudgeOrder(st, now, evidence, cfg);
    if byOrder.None? {
      FailureConfidence(LatestFailure(WithStatus(st.payments, Failed)), now, evidence, cfg);
    } else {
      OrderConfidence(st, now, evidence, cfg);
    }
  }

  lemma OrderConfidence(st: Order, now: int, evidence: seq<Evidence>, cfg: FoldConfig)
    requires cfg.Valid() && JudgeOrder(st, now, evidence, cfg).Some?
    ensures var r := JudgeOrder(st, now, evidence, cfg).value;
            && r.confidence <= 9_900 && r.verdict != PendingTat
            && (r.confidence >= 9_000 ==> r.verdict != Unresolved)
            && (r.verdict == UncapturedAuth ==> WithStatus(st.payments, Authorized) != [])
            && (r.confidence >= 9_500 ==> r.verdict == OrderSettled || r.verdict == ConfirmedFailed)
            && (r.verdict == ConfirmedFailed ==> st.payments != [])
  {
  }

  lemma FailureConfidence(p: Payment, now: int, evidence: seq<Evidence>, cfg: FoldConfig)
    requires cfg.Valid()
    ensures var r := JudgeFailure(p, now, evidence, cfg);
            && r.confidence <= 9_500 && r.verdict != UncapturedAuth
            && (r.confidence >= 9_000 ==> r.verdict != PendingTat && r.verdict != Unresolved)
            && (r.confidence >= 9_500 ==> r.verdict == OrderSettled || r.verdict == ConfirmedFailed)
  {
  }

  /** An allowed link rests on CONFIRMED_FAILED exactly, with every attempted probe answered. */
  lemma AllowedLinkIsConfirmedFailed(intent: RecoveryIntent, obs: seq<Observation>, now: int, customer: CustomerContext,
                                     seenKeys: set<Key>, cfg: FoldConfig, evidence: seq<Evidence>)
    requires cfg.Valid() && intent.action == SendRecoveryLink
    requires Allowed(intent, obs, now, customer, seenKeys, cfg, evidence)
    ensures FoldOf(obs, now, "", evidence, cfg).verdict == ConfirmedFailed
    ensures Missing(evidence) == 0
    ensures StateOf(obs).payments != []
  {
    LinkAllowedIff(intent, obs, now, customer, seenKeys, cfg, evidence);
    var st := StateOf(obs);
    var r := Judge(st, now, evidence, cfg);
    assert obs != [];
    ConfidenceByVerdict(st, now, evidence, cfg);
    DegradeBounds(r.confidence, evidence);
    if r.verdict == UncapturedAuth {
      AuthorizedIsFlippable(st, now, cfg, evidence);
    }
  }

  lemma AuthorizedIsFlippable(st: Order, now: int, cfg: FoldConfig, evidence: seq<Evidence>)
    requires cfg.Valid() && WithStatus(st.payments, Authorized) != []
    ensures AnyFlippable(st, now, cfg, evidence)
  {
    var p := WithStatus(st.payments, Authorized)[0];
    assert p in WithStatus(st.payments, Authorized);
    assert Flippable(p, now, cfg, evidence);
  }

  /** An allowed refund has every probe answered; what it refunds was captured or authorised. */
  lemma AllowedRefund(intent: RecoveryIntent, obs: seq<Observation>, now: int, customer: CustomerContext,
                      seenKeys: set<Key>, cfg: FoldConfig, evidence: seq<Evidence>)
    requires cfg.Valid() && intent.action == Refund
    requires Allowed(intent, obs, now, customer, seenKeys, cfg, evidence)
    ensures Missing(evidence) == 0 && !NothingToRefund(StateOf(obs))
    ensures var v := FoldOf(obs, now, "", evidence, cfg).verdict; v == OrderSettled || v == ConfirmedFailed
  {
    var st := StateOf(obs);
    ConfidenceByVerdict(st, now, evidence, cfg);
    DegradeBounds(Judge(st, now, evidence, cfg).confidence, evidence);
  }

  /** An allowed capture has an authorised payment, no captured one, and at most one dead probe. */
  lemma AllowedCapture(intent: RecoveryIntent, obs: seq<Observation>, now: int, customer: CustomerContext,
                       seenKeys: set<Key>, cfg: FoldConfig, evidence: seq<Evidence>)
    requires cfg.Valid() && intent.action == Capture
    requires Allowed(intent, obs, now, customer, seenKeys, cfg, evidence)
    ensures Missing(evidence) <= 1
    ensures WithStatus(StateOf(obs).payments, Authorized) != [] && WithStatus(StateOf(obs).payments, Captured) == []
    ensures var v := FoldOf(obs, now, "", evidence, cfg).verdict; v == OrderSettled || v == UncapturedAuth
  {
    var st := StateOf(obs);
    CaptureChecks(intent, st, FoldOf(obs, now, "", evidence, cfg), obs, now, customer,
                  IdempotencyKey(intent, obs) in seenKeys, cfg, evidence);
    AuthorizedNotCaptured(st, now, evidence, cfg);
    DegradeBounds(Judge(st, now, evidence, cfg).confidence, evidence);
  }

  lemma CaptureChecks(intent: RecoveryIntent, st: Order, truth: VerdictResult, obs: seq<Observation>, now: int,
                      customer: CustomerContext, seen: bool, cfg: FoldConfig, evidence: seq<Evidence>)
    requires cfg.Valid() && intent.action == Capture
    ensures VetoesOn(intent, st, truth, obs, now, customer, seen, cfg, evidence) == [] <==>
            && WithStatus(st.payments, Authorized) != [] && WithStatus(st.payments, Captured) == []
            && !seen && intent.confidence >= 8_000 && truth.confidence >= 8_000
  {
  }

  lemma AuthorizedNotCaptured(st: Order, now: int, evidence: seq<Evidence>, cfg: FoldConfig)
    requires cfg.Valid() && WithStatus(st.payments, Authorized) != [] && WithStatus(st.payments, Captured) == []
    ensures var r := Judge(st, now, evidence, cfg);
            && (r.verdict == OrderSettled || r.verdict == UncapturedAuth) && 9_300 <= r.confidence <= 9_900
  {
  }

  // ------------------------------------------------------ nothing is licensed by waiting

  /** Event times are positive, as epoch seconds are. */
  ghost predicate PositiveTimes(obs: seq<Observation>) {
    forall o :: o in obs ==> o.eventTime > 0
  }

  lemma FailureTimesPositive(s: seq<Observation>)
    requires PositiveTimes(s)
    ensures forall p :: p in Reduced(s).payments && p.failedAt.Some? ==> p.failedAt.value > 0
  {
    PaymentTheorems.FailureFromEvent(s);
  }

  /** Past the settlement horizon the consent window has closed. */
  lemma HorizonOutlivesConsent(p: Payment, st: Order, now: int, cfg: FoldConfig, evidence: seq<Evidence>)
    requires cfg.Valid() && cfg.settleHorizonDays >= 3
    requires p in st.payments && p.status == Some(Failed) && !DeadForGood(p, evidence)
    requires st.firstFailureAt == FirstFailure(st.payments)
    requires forall q :: q in st.payments && q.failedAt.Some? ==> q.failedAt.value > 0
    requires !Flippable(p, now, cfg, evidence)
    ensures ConsentLapsed(st, now)
  {
    DeadlineNeverEarly(p.failedAt.value, cfg.settleHorizonDays, cfg.holidays);
  }

  /** A payment whose fate time cannot change. */
  predicate FateSealed(p: Payment, evidence: seq<Evidence>) {
    p.status == Some(Captured) || p.status == Some(Refunded) || (p.status == Some(Failed) && DeadForGood(p, evidence))
  }

  lemma UnflippableIsSettled(st: Order, now: int, cfg: FoldConfig, evidence: seq<Evidence>)
    requires cfg.Valid() && cfg.settleHorizonDays >= 3
    requires st.firstFailureAt == FirstFailure(st.payments)
    requires forall q :: q in st.payments && q.failedAt.Some? ==> q.failedAt.value > 0
    requires !AnyFlippable(st, now, cfg, evidence) && !ConsentLapsed(st, now)
    ensures forall p :: p in st.payments ==> FateSealed(p, evidence)
  {
    forall p | p in st.payments ensures FateSealed(p, evidence) {
      assert !Flippable(p, now, cfg, evidence);
      if p.status == Some(Failed) && !DeadForGood(p, evidence) {
        HorizonOutlivesConsent(p, st, now, cfg, evidence);
      }
    }
  }

  /** No link is licensed by waiting: before the horizon I3 refuses and after it CONSENT does, so
      an allowed implicit-consent link means every failed payment is dead whatever the time. */
  lemma NoLinkLicensedByWaiting(intent: RecoveryIntent, obs: seq<Observation>, now: int, customer: CustomerContext,
                                seenKeys: set<Key>, cfg: FoldConfig, evidence: seq<Evidence>)
    requires cfg.Valid() && cfg.settleHorizonDays >= 3 && PositiveTimes(obs)
    requires intent.action == SendRecoveryLink && intent.category == ServiceImplicit
    requires Allowed(intent, obs, now, customer, seenKeys, cfg, evidence)
    ensures forall p :: p in StateOf(obs).payments ==> FateSealed(p, evidence)
  {
    LinkAllowedIff(intent, obs, now, customer, seenKeys, cfg, evidence);
    CanonicalOrderElements(obs);
    FailureTimesPositive(CanonicalOrder(obs));
    UnflippableIsSettled(StateOf(obs), now, cfg, evidence);
  }

  /** So the rule that lets a wait expire, R13, never reaches a customer on implicit consent. */
  lemma AllowedLinkRules(intent: RecoveryIntent, obs: seq<Observation>, now: int, customer: CustomerContext,
                         seenKeys: set<Key>, cfg: FoldConfig, evidence: seq<Evidence>)
    requires cfg.Valid() && cfg.settleHorizonDays >= 3 && PositiveTimes(obs)
    requires intent.action == SendRecoveryLink && intent.category == ServiceImplicit
    requires Allowed(intent, obs, now, customer, seenKeys, cfg, evidence)
    ensures FinalRules(FoldOf(obs, now, "", evidence, cfg).rulesFired)
  {
    NoLinkLicensedByWaiting(intent, obs, now, customer, seenKeys, cfg, evidence);
    AllowedLinkIsConfirmedFailed(intent, obs, now, customer, seenKeys, cfg, evidence);
    LinkAllowedIff(intent, obs, now, customer, seenKeys, cfg, evidence);
    RulesWhenSettled(StateOf(obs), now, evidence, cfg);
  }

  /** The five rules that establish a failure as a fact rather than by the passing of time. */
  predicate FinalRules(rules: seq<Rule>) {
    rules == [R6_RefundProcessed] || rules == [R6b_CapturedThenRefunded] || rules == [R9_CustomerTerminal]
    || rules == [R9b_BusinessRejection] || rules == [R10_DowntimePreDebit]
  }

  lemma RulesWhenSettled(st: Order, now: int, evidence: seq<Evidence>, cfg: FoldConfig)
    requires cfg.Valid() && forall p :: p in st.payments ==> FateSealed(p, evidence)
    ensures Judge(st, now, evidence, cfg).verdict == ConfirmedFailed ==> FinalRules(Judge(st, now, evidence, cfg).rules)
  {
    if JudgeOrder(st, now, evidence, cfg).None? {
      var latest := LatestFailure(WithStatus(st.payments, Failed));
      assert latest in st.payments;
      RefundedReachesR6(st, latest, now, evidence, cfg);
      assert DeadForGood(latest, evidence);
    }
  }

  lemma RefundedReachesR6(st: Order, p: Payment, now: int, evidence: seq<Evidence>, cfg: FoldConfig)
    requires cfg.Valid() && p in st.payments && JudgeOrder(st, now, evidence, cfg).None?
    ensures !p.refundProcessed
  {
  }

  // ------------------------------------------------------------------ captures, claims

  /** A captured attempt bars every link on a stream of one common amount. */
  lemma CaptureBarsEveryLink(intent: RecoveryIntent, obs: seq<Observation>, id: string, amount: nat, now: int,
                             customer: CustomerContext, seenKeys: set<Key>, cfg: FoldConfig, evidence: seq<Evidence>)
    requires cfg.Valid() && id != "" && amount > 0 && intent.action == SendRecoveryLink
    requires CommonAmount(obs, amount) && LastStatusIsCapture(CanonicalOrder(obs), id)
    ensures !Allowed(intent, obs, now, customer, seenKeys, cfg, evidence)
  {
    CaptureSettles(obs, id, amount, now, "", evidence, cfg);
    LinkAllowedIff(intent, obs, now, customer, seenKeys, cfg, evidence);
  }

  /** The inserted claim cannot give permission: one stands before it, none after it confirms any payment,
      or an unavailable probe keeps every ruling on the failures below the floors. */
  predicate ClaimGivesNothing(a: seq<Evidence>, b: seq<Evidence>) {
    HoldsClaim(a) || !FirstCanConfirm(b) || Missing(a + b) > 0
  }

  /** The result with a claim is no surer of the same verdict, or no basis for a link or a refund. */
  predicate Harmless(with: VerdictResult, without: VerdictResult) {
    || (with.verdict == without.verdict && with.confidence <= without.confidence)
    || with.confidence < 9_000
    || (with.verdict == DuplicateRisk && with.confidence == 9_000)
  }

  lemma ClaimHarmlessToFailureRules(p: Payment, now: int, a: seq<Evidence>, c: Evidence, b: seq<Evidence>,
                                    cfg: FoldConfig)
    requires cfg.Valid() && UsableClaim(c) && ClaimGivesNothing(a, b)
    ensures var with, without := JudgeFailure(p, now, a + [c] + b, cfg), JudgeFailure(p, now, a + b, cfg);
            || (with.verdict == without.verdict && with.confidence <= without.confidence)
            || with.confidence < 9_000
            || (with.confidence == 9_000 && (with.verdict == DuplicateRisk || Missing(a + b) > 0))
  {
    InsertedClaimIsOtherwiseInvisible(a, c, b);
    AssessmentOfInserted(a, c, b, p);
    FirstClaimAssessed(b, p);
    FailureRulesByClaim(p, now, a + [c] + b, a + b, cfg);
  }

  /** Two evidence lists on which the failure rules differ by the claim read alone. */
  lemma FailureRulesByClaim(p: Payment, now: int, e: seq<Evidence>, f: seq<Evidence>, cfg: FoldConfig)
    requires cfg.Valid() && DowntimeMatches(e, p.rail) == DowntimeMatches(f, p.rail)
    ensures var with, without := JudgeFailure(p, now, e, cfg), JudgeFailure(p, now, f, cfg);
            || (ClaimAssessment(e, p) == ClaimAssessment(f, p) && with == without)
            || (with.verdict == without.verdict && with.confidence <= without.confidence)
            || with.confidence < 9_000
            || (with.confidence == 9_000
                && (with.verdict == DuplicateRisk || ClaimAssessment(f, p) == Some(Claims.Confirms)))
  {
  }

  lemma ClaimHarmless(st: Order, empty: bool, now: int, orderId: string, a: seq<Evidence>, c: Evidence,
                      b: seq<Evidence>, cfg: FoldConfig)
    requires cfg.Valid() && UsableClaim(c) && ClaimGivesNothing(a, b)
    ensures var without := FoldState(st, empty, now, orderId, a + b, cfg);
            var with := FoldState(st, empty, now, orderId, a + [c] + b, cfg);
            && Harmless(with, without)
            && (JudgeOrder(st, now, a + b, cfg).Some? ==> with == without)
  {
    InsertedClaimIsNotMissing(a, c, b);
    ClaimInvisibleToSiblings(st, now, cfg, a, c, b);
    ClaimInvisibleToOrderRules(st, now, a, c, b, cfg);
    if !empty && JudgeOrder(st, now, a + b, cfg).None? {
      ClaimHarmlessToFailureRules(LatestFailure(WithStatus(st.payments, Failed)), now, a, c, b, cfg);
    }
  }

  /** Whatever is allowed with a customer's claim among the evidence is allowed without it, unless the
      claim stands in front of one that can confirm a payment. */
  lemma ClaimsOnlyRemovePermissions(intent: RecoveryIntent, obs: seq<Observation>, now: int, customer: CustomerContext,
                                    seenKeys: set<Key>, cfg: FoldConfig, a: seq<Evidence>, c: Evidence,
                                    b: seq<Evidence>)
    requires cfg.Valid() && UsableClaim(c) && ClaimGivesNothing(a, b)
    requires Allowed(intent, obs, now, customer, seenKeys, cfg, a + [c] + b)
    ensures Allowed(intent, obs, now, customer, seenKeys, cfg, a + b)
  {
    ClaimHarmless(StateOf(obs), obs == [], now, OrderIdOf(obs, ""), a, c, b, cfg);
    AuthorizedDecided(StateOf(obs), now, a + b, cfg);
    ClaimRemovesPermission(intent, StateOf(obs), FoldOf(obs, now, "", a + b, cfg),
                           FoldOf(obs, now, "", a + [c] + b, cfg), obs, now, customer,
                           IdempotencyKey(intent, obs) in seenKeys, cfg, a, c, b);
  }

  lemma AuthorizedDecided(st: Order, now: int, evidence: seq<Evidence>, cfg: FoldConfig)
    requires cfg.Valid()
    ensures WithStatus(st.payments, Authorized) != [] && WithStatus(st.payments, Captured) == []
            ==> JudgeOrder(st, now, evidence, cfg).Some?
  {
  }

  /** On a state and the two verdicts: no money-moving action survives a result that claims made better. */
  lemma ClaimRemovesPermission(intent: RecoveryIntent, st: Order, without: VerdictResult, with: VerdictResult,
                               obs: seq<Observation>, now: int, customer: CustomerContext, seen: bool, cfg: FoldConfig,
                               a: seq<Evidence>, c: Evidence, b: seq<Evidence>)
    requires cfg.Valid() && UsableClaim(c) && Harmless(with, without)
    requires WithStatus(st.payments, Authorized) != [] && WithStatus(st.payments, Captured) == [] ==> with == without
    requires VetoesOn(intent, st, with, obs, now, customer, seen, cfg, a + [c] + b) == []
    ensures VetoesOn(intent, st, without, obs, now, customer, seen, cfg, a + b) == []
  {
    if intent.action == SendRecoveryLink {
      ClaimInvisibleToSiblings(st, now, cfg, a, c, b);
      LinkVetoedOn(intent, st, with, obs, now, customer, seen, cfg, a + [c] + b);
      LinkVetoedOn(intent, st, without, obs, now, customer, seen, cfg, a + b);
    } else if intent.action == Capture {
      CaptureChecks(intent, st, with, obs, now, customer, seen, cfg, a + [c] + b);
      CaptureChecks(intent, st, without, obs, now, customer, seen, cfg, a + b);
    } else if intent.action == Refund {
      RefundChecks(intent, st, with, obs, now, customer, seen, cfg, a + [c] + b);
      RefundChecks(intent, st, without, obs, now, customer, seen, cfg, a + b);
    } else {
      OtherActionsIgnoreTruth(intent, st, without, with, obs, now, customer, seen, cfg, a + b, a + [c] + b);
    }
  }

  lemma RefundChecks(intent: RecoveryIntent, st: Order, truth: VerdictResult, obs: seq<Observation>, now: int,
                     customer: CustomerContext, seen: bool, cfg: FoldConfig, evidence: seq<Evidence>)
    requires cfg.Valid() && intent.action == Refund
    ensures VetoesOn(intent, st, truth, obs, now, customer, seen, cfg, evidence) == [] <==>
            !NothingToRefund(st) && !seen && intent.confidence >= 9_500 && truth.confidence >= 9_500
  {
  }

  lemma OtherActionsIgnoreTruth(intent: RecoveryIntent, st: Order, a: VerdictResult, b: VerdictResult,
                                obs: seq<Observation>, now: int, customer: CustomerContext, seen: bool, cfg: FoldConfig,
                                e1: seq<Evidence>, e2: seq<Evidence>)
    requires cfg.Valid() && !MoneyMoving(intent.action)
    ensures VetoesOn(intent, st, a, obs, now, customer, seen, cfg, e1)
            == VetoesOn(intent, st, b, obs, now, customer, seen, cfg, e2)
  {
  }

  // ----------------------------------------------------------------------- the chain

  /** Some observation of the stream names the payment. */
  ghost predicate Observed(s: seq<Observation>, p: Payment) {
    p.id != "" && exists o :: o in s && o.paymentId == Some(p.id)
  }

  /** A payment of the state after a step was there, or is the one just named. */
  lemma StepPayments(st: Order, o: Observation, p: Payment)
    requires p in Step(st, o).payments
    ensures (exists q :: q in st.payments && q.id == p.id) || (p.id != "" && o.paymentId == Some(p.id))
  {
    if Truthy(o.paymentId) && p !in st.payments {
      var i := IndexOf(st.payments, o.paymentId.value);
      assert p == if i < |st.payments| then Applied(st.payments[i], o) else Applied(NewPayment(o.paymentId.value), o);
    }
  }

  lemma {:induction false} PaymentsAreObserved(s: seq<Observation>)
    ensures forall p :: p in Reduced(s).payments ==> Observed(s, p)
  {
    if s != [] {
      var front, last := s[..|s| - 1], s[|s| - 1];
      assert s == front + [last] && last in s;
      PaymentsAreObserved(front);
      forall p | p in Reduced(s).payments ensures Observed(s, p) {
        StepPayments(Reduced(front), last, p);
        if q :| q in Reduced(front).payments && q.id == p.id {
          assert Observed(front, q);
          var o :| o in front && o.paymentId == Some(q.id);
          assert o in s;
        }
      }
    }
  }

  /** An allowed link needs an observed payment and no `source_order` stamp anywhere. */
  lemma AllowedLinkIsUnstamped(intent: RecoveryIntent, obs: seq<Observation>, now: int, customer: CustomerContext,
                               seenKeys: set<Key>, cfg: FoldConfig, evidence: seq<Evidence>)
    requires cfg.Valid() && intent.action == SendRecoveryLink
    requires Allowed(intent, obs, now, customer, seenKeys, cfg, evidence)
    ensures forall o :: o in obs ==> o.sourceOrder == ""
    ensures exists o :: o in obs && Truthy(o.paymentId)
  {
    LinkAllowedIff(intent, obs, now, customer, seenKeys, cfg, evidence);
    AllowedLinkIsConfirmedFailed(intent, obs, now, customer, seenKeys, cfg, evidence);
    PaymentsAreObserved(CanonicalOrder(obs));
    CanonicalOrderElements(obs);
    assert StateOf(obs).payments[0] in StateOf(obs).payments;
  }
}
