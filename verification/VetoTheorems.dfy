/** Which vetoes a proposal draws, each by its own condition and whatever the others do. */
module VetoTheorems {
  import opened Common
  import opened Banking
  import opened Events
  import opened Verdicts
  import opened Fold
  import opened Gate
  import opened GateTheorems
  import opened CallTheorems
  import opened VerdictTheorems

  /** The confidence an action asks for. */
  function Floor(a: Action): nat {
    if a == Refund then 9_500 else if a == SendRecoveryLink then 9_000 else if a == VoiceCall then 8_500
    else if a == Capture then 8_000 else if a == NotifyMerchant then 6_000 else 0
  }

  predicate Moves(a: Action) { a == Capture || a == SendRecoveryLink || a == Refund }

  predicate Speaks(a: Action) { a == SendRecoveryLink || a == VoiceCall }

  /** The correctness checks. */
  ghost predicate CorrectnessVetoed(v: Veto, intent: RecoveryIntent, st: Order, truth: VerdictResult, now: int,
                                    seen: bool, cfg: FoldConfig, evidence: seq<Evidence>)
    requires cfg.Valid()
  {
    var link := intent.action == SendRecoveryLink;
    match v
    case I3 => link && exists p :: p in st.payments && Flippable(p, now, cfg, evidence)
    case Settled => link && st.amountDue > 0 && Paid(st) >= st.amountDue
    case VerdictVeto => link && (truth.verdict == OrderSettled || truth.verdict == DuplicateRisk)
    case Tat => link && InsideTat(st, now, cfg, evidence)
    case CaptureVeto => intent.action == Capture && (!Has(st, Authorized) || Has(st, Captured))
    case RefundVeto => intent.action == Refund && !Has(st, Captured) && !Has(st, Authorized)
    case I5 => Moves(intent.action) && seen
    case Floor => intent.confidence < Floor(intent.action)
    case I7 => Moves(intent.action) && truth.confidence < Floor(intent.action)
    case _ => false
  }

  /** The compliance checks, on messages and calls alone. */
  ghost predicate ComplianceVetoed(v: Veto, intent: RecoveryIntent, st: Order, obs: seq<Observation>, now: int,
                                   customer: CustomerContext) {
    && Speaks(intent.action)
    && match v
       case Tcccpr => intent.category == Promotional
       case DndVeto => customer.dnd == FullyBlocked && intent.category != ServiceImplicit
       case Consent =>
         || (intent.category == ServiceImplicit && FailedLongAgo(st, now))
         || (intent.action == VoiceCall && customer.consentAgeDays > 7)
       case Dlt => !TemplateFits(intent)
       case RecoveryChain => exists o :: o in obs && o.sourceOrder != ""
       case Unreachable => intent.channel.Some? && !HasDestination(intent.channel.value, customer)
       case OptOut => customer.optedOutChannels != {}
       case Hours => intent.action == VoiceCall && !DaytimeAfter(LastMidnight(now), now)
       case _ => false
  }

  lemma InFour(v: Veto, a: seq<Veto>, b: seq<Veto>, c: seq<Veto>, d: seq<Veto>)
    ensures v in a + b + c + d <==> v in a || v in b || v in c || v in d
  {
  }

  /** The latest failure is on the way and the window of the first is open. */
  ghost predicate InsideTat(st: Order, now: int, cfg: FoldConfig, evidence: seq<Evidence>)
    requires cfg.Valid()
  {
    && st.firstFailureAt.Some? && st.firstFailureAt.value != 0 && Has(st, Failed)
    && var p := LatestFailure(WithStatus(st.payments, Failed));
       && p.errorSource in {Network, Gateway, Bank, Issuer} && Flippable(p, now, cfg, evidence)
       && now <= TatDeadline(st.firstFailureAt.value, cfg.tatBankingDays, cfg.holidays)
  }

  lemma InsideTatIff(st: Order, now: int, cfg: FoldConfig, evidence: seq<Evidence>)
    requires cfg.Valid()
    ensures InsideTat(st, now, cfg, evidence) <==>
            var failedAt := OrZero(st.firstFailureAt);
            && failedAt != 0 && LatestInFlight(st, now, cfg, evidence) && AmbiguousSource(LatestSource(st))
            && now <= TatDeadline(failedAt, cfg.tatBankingDays, cfg.holidays)
  {
    HasIff(st, Failed);
  }

  lemma LinkVetoed(v: Veto, st: Order, truth: VerdictResult, now: int, cfg: FoldConfig, evidence: seq<Evidence>)
    requires cfg.Valid()
    ensures v in LinkVetoes(st, truth, now, cfg, evidence) <==>
            || (v == I3 && exists p :: p in st.payments && Flippable(p, now, cfg, evidence))
            || (v == Settled && st.amountDue > 0 && Paid(st) >= st.amountDue)
            || (v == VerdictVeto && (truth.verdict == OrderSettled || truth.verdict == DuplicateRisk))
            || (v == Tat && InsideTat(st, now, cfg, evidence))
  {
    TwoIff(st);
    InsideTatIff(st, now, cfg, evidence);
    var failedAt := OrZero(st.firstFailureAt);
    InLink(v, AnyFlippable(st, now, cfg, evidence), st.amountDue != 0 && AmountPaid(st) >= st.amountDue,
           truth.verdict == OrderSettled || truth.verdict == DuplicateRisk,
           failedAt != 0 && LatestInFlight(st, now, cfg, evidence) && AmbiguousSource(LatestSource(st))
           && now <= TatDeadline(failedAt, cfg.tatBankingDays, cfg.holidays));
  }

  lemma InLink(v: Veto, flips: bool, paid: bool, decided: bool, inside: bool)
    ensures v in When(flips, I3) + When(paid, Settled) + When(decided, VerdictVeto) + When(inside, Tat) <==>
            || (v == I3 && flips) || (v == Settled && paid) || (v == VerdictVeto && decided) || (v == Tat && inside)
  {
    InFour(v, When(flips, I3), When(paid, Settled), When(decided, VerdictVeto), When(inside, Tat));
  }

  lemma MoneyVetoed(v: Veto, intent: RecoveryIntent, st: Order, truth: VerdictResult, seen: bool)
    ensures v in (if intent.action == Capture then CaptureVetoes(st) else []) <==>
            v == CaptureVeto && intent.action == Capture && (!Has(st, Authorized) || Has(st, Captured))
    ensures v in When(intent.action == Refund && NothingToRefund(st), RefundVeto) <==>
            v == RefundVeto && intent.action == Refund && !Has(st, Captured) && !Has(st, Authorized)
    ensures v in FloorVetoes(intent, truth, seen) <==>
            || (v == I5 && Moves(intent.action) && seen)
            || (v == Veto.Floor && intent.confidence < Floor(intent.action))
            || (v == I7 && Moves(intent.action) && truth.confidence < Floor(intent.action))
  {
    HasIff(st, Authorized);
    HasIff(st, Captured);
  }

  lemma CorrectnessVetoedIff(v: Veto, intent: RecoveryIntent, st: Order, truth: VerdictResult, now: int, seen: bool,
                             cfg: FoldConfig, evidence: seq<Evidence>)
    requires cfg.Valid()
    ensures v in InvariantVetoes(intent, st, truth, now, seen, cfg, evidence)
            <==> CorrectnessVetoed(v, intent, st, truth, now, seen, cfg, evidence)
  {
    LinkVetoed(v, st, truth, now, cfg, evidence);
    MoneyVetoed(v, intent, st, truth, seen);
  }

  lemma {:induction false} LongVariableVetoed(v: Veto, variables: seq<string>)
    ensures v in LongVariableVetoes(variables) <==> v == Dlt && exists x :: x in variables && |x| > 30
  {
    if variables != [] {
      LongVariableVetoed(v, variables[1..]);
      assert variables == [variables[0]] + variables[1..];
    }
  }

  lemma ConsentVetoed(v: Veto, intent: RecoveryIntent, st: Order, now: int, customer: CustomerContext)
    ensures v in ConsentVetoes(intent, st, now, customer) <==>
            || (v == Tcccpr && intent.category == Promotional)
            || (v == DndVeto && customer.dnd == FullyBlocked && intent.category != ServiceImplicit)
            || (v == Consent && intent.category == ServiceImplicit && FailedLongAgo(st, now))
  {
  }

  predicate TemplateFits(intent: RecoveryIntent) {
    && (intent.channel == Some(Voice) || Registered(intent.templateId, intent.channel))
    && |intent.variables| <= 5 && forall x :: x in intent.variables ==> |x| <= 30
  }

  lemma TemplateVetoed(v: Veto, intent: RecoveryIntent)
    ensures v in TemplateVetoes(intent) <==> v == Dlt && !TemplateFits(intent)
  {
    LongVariableVetoed(v, intent.variables);
  }

  lemma RecipientVetoed(v: Veto, intent: RecoveryIntent, obs: seq<Observation>, customer: CustomerContext)
    ensures v in RecipientVetoes(intent, obs, customer) <==>
            || (v == RecoveryChain && exists o :: o in obs && o.sourceOrder != "")
            || (v == Unreachable && intent.channel.Some? && !HasDestination(intent.channel.value, customer))
            || (v == OptOut && customer.optedOutChannels != {})
  {
    InFour(v, When(RecoverySource(obs) != "", RecoveryChain),
           When(intent.channel.Some? && !Reachable(intent.channel.value, customer), Unreachable),
           When(intent.channel.Some? && intent.channel.value in customer.optedOutChannels, OptOut),
           When(customer.optedOutChannels != {}, OptOut));
  }

  lemma ComplianceVetoedIff(v: Veto, intent: RecoveryIntent, st: Order, obs: seq<Observation>, now: int,
                            customer: CustomerContext)
    ensures v in ComplianceVetoes(intent, st, obs, now, customer)
            <==> ComplianceVetoed(v, intent, st, obs, now, customer)
  {
    InMessage(v, intent, st, obs, now, customer);
    InVoice(v, now, customer);
    if Speaks(intent.action) {
      MessageVetoed(v, intent, st, obs, now, customer);
    }
  }

  lemma MessageVetoed(v: Veto, intent: RecoveryIntent, st: Order, obs: seq<Observation>, now: int,
                      customer: CustomerContext)
    requires Speaks(intent.action)
    ensures ComplianceVetoed(v, intent, st, obs, now, customer) <==>
            || v in ConsentVetoes(intent, st, now, customer) || v in TemplateVetoes(intent)
            || v in RecipientVetoes(intent, obs, customer)
            || (intent.action == VoiceCall && v == Consent && customer.consentAgeDays > 7)
            || (intent.action == VoiceCall && v == Hours && !DaytimeAfter(LastMidnight(now), now))
  {
    ConsentVetoed(v, intent, st, now, customer);
    TemplateVetoed(v, intent);
    RecipientVetoed(v, intent, obs, customer);
  }

  lemma InMessage(v: Veto, intent: RecoveryIntent, st: Order, obs: seq<Observation>, now: int,
                  customer: CustomerContext)
    ensures v in MessageVetoes(intent, st, obs, now, customer) <==>
            || v in ConsentVetoes(intent, st, now, customer) || v in TemplateVetoes(intent)
            || v in RecipientVetoes(intent, obs, customer)
  {
  }

  lemma InVoice(v: Veto, now: int, customer: CustomerContext)
    ensures v in VoiceVetoes(now, customer) <==>
            || (v == Consent && customer.consentAgeDays > 7) || (v == Hours && !DaytimeAfter(LastMidnight(now), now))
  {
    CallingHoursIff(LastMidnight(now), now);
  }

  /** Exactly which vetoes the gate gives: every check speaks for itself, on every proposal, stream and customer. */
  lemma VetoedIff(v: Veto, intent: RecoveryIntent, obs: seq<Observation>, now: int, customer: CustomerContext,
                  seenKeys: set<Key>, cfg: FoldConfig, evidence: seq<Evidence>)
    requires cfg.Valid()
    ensures var st, truth := StateOf(obs), FoldOf(obs, now, "", evidence, cfg);
            v in Vetoes(intent, obs, now, customer, seenKeys, cfg, evidence) <==>
            || CorrectnessVetoed(v, intent, st, truth, now, IdempotencyKey(intent, obs) in seenKeys, cfg, evidence)
            || ComplianceVetoed(v, intent, st, obs, now, customer)
  {
    var st, truth := StateOf(obs), FoldOf(obs, now, "", evidence, cfg);
    CorrectnessVetoedIff(v, intent, st, truth, now, IdempotencyKey(intent, obs) in seenKeys, cfg, evidence);
    ComplianceVetoedIff(v, intent, st, obs, now, customer);
  }

  /** The payment of the key: the failure judged, or on an order without one its first payment. */
  lemma KeyIsOfJudged(intent: RecoveryIntent, obs: seq<Observation>)
    ensures var st, key := StateOf(obs), IdempotencyKey(intent, obs);
            && key.action == intent.action
            && (Has(st, Failed) ==> exists p :: Judged(st, p) && key.paymentId == p.id)
            && (!Has(st, Failed) && st.payments != [] ==> key.paymentId == st.payments[0].id)
            && (st.payments == [] ==> key.paymentId == "")
            && (intent.evidenceVersion.None? ==> key.version == EvidenceVersion(obs))
            && (intent.evidenceVersion.Some? ==> key.version == intent.evidenceVersion.value)
  {
    var st := StateOf(obs);
    HasIff(st, Failed);
    if Has(st, Failed) {
      JudgedIsLatest(st);
    }
  }
}
