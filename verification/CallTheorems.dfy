/** When the gate lets a voice call through, on the clock and on what is known of the customer. */
module CallTheorems {
  import opened Common
  import opened Events
  import opened Verdicts
  import opened Fold
  import opened Gate
  import opened GateTheorems
  import opened Pipeline

  /** An instant at which a day begins in India, five and a half hours before UTC's. */
  predicate IstMidnight(midnight: int) { (midnight + 19_800) % 86_400 == 0 }

  /** On the clock of the day that began at this midnight it is between nine and twenty-one, both included. */
  predicate DaytimeAfter(midnight: int, now: int) { 32_400 <= now - midnight <= 75_600 }

  /** The midnight before. */
  function LastMidnight(now: int): (midnight: int)
    ensures IstMidnight(midnight) && midnight <= now < midnight + 86_400
    ensures forall m :: IstMidnight(m) && m <= now < m + 86_400 ==> m == midnight
  {
    now - (now + 19_800) % 86_400
  }

  lemma CallingHoursIff(midnight: int, now: int)
    requires IstMidnight(midnight) && midnight <= now < midnight + 86_400
    ensures InCallingHours(now) <==> DaytimeAfter(midnight, now)
  {
    assert (now + 19_800) % 86_400 == now - midnight;
  }

  lemma CallVetoesIff(intent: RecoveryIntent, st: Order, truth: VerdictResult, obs: seq<Observation>, now: int,
                      customer: CustomerContext, seen: bool, cfg: FoldConfig, evidence: seq<Evidence>, midnight: int)
    requires cfg.Valid() && intent.action == VoiceCall
    requires IstMidnight(midnight) && midnight <= now < midnight + 86_400
    ensures VetoesOn(intent, st, truth, obs, now, customer, seen, cfg, evidence) == [] <==>
            && intent.confidence >= 8_500 && MessageClear(intent, st, obs, now, customer)
            && customer.consentAgeDays <= 7 && DaytimeAfter(midnight, now)
  {
    CallingHoursIff(midnight, now);
    MessageClearIff(intent, st, obs, now, customer);
    var floor, message, voice := FloorVetoes(intent, truth, seen), MessageVetoes(intent, st, obs, now, customer),
                                 VoiceVetoes(now, customer);
    CallVetoesAre(intent, st, truth, obs, now, customer, seen, cfg, evidence);
    AllEmpty(floor, message, voice);
  }

  lemma CallVetoesAre(intent: RecoveryIntent, st: Order, truth: VerdictResult, obs: seq<Observation>, now: int,
                      customer: CustomerContext, seen: bool, cfg: FoldConfig, evidence: seq<Evidence>)
    requires cfg.Valid() && intent.action == VoiceCall
    ensures VetoesOn(intent, st, truth, obs, now, customer, seen, cfg, evidence)
            == FloorVetoes(intent, truth, seen) + MessageVetoes(intent, st, obs, now, customer)
               + VoiceVetoes(now, customer)
  {
  }

  /** Exactly when the gate allows a call: it is proposed surely enough, the message is clear, consent is at most
      a week old and it is daytime in India. What the fold says and whether the key has acted do not matter. */
  lemma CallAllowedIff(intent: RecoveryIntent, obs: seq<Observation>, now: int, customer: CustomerContext,
                       seenKeys: set<Key>, cfg: FoldConfig, evidence: seq<Evidence>, midnight: int)
    requires cfg.Valid() && intent.action == VoiceCall
    requires IstMidnight(midnight) && midnight <= now < midnight + 86_400
    ensures Allowed(intent, obs, now, customer, seenKeys, cfg, evidence) <==>
            && intent.confidence >= 8_500 && MessageClear(intent, StateOf(obs), obs, now, customer)
            && customer.consentAgeDays <= 7 && DaytimeAfter(midnight, now)
  {
    CallVetoesIff(intent, StateOf(obs), FoldOf(obs, now, "", evidence, cfg), obs, now, customer,
                  IdempotencyKey(intent, obs) in seenKeys, cfg, evidence, midnight);
  }

  /** Exactly when the pipeline proposes one: the case is open, consent is at most a week old, and the payment
      has a reference to ask about. */
  lemma CallProposedIff(v: VerdictResult, obs: seq<Observation>, customer: CustomerContext, hasReference: bool,
                        reply: Option<Composition>, fallbackVariables: seq<string>, briefConfidence: nat)
    requires v.proposedAction == ProposedAction(v.verdict)
    ensures var i := ProposedIntent(v, obs, customer, hasReference, reply, fallbackVariables, briefConfidence);
            i.action == VoiceCall <==>
            (v.verdict == Unresolved || v.verdict == DuplicateRisk) && customer.consentAgeDays <= 7 && hasReference
  {
  }

  /** What the pipeline proposes then, whatever confidence the brief came with. */
  lemma CallProposed(v: VerdictResult, obs: seq<Observation>, customer: CustomerContext, reply: Option<Composition>,
                     fallbackVariables: seq<string>, briefConfidence: nat)
    requires (v.verdict == Unresolved || v.verdict == DuplicateRisk) && customer.consentAgeDays <= 7
    ensures var i := ProposedIntent(v, obs, customer, true, reply, fallbackVariables, briefConfidence);
            && i.action == VoiceCall && i.channel == Some(Voice) && i.category == ServiceExplicit && i.variables == []
            && 8_500 <= i.confidence <= 9_500 && (8_500 <= briefConfidence <= 9_500 ==> i.confidence == briefConfidence)
            && (briefConfidence < 8_500 ==> i.confidence == 9_000)
  {
  }

  /** Exactly when it passes: it is daytime in India, the customer is not on the full block list and has opted out
      of nothing, the order is no link's, and a number is known, or nothing at all is. */
  lemma PipelineCallPassesIff(v: VerdictResult, obs: seq<Observation>, now: int, customer: CustomerContext,
                              reply: Option<Composition>, fallbackVariables: seq<string>, briefConfidence: nat,
                              seenKeys: set<Key>, cfg: FoldConfig, evidence: seq<Evidence>, midnight: int)
    requires cfg.Valid() && (v.verdict == Unresolved || v.verdict == DuplicateRisk) && customer.consentAgeDays <= 7
    requires IstMidnight(midnight) && midnight <= now < midnight + 86_400
    ensures var i := ProposedIntent(v, obs, customer, true, reply, fallbackVariables, briefConfidence);
            Allowed(i, obs, now, customer, seenKeys, cfg, evidence) <==>
            && DaytimeAfter(midnight, now) && customer.dnd != FullyBlocked && customer.optedOutChannels == {}
            && (forall o :: o in obs ==> o.sourceOrder == "")
            && (Truthy(customer.contact) || (customer.contact.None? && customer.email.None?))
  {
    var i := ProposedIntent(v, obs, customer, true, reply, fallbackVariables, briefConfidence);
    CallProposed(v, obs, customer, reply, fallbackVariables, briefConfidence);
    CallAllowedIff(i, obs, now, customer, seenKeys, cfg, evidence, midnight);
    CallIsClearIff(i, StateOf(obs), obs, now, customer);
  }

  lemma CallIsClearIff(i: RecoveryIntent, st: Order, obs: seq<Observation>, now: int, customer: CustomerContext)
    requires i.channel == Some(Voice) && i.category == ServiceExplicit && i.variables == []
    ensures MessageClear(i, st, obs, now, customer) <==>
            && customer.dnd != FullyBlocked && customer.optedOutChannels == {}
            && (forall o :: o in obs ==> o.sourceOrder == "")
            && (Truthy(customer.contact) || (customer.contact.None? && customer.email.None?))
  {
  }

  /** The other actions that move no money answer to their floor alone. */
  lemma QuietActionAllowedIff(intent: RecoveryIntent, obs: seq<Observation>, now: int, customer: CustomerContext,
                              seenKeys: set<Key>, cfg: FoldConfig, evidence: seq<Evidence>)
    requires cfg.Valid() && intent.action in {Noop, Escalate, Hold, NotifyMerchant}
    ensures Allowed(intent, obs, now, customer, seenKeys, cfg, evidence) <==>
            (intent.action == NotifyMerchant ==> intent.confidence >= 6_000)
  {
  }
}
