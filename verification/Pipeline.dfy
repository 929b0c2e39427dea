/** From a verdict to an intent: services/pipeline.py with the intents of services/strategist/graph.py
    and the voice rule of services/strategist/voice.py. Model replies are arbitrary values. */
module Pipeline {
  import opened Common
  import opened Events
  import opened Verdicts
  import opened Fold
  import opened Gate
  import opened GateTheorems
  import opened SmallStreams

  /** What the strategist's model returns; None when it is unavailable. */
  datatype Composition = Composition(templateId: TemplateId, variables: seq<string>, channel: Channel, confidence: nat)

  function Min(a: nat, b: nat): nat { if a < b then a else b }

  /** `_to_intent` and `_fallback_intent`. */
  function StrategistIntent(reply: Option<Composition>, v: VerdictResult, fallbackVariables: seq<string>,
                            version: Version): RecoveryIntent {
    match reply
    case Some(c) => RecoveryIntent(SendRecoveryLink, Some(c.templateId), c.variables, Some(c.channel), ServiceImplicit,
                                   Min(c.confidence, v.confidence), Some(version))
    case None => RecoveryIntent(SendRecoveryLink, Some(RcvRetry), fallbackVariables, Some(Sms), ServiceImplicit,
                                v.confidence, Some(version))
  }

  /** `should_offer_voice` */
  predicate OffersVoice(v: VerdictResult, consentAgeDays: int, hasReference: bool) {
    (v.verdict == Unresolved || v.verdict == DuplicateRisk) && consentAgeDays <= EXPLICIT_CONSENT_MAX_DAYS
      && hasReference
  }

  /** `_non_recovery_intent`: a call, or what the verdict itself proposes. */
  function NonRecoveryIntent(v: VerdictResult, customer: CustomerContext, hasReference: bool, briefConfidence: nat,
                             version: Version): RecoveryIntent {
    if OffersVoice(v, customer.consentAgeDays, hasReference) then
      RecoveryIntent(VoiceCall, None, [], Some(Voice), ServiceExplicit,
                     Min(9_500, if briefConfidence >= 8_500 then briefConfidence else 9_000), Some(version))
    else RecoveryIntent(v.proposedAction, None, [], None, ServiceImplicit, v.confidence, Some(version))
  }

  function FirstDeliverable(order: seq<Channel>, allowed: set<Channel>, customer: CustomerContext): (r: Option<Channel>)
    ensures r.Some? ==> r.value in allowed && Reachable(r.value, customer)
    ensures r.None? <==> forall c :: c in order ==> !(c in allowed && Reachable(c, customer))
  {
    if order == [] then None
    else if order[0] in allowed && Reachable(order[0], customer) then Some(order[0])
    else FirstDeliverable(order[1..], allowed, customer)
  }

  /** `_choose_channel`: the engaged channel first, then WhatsApp, SMS and email. */
  function ChooseChannel(intent: RecoveryIntent, customer: CustomerContext): RecoveryIntent {
    if intent.channel.None? then intent
    else
      var allowed := if intent.templateId.Some? then TemplateChannels(intent.templateId.value) else {};
      var preferred := if customer.engagementChannel.Some? then [customer.engagementChannel.value] else [];
      var best := FirstDeliverable(preferred + [Whatsapp, Sms, Email], allowed, customer);
      if best.Some? then intent.(channel := best) else intent
  }

  /** The intent `Pipeline.process` puts before the gate. */
  function ProposedIntent(v: VerdictResult, obs: seq<Observation>, customer: CustomerContext, hasReference: bool,
                          reply: Option<Composition>, fallbackVariables: seq<string>,
                          briefConfidence: nat): RecoveryIntent {
    var version := EvidenceVersion(obs);
    ChooseChannel(if v.verdict == ConfirmedFailed then StrategistIntent(reply, v, fallbackVariables, version)
                  else NonRecoveryIntent(v, customer, hasReference, briefConfidence, version), customer)
  }

  /** `_target_payment`: what the action is carried out on. */
  function TargetPayment(st: Order, verdict: Verdict): string {
    var authorized := WithStatus(st.payments, Authorized);
    if verdict == UncapturedAuth && authorized != [] then authorized[0].id else KeyPayment(st)
  }

  // --------------------------------------------------------------------- theorems

  /** No model reply chooses what is done: money moves only by the verdict's own proposal, with no
      more confidence than the fold's, a refund is never proposed, and a link is always a
      service-implicit message on the evidence the verdict was reached on. */
  lemma ModelChoosesNoAction(v: VerdictResult, obs: seq<Observation>, customer: CustomerContext, hasReference: bool,
                             reply: Option<Composition>, fallbackVariables: seq<string>, briefConfidence: nat)
    requires v.proposedAction == ProposedAction(v.verdict)
    ensures var i := ProposedIntent(v, obs, customer, hasReference, reply, fallbackVariables, briefConfidence);
            && (i.action == ProposedAction(v.verdict)
                || (i.action == VoiceCall && (v.verdict == Unresolved || v.verdict == DuplicateRisk)))
            && (MoneyMoving(i.action) ==> i.confidence <= v.confidence)
            && i.action != Refund
            && (i.action == SendRecoveryLink <==> v.verdict == ConfirmedFailed)
            && (i.action == SendRecoveryLink ==> i.category == ServiceImplicit)
            && i.evidenceVersion == Some(EvidenceVersion(obs))
  {
  }

  /** Where neither a link nor a call is proposed, the intent is the verdict's own, as sure as the verdict and without
      a message. */
  lemma VerdictProposes(v: VerdictResult, obs: seq<Observation>, customer: CustomerContext, hasReference: bool,
                        reply: Option<Composition>, fallbackVariables: seq<string>, briefConfidence: nat)
    requires v.verdict != ConfirmedFailed
    requires !((v.verdict == Unresolved || v.verdict == DuplicateRisk) && customer.consentAgeDays <= 7 && hasReference)
    ensures var i := ProposedIntent(v, obs, customer, hasReference, reply, fallbackVariables, briefConfidence);
            && i.action == v.proposedAction && i.confidence == v.confidence && i.channel.None? && i.templateId.None?
            && i.variables == [] && i.category == ServiceImplicit && i.evidenceVersion == Some(EvidenceVersion(obs))
  {
  }

  /** If some rail the template is registered for reaches the customer, the chosen one does. */
  lemma ChosenChannelDelivers(intent: RecoveryIntent, customer: CustomerContext, c: Channel)
    requires intent.channel.Some? && TemplateRegistered(intent.templateId, Some(c)) && Reachable(c, customer)
    ensures var r := ChooseChannel(intent, customer);
            TemplateRegistered(r.templateId, r.channel) && Reachable(r.channel.value, customer)
  {
    var preferred := if customer.engagementChannel.Some? then [customer.engagementChannel.value] else [];
    assert c in [Whatsapp, Sms, Email];
    assert c in preferred + [Whatsapp, Sms, Email];
  }

  /** A rail of the template that reaches the customer. */
  predicate Delivers(intent: RecoveryIntent, customer: CustomerContext, c: Channel) {
    TemplateRegistered(intent.templateId, Some(c)) && Reachable(c, customer)
  }

  /** Which rail is chosen: the one the customer last engaged on when it delivers, and otherwise the first of
      WhatsApp, SMS and email that does; when none does, or for a message without a rail, nothing changes. */
  lemma ChannelIsPreferred(intent: RecoveryIntent, customer: CustomerContext)
    ensures var r, engaged := ChooseChannel(intent, customer), customer.engagementChannel;
            && r == intent.(channel := r.channel)
            && (intent.channel.None? ==> r.channel.None?)
            && (intent.channel.Some? ==>
                  r.channel == if engaged.Some? && Delivers(intent, customer, engaged.value) then engaged
                               else if Delivers(intent, customer, Whatsapp) then Some(Whatsapp)
                               else if Delivers(intent, customer, Sms) then Some(Sms)
                               else if Delivers(intent, customer, Email) then Some(Email)
                               else intent.channel)
  {
    var allowed := if intent.templateId.Some? then TemplateChannels(intent.templateId.value) else {};
    var none: seq<Channel> := [];
    FirstIsTried(Email, none, allowed, customer);
    FirstIsTried(Sms, [Email], allowed, customer);
    FirstIsTried(Whatsapp, [Sms, Email], allowed, customer);
    assert [Email] + none == [Email] && [Sms] + [Email] == [Sms, Email];
    assert [Whatsapp] + [Sms, Email] == [Whatsapp, Sms, Email];
    assert none + [Whatsapp, Sms, Email] == [Whatsapp, Sms, Email];
    if customer.engagementChannel.Some? {
      FirstIsTried(customer.engagementChannel.value, [Whatsapp, Sms, Email], allowed, customer);
    }
  }

  lemma FirstIsTried(c: Channel, rest: seq<Channel>, allowed: set<Channel>, customer: CustomerContext)
    ensures FirstDeliverable([c] + rest, allowed, customer)
            == if c in allowed && Reachable(c, customer) then Some(c) else FirstDeliverable(rest, allowed, customer)
  {
    assert ([c] + rest)[1..] == rest;
  }

  /** Where a message can go: anywhere as long as nothing is known of the customer, and otherwise to a number, to
      an address for email, and over WhatsApp only when it is set up. */
  lemma ReachableIff(customer: CustomerContext)
    ensures forall c :: customer.contact.None? && customer.email.None? ==> Reachable(c, customer)
    ensures customer.contact.Some? || customer.email.Some? ==>
              && (Reachable(Sms, customer) <==> customer.contact.Some? && customer.contact.value != "")
              && (Reachable(Voice, customer) <==> Reachable(Sms, customer))
              && (Reachable(Email, customer) <==> customer.email.Some? && customer.email.value != "")
              && (Reachable(Whatsapp, customer) <==> Reachable(Sms, customer) && customer.whatsappReady)
  {
  }

  /** What a recovery message says is the model's reply, no surer than the verdict, or without one the plain retry
      over SMS with the variables prepared for it. */
  lemma MessageIsReply(reply: Option<Composition>, v: VerdictResult, fallbackVariables: seq<string>, version: Version)
    ensures var i := StrategistIntent(reply, v, fallbackVariables, version);
            && i.action == SendRecoveryLink && i.category == ServiceImplicit && i.evidenceVersion == Some(version)
            && (reply.Some? ==>
                  && i.templateId == Some(reply.value.templateId) && i.variables == reply.value.variables
                  && i.channel == Some(reply.value.channel)
                  && i.confidence <= reply.value.confidence && i.confidence <= v.confidence
                  && (i.confidence == reply.value.confidence || i.confidence == v.confidence))
            && (reply.None? ==>
                  && i.templateId == Some(RcvRetry) && i.variables == fallbackVariables && i.channel == Some(Sms)
                  && i.confidence == v.confidence)
  {
  }

  /** Exactly when the pipeline's capture passes the gate. */
  lemma CapturePassesIff(obs: seq<Observation>, now: int, orderId: string, customer: CustomerContext,
                         hasReference: bool, reply: Option<Composition>, fallbackVariables: seq<string>,
                         briefConfidence: nat, seenKeys: set<Key>, cfg: FoldConfig, evidence: seq<Evidence>)
    requires cfg.Valid() && FoldOf(obs, now, orderId, evidence, cfg).verdict == UncapturedAuth
    ensures var v := FoldOf(obs, now, orderId, evidence, cfg);
            var i := ProposedIntent(v, obs, customer, hasReference, reply, fallbackVariables, briefConfidence);
            Allowed(i, obs, now, customer, seenKeys, cfg, evidence)
            <==> Missing(evidence) <= 1 && IdempotencyKey(i, obs) !in seenKeys
  {
    var v := FoldOf(obs, now, orderId, evidence, cfg);
    var i := ProposedIntent(v, obs, customer, hasReference, reply, fallbackVariables, briefConfidence);
    var st := StateOf(obs);
    UncapturedAuthState(st, now, evidence, cfg);
    CaptureChecks(i, st, FoldOf(obs, now, "", evidence, cfg), obs, now, customer, IdempotencyKey(i, obs) in seenKeys,
                  cfg, evidence);
  }

  lemma UncapturedAuthState(st: Order, now: int, evidence: seq<Evidence>, cfg: FoldConfig)
    requires cfg.Valid() && Judge(st, now, evidence, cfg).verdict == UncapturedAuth
    ensures Judge(st, now, evidence, cfg).confidence == 9_300
    ensures WithStatus(st.payments, Authorized) != [] && WithStatus(st.payments, Captured) == []
  {
  }

  ghost predicate DistinctIds(payments: seq<Payment>) {
    forall i, j :: 0 <= i < j < |payments| ==> payments[i].id != payments[j].id
  }

  lemma {:induction false} ReducedIdsDistinct(s: seq<Observation>)
    ensures DistinctIds(Reduced(s).payments)
  {
    if s != [] {
      ReducedIdsDistinct(s[..|s| - 1]);
    }
  }

  /** A capture is keyed on the payment it captures only when nothing on the order failed and the
      order's first payment is the authorised one; otherwise the key names another payment. */
  lemma CaptureKeyedOnTargetIff(obs: seq<Observation>)
    requires WithStatus(StateOf(obs).payments, Authorized) != []
    ensures var st := StateOf(obs);
            TargetPayment(st, UncapturedAuth) == KeyPayment(st)
            <==> WithStatus(st.payments, Failed) == [] && st.payments[0].status == Some(Authorized)
  {
    var st := StateOf(obs);
    var authorized, failed := WithStatus(st.payments, Authorized), WithStatus(st.payments, Failed);
    ReducedIdsDistinct(CanonicalOrder(obs));
    assert authorized[0] in authorized;
    if failed != [] {
      assert LatestFailure(failed) in failed;
    }
  }

  /** A failed attempt, and another that is authorised. */
  const FAILED_FIRST := PlainEvent("e1", PaymentFailed, "pay_A", 1_000, Network, PaymentResponse,
                                   OtherReason("timeout"))
  const AUTHORIZED_SECOND := PlainEvent("e2", PaymentAuthorized, "pay_B", 2_000, UnknownSource, OtherStep,
                                        OtherReason(""))

  lemma AuthorizedRuling(st: Order, p: Payment, q: Payment, now: int, cfg: FoldConfig)
    requires cfg.Valid() && st.payments == [p, q] && !st.settledInReport && !st.orderPaidSeen
    requires p.status == Some(Failed) && q.status == Some(Authorized)
    ensures Judge(st, now, [], cfg).verdict == UncapturedAuth
    ensures TargetPayment(st, UncapturedAuth) == q.id && KeyPayment(st) == p.id
  {
    StatusOfTwo(p, q, Captured);
    StatusOfTwo(p, q, Authorized);
    StatusOfTwo(p, q, Failed);
  }

  /** The stream on which they differ: the second attempt is captured under the key of the first. */
  lemma CaptureKeyedOnFailure(intent: RecoveryIntent, now: int, cfg: FoldConfig)
    requires cfg.Valid()
    ensures var obs := [FAILED_FIRST, AUTHORIZED_SECOND];
            && FoldOf(obs, now, "order", [], cfg).verdict == UncapturedAuth
            && TargetPayment(StateOf(obs), UncapturedAuth) == "pay_B"
            && IdempotencyKey(intent, obs).paymentId == "pay_A"
  {
    var obs := [FAILED_FIRST, AUTHORIZED_SECOND];
    TwoEventState(FAILED_FIRST, AUTHORIZED_SECOND);
    AuthorizedRuling(StateOf(obs), Only(FAILED_FIRST), Only(AUTHORIZED_SECOND), now, cfg);
    FoldedPlainly(obs, now, "order", cfg);
  }
}
