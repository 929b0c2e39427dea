/** The gate of services/gate/rules.py: it derives everything again and refuses.
    A veto is its rule tag; the reason texts are not modelled. */
module Gate {
  import opened Common
  import opened Banking
  import opened Events
  import opened Verdicts
  import opened Fold

  datatype Channel = Sms | Whatsapp | Email | Voice

  datatype Category = ServiceImplicit | ServiceExplicit | Transactional | Promotional

  datatype TemplateId = RcvRetry | RcvUpiAlt | RcvDowntimeWait

  function TemplateChannels(t: TemplateId): set<Channel> {
    match t
    case RcvRetry => {Sms, Whatsapp, Email}
    case RcvUpiAlt => {Sms, Whatsapp}
    case RcvDowntimeWait => {Sms, Whatsapp}
  }

  predicate TemplateRegistered(t: Option<TemplateId>, c: Option<Channel>) {
    t.Some? && c.Some? && c.value in TemplateChannels(t.value)
  }

  /** What the digest of `evidence_version` is taken of: injective in place of sha256. */
  type Version = seq<(string, EventType, int)>

  function EventTriple(o: Observation): (string, EventType, int) { (o.eventId, o.eventType, o.eventTime) }

  function Triples(s: seq<Observation>): (r: Version)
    ensures |r| == |s|
    ensures forall i :: 0 <= i < |s| ==> r[i] == EventTriple(s[i])
  {
    seq(|s|, i requires 0 <= i < |s| => EventTriple(s[i]))
  }

  function EvidenceVersion(obs: seq<Observation>): Version { Triples(CanonicalOrder(obs)) }

  /** `evidence_version`: the hash state is what it has absorbed. */
  method EvidenceVersionLoop(obs: seq<Observation>) returns (h: Version)
    ensures h == EvidenceVersion(obs)
  {
    var ordered := CanonicalOrder(obs);
    h := [];
    for i := 0 to |ordered|
      invariant h == Triples(ordered)[..i]
    {
      h := h + [EventTriple(ordered[i])];
    }
  }

  datatype Key = Key(paymentId: string, action: Action, version: Version)

  /** An untrusted proposal. An `evidenceVersion` of None is the empty string. */
  datatype RecoveryIntent = RecoveryIntent(
    action: Action,
    templateId: Option<TemplateId>,
    variables: seq<string>,
    channel: Option<Channel>,
    category: Category,
    confidence: nat,
    evidenceVersion: Option<Version>)

  datatype Dnd = NoDnd | Partial | FullyBlocked

  datatype CustomerContext = CustomerContext(
    dnd: Dnd,
    consentAgeDays: int,
    optedOutChannels: set<Channel>,
    engagementChannel: Option<Channel>,
    contact: Option<string>,
    email: Option<string>,
    whatsappReady: bool)

  datatype Veto =
    | I3 | Settled | VerdictVeto | Tat | CaptureVeto | RefundVeto | I5 | Floor | I7
    | Tcccpr | DndVeto | Consent | Dlt | RecoveryChain | Unreachable | OptOut | Hours

  datatype GateDecision = GateDecision(allowed: bool, action: Action, vetoes: seq<Veto>, idemKey: Key)

  const SERVICE_IMPLICIT_WINDOW := 72 * 3_600
  const EXPLICIT_CONSENT_MAX_DAYS := 7
  const MAX_VARIABLES := 5
  const MAX_VARIABLE_LEN := 30

  /** `_reachable` */
  predicate Reachable(channel: Channel, customer: CustomerContext) {
    if customer.contact.None? && customer.email.None? then true
    else match channel
      case Whatsapp => customer.whatsappReady && Truthy(customer.contact)
      case Sms => Truthy(customer.contact)
      case Voice => Truthy(customer.contact)
      case Email => Truthy(customer.email)
  }

  /** `in_calling_hours`: 09:00 to 21:00 IST, both ends included. */
  predicate InCallingHours(now: int) {
    9 * 3_600 <= (now + IST_OFFSET) % DAY <= 21 * 3_600
  }

  /** `_recovery_source`: the stamp on the latest event that carries one, "" when none does. */
  function RecoverySource(obs: seq<Observation>): string {
    LatestStamp(obs, None)
  }

  function LatestStamp(obs: seq<Observation>, best: Option<Observation>): (r: string)
    requires best.Some? ==> best.value.sourceOrder != ""
    ensures r != "" <==> best.Some? || exists o :: o in obs && o.sourceOrder != ""
  {
    if obs == [] then (if best.Some? then best.value.sourceOrder else "")
    else
      var o := obs[0];
      assert obs == [o] + obs[1..];
      if o.sourceOrder != "" && (best.None? || best.value.eventTime < o.eventTime) then LatestStamp(obs[1..], Some(o))
      else LatestStamp(obs[1..], best)
  }

  /** The stamp of o is the one reported: no stamped event is later, and none before it as late. */
  ghost predicate StampOf(obs: seq<Observation>, i: int)
    requires 0 <= i < |obs|
  {
    && obs[i].sourceOrder != ""
    && (forall j :: 0 <= j < |obs| && obs[j].sourceOrder != "" ==> obs[j].eventTime <= obs[i].eventTime)
    && (forall j :: 0 <= j < i && obs[j].sourceOrder != "" ==> obs[j].eventTime < obs[i].eventTime)
  }

  lemma {:induction false} StampOfBest(obs: seq<Observation>, best: Option<Observation>, i: int)
    requires best.Some? ==> best.value.sourceOrder != ""
    requires 0 <= i < |obs| && StampOf(obs, i) && (best.Some? ==> best.value.eventTime < obs[i].eventTime)
    ensures LatestStamp(obs, best) == obs[i].sourceOrder
    decreases |obs|
  {
    var rest := obs[1..];
    assert forall j :: 0 <= j < |rest| ==> rest[j] == obs[j + 1];
    if i > 0 {
      var o := obs[0];
      var better := o.sourceOrder != "" && (best.None? || best.value.eventTime < o.eventTime);
      StampOfBest(rest, if better then Some(o) else best, i - 1);
    } else {
      BestStands(rest, obs[0]);
    }
  }

  lemma {:induction false} BestStands(obs: seq<Observation>, best: Observation)
    requires best.sourceOrder != ""
    requires forall j :: 0 <= j < |obs| && obs[j].sourceOrder != "" ==> obs[j].eventTime <= best.eventTime
    ensures LatestStamp(obs, Some(best)) == best.sourceOrder
  {
    if obs != [] {
      BestStands(obs[1..], best);
    }
  }

  /** The source order reported is the stamp on the latest stamped event, and the first of those when
      several are as late. */
  lemma RecoverySourceIsLatestStamp(obs: seq<Observation>, i: int)
    requires 0 <= i < |obs| && StampOf(obs, i)
    ensures RecoverySource(obs) == obs[i].sourceOrder
  {
    StampOfBest(obs, None, i);
  }

  /** The payment the idempotency key is about: the latest failure, or the order's first payment. */
  function KeyPayment(st: Order): string {
    var failed := WithStatus(st.payments, Failed);
    if failed != [] then LatestFailure(failed).id
    else if st.payments != [] then st.payments[0].id
    else ""
  }

  function LatestSource(st: Order): ErrorSource {
    var failed := WithStatus(st.payments, Failed);
    if failed != [] then LatestFailure(failed).errorSource else UnknownSource
  }

  predicate LatestInFlight(st: Order, now: int, cfg: FoldConfig, evidence: seq<Evidence>)
    requires cfg.Valid()
  {
    var failed := WithStatus(st.payments, Failed);
    failed != [] && Flippable(LatestFailure(failed), now, cfg, evidence)
  }

  function When(condition: bool, veto: Veto): seq<Veto> { if condition then [veto] else [] }

  /** The four checks on a recovery link. */
  function LinkVetoes(st: Order, truth: VerdictResult, now: int, cfg: FoldConfig, evidence: seq<Evidence>): seq<Veto>
    requires cfg.Valid()
  {
    var failedAt := OrZero(st.firstFailureAt);
    When(AnyFlippable(st, now, cfg, evidence), I3)
    + When(st.amountDue != 0 && AmountPaid(st) >= st.amountDue, Settled)
    + When(truth.verdict == OrderSettled || truth.verdict == DuplicateRisk, VerdictVeto)
    + When(failedAt != 0 && LatestInFlight(st, now, cfg, evidence) && AmbiguousSource(LatestSource(st))
           && now <= TatDeadline(failedAt, cfg.tatBankingDays, cfg.holidays), Tat)
  }

  function CaptureVetoes(st: Order): seq<Veto> {
    When(WithStatus(st.payments, Authorized) == [], CaptureVeto)
    + When(WithStatus(st.payments, Captured) != [], CaptureVeto)
  }

  /** I5, the floor on the claimed confidence, and I7 on the derived one. */
  function FloorVetoes(intent: RecoveryIntent, truth: VerdictResult, seen: bool): seq<Veto> {
    var floor := ConfidenceFloor(intent.action);
    When(MoneyMoving(intent.action) && seen, I5)
    + When(intent.confidence < floor, Floor)
    + When(MoneyMoving(intent.action) && truth.confidence < floor, I7)
  }

  function LongVariableVetoes(variables: seq<string>): seq<Veto> {
    if variables == [] then []
    else When(|variables[0]| > MAX_VARIABLE_LEN, Dlt) + LongVariableVetoes(variables[1..])
  }

  /** The implicit-consent window has closed on the order's first failure. */
  predicate ConsentLapsed(st: Order, now: int) {
    OrZero(st.firstFailureAt) != 0 && now - st.firstFailureAt.value > SERVICE_IMPLICIT_WINDOW
  }

  /** What kind of message it is, and whether consent covers it. */
  function ConsentVetoes(intent: RecoveryIntent, st: Order, now: int, customer: CustomerContext): seq<Veto> {
    When(intent.category == Promotional, Tcccpr)
    + When(customer.dnd == FullyBlocked && intent.category != ServiceImplicit, DndVeto)
    + When(intent.category == ServiceImplicit && ConsentLapsed(st, now), Consent)
  }

  /** What it says: a registered template with short variables. */
  function TemplateVetoes(intent: RecoveryIntent): seq<Veto> {
    When(intent.channel != Some(Voice) && !TemplateRegistered(intent.templateId, intent.channel), Dlt)
    + When(|intent.variables| > MAX_VARIABLES, Dlt)
    + LongVariableVetoes(intent.variables)
  }

  /** Whom it reaches: no link's own order, a destination, no opt-out. */
  function RecipientVetoes(intent: RecoveryIntent, obs: seq<Observation>, customer: CustomerContext): seq<Veto> {
    When(RecoverySource(obs) != "", RecoveryChain)
    + When(intent.channel.Some? && !Reachable(intent.channel.value, customer), Unreachable)
    + When(intent.channel.Some? && intent.channel.value in customer.optedOutChannels, OptOut)
    + When(customer.optedOutChannels != {}, OptOut)
  }

  function MessageVetoes(intent: RecoveryIntent, st: Order, obs: seq<Observation>, now: int,
                         customer: CustomerContext): seq<Veto> {
    ConsentVetoes(intent, st, now, customer) + TemplateVetoes(intent) + RecipientVetoes(intent, obs, customer)
  }

  function VoiceVetoes(now: int, customer: CustomerContext): seq<Veto> {
    When(customer.consentAgeDays > EXPLICIT_CONSENT_MAX_DAYS, Consent)
    + When(!InCallingHours(now), Hours)
  }

  function IdempotencyKey(intent: RecoveryIntent, obs: seq<Observation>): Key {
    Key(KeyPayment(StateOf(obs)), intent.action,
        if intent.evidenceVersion.Some? then intent.evidenceVersion.value else EvidenceVersion(obs))
  }

  /** The correctness invariants, in the order of the source. */
  function InvariantVetoes(intent: RecoveryIntent, st: Order, truth: VerdictResult, now: int, seen: bool,
                           cfg: FoldConfig, evidence: seq<Evidence>): seq<Veto>
    requires cfg.Valid()
  {
    (if intent.action == SendRecoveryLink then LinkVetoes(st, truth, now, cfg, evidence) else [])
    + (if intent.action == Capture then CaptureVetoes(st) else [])
    + When(intent.action == Refund && NothingToRefund(st), RefundVeto)
    + FloorVetoes(intent, truth, seen)
  }

  /** The compliance checks. */
  function ComplianceVetoes(intent: RecoveryIntent, st: Order, obs: seq<Observation>, now: int,
                            customer: CustomerContext): seq<Veto> {
    (if intent.action == SendRecoveryLink || intent.action == VoiceCall
     then MessageVetoes(intent, st, obs, now, customer) else [])
    + (if intent.action == VoiceCall then VoiceVetoes(now, customer) else [])
  }

  /** Every check on the re-derived state and verdict. */
  function VetoesOn(intent: RecoveryIntent, st: Order, truth: VerdictResult, obs: seq<Observation>, now: int,
                    customer: CustomerContext, seen: bool, cfg: FoldConfig, evidence: seq<Evidence>): seq<Veto>
    requires cfg.Valid()
  {
    InvariantVetoes(intent, st, truth, now, seen, cfg, evidence) + ComplianceVetoes(intent, st, obs, now, customer)
  }

  predicate NothingToRefund(st: Order) {
    WithStatus(st.payments, Captured) == [] && WithStatus(st.payments, Authorized) == []
  }

  function Vetoes(intent: RecoveryIntent, obs: seq<Observation>, now: int, customer: CustomerContext,
                  seenKeys: set<Key>, cfg: FoldConfig, evidence: seq<Evidence>): seq<Veto>
    requires cfg.Valid()
  {
    VetoesOn(intent, StateOf(obs), FoldOf(obs, now, "", evidence, cfg), obs, now, customer,
             IdempotencyKey(intent, obs) in seenKeys, cfg, evidence)
  }

  function DecisionOf(intent: RecoveryIntent, obs: seq<Observation>, now: int, customer: CustomerContext,
                      seenKeys: set<Key>, cfg: FoldConfig, evidence: seq<Evidence>): GateDecision
    requires cfg.Valid()
  {
    var vetoes := Vetoes(intent, obs, now, customer, seenKeys, cfg, evidence);
    GateDecision(vetoes == [], if vetoes == [] then intent.action else Noop, vetoes, IdempotencyKey(intent, obs))
  }

  /** `evaluate`: derive everything again, then judge. */
  method Evaluate(intent: RecoveryIntent, obs: seq<Observation>, now: int, customer: CustomerContext,
                  seenKeys: set<Key>, cfg: FoldConfig, evidence: seq<Evidence>) returns (d: GateDecision)
    requires cfg.Valid()
    ensures d == DecisionOf(intent, obs, now, customer, seenKeys, cfg, evidence)
  {
    var truth := FoldLadder(obs, now, "", evidence, cfg);
    var state := BuildState(obs, truth.orderId);
    var idem := IdempotencyKey(intent, obs);
    var vetoes := Accumulate(intent, state.View(), truth, obs, now, customer, idem in seenKeys, cfg, evidence);
    return GateDecision(vetoes == [], if vetoes == [] then intent.action else Noop, vetoes, idem);
  }

  // ------------------------------------------------- the checks one after the other

  method AppendLinkVetoes(before: seq<Veto>, st: Order, truth: VerdictResult, now: int, cfg: FoldConfig,
                          evidence: seq<Evidence>)
    returns (vetoes: seq<Veto>)
    requires cfg.Valid()
    ensures vetoes == before + LinkVetoes(st, truth, now, cfg, evidence)
  {
    vetoes := before;
    if AnyFlippable(st, now, cfg, evidence) {
      vetoes := vetoes + [I3];
    }
    if st.amountDue != 0 && AmountPaid(st) >= st.amountDue {
      vetoes := vetoes + [Settled];
    }
    if truth.verdict == OrderSettled || truth.verdict == DuplicateRisk {
      vetoes := vetoes + [VerdictVeto];
    }
    var failedAt := OrZero(st.firstFailureAt);
    if failedAt != 0 && LatestInFlight(st, now, cfg, evidence) && AmbiguousSource(LatestSource(st))
       && now <= TatDeadline(failedAt, cfg.tatBankingDays, cfg.holidays)
    {
      vetoes := vetoes + [Tat];
    }
  }

  method AppendMoneyVetoes(before: seq<Veto>, intent: RecoveryIntent, st: Order)
    returns (vetoes: seq<Veto>)
    ensures vetoes == before + (if intent.action == Capture then CaptureVetoes(st) else [])
                      + When(intent.action == Refund && NothingToRefund(st), RefundVeto)
  {
    vetoes := before;
    if intent.action == Capture {
      if WithStatus(st.payments, Authorized) == [] {
        vetoes := vetoes + [CaptureVeto];
      }
      if WithStatus(st.payments, Captured) != [] {
        vetoes := vetoes + [CaptureVeto];
      }
    }
    if intent.action == Refund && NothingToRefund(st) {
      vetoes := vetoes + [RefundVeto];
    }
  }

  method AppendFloorVetoes(before: seq<Veto>, intent: RecoveryIntent, truth: VerdictResult, seen: bool)
    returns (vetoes: seq<Veto>)
    ensures vetoes == before + FloorVetoes(intent, truth, seen)
  {
    vetoes := before;
    if MoneyMoving(intent.action) && seen {
      vetoes := vetoes + [I5];
    }
    var floor := ConfidenceFloor(intent.action);
    if intent.confidence < floor {
      vetoes := vetoes + [Floor];
    }
    if MoneyMoving(intent.action) && truth.confidence < floor {
      vetoes := vetoes + [I7];
    }
  }

  lemma {:induction false} LongVariablesGrow(variables: seq<string>, v: string)
    ensures LongVariableVetoes(variables + [v]) == LongVariableVetoes(variables) + When(|v| > MAX_VARIABLE_LEN, Dlt)
  {
    if variables == [] {
      assert [v][1..] == [];
    } else {
      LongVariablesGrow(variables[1..], v);
      assert (variables + [v])[1..] == variables[1..] + [v];
    }
  }

  /** The loop over the variables: one veto for each that is too long, in order. */
  method AppendLongVariables(before: seq<Veto>, variables: seq<string>) returns (vetoes: seq<Veto>)
    ensures vetoes == before + LongVariableVetoes(variables)
  {
    vetoes := before;
    for i := 0 to |variables|
      invariant vetoes == before + LongVariableVetoes(variables[..i])
    {
      LongVariablesGrow(variables[..i], variables[i]);
      assert variables[..i + 1] == variables[..i] + [variables[i]];
      if |variables[i]| > MAX_VARIABLE_LEN {
        vetoes := vetoes + [Dlt];
      }
    }
    assert variables[..|variables|] == variables;
  }

  method AppendConsentVetoes(before: seq<Veto>, intent: RecoveryIntent, st: Order, now: int, customer: CustomerContext)
    returns (vetoes: seq<Veto>)
    ensures vetoes == before + ConsentVetoes(intent, st, now, customer)
  {
    vetoes := before;
    if intent.category == Promotional {
      vetoes := vetoes + [Tcccpr];
    }
    if customer.dnd == FullyBlocked && intent.category != ServiceImplicit {
      vetoes := vetoes + [DndVeto];
    }
    if intent.category == ServiceImplicit && ConsentLapsed(st, now) {
      vetoes := vetoes + [Consent];
    }
  }

  method AppendTemplateVetoes(before: seq<Veto>, intent: RecoveryIntent) returns (vetoes: seq<Veto>)
    ensures vetoes == before + TemplateVetoes(intent)
  {
    vetoes := before;
    if intent.channel != Some(Voice) && !TemplateRegistered(intent.templateId, intent.channel) {
      vetoes := vetoes + [Dlt];
    }
    if |intent.variables| > MAX_VARIABLES {
      vetoes := vetoes + [Dlt];
    }
    vetoes := AppendLongVariables(vetoes, intent.variables);
  }

  method AppendRecipientVetoes(before: seq<Veto>, intent: RecoveryIntent, obs: seq<Observation>,
                               customer: CustomerContext)
    returns (vetoes: seq<Veto>)
    ensures vetoes == before + RecipientVetoes(intent, obs, customer)
  {
    vetoes := before;
    if RecoverySource(obs) != "" {
      vetoes := vetoes + [RecoveryChain];
    }
    if intent.channel.Some? && !Reachable(intent.channel.value, customer) {
      vetoes := vetoes + [Unreachable];
    }
    if intent.channel.Some? && intent.channel.value in customer.optedOutChannels {
      vetoes := vetoes + [OptOut];
    }
    if customer.optedOutChannels != {} {
      vetoes := vetoes + [OptOut];
    }
  }

  method AppendVoiceVetoes(before: seq<Veto>, now: int, customer: CustomerContext) returns (vetoes: seq<Veto>)
    ensures vetoes == before + VoiceVetoes(now, customer)
  {
    vetoes := before;
    if customer.consentAgeDays > EXPLICIT_CONSENT_MAX_DAYS {
      vetoes := vetoes + [Consent];
    }
    if !InCallingHours(now) {
      vetoes := vetoes + [Hours];
    }
  }

  method AppendInvariantVetoes(intent: RecoveryIntent, st: Order, truth: VerdictResult, now: int, seen: bool,
                               cfg: FoldConfig, evidence: seq<Evidence>)
    returns (vetoes: seq<Veto>)
    requires cfg.Valid()
    ensures vetoes == InvariantVetoes(intent, st, truth, now, seen, cfg, evidence)
  {
    vetoes := [];
    if intent.action == SendRecoveryLink {
      vetoes := AppendLinkVetoes(vetoes, st, truth, now, cfg, evidence);
    }
    vetoes := AppendMoneyVetoes(vetoes, intent, st);
    vetoes := AppendFloorVetoes(vetoes, intent, truth, seen);
  }

  method AppendMessageVetoes(before: seq<Veto>, intent: RecoveryIntent, st: Order, obs: seq<Observation>, now: int,
                             customer: CustomerContext)
    returns (vetoes: seq<Veto>)
    ensures vetoes == before + MessageVetoes(intent, st, obs, now, customer)
  {
    vetoes := AppendConsentVetoes(before, intent, st, now, customer);
    vetoes := AppendTemplateVetoes(vetoes, intent);
    vetoes := AppendRecipientVetoes(vetoes, intent, obs, customer);
  }

  /** The list of vetoes, appended check by check in the order of the source. */
  method Accumulate(intent: RecoveryIntent, st: Order, truth: VerdictResult, obs: seq<Observation>, now: int,
                    customer: CustomerContext, seen: bool, cfg: FoldConfig, evidence: seq<Evidence>)
    returns (vetoes: seq<Veto>)
    requires cfg.Valid()
    ensures vetoes == VetoesOn(intent, st, truth, obs, now, customer, seen, cfg, evidence)
  {
    vetoes := AppendInvariantVetoes(intent, st, truth, now, seen, cfg, evidence);
    if intent.action == SendRecoveryLink || intent.action == VoiceCall {
      vetoes := AppendMessageVetoes(vetoes, intent, st, obs, now, customer);
    }
    if intent.action == VoiceCall {
      vetoes := AppendVoiceVetoes(vetoes, now, customer);
    }
  }
}
