/** The event-sourced fold of core/fold.py: observations to payments, payments to a verdict. */
module Fold {
  import opened Common
  import opened Banking
  import opened Events
  import opened Verdicts
  import opened Claims

  datatype FoldConfig = FoldConfig(tatBankingDays: nat, settleHorizonDays: nat, holidays: set<int>) {
    ghost predicate Valid() { Usable(holidays) }
  }

  // ---------------------------------------------------------------- payment state

  /** The folded state of one attempt, as a value. */
  datatype Payment = Payment(
    id: string,
    status: Option<PaymentStatus>,
    amount: nat,
    rail: Option<string>,
    errorSource: ErrorSource,
    errorStep: ErrorStep,
    errorReason: ErrorReason,
    rrn: Option<string>,
    upiTransactionId: Option<string>,
    failedAt: Option<int>,
    authorizedAt: Option<int>,
    capturedAt: Option<int>,
    refundProcessed: bool,
    refundFailed: bool,
    lastEventTime: int)

  function NewPayment(id: string): Payment {
    Payment(id, None, 0, None, UnknownSource, OtherStep, OtherReason(""), None, None,
            None, None, None, false, false, 0)
  }

  /** The fields any event may fill in: the first truthy value stays. */
  function Merged(p: Payment, o: Observation): Payment {
    p.(lastEventTime := if p.lastEventTime < o.eventTime then o.eventTime else p.lastEventTime,
                amount := if p.amount != 0 then p.amount else o.amount,
                rail := Or(p.rail, o.rail),
                rrn := Or(p.rrn, o.rrn),
                upiTransactionId := Or(p.upiTransactionId, o.upiTransactionId))
  }

  /** What the event itself sets: the `match` of the source. */
  function Marked(q: Payment, o: Observation): Payment {
    match o.eventType
    case PaymentFailed => q.(status := Some(Failed), failedAt := Some(o.eventTime), errorSource := o.errorSource,
                             errorStep := o.errorStep, errorReason := o.errorReason)
    case PaymentAuthorized => q.(status := Some(Authorized), authorizedAt := Some(o.eventTime))
    case PaymentCaptured => q.(status := Some(Captured), capturedAt := Some(o.eventTime))
    case RefundProcessed => q.(status := Some(Refunded), refundProcessed := true)
    case RefundFailed => q.(refundFailed := true)
    case _ => if q.status.None? && o.status.Reported? then q.(status := Some(o.status.status)) else q
  }

  /** One observation applied to one payment. */
  function Applied(p: Payment, o: Observation): Payment { Marked(Merged(p, o), o) }

  class PaymentState {
    const paymentId: string
    var status: Option<PaymentStatus>
    var amount: nat
    var rail: Option<string>
    var errorSource: ErrorSource
    var errorStep: ErrorStep
    var errorReason: ErrorReason
    var rrn: Option<string>
    var upiTransactionId: Option<string>
    var failedAt: Option<int>
    var authorizedAt: Option<int>
    var capturedAt: Option<int>
    var refundProcessed: bool
    var refundFailed: bool
    var lastEventTime: int

    function View(): Payment
      reads this
    {
      Payment(paymentId, status, amount, rail, errorSource, errorStep, errorReason, rrn, upiTransactionId,
              failedAt, authorizedAt, capturedAt, refundProcessed, refundFailed, lastEventTime)
    }

    constructor (id: string)
      ensures View() == NewPayment(id)
    {
      paymentId, status, amount, rail := id, None, 0, None;
      errorSource, errorStep, errorReason := UnknownSource, OtherStep, OtherReason("");
      rrn, upiTransactionId := None, None;
      failedAt, authorizedAt, capturedAt := None, None, None;
      refundProcessed, refundFailed, lastEventTime := false, false, 0;
    }

    method Merge(o: Observation)
      modifies `lastEventTime, `amount, `rail, `rrn, `upiTransactionId
      ensures View() == Merged(old(View()), o)
    {
      if lastEventTime < o.eventTime { lastEventTime := o.eventTime; }
      if amount == 0 { amount := o.amount; }
      rail := Or(rail, o.rail);
      rrn := Or(rrn, o.rrn);
      upiTransactionId := Or(upiTransactionId, o.upiTransactionId);
    }

    method Mark(o: Observation)
      modifies `status, `failedAt, `authorizedAt, `capturedAt, `errorSource, `errorStep, `errorReason, `refundProcessed,
               `refundFailed
      ensures View() == Marked(old(View()), o)
    {
      match o.eventType {
        case PaymentFailed =>
          status := Some(Failed);
          failedAt := Some(o.eventTime);
          errorSource := o.errorSource;
          errorStep := o.errorStep;
          errorReason := o.errorReason;
        case PaymentAuthorized =>
          status := Some(Authorized);
          authorizedAt := Some(o.eventTime);
        case PaymentCaptured =>
          status := Some(Captured);
          capturedAt := Some(o.eventTime);
        case RefundProcessed =>
          status := Some(Refunded);
          refundProcessed := true;
        case RefundFailed =>
          refundFailed := true;
        case _ =>
          if status.None? && o.status.Reported? {
            status := Some(o.status.status);
          }
      }
    }

    /** `_apply` */
    method Apply(o: Observation)
      modifies this
      ensures View() == Applied(old(View()), o)
    {
      Merge(o);
      Mark(o);
    }
  }

  // ------------------------------------------------------------------ order state

  /** The order: its payments in the insertion order of the source's dictionary, and its totals. */
  datatype Order = Order(
    payments: seq<Payment>,
    amountDue: nat,
    amountPaidReported: nat,
    orderPaidSeen: bool,
    settledInReport: bool,
    firstFailureAt: Option<int>)

  const EMPTY_ORDER := Order([], 0, 0, false, false, None)

  /** Index of the payment with this id, or the number of payments. */
  function IndexOf(payments: seq<Payment>, id: string): (i: nat)
    ensures i <= |payments|
    ensures i < |payments| ==> payments[i].id == id
    ensures forall k :: 0 <= k < i ==> payments[k].id != id
  {
    if payments == [] then 0
    else if payments[0].id == id then 0
    else 1 + IndexOf(payments[1..], id)
  }

  /** `setdefault` on the payment dictionary followed by `_apply`. */
  function Touched(payments: seq<Payment>, o: Observation): seq<Payment>
    requires Truthy(o.paymentId)
  {
    var id := o.paymentId.value;
    var i := IndexOf(payments, id);
    if i < |payments| then payments[i := Applied(payments[i], o)]
    else payments + [Applied(NewPayment(id), o)]
  }

  function Max(a: nat, b: nat): nat { if a < b then b else a }

  /** One observation applied to the order. */
  function Step(st: Order, o: Observation): Order {
    Order(if Truthy(o.paymentId) then Touched(st.payments, o) else st.payments,
          Max(st.amountDue, o.amountDue),
          Max(st.amountPaidReported, o.amountPaid),
          st.orderPaidSeen || o.eventType == OrderPaid,
          st.settledInReport || o.eventType == SettlementProcessed,
          None)
  }

  function Reduced(s: seq<Observation>): Order {
    if s == [] then EMPTY_ORDER else Step(Reduced(s[..|s| - 1]), s[|s| - 1])
  }

  function LargestAmount(payments: seq<Payment>): nat {
    if payments == [] then 0 else Max(payments[0].amount, LargestAmount(payments[1..]))
  }

  /** The earliest of the payments' latest failure times. */
  function FirstFailure(payments: seq<Payment>): (r: Option<int>)
    ensures r.None? <==> forall p :: p in payments ==> p.failedAt.None?
    ensures forall p :: p in payments && p.failedAt.Some? ==> r.Some? && r.value <= p.failedAt.value
    ensures r.Some? ==> exists p :: p in payments && p.failedAt == r
  {
    if payments == [] then None
    else
      var p, r := payments[0], FirstFailure(payments[1..]);
      assert payments == [p] + payments[1..];
      if p.failedAt.None? then r
      else if r.None? || p.failedAt.value < r.value then p.failedAt
      else r
  }

  function Finished(st: Order): Order {
    st.(amountDue := if st.amountDue == 0 then LargestAmount(st.payments) else st.amountDue,
        firstFailureAt := FirstFailure(st.payments))
  }

  function StateOf(obs: seq<Observation>): Order {
    Finished(Reduced(CanonicalOrder(obs)))
  }

  class OrderState {
    const orderId: string
    var payments: seq<PaymentState>
    var amountDue: nat
    var amountPaidReported: nat
    var orderPaidSeen: bool
    var settledInReport: bool
    var firstFailureAt: Option<int>

    ghost predicate Valid()
      reads this
    {
      forall i, j :: 0 <= i < j < |payments| ==> payments[i] != payments[j]
    }

    function Payments(): (r: seq<Payment>)
      reads this, payments
      ensures |r| == |payments|
      ensures forall i :: 0 <= i < |r| ==> r[i] == payments[i].View()
    {
      seq(|payments|, i requires 0 <= i < |payments| reads this, payments => payments[i].View())
    }

    function View(): Order
      reads this, payments
    {
      Order(Payments(), amountDue, amountPaidReported, orderPaidSeen, settledInReport, firstFailureAt)
    }

    constructor (orderId: string)
      ensures Valid() && payments == [] && View() == EMPTY_ORDER
    {
      this.orderId := orderId;
      payments, amountDue, amountPaidReported := [], 0, 0;
      orderPaidSeen, settledInReport, firstFailureAt := false, false, None;
    }

    /** `setdefault` on the payments followed by `_apply`. */
    method ObservePayment(o: Observation)
      requires Valid() && Truthy(o.paymentId)
      modifies `payments, payments
      ensures Valid()
      ensures Payments() == Touched(old(Payments()), o)
      ensures forall i :: 0 <= i < |payments| ==> payments[i] in old(payments) || fresh(payments[i])
    {
      ghost var before := Payments();
      var id := o.paymentId.value;
      var i := IndexOf(Payments(), id);
      if i == |payments| {
        var ps := new PaymentState(id);
        ps.Apply(o);
        payments := payments + [ps];
        assert Payments() == before + [Applied(NewPayment(id), o)];
      } else {
        payments[i].Apply(o);
        assert Payments() == before[i := Applied(before[i], o)];
      }
    }

    /** The body of the loop in `build_state`. */
    method Observe(o: Observation)
      requires Valid() && firstFailureAt.None?
      modifies this, payments
      ensures Valid() && firstFailureAt.None?
      ensures View() == Step(old(View()), o)
      ensures forall i :: 0 <= i < |payments| ==> payments[i] in old(payments) || fresh(payments[i])
    {
      ghost var before := Payments();
      amountDue := Max(amountDue, o.amountDue);
      amountPaidReported := Max(amountPaidReported, o.amountPaid);
      orderPaidSeen := orderPaidSeen || o.eventType == OrderPaid;
      settledInReport := settledInReport || o.eventType == SettlementProcessed;
      assert Payments() == before;
      if Truthy(o.paymentId) {
        ObservePayment(o);
      }
    }

    /** The part of `build_state` after the loop. */
    method Finish()
      modifies `amountDue, `firstFailureAt
      ensures View() == Finished(old(View()))
    {
      var folded := Payments();
      amountDue := if amountDue == 0 then LargestAmount(folded) else amountDue;
      firstFailureAt := FirstFailure(folded);
      assert Payments() == folded;
    }
  }

  /** `build_state` */
  method BuildState(obs: seq<Observation>, orderId: string) returns (st: OrderState)
    ensures fresh(st) && forall i :: 0 <= i < |st.payments| ==> fresh(st.payments[i])
    ensures st.View() == StateOf(obs)
  {
    st := new OrderState(orderId);
    var ordered := CanonicalOrder(obs);
    for i := 0 to |ordered|
      invariant st.Valid() && st.firstFailureAt.None?
      invariant fresh(st) && forall k :: 0 <= k < |st.payments| ==> fresh(st.payments[k])
      invariant st.View() == Reduced(ordered[..i])
    {
      assert ordered[..i + 1][..i] == ordered[..i];
      st.Observe(ordered[i]);
    }
    assert ordered[..|ordered|] == ordered;
    st.Finish();
  }

  // ------------------------------------------------------------- reading the state

  function WithStatus(payments: seq<Payment>, s: PaymentStatus): (r: seq<Payment>)
    ensures forall p :: p in r <==> p in payments && p.status == Some(s)
  {
    if payments == [] then []
    else
      var r := WithStatus(payments[1..], s);
      assert payments == [payments[0]] + payments[1..];
      if payments[0].status == Some(s) then [payments[0]] + r else r
  }

  function TotalAmount(payments: seq<Payment>): nat {
    if payments == [] then 0 else payments[0].amount + TotalAmount(payments[1..])
  }

  /** The `amount_paid` property: the reported figure, or the sum of the captures. */
  function AmountPaid(st: Order): nat {
    if st.amountPaidReported != 0 then st.amountPaidReported
    else TotalAmount(WithStatus(st.payments, Captured))
  }

  function OrZero(t: Option<int>): int { if t.Some? then t.value else 0 }

  /** `max(failed, key=failed_at or 0)`: the first of the greatest. */
  function LatestFailure(failed: seq<Payment>): (p: Payment)
    requires failed != []
    ensures p in failed
    ensures forall q :: q in failed ==> OrZero(q.failedAt) <= OrZero(p.failedAt)
  {
    if |failed| == 1 then failed[0]
    else
      var p := LatestFailure(failed[1..]);
      assert failed == [failed[0]] + failed[1..];
      if OrZero(p.failedAt) <= OrZero(failed[0].failedAt) then failed[0] else p
  }

  /** Of equally late failures the one that comes first is taken. */
  lemma {:induction false} LatestFailureIsFirst(failed: seq<Payment>) returns (i: nat)
    requires failed != []
    ensures i < |failed| && LatestFailure(failed) == failed[i]
    ensures forall j :: 0 <= j < |failed| ==> OrZero(failed[j].failedAt) <= OrZero(failed[i].failedAt)
    ensures forall j :: 0 <= j < i ==> OrZero(failed[j].failedAt) < OrZero(failed[i].failedAt)
  {
    i := 0;
    if |failed| > 1 {
      var k := LatestFailureIsFirst(failed[1..]);
      if OrZero(failed[0].failedAt) < OrZero(failed[1..][k].failedAt) {
        i := k + 1;
      }
    }
  }

  /** `min(p.authorized_at or now)` over the authorised payments. */
  function EarliestAuth(authorized: seq<Payment>, now: int): int
    requires authorized != []
  {
    var at := if OrZero(authorized[0].authorizedAt) != 0 then authorized[0].authorizedAt.value else now;
    if |authorized| == 1 then at
    else
      var rest := EarliestAuth(authorized[1..], now);
      if rest < at then rest else at
  }

  predicate DowntimeMatches(evidence: seq<Evidence>, rail: Option<string>) {
    exists e :: e in evidence && e.source == DowntimeSource && e.available && e.value.Fields? && e.value.active
                && (e.value.rail.None? || rail.None? || e.value.rail == rail)
  }

  /** Dead whatever the time: refunded, refused by the customer or the business, or stopped
      before any debit by an outage on its own rail. */
  predicate DeadForGood(p: Payment, evidence: seq<Evidence>) {
    || p.refundProcessed
    || (p.errorSource == Customer && TerminalCustomerReason(p.errorReason))
    || p.errorSource == Business
    || (PreDebitStep(p.errorStep) && DowntimeMatches(evidence, p.rail))
  }

  /** `is_flippable`: could this attempt still become captured or authorised? */
  predicate Flippable(p: Payment, now: int, cfg: FoldConfig, evidence: seq<Evidence>)
    requires cfg.Valid()
  {
    match p.status
    case None => true
    case Some(Captured) => false
    case Some(Refunded) => false
    case Some(Authorized) => true
    case Some(Created) => true
    case Some(Failed) =>
      if DeadForGood(p, evidence) then false
      else if p.failedAt.None? then true
      else now <= TatDeadline(p.failedAt.value, cfg.settleHorizonDays, cfg.holidays)
  }

  predicate AnyFlippable(st: Order, now: int, cfg: FoldConfig, evidence: seq<Evidence>)
    requires cfg.Valid()
  {
    exists p :: p in st.payments && Flippable(p, now, cfg, evidence)
  }

  // -------------------------------------------------------------------- the ladder

  datatype Rule =
    | R0_NoObservations | R1_SettlementReport | R2_SiblingCapturedFull | R3_OrderPaid | R4_MultipleCaptures
    | R5_UncapturedAuth | R6_RefundProcessed | R6b_CapturedThenRefunded | R7_RefundFailedStranded
    | R8_NoTerminalEvidence | R9_CustomerTerminal | R9b_BusinessRejection | R10_DowntimePreDebit
    | R10b_CustomerConfirmsDebit | R10c_CustomerReferenceMismatch | R11_PendingTat | R12_TatExpiredPostDebit
    | R12b_UnverifiedDebitClaim | R13_TatExpiredPreDebit | R14_CustomerUnclassifiedReason | R15_InsufficientEvidence

  /** What a rule concludes, before missing evidence is charged for. */
  datatype Ruling = Ruling(verdict: Verdict, confidence: nat, rules: seq<Rule>, recheckAt: Option<int>)

  /** `_degrade`: 0.12 for each unavailable probe, 0.30 at most, never below zero. */
  function Degrade(confidence: nat, evidence: seq<Evidence>): nat {
    var penalty := if 1_200 * Missing(evidence) < 3_000 then 1_200 * Missing(evidence) else 3_000;
    if confidence < penalty then 0 else confidence - penalty
  }

  /** The settlement probe reported the id of one of the order's payments. */
  predicate SettledByProbe(st: Order, evidence: seq<Evidence>) {
    exists e :: e in evidence && e.source == SettlementSource && e.available && e.value.Text?
                && e.value.text != "" && IndexOf(st.payments, e.value.text) < |st.payments|
  }

  /** `_claim_assessment`: the first usable claim decides. */
  function ClaimAssessment(evidence: seq<Evidence>, p: Payment): Option<ClaimMatch> {
    if evidence == [] then None
    else
      var e := evidence[0];
      if e.source == CustomerClaimSource && e.available && e.value.Fields? && e.value.claim.Some? then
        Some(AssessClaim(e.value.claim, p.rrn, p.upiTransactionId, e.value.rawText))
      else ClaimAssessment(evidence[1..], p)
  }

  /** R1 to R8: the rules that read the whole order; None falls through to the latest failure. */
  function JudgeOrder(st: Order, now: int, evidence: seq<Evidence>, cfg: FoldConfig): Option<Ruling>
    requires cfg.Valid()
  {
    var captured, authorized := WithStatus(st.payments, Captured), WithStatus(st.payments, Authorized);
    if st.settledInReport || SettledByProbe(st, evidence) then
      Some(Ruling(OrderSettled, 9_900, [R1_SettlementReport], None))
    else if captured != [] && st.amountDue != 0 && AmountPaid(st) >= st.amountDue then
      Some(Ruling(OrderSettled, 9_900, [R2_SiblingCapturedFull], None))
    else if st.orderPaidSeen then
      Some(Ruling(OrderSettled, 9_900, [R3_OrderPaid], None))
    else if |captured| > 1 then
      Some(Ruling(DuplicateRisk, 9_000, [R4_MultipleCaptures], None))
    else if authorized != [] && captured == [] then
      var deadline := TatDeadline(EarliestAuth(authorized, now), cfg.settleHorizonDays, cfg.holidays);
      Some(Ruling(UncapturedAuth, 9_300, [R5_UncapturedAuth], Some(deadline)))
    else if exists p :: p in st.payments && p.refundProcessed then
      if captured != [] then Some(Ruling(ConfirmedFailed, 9_300, [R6b_CapturedThenRefunded], None))
      else Some(Ruling(ConfirmedFailed, 9_500, [R6_RefundProcessed], None))
    else if exists p :: p in st.payments && p.refundFailed then
      Some(Ruling(Unresolved, 5_000, [R7_RefundFailedStranded], None))
    else if WithStatus(st.payments, Failed) == [] then
      Some(Ruling(Unresolved, 3_000, [R8_NoTerminalEvidence], None))
    else None
  }

  /** R9 to R15: the rules that read the latest failed payment. */
  function JudgeFailure(latest: Payment, now: int, evidence: seq<Evidence>, cfg: FoldConfig): Ruling
    requires cfg.Valid()
  {
    var claim := ClaimAssessment(evidence, latest);
    if latest.errorSource == Customer && TerminalCustomerReason(latest.errorReason) then
      Ruling(ConfirmedFailed, 9_500, [R9_CustomerTerminal], None)
    else if latest.errorSource == Business then
      Ruling(ConfirmedFailed, 9_500, [R9b_BusinessRejection], None)
    else if PreDebitStep(latest.errorStep) && DowntimeMatches(evidence, latest.rail) then
      Ruling(ConfirmedFailed, 9_200, [R10_DowntimePreDebit], None)
    else if claim == Some(Confirms) then
      Ruling(DuplicateRisk, 9_000, [R10b_CustomerConfirmsDebit], None)
    else
      var ruling := JudgeUnclaimed(latest, now, claim == Some(Unverified), cfg);
      if claim == Some(Contradicts) then ruling.(rules := [R10c_CustomerReferenceMismatch] + ruling.rules)
      else ruling
  }

  /** R11 to R15, once no claim has decided. */
  function JudgeUnclaimed(latest: Payment, now: int, unverifiedClaim: bool, cfg: FoldConfig): Ruling
    requires cfg.Valid()
  {
    if AmbiguousSource(latest.errorSource) && latest.failedAt.Some? then
      var deadline := TatDeadline(latest.failedAt.value, cfg.tatBankingDays, cfg.holidays);
      if now <= deadline then Ruling(PendingTat, 7_500, [R11_PendingTat], Some(deadline + 60))
      else if PostDebitStep(latest.errorStep) then
        if unverifiedClaim then
          Ruling(Unresolved, 3_500, [R12_TatExpiredPostDebit, R12b_UnverifiedDebitClaim], None)
        else Ruling(Unresolved, 4_500, [R12_TatExpiredPostDebit], None)
      else Ruling(ConfirmedFailed, 9_000, [R13_TatExpiredPreDebit], None)
    else if latest.errorSource == Customer then
      Ruling(ConfirmedFailed, 8_200, [R14_CustomerUnclassifiedReason], None)
    else Ruling(Unresolved, 4_000, [R15_InsufficientEvidence], None)
  }

  function Judge(st: Order, now: int, evidence: seq<Evidence>, cfg: FoldConfig): Ruling
    requires cfg.Valid()
  {
    var byOrder := JudgeOrder(st, now, evidence, cfg);
    if byOrder.Some? then byOrder.value
    else
      var failed := WithStatus(st.payments, Failed);
      JudgeFailure(LatestFailure(failed), now, evidence, cfg)
  }

  datatype VerdictResult = VerdictResult(
    orderId: string,
    verdict: Verdict,
    confidence: nat,
    proposedAction: Action,
    rulesFired: seq<Rule>,
    amountDue: nat,
    amountPaid: nat,
    recheckAt: Option<int>,
    anySiblingNonTerminal: bool)

  /** The source's local `result`: a ruling with the order's totals, the missing evidence charged for. */
  function ResultOf(st: Order, ruling: Ruling, now: int, orderId: string, evidence: seq<Evidence>,
                    cfg: FoldConfig): VerdictResult
    requires cfg.Valid()
  {
    VerdictResult(orderId, ruling.verdict, Degrade(ruling.confidence, evidence), ProposedAction(ruling.verdict),
                  ruling.rules, st.amountDue, AmountPaid(st), ruling.recheckAt, AnyFlippable(st, now, cfg, evidence))
  }

  const NOTHING_OBSERVED := Ruling(Unresolved, 0, [R0_NoObservations], None)

  /** The result of folding an order already reduced to its state. */
  function FoldState(st: Order, empty: bool, now: int, orderId: string, evidence: seq<Evidence>,
                     cfg: FoldConfig): VerdictResult
    requires cfg.Valid()
  {
    ResultOf(st, if empty then NOTHING_OBSERVED else Judge(st, now, evidence, cfg), now, orderId, evidence, cfg)
  }

  function OrderIdOf(obs: seq<Observation>, orderId: string): string {
    if orderId != "" then orderId else if obs != [] then obs[0].orderId else ""
  }

  /** The pure fold. An `orderId` of "" means none was passed. */
  function FoldOf(obs: seq<Observation>, now: int, orderId: string, evidence: seq<Evidence>,
                  cfg: FoldConfig): VerdictResult
    requires cfg.Valid()
  {
    FoldState(StateOf(obs), obs == [], now, OrderIdOf(obs, orderId), evidence, cfg)
  }

  /** The second half of the source's ladder, appending to the rules fired as it goes. */
  method FailureLadder(latest: Payment, now: int, evidence: seq<Evidence>, cfg: FoldConfig) returns (r: Ruling)
    requires cfg.Valid()
    ensures r == JudgeFailure(latest, now, evidence, cfg)
  {
    var fired: seq<Rule> := [];
    if latest.errorSource == Customer && TerminalCustomerReason(latest.errorReason) {
      fired := fired + [R9_CustomerTerminal];
      return Ruling(ConfirmedFailed, 9_500, fired, None);
    }
    if latest.errorSource == Business {
      fired := fired + [R9b_BusinessRejection];
      return Ruling(ConfirmedFailed, 9_500, fired, None);
    }
    if PreDebitStep(latest.errorStep) && DowntimeMatches(evidence, latest.rail) {
      fired := fired + [R10_DowntimePreDebit];
      return Ruling(ConfirmedFailed, 9_200, fired, None);
    }
    var claim := ClaimAssessment(evidence, latest);
    if claim == Some(Confirms) {
      fired := fired + [R10b_CustomerConfirmsDebit];
      return Ruling(DuplicateRisk, 9_000, fired, None);
    }
    if claim == Some(Contradicts) {
      fired := fired + [R10c_CustomerReferenceMismatch];
    }
    if AmbiguousSource(latest.errorSource) && latest.failedAt.Some? {
      var deadline := TatDeadline(latest.failedAt.value, cfg.tatBankingDays, cfg.holidays);
      if now <= deadline {
        fired := fired + [R11_PendingTat];
        return Ruling(PendingTat, 7_500, fired, Some(deadline + 60));
      }
      if PostDebitStep(latest.errorStep) {
        fired := fired + [R12_TatExpiredPostDebit];
        if claim == Some(Unverified) {
          fired := fired + [R12b_UnverifiedDebitClaim];
          return Ruling(Unresolved, 3_500, fired, None);
        }
        return Ruling(Unresolved, 4_500, fired, None);
      }
      fired := fired + [R13_TatExpiredPreDebit];
      return Ruling(ConfirmedFailed, 9_000, fired, None);
    }
    if latest.errorSource == Customer {
      fired := fired + [R14_CustomerUnclassifiedReason];
      return Ruling(ConfirmedFailed, 8_200, fired, None);
    }
    fired := fired + [R15_InsufficientEvidence];
    return Ruling(Unresolved, 4_000, fired, None);
  }

  /** The whole ladder. */
  method Ladder(st: Order, empty: bool, now: int, evidence: seq<Evidence>, cfg: FoldConfig) returns (r: Ruling)
    requires cfg.Valid()
    ensures r == if empty then NOTHING_OBSERVED else Judge(st, now, evidence, cfg)
  {
    if empty {
      return NOTHING_OBSERVED;
    }
    var byOrder := JudgeOrder(st, now, evidence, cfg);
    if byOrder.Some? {
      return byOrder.value;
    }
    r := FailureLadder(LatestFailure(WithStatus(st.payments, Failed)), now, evidence, cfg);
  }

  /** `fold`: build the state objects, then run the ladder on them. */
  method FoldLadder(obs: seq<Observation>, now: int, orderId: string, evidence: seq<Evidence>, cfg: FoldConfig)
    returns (r: VerdictResult)
    requires cfg.Valid()
    ensures r == FoldOf(obs, now, orderId, evidence, cfg)
  {
    var oid := OrderIdOf(obs, orderId);
    var state := BuildState(obs, oid);
    var st := state.View();
    var ruling := Ladder(st, obs == [], now, evidence, cfg);
    return ResultOf(st, ruling, now, oid, evidence, cfg);
  }

  // ---------------------------------------------------------------- the naive model

  /** `sorted(obs, key=received_at)`, stable. */
  function ByArrival(s: seq<Observation>): seq<Observation> {
    if s == [] then [] else InsertByArrival(s[0], ByArrival(s[1..]))
  }

  function InsertByArrival(o: Observation, s: seq<Observation>): seq<Observation> {
    if s == [] || o.receivedAt <= s[0].receivedAt then [o] + s
    else [s[0]] + InsertByArrival(o, s[1..])
  }

  function LastWritten(arrived: seq<Observation>): ReportedStatus {
    if arrived == [] then Reported(Created)
    else
      var o := arrived[|arrived| - 1];
      if IsPaymentEvent(o.eventType) && o.status != NoStatus then o.status
      else LastWritten(arrived[..|arrived| - 1])
  }

  /** `naive_lww`: the last status in arrival order wins. */
  function NaiveLastWrite(obs: seq<Observation>): ReportedStatus { LastWritten(ByArrival(obs)) }

  predicate IsPaymentEvent(t: EventType) {
    match t
    case PaymentFailed => true
    case PaymentAuthorized => true
    case PaymentCaptured => true
    case OtherEvent(name) => "payment." <= name
    case _ => false
  }
}
