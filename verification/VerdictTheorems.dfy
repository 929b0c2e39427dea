/** When each verdict is given, said without the order in which the rules are tried: five exact conditions, and
    the sixth verdict is what is left. */
module VerdictTheorems {
  import opened Common
  import opened Banking
  import opened Events
  import opened Verdicts
  import opened Claims
  import opened Fold
  import opened EvidenceTheorems

  // --------------------------------------------------------------------- what is said of

  predicate Has(st: Order, s: PaymentStatus) { exists p :: p in st.payments && p.status == Some(s) }

  /** Two attempts stand captured. */
  predicate TwoCaptured(st: Order) {
    exists i, j :: 0 <= i < j < |st.payments| && st.payments[i].status == st.payments[j].status == Some(Captured)
  }

  /** The sum of the attempts that stand captured. */
  function CapturedSum(payments: seq<Payment>): nat {
    if payments == [] then 0
    else (if payments[0].status == Some(Captured) then payments[0].amount else 0) + CapturedSum(payments[1..])
  }

  /** What has been paid: the order's own figure when it reports one, otherwise the captures. */
  function Paid(st: Order): nat {
    if st.amountPaidReported > 0 then st.amountPaidReported else CapturedSum(st.payments)
  }

  /** The money is there: reported settled, reported paid, or captured in full. */
  ghost predicate Settled(st: Order, evidence: seq<Evidence>) {
    || st.settledInReport || st.orderPaidSeen
    || (exists e, p :: e in evidence && p in st.payments && ReportsSettled(e, p.id))
    || (Has(st, Captured) && st.amountDue > 0 && Paid(st) >= st.amountDue)
  }

  /** An attempt is authorised and none captured. */
  predicate AwaitsCapture(st: Order) { Has(st, Authorized) && !Has(st, Captured) }

  /** Nothing of the order as a whole decides, so the latest failure does. */
  predicate FailureDecides(st: Order) {
    && Has(st, Failed) && !TwoCaptured(st) && !AwaitsCapture(st)
    && forall p :: p in st.payments ==> !p.refundProcessed && !p.refundFailed
  }

  /** The failure judged: of those at the latest time the first. */
  predicate Judged(st: Order, p: Payment) {
    exists i :: && 0 <= i < |st.payments| && st.payments[i] == p && p.status == Some(Failed)
                && (forall q :: q in st.payments && q.status == Some(Failed) ==>
                      OrZero(q.failedAt) <= OrZero(p.failedAt))
                && (forall j :: 0 <= j < i && st.payments[j].status == Some(Failed) ==>
                      OrZero(st.payments[j].failedAt) < OrZero(p.failedAt))
  }

  /** The failure is a fact: the customer gave up, the business refused, or an outage stopped it before any
      debit. */
  ghost predicate Fact(p: Payment, evidence: seq<Evidence>) {
    || (p.errorSource == Customer && !p.errorReason.OtherReason?)
    || p.errorSource == Business
    || ((p.errorStep == PaymentInitiation || p.errorStep == PaymentAuthentication)
        && exists e :: e in evidence && ReportsOutage(e) && OnRail(e, p.rail))
  }

  /** The customer's claim confirms the payment. */
  predicate Confirmed(p: Payment, evidence: seq<Evidence>) { ClaimAssessment(evidence, p) == Some(Confirms) }

  /** A failure on the way, at a known time: the bank may still reverse the debit. */
  predicate OnTheWay(p: Payment) {
    p.errorSource in {Network, Gateway, Bank, Issuer} && p.failedAt.Some?
  }

  // ---------------------------------------------------------------------- the two worlds

  lemma {:induction false} CapturedTotal(payments: seq<Payment>)
    ensures TotalAmount(WithStatus(payments, Captured)) == CapturedSum(payments)
    ensures |WithStatus(payments, Captured)| == CapturedCount(payments)
  {
    if payments != [] {
      CapturedTotal(payments[1..]);
      var r := WithStatus(payments[1..], Captured);
      assert ([payments[0]] + r)[1..] == r;
    }
  }

  function CapturedCount(payments: seq<Payment>): nat {
    if payments == [] then 0 else (if payments[0].status == Some(Captured) then 1 else 0) + CapturedCount(payments[1..])
  }

  lemma {:induction false} CountTwo(payments: seq<Payment>)
    ensures CapturedCount(payments) > 0 <==> exists i :: 0 <= i < |payments| && payments[i].status == Some(Captured)
    ensures CapturedCount(payments) > 1 <==>
            exists i, j :: 0 <= i < j < |payments| && payments[i].status == payments[j].status == Some(Captured)
  {
    if payments != [] {
      var rest := payments[1..];
      CountTwo(rest);
      assert forall i :: 0 <= i < |rest| ==> rest[i] == payments[i + 1];
      if i, j :| 0 <= i < j < |payments| && payments[i].status == payments[j].status == Some(Captured) {
        assert rest[j - 1].status == Some(Captured);
        if i > 0 {
          assert rest[i - 1].status == Some(Captured);
        }
      }
      if i :| 0 <= i < |payments| && payments[i].status == Some(Captured) {
        if i > 0 {
          assert rest[i - 1].status == Some(Captured);
        }
      }
    }
  }

  lemma HasIff(st: Order, s: PaymentStatus)
    ensures Has(st, s) <==> WithStatus(st.payments, s) != []
  {
    if WithStatus(st.payments, s) != [] {
      assert WithStatus(st.payments, s)[0] in WithStatus(st.payments, s);
    }
    if p :| p in st.payments && p.status == Some(s) {
      assert p in WithStatus(st.payments, s);
    }
  }

  lemma TwoIff(st: Order)
    ensures TwoCaptured(st) <==> |WithStatus(st.payments, Captured)| > 1
    ensures AmountPaid(st) == Paid(st)
  {
    CapturedTotal(st.payments);
    CountTwo(st.payments);
  }

  lemma SettledByProbeIff(st: Order, evidence: seq<Evidence>)
    ensures SettledByProbe(st, evidence) <==>
            exists e, p :: e in evidence && p in st.payments && ReportsSettled(e, p.id)
  {
    if e, p :| e in evidence && p in st.payments && ReportsSettled(e, p.id) {
      NamedIsThere(st, p);
    }
    if SettledByProbe(st, evidence) {
      var e :| e in evidence && e.source == SettlementSource && e.available && e.value.Text? && e.value.text != ""
               && IndexOf(st.payments, e.value.text) < |st.payments|;
      assert ReportsSettled(e, st.payments[IndexOf(st.payments, e.value.text)].id);
    }
  }

  /** What the order as a whole decides. */
  /** What the tests on the order come to. */
  lemma OrderTests(st: Order, evidence: seq<Evidence>)
    ensures SettledByProbe(st, evidence) <==>
            exists e, p :: e in evidence && p in st.payments && ReportsSettled(e, p.id)
    ensures TwoCaptured(st) <==> |WithStatus(st.payments, Captured)| > 1
    ensures AmountPaid(st) == Paid(st)
    ensures Has(st, Captured) <==> WithStatus(st.payments, Captured) != []
    ensures Has(st, Authorized) <==> WithStatus(st.payments, Authorized) != []
    ensures Has(st, Failed) <==> WithStatus(st.payments, Failed) != []
  {
    SettledByProbeIff(st, evidence);
    TwoIff(st);
    HasIff(st, Captured);
    HasIff(st, Authorized);
    HasIff(st, Failed);
  }

  lemma OrderDecided(st: Order, now: int, evidence: seq<Evidence>, cfg: FoldConfig)
    requires cfg.Valid()
    ensures var r := JudgeOrder(st, now, evidence, cfg);
            && (r.None? <==> !Settled(st, evidence) && FailureDecides(st))
            && (r.Some? ==>
                  && (r.value.verdict == OrderSettled <==> Settled(st, evidence))
                  && (r.value.verdict == DuplicateRisk <==> !Settled(st, evidence) && TwoCaptured(st))
                  && (r.value.verdict == UncapturedAuth <==> !Settled(st, evidence) && AwaitsCapture(st))
                  && (r.value.verdict == ConfirmedFailed <==>
                        && !Settled(st, evidence) && !TwoCaptured(st) && !AwaitsCapture(st)
                        && exists p :: p in st.payments && p.refundProcessed)
                  && r.value.verdict != PendingTat)
  {
    OrderTests(st, evidence);
  }

  lemma FailureJudged(p: Payment, now: int, evidence: seq<Evidence>, cfg: FoldConfig)
    requires cfg.Valid()
    ensures var v := JudgeFailure(p, now, evidence, cfg).verdict;
            && (v == DuplicateRisk <==> !Fact(p, evidence) && Confirmed(p, evidence))
            && (v == PendingTat <==>
                  && !Fact(p, evidence) && !Confirmed(p, evidence) && OnTheWay(p)
                  && now <= TatDeadline(p.failedAt.value, cfg.tatBankingDays, cfg.holidays))
            && (v == ConfirmedFailed <==>
                  || Fact(p, evidence)
                  || (!Confirmed(p, evidence) && p.errorSource == Customer)
                  || (!Confirmed(p, evidence) && OnTheWay(p) && p.errorStep != PaymentResponse
                      && p.errorStep != PaymentCapture
                      && now > TatDeadline(p.failedAt.value, cfg.tatBankingDays, cfg.holidays)))
            && v in {DuplicateRisk, PendingTat, ConfirmedFailed, Unresolved}
            && (R10c_CustomerReferenceMismatch in JudgeFailure(p, now, evidence, cfg).rules <==>
                  !Fact(p, evidence) && ClaimAssessment(evidence, p) == Some(Contradicts))
  {
  }

  lemma JudgedIsLatest(st: Order)
    requires Has(st, Failed)
    ensures Judged(st, LatestFailure(WithStatus(st.payments, Failed)))
  {
    HasIff(st, Failed);
    var i := LatestStandsFirst(st.payments);
  }

  lemma {:induction false} LatestStandsFirst(payments: seq<Payment>) returns (i: nat)
    requires WithStatus(payments, Failed) != []
    ensures i < |payments| && payments[i] == LatestFailure(WithStatus(payments, Failed))
    ensures forall j :: 0 <= j < i && payments[j].status == Some(Failed) ==>
              OrZero(payments[j].failedAt) < OrZero(payments[i].failedAt)
  {
    var rest := WithStatus(payments[1..], Failed);
    assert forall j :: 0 < j < |payments| ==> payments[j] == payments[1..][j - 1];
    if payments[0].status != Some(Failed) {
      i := LatestStandsFirst(payments[1..]);
      i := i + 1;
    } else if rest == [] {
      i := 0;
    } else {
      var k := LatestStandsFirst(payments[1..]);
      assert ([payments[0]] + rest)[1..] == rest;
      i := if OrZero(LatestFailure(rest).failedAt) <= OrZero(payments[0].failedAt) then 0 else k + 1;
    }
  }

  // ------------------------------------------------------------------------- theorems

  /** Exactly when each verdict is given, on every stream with events, evidence, time and configuration: settled
      when the money is there; UNCAPTURED_AUTH when only a capture is missing; DUPLICATE_RISK when two attempts
      stand captured, or the customer's reference is that of the failure judged; PENDING_TAT while the bank may
      reverse that failure; CONFIRMED_FAILED when a refund went through or that failure is beyond doubt; and
      UNRESOLVED otherwise. */
  lemma VerdictIff(obs: seq<Observation>, now: int, orderId: string, evidence: seq<Evidence>, cfg: FoldConfig,
                   p: Payment)
    requires cfg.Valid() && obs != []
    requires Has(StateOf(obs), Failed) ==> p == LatestFailure(WithStatus(StateOf(obs).payments, Failed))
    ensures var st, v := StateOf(obs), FoldOf(obs, now, orderId, evidence, cfg).verdict;
            var open := !Settled(st, evidence) && FailureDecides(st);
            && (Has(st, Failed) ==> Judged(st, p))
            && (v == OrderSettled <==> Settled(st, evidence))
            && (v == UncapturedAuth <==> !Settled(st, evidence) && AwaitsCapture(st))
            && (v == DuplicateRisk <==>
                  || (!Settled(st, evidence) && TwoCaptured(st))
                  || (open && !Fact(p, evidence) && Confirmed(p, evidence)))
            && (v == PendingTat <==>
                  && open && !Fact(p, evidence) && !Confirmed(p, evidence) && OnTheWay(p)
                  && now <= TatDeadline(p.failedAt.value, cfg.tatBankingDays, cfg.holidays))
            && (v == ConfirmedFailed <==>
                  || (!Settled(st, evidence) && !TwoCaptured(st) && !AwaitsCapture(st)
                      && exists q :: q in st.payments && q.refundProcessed)
                  || (open && Fact(p, evidence))
                  || (open && !Confirmed(p, evidence) && p.errorSource == Customer)
                  || (open && !Confirmed(p, evidence) && OnTheWay(p)
                      && p.errorStep != PaymentResponse && p.errorStep != PaymentCapture
                      && now > TatDeadline(p.failedAt.value, cfg.tatBankingDays, cfg.holidays)))
  {
    var st := StateOf(obs);
    if Has(st, Failed) {
      JudgedIsLatest(st);
    }
    OrderDecided(st, now, evidence, cfg);
    FailureJudged(p, now, evidence, cfg);
  }

  /** The money was reported settled. */
  ghost predicate SettledByReport(st: Order, evidence: seq<Evidence>) {
    st.settledInReport || exists e, p :: e in evidence && p in st.payments && ReportsSettled(e, p.id)
  }

  /** A capture covers what is due. */
  predicate CapturedInFull(st: Order) { Has(st, Captured) && st.amountDue > 0 && Paid(st) >= st.amountDue }

  /** Neither settled nor a question of captures. */
  ghost predicate PastCaptures(st: Order, evidence: seq<Evidence>) {
    !Settled(st, evidence) && !TwoCaptured(st) && !AwaitsCapture(st)
  }

  predicate RefundWentThrough(st: Order) { exists p :: p in st.payments && p.refundProcessed }

  predicate Stranded(st: Order) { exists p :: p in st.payments && p.refundFailed }

  /** Which rule decides on the order as a whole: exactly when each does. */
  lemma OrderRuleIff(st: Order, now: int, evidence: seq<Evidence>, cfg: FoldConfig)
    requires cfg.Valid()
    ensures var r := JudgeOrder(st, now, evidence, cfg);
            var rules := if r.Some? then r.value.rules else [];
            && (rules == [R1_SettlementReport] <==> SettledByReport(st, evidence))
            && (rules == [R2_SiblingCapturedFull] <==> !SettledByReport(st, evidence) && CapturedInFull(st))
            && (rules == [R3_OrderPaid] <==>
                  !SettledByReport(st, evidence) && !CapturedInFull(st) && st.orderPaidSeen)
            && (rules == [R4_MultipleCaptures] <==> !Settled(st, evidence) && TwoCaptured(st))
            && (rules == [R5_UncapturedAuth] <==> !Settled(st, evidence) && AwaitsCapture(st))
            && (rules == [R6b_CapturedThenRefunded] <==>
                  PastCaptures(st, evidence) && RefundWentThrough(st) && Has(st, Captured))
            && (rules == [R6_RefundProcessed] <==>
                  PastCaptures(st, evidence) && RefundWentThrough(st) && !Has(st, Captured))
            && (rules == [R7_RefundFailedStranded] <==>
                  PastCaptures(st, evidence) && !RefundWentThrough(st) && Stranded(st))
            && (rules == [R8_NoTerminalEvidence] <==>
                  PastCaptures(st, evidence) && !RefundWentThrough(st) && !Stranded(st) && !Has(st, Failed))
  {
    OrderTests(st, evidence);
  }

  /** And on the failure judged. */
  lemma FailureRuleIff(p: Payment, now: int, evidence: seq<Evidence>, cfg: FoldConfig)
    requires cfg.Valid()
    ensures var rules := JudgeFailure(p, now, evidence, cfg).rules;
            var byCustomer := p.errorSource == Customer && !p.errorReason.OtherReason?;
            var free := !Fact(p, evidence) && !Confirmed(p, evidence);
            var late := OnTheWay(p) && now > TatDeadline(p.failedAt.value, cfg.tatBankingDays, cfg.holidays);
            var postDebit := p.errorStep == PaymentResponse || p.errorStep == PaymentCapture;
            && (rules == [R9_CustomerTerminal] <==> byCustomer)
            && (rules == [R9b_BusinessRejection] <==> p.errorSource == Business)
            && (rules == [R10_DowntimePreDebit] <==> Fact(p, evidence) && !byCustomer && p.errorSource != Business)
            && (rules == [R10b_CustomerConfirmsDebit] <==> !Fact(p, evidence) && Confirmed(p, evidence))
            && (R11_PendingTat in rules <==> free && OnTheWay(p) && !late)
            && (R12_TatExpiredPostDebit in rules <==> free && late && postDebit)
            && (R12b_UnverifiedDebitClaim in rules <==>
                  free && late && postDebit && ClaimAssessment(evidence, p) == Some(Unverified))
            && (R13_TatExpiredPreDebit in rules <==> free && late && !postDebit)
            && (R14_CustomerUnclassifiedReason in rules <==> free && p.errorSource == Customer)
            && (R15_InsufficientEvidence in rules <==> free && !OnTheWay(p) && p.errorSource != Customer)
  {
  }

  /** What each verdict proposes, and what the result says of the order besides. */
  lemma ResultSays(obs: seq<Observation>, now: int, orderId: string, evidence: seq<Evidence>, cfg: FoldConfig)
    requires cfg.Valid()
    ensures var r, st := FoldOf(obs, now, orderId, evidence, cfg), StateOf(obs);
            && (r.proposedAction == SendRecoveryLink <==> r.verdict == ConfirmedFailed)
            && (r.proposedAction == Capture <==> r.verdict == UncapturedAuth)
            && (r.proposedAction == Hold <==> r.verdict == DuplicateRisk)
            && (r.proposedAction == Escalate <==> r.verdict == Unresolved)
            && (r.proposedAction == Noop <==> r.verdict == OrderSettled || r.verdict == PendingTat)
            && r.amountDue == st.amountDue && r.amountPaid == Paid(st)
            && (r.anySiblingNonTerminal <==> exists p :: p in st.payments && Flippable(p, now, cfg, evidence))
            && r.orderId == (if orderId != "" then orderId else if obs != [] then obs[0].orderId else "")
  {
    TwoIff(StateOf(obs));
  }

  /** The verdict each deciding rule stands for. */
  function VerdictOf(rule: Rule): Verdict {
    if rule in {R1_SettlementReport, R2_SiblingCapturedFull, R3_OrderPaid} then OrderSettled
    else if rule in {R4_MultipleCaptures, R10b_CustomerConfirmsDebit} then DuplicateRisk
    else if rule == R5_UncapturedAuth then UncapturedAuth
    else if rule == R11_PendingTat then PendingTat
    else if rule in {R6_RefundProcessed, R6b_CapturedThenRefunded, R9_CustomerTerminal, R9b_BusinessRejection,
                     R10_DowntimePreDebit, R13_TatExpiredPreDebit, R14_CustomerUnclassifiedReason} then ConfirmedFailed
    else Unresolved
  }

  /** And how sure it is. */
  function ConfidenceOf(rule: Rule): nat {
    if rule in {R1_SettlementReport, R2_SiblingCapturedFull, R3_OrderPaid} then 9_900
    else if rule in {R6_RefundProcessed, R9_CustomerTerminal, R9b_BusinessRejection} then 9_500
    else if rule in {R5_UncapturedAuth, R6b_CapturedThenRefunded} then 9_300
    else if rule == R10_DowntimePreDebit then 9_200
    else if rule in {R4_MultipleCaptures, R10b_CustomerConfirmsDebit, R13_TatExpiredPreDebit} then 9_000
    else if rule == R14_CustomerUnclassifiedReason then 8_200
    else if rule == R11_PendingTat then 7_500
    else if rule == R7_RefundFailedStranded then 5_000
    else if rule == R12_TatExpiredPostDebit then 4_500
    else if rule == R15_InsufficientEvidence then 4_000
    else if rule == R12b_UnverifiedDebitClaim then 3_500
    else if rule == R8_NoTerminalEvidence then 3_000
    else 0
  }

  /** The last rule fired is the one that decided: the verdict is its verdict, the confidence is its confidence
      less this penalty, and only a mismatched reference or the expired window stands before it. */
  ghost predicate DecidedByLast(rules: seq<Rule>, verdict: Verdict, confidence: nat, penalty: nat) {
    && rules != []
    && var last := rules[|rules| - 1];
       && last != R10c_CustomerReferenceMismatch && verdict == VerdictOf(last)
       && confidence == (if ConfidenceOf(last) < penalty then 0 else ConfidenceOf(last) - penalty)
       && forall x :: x in rules ==> x == last || x == R10c_CustomerReferenceMismatch || x == R12_TatExpiredPostDebit
  }

  /** So it is on every stream, the penalty being that of the unanswered probes. */
  lemma LastRuleDecides(obs: seq<Observation>, now: int, orderId: string, evidence: seq<Evidence>, cfg: FoldConfig)
    requires cfg.Valid()
    ensures var r := FoldOf(obs, now, orderId, evidence, cfg);
            DecidedByLast(r.rulesFired, r.verdict, r.confidence, Penalty(|evidence| - |Answered(evidence)|))
  {
    RulingInTable(StateOf(obs), now, evidence, cfg);
    var ruling := if obs == [] then NOTHING_OBSERVED else Judge(StateOf(obs), now, evidence, cfg);
    ResultInTable(ruling, evidence);
  }

  lemma ResultInTable(r: Ruling, evidence: seq<Evidence>)
    requires InTable(r)
    ensures DecidedByLast(r.rules, r.verdict, Degrade(r.confidence, evidence),
                          Penalty(|evidence| - |Answered(evidence)|))
  {
  }

  ghost predicate InTable(r: Ruling) { DecidedByLast(r.rules, r.verdict, r.confidence, 0) }

  lemma OneRule(r: Ruling, rule: Rule)
    requires r.rules == [rule] && rule != R10c_CustomerReferenceMismatch
    requires r.verdict == VerdictOf(rule) && r.confidence == ConfidenceOf(rule)
    ensures InTable(r)
  {
  }

  lemma RulingInTable(st: Order, now: int, evidence: seq<Evidence>, cfg: FoldConfig)
    requires cfg.Valid()
    ensures InTable(Judge(st, now, evidence, cfg))
  {
    var byOrder := JudgeOrder(st, now, evidence, cfg);
    if byOrder.None? {
      FailureInTable(LatestFailure(WithStatus(st.payments, Failed)), now, evidence, cfg);
    } else {
      OneRule(byOrder.value, byOrder.value.rules[0]);
    }
  }

  lemma MismatchInTable(r: Ruling)
    requires InTable(r)
    ensures InTable(r.(rules := [R10c_CustomerReferenceMismatch] + r.rules))
  {
    var rules := [R10c_CustomerReferenceMismatch] + r.rules;
    assert rules[|rules| - 1] == r.rules[|r.rules| - 1];
  }

  lemma FailureInTable(p: Payment, now: int, evidence: seq<Evidence>, cfg: FoldConfig)
    requires cfg.Valid()
    ensures InTable(JudgeFailure(p, now, evidence, cfg))
  {
    var r := JudgeUnclaimed(p, now, ClaimAssessment(evidence, p) == Some(Unverified), cfg);
    UnclaimedInTable(p, now, ClaimAssessment(evidence, p) == Some(Unverified), cfg);
    FailureCases(p, now, evidence, cfg, r);
    CaseInTable(JudgeFailure(p, now, evidence, cfg), r);
  }

  lemma CaseInTable(r: Ruling, unclaimed: Ruling)
    requires InTable(unclaimed)
    requires || r == unclaimed || r == unclaimed.(rules := [R10c_CustomerReferenceMismatch] + unclaimed.rules)
             || r == Ruling(ConfirmedFailed, 9_500, [R9_CustomerTerminal], None)
             || r == Ruling(ConfirmedFailed, 9_500, [R9b_BusinessRejection], None)
             || r == Ruling(ConfirmedFailed, 9_200, [R10_DowntimePreDebit], None)
             || r == Ruling(DuplicateRisk, 9_000, [R10b_CustomerConfirmsDebit], None)
    ensures InTable(r)
  {
    MismatchInTable(unclaimed);
  }

  lemma FailureCases(p: Payment, now: int, evidence: seq<Evidence>, cfg: FoldConfig, unclaimed: Ruling)
    requires cfg.Valid()
    requires unclaimed == JudgeUnclaimed(p, now, ClaimAssessment(evidence, p) == Some(Unverified), cfg)
    ensures var r := JudgeFailure(p, now, evidence, cfg);
            || r == unclaimed || r == unclaimed.(rules := [R10c_CustomerReferenceMismatch] + unclaimed.rules)
            || r == Ruling(ConfirmedFailed, 9_500, [R9_CustomerTerminal], None)
            || r == Ruling(ConfirmedFailed, 9_500, [R9b_BusinessRejection], None)
            || r == Ruling(ConfirmedFailed, 9_200, [R10_DowntimePreDebit], None)
            || r == Ruling(DuplicateRisk, 9_000, [R10b_CustomerConfirmsDebit], None)
  {
  }

  lemma UnclaimedInTable(p: Payment, now: int, unverified: bool, cfg: FoldConfig)
    requires cfg.Valid()
    ensures InTable(JudgeUnclaimed(p, now, unverified, cfg))
  {
  }

  /** An attempt can still move exactly when its fate is open and, for a failure at a known time, the settlement
      horizon has not passed. */
  lemma FlippableIff(p: Payment, now: int, cfg: FoldConfig, evidence: seq<Evidence>)
    requires cfg.Valid()
    ensures Flippable(p, now, cfg, evidence) <==>
            && p.status != Some(Captured) && p.status != Some(Refunded)
            && (p.status == Some(Failed) ==>
                  && !p.refundProcessed && !Fact(p, evidence)
                  && (p.failedAt.Some? ==> now <= TatDeadline(p.failedAt.value, cfg.settleHorizonDays, cfg.holidays)))
  {
  }

  /** An authorised order is looked at again by the deadline of its earliest authorisation; one without a time
      counts as authorised now. */
  lemma AuthorizedRecheck(obs: seq<Observation>, now: int, orderId: string, evidence: seq<Evidence>, cfg: FoldConfig)
    requires cfg.Valid() && FoldOf(obs, now, orderId, evidence, cfg).verdict == UncapturedAuth
    ensures var recheck := FoldOf(obs, now, orderId, evidence, cfg).recheckAt;
            recheck.Some? && LeastDeadline(StateOf(obs), now, recheck.value, cfg)
  {
    AuthorizedRechecked(StateOf(obs), now, evidence, cfg);
  }

  /** No authorised payment's deadline is earlier, and this is one. */
  ghost predicate LeastDeadline(st: Order, now: int, recheck: int, cfg: FoldConfig)
    requires cfg.Valid()
  {
    && (forall p :: p in st.payments && p.status == Some(Authorized) ==> recheck <= HorizonOf(p, now, cfg))
    && exists p :: p in st.payments && p.status == Some(Authorized) && recheck == HorizonOf(p, now, cfg)
  }

  function HorizonOf(p: Payment, now: int, cfg: FoldConfig): int
    requires cfg.Valid()
  {
    TatDeadline(AuthorizedSince(p, now), cfg.settleHorizonDays, cfg.holidays)
  }

  lemma AuthorizedRechecked(st: Order, now: int, evidence: seq<Evidence>, cfg: FoldConfig)
    requires cfg.Valid() && Judge(st, now, evidence, cfg).verdict == UncapturedAuth
    ensures var recheck := Judge(st, now, evidence, cfg).recheckAt;
            recheck.Some? && LeastDeadline(st, now, recheck.value, cfg)
  {
    var authorized := WithStatus(st.payments, Authorized);
    AuthorizedRuling(st, now, evidence, cfg);
    EarliestIsLeast(authorized, now);
    forall p | p in authorized
      ensures TatDeadline(EarliestAuth(authorized, now), cfg.settleHorizonDays, cfg.holidays) <= HorizonOf(p, now, cfg)
    {
      DeadlineMonotone(EarliestAuth(authorized, now), AuthorizedSince(p, now), cfg.settleHorizonDays,
                       cfg.settleHorizonDays, cfg.holidays);
    }
  }

  lemma AuthorizedRuling(st: Order, now: int, evidence: seq<Evidence>, cfg: FoldConfig)
    requires cfg.Valid() && Judge(st, now, evidence, cfg).verdict == UncapturedAuth
    ensures var authorized := WithStatus(st.payments, Authorized);
            && authorized != []
            && Judge(st, now, evidence, cfg).recheckAt
               == Some(TatDeadline(EarliestAuth(authorized, now), cfg.settleHorizonDays, cfg.holidays))
  {
    if JudgeOrder(st, now, evidence, cfg).None? {
      FailureJudged(LatestFailure(WithStatus(st.payments, Failed)), now, evidence, cfg);
    }
  }

  function AuthorizedSince(p: Payment, now: int): int {
    if p.authorizedAt.Some? && p.authorizedAt.value != 0 then p.authorizedAt.value else now
  }

  lemma {:induction false} EarliestIsLeast(authorized: seq<Payment>, now: int)
    requires authorized != []
    ensures forall p :: p in authorized ==> EarliestAuth(authorized, now) <= AuthorizedSince(p, now)
    ensures exists p :: p in authorized && EarliestAuth(authorized, now) == AuthorizedSince(p, now)
  {
    assert authorized[0] in authorized && authorized == [authorized[0]] + authorized[1..];
    if |authorized| > 1 {
      EarliestIsLeast(authorized[1..], now);
    }
  }
}
